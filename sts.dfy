/** The STS client of lib/services/sts.js: the `GetSessionToken` request
    made through the query connection of lib/aws.js, and the `Session`
    object that holds temporary credentials and refreshes them one minute
    before they expire. */
module Sts {
  import opened Base
  import opened Externals
  import Aws

  /** `new STS(key, secret)`: a query connection to sts.amazonaws.com, API
      version 2011-06-15. */
  method NewSts(key: string, secret: string) returns (c: Aws.Connection)
    ensures fresh(c)
    ensures c.Current() == Aws.Settings(key, secret, "sts.amazonaws.com", "2011-06-15", true, "/")
  {
    c := new Aws.Connection(key, secret, "sts.amazonaws.com", "2011-06-15");
  }

  /** The `credentials` element of a `GetSessionToken` answer. */
  datatype Credentials = Credentials(expiration: Val, accessKeyId: Val, secretAccessKey: Val, sessionToken: Val)

  /** The `getSessionTokenResponse` member of a parsed answer, down to the
      credentials. */
  datatype TokenResponse = TokenResponse(getSessionTokenResult: TokenResult)
  datatype TokenResult = TokenResult(credentials: Credentials)

  /** The credentials sub-object of an answer. */
  function TokenOf(response: TokenResponse): Credentials {
    response.getSessionTokenResult.credentials
  }

  /** The parameters of `getSessionToken(duration)`. */
  function TokenParams(duration: Val): Dict<Val> {
    [("DurationSeconds", duration)]
  }

  /** The callback `getSessionToken` hands to `makeRequest`. It reads
      `getSessionTokenResponse.getSessionTokenResult.credentials` off what
      it is given, then that object's `expiration`. `read` views the
      document parsed from a reply's text as such an answer, `None` when
      one of those members is missing. Reading them off the raw text, or
      off a document without them, throws (`None`). */
  function TokenCallback(read: string -> Option<TokenResponse>): Aws.Payload -> Option<Credentials> {
    (payload: Aws.Payload) =>
      if payload.Document? && read(payload.text).Some? then Some(TokenOf(read(payload.text).value)) else None
  }

  /** `getSessionToken(duration)`: a GET `GetSessionToken` request through
      the connection's `makeRequest`, with `DurationSeconds` as its only
      parameter of its own. */
  method GetSessionToken(c: Aws.Connection, duration: Val, now: nat -> string, respond: nat -> Aws.Response,
                         parse: string -> Aws.ParseResult, read: string -> Option<TokenResponse>, p: Primitives)
    returns (outcome: Aws.Outcome<Credentials>, sent: seq<Aws.SentRequest>)
    ensures outcome == Aws.Settled(c.autoParseResponse, TokenCallback(read), 0, respond, parse)
    ensures |sent| == Aws.AttemptCount(0, respond)
    ensures Aws.AttemptChain(Aws.Attempt(c.Current(), Str("GetSessionToken"), "GET", [], p), TokenParams(duration), 0, now, sent)
  {
    outcome, sent := c.MakeRequest(TokenCallback(read), Str("GetSessionToken"), TokenParams(duration), "GET", [], 0, now, respond, parse, p);
  }

  /** The token promise resolves exactly when the last reply was parsed,
      holds no `errorResponse` message and has the credentials, and then
      with those credentials; it is rejected exactly as any request is;
      with automatic parsing off it never resolves, since the callback
      then gets the raw text. */
  lemma TokenSettles(autoParse: bool, respond: nat -> Aws.Response, parse: string -> Aws.ParseResult,
                     read: string -> Option<TokenResponse>)
    ensures var last := respond(Aws.AttemptCount(0, respond) - 1);
      var o := Aws.Settled(autoParse, TokenCallback(read), 0, respond, parse);
      && (o.Resolved? <==> last.Reply? && autoParse && parse(last.body).Parsed? &&
                           !parse(last.body).errorResponse.ErrorMessage? && read(last.body).Some?)
      && (o.Resolved? ==> o.value == TokenOf(read(last.body).value))
      && (o.Rejected? <==> last.NetworkError? || (autoParse && parse(last.body).Parsed? && parse(last.body).errorResponse.ErrorMessage?))
      && (!autoParse ==> !o.Resolved?)
  {
    Aws.SettledRejects(autoParse, TokenCallback(read), 0, respond, parse);
  }

  /** Milliseconds between refreshes for a session of `duration` seconds. */
  function RefreshTime(duration: int): int {
    (duration - 60) * 1000
  }

  /** The refresh interval is the session's duration less one minute, in
      milliseconds, and it is positive exactly for sessions longer than a
      minute. */
  lemma RefreshBeforeExpiry(duration: int)
    ensures RefreshTime(duration) + 60000 == duration * 1000
    ensures RefreshTime(duration) > 0 <==> duration > 60
  {
  }

  /** A session of lib/services/sts.js. The credential fields start out
      undefined; `refreshInterval` holds the handle of the refresh timer. */
  class Session {
    const connection: Aws.Connection
    const duration: int
    const refreshTime: int
    var refreshInterval: Option<nat>
    var expiration: Val
    var accessKeyId: Val
    var secretAccessKey: Val
    var sessionToken: Val

    /** `new Session(connection, duration)`. */
    constructor (connection: Aws.Connection, duration: int)
      ensures this.connection == connection && this.duration == duration
      ensures refreshTime == RefreshTime(duration)
      ensures refreshInterval.None?
      ensures expiration == Undef && accessKeyId == Undef && secretAccessKey == Undef && sessionToken == Undef
    {
      this.connection := connection;
      this.duration := duration;
      refreshTime := (duration - 60) * 1000;
      refreshInterval := None;
      expiration, accessKeyId, secretAccessKey, sessionToken := Undef, Undef, Undef, Undef;
    }

    /** The session's credentials as a value. */
    function Current(): Credentials
      reads this
    {
      Credentials(expiration, accessKeyId, secretAccessKey, sessionToken)
    }

    /** `fromCredentials(creds)`: the four credential fields are
        overwritten and nothing else changes. */
    method FromCredentials(creds: Credentials)
      modifies this
      ensures Current() == creds
      ensures refreshInterval == old(refreshInterval)
    {
      expiration := creds.expiration;
      accessKeyId := creds.accessKeyId;
      secretAccessKey := creds.secretAccessKey;
      sessionToken := creds.sessionToken;
    }

    /** `addRefresher()`: the previous timer is cleared and a new one,
        `timer`, takes its place. */
    method AddRefresher(timer: nat)
      modifies this
      ensures refreshInterval == Some(timer)
      ensures Current() == old(Current())
    {
      refreshInterval := Some(timer);
    }

    /** `refresh()`: asks the connection for a token of the session's
        duration and, once it resolves, takes its credentials; a rejected
        or pending token leaves the session as it was. */
    method Refresh(now: nat -> string, respond: nat -> Aws.Response, parse: string -> Aws.ParseResult,
                   read: string -> Option<TokenResponse>, p: Primitives)
      returns (outcome: Aws.Outcome<Credentials>, sent: seq<Aws.SentRequest>)
      modifies this
      ensures outcome == Aws.Settled(connection.autoParseResponse, TokenCallback(read), 0, respond, parse)
      ensures Aws.AttemptChain(Aws.Attempt(connection.Current(), Str("GetSessionToken"), "GET", [], p), TokenParams(Num(duration)), 0, now, sent)
      ensures Current() == if outcome.Resolved? then outcome.value else old(Current())
      ensures refreshInterval == old(refreshInterval)
    {
      outcome, sent := GetSessionToken(connection, Num(duration), now, respond, parse, read, p);
      if outcome.Resolved? {
        FromCredentials(outcome.value);
      }
    }
  }

  /** `sts.Session(duration)`: a new session and the token request made
      for it; once the token resolves, the session takes its credentials
      and, on `ready`, starts the refresh timer `timer`. */
  method StartSession(connection: Aws.Connection, duration: int, timer: nat, now: nat -> string, respond: nat -> Aws.Response,
                      parse: string -> Aws.ParseResult, read: string -> Option<TokenResponse>, p: Primitives)
    returns (session: Session, outcome: Aws.Outcome<Credentials>, sent: seq<Aws.SentRequest>)
    ensures fresh(session) && session.connection == connection && session.duration == duration
    ensures outcome == Aws.Settled(connection.autoParseResponse, TokenCallback(read), 0, respond, parse)
    ensures Aws.AttemptChain(Aws.Attempt(connection.Current(), Str("GetSessionToken"), "GET", [], p), TokenParams(Num(duration)), 0, now, sent)
    ensures session.Current() == if outcome.Resolved? then outcome.value else Credentials(Undef, Undef, Undef, Undef)
    ensures session.refreshInterval == if outcome.Resolved? then Some(timer) else None
    ensures session.refreshTime + 60000 == duration * 1000
  {
    session := new Session(connection, duration);
    outcome, sent := GetSessionToken(connection, Num(duration), now, respond, parse, read, p);
    if outcome.Resolved? {
      session.FromCredentials(outcome.value);
      session.AddRefresher(timer);
    }
    RefreshBeforeExpiry(duration);
  }
}
