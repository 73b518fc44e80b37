/**
 * The interceptors of the shared HTTP client in src/api/index.ts. The user store, the
 * router and the message box are replaced by an explicit `Session` whose fields record
 * their effects: the stored token, the last navigation target and the error messages shown.
 */
module Http {
  import opened Wrappers

  /**
   * Values from modules outside this model: `ResultEnum.SUCCESS`, `ResultEnum.OVERDUE`
   * and `LOGIN_URL`. Codes are integers, so the loose `==` and strict `!==` of the
   * source compare them alike.
   */
  datatype Settings = Settings(success: int, overdue: int, loginUrl: string)

  /** The server envelope `res.data`; a file download has neither `code` nor `msg`. */
  datatype Envelope<T> = Envelope(code: Option<int>, msg: Option<string>, data: T)

  /** A transport response; only its body `data` is consulted, the rest is left out. */
  datatype Response<T> = Response(data: Envelope<T>)

  /** How an interceptor call settles: with a value, or rejected with a reason. */
  datatype Settled<T, E> = Resolve(value: T) | Reject(reason: E)

  datatype SessionState = SessionState(token: string, route: string, shown: seq<Option<string>>)

  /** The three ways a response is handled, tested in this order. */
  datatype Branch = SessionOverdue | ApplicationError | Delivered

  /** `code == OVERDUE` first, then `code && code !== SUCCESS` (0 and absent are falsy). */
  function Classify(s: Settings, code: Option<int>): Branch {
    if code == Some(s.overdue) then SessionOverdue
    else if code.Some? && code.value != 0 && code.value != s.success then ApplicationError
    else Delivered
  }

  /**
   * Which codes take which branch: overdue exactly on `OVERDUE` (whatever else it
   * equals), an error on every other present non-zero code except `SUCCESS`, and
   * delivery for an absent code, zero or `SUCCESS`.
   */
  lemma ClassifyCases(s: Settings, code: Option<int>)
    ensures Classify(s, code) == SessionOverdue <==> code == Some(s.overdue)
    ensures Classify(s, code) == ApplicationError <==>
              code.Some? && code.value !in {0, s.success, s.overdue}
    ensures Classify(s, code) == Delivered <==>
              code == None || (code.value in {0, s.success} && code.value != s.overdue)
  {
  }

  /** The headers after the request interceptor: `Authorization` set only for a non-empty token. */
  function WithToken(headers: map<string, string>, token: string): (h: map<string, string>)
    ensures token != "" ==> "Authorization" in h && h["Authorization"] == token
    ensures token == "" ==> h == headers
    ensures forall k :: k != "Authorization" ==> (k in h <==> k in headers)
    ensures forall k :: k != "Authorization" && k in h ==> h[k] == headers[k]
  {
    if token != "" then headers["Authorization" := token] else headers
  }

  /** One response-interceptor step: the new session state and how the call settles. */
  function Respond<T>(s: Settings, st: SessionState, res: Response<T>)
    : (SessionState, Settled<Envelope<T>, Envelope<T>>)
  {
    var body := res.data;
    match Classify(s, body.code)
    case SessionOverdue =>
      (SessionState("", s.loginUrl, st.shown + [body.msg]), Reject(body))
    case ApplicationError =>
      (st.(shown := st.shown + [body.msg]), Reject(body))
    case Delivered =>
      (st, Resolve(body))
  }

  /** Session expiry: token cleared, login page, one message, rejected with the envelope. */
  lemma RespondOverdue<T>(s: Settings, st: SessionState, res: Response<T>)
    requires res.data.code == Some(s.overdue)
    ensures Respond(s, st, res).0 == SessionState("", s.loginUrl, st.shown + [res.data.msg])
    ensures Respond(s, st, res).1 == Reject(res.data)
  {
  }

  /** Any other present non-zero code except success: one message, rejected, session kept. */
  lemma RespondApplicationError<T>(s: Settings, st: SessionState, res: Response<T>)
    requires res.data.code.Some?
    requires res.data.code.value !in {0, s.success, s.overdue}
    ensures Respond(s, st, res).0.token == st.token
    ensures Respond(s, st, res).0.route == st.route
    ensures Respond(s, st, res).0.shown == st.shown + [res.data.msg]
    ensures Respond(s, st, res).1 == Reject(res.data)
  {
  }

  /** Success, zero or no code: resolved with the whole envelope, nothing else happens. */
  lemma RespondDelivered<T>(s: Settings, st: SessionState, res: Response<T>)
    requires res.data.code in {None, Some(0), Some(s.success)}
    requires res.data.code != Some(s.overdue)
    ensures Respond(s, st, res) == (st, Resolve(res.data))
  {
  }

  /** The token is only ever cleared: no response writes a non-empty token. */
  lemma RespondTokenOnlyCleared<T>(s: Settings, st: SessionState, res: Response<T>)
    ensures Respond(s, st, res).0.token == st.token || Respond(s, st, res).0.token == ""
    ensures Respond(s, st, res).0.token != st.token ==> Classify(s, res.data.code) == SessionOverdue
  {
  }

  /** After an overdue response the next request carries no `Authorization` header. */
  lemma OverdueDropsCredential<T>(s: Settings, st: SessionState, res: Response<T>,
                                  headers: map<string, string>)
    requires Classify(s, res.data.code) == SessionOverdue
    ensures WithToken(headers, Respond(s, st, res).0.token) == headers
  {
  }

  /** The session after the interceptor has handled `responses` one after another. */
  function Replay<T>(s: Settings, st: SessionState, responses: seq<Response<T>>): SessionState
    decreases |responses|
  {
    if responses == [] then st
    else Replay(s, Respond(s, st, responses[0]).0, responses[1..])
  }

  /** The messages the interceptor shows for `responses`: the `msg` of each rejected one, in order. */
  function Shown<T>(s: Settings, responses: seq<Response<T>>): seq<Option<string>>
    decreases |responses|
  {
    if responses == [] then []
    else (if Classify(s, responses[0].data.code) == Delivered then [] else [responses[0].data.msg])
         + Shown(s, responses[1..])
  }

  /**
   * Over any run of responses: the message log grows by exactly the `msg` of each
   * rejected response, in order; the token and the route are either untouched or, once
   * an overdue response has been seen, the empty token and the login page.
   */
  lemma {:induction false} ReplaySession<T>(s: Settings, st: SessionState, responses: seq<Response<T>>)
    ensures Replay(s, st, responses).shown == st.shown + Shown(s, responses)
    ensures (forall i :: 0 <= i < |responses| ==> Classify(s, responses[i].data.code) != SessionOverdue)
              ==> Replay(s, st, responses).token == st.token
                  && Replay(s, st, responses).route == st.route
    ensures (exists i :: 0 <= i < |responses| && Classify(s, responses[i].data.code) == SessionOverdue)
              ==> Replay(s, st, responses).token == ""
                  && Replay(s, st, responses).route == s.loginUrl
    decreases |responses|
  {
    if responses != [] {
      var next := Respond(s, st, responses[0]).0;
      var rest := responses[1..];
      ReplaySession(s, next, rest);
      assert st.shown + Shown(s, responses) == next.shown + Shown(s, rest);
      if exists i :: 0 <= i < |responses| && Classify(s, responses[i].data.code) == SessionOverdue {
        var i :| 0 <= i < |responses| && Classify(s, responses[i].data.code) == SessionOverdue;
        if i > 0 {
          assert rest[i - 1] == responses[i];
          assert exists j :: 0 <= j < |rest| && Classify(s, rest[j].data.code) == SessionOverdue;
        } else if !exists j :: 0 <= j < |rest| && Classify(s, rest[j].data.code) == SessionOverdue {
          forall j | 0 <= j < |rest| ensures Classify(s, rest[j].data.code) != SessionOverdue { }
        }
      } else {
        forall j | 0 <= j < |rest| ensures Classify(s, rest[j].data.code) != SessionOverdue {
          assert rest[j] == responses[j + 1];
        }
      }
    }
  }

  /** The effects of the user store, the router and the message box. */
  class Session {
    var token: string
    var route: string
    var shown: seq<Option<string>>

    constructor (token: string, route: string)
      ensures this.token == token && this.route == route && shown == []
    {
      this.token := token;
      this.route := route;
      shown := [];
    }

    function State(): SessionState
      reads this
    {
      SessionState(token, route, shown)
    }
  }

  /** The mutable request configuration an interceptor receives; other fields are left out. */
  class RequestConfig {
    var url: string
    var headers: map<string, string>

    constructor (url: string, headers: map<string, string>)
      ensures this.url == url && this.headers == headers
    {
      this.url := url;
      this.headers := headers;
    }
  }

  /** The shared client `RequestHttp` and its four interceptor handlers. */
  class RequestHttp {
    const settings: Settings

    constructor (settings: Settings)
      ensures this.settings == settings
    {
      this.settings := settings;
    }

    /** Attaches the stored token to the headers of `config` in place and returns `config`. */
    method RequestInterceptor(config: RequestConfig, session: Session) returns (r: RequestConfig)
      modifies config
      ensures r == config
      ensures config.headers == WithToken(old(config.headers), session.token)
      ensures config.url == old(config.url)
    {
      var token := session.token;
      if token != "" {
        config.headers := config.headers["Authorization" := token];
      }
      r := config;
    }

    /** A failed request construction is passed on, rejected, unchanged. */
    method RequestInterceptorCatch<E>(error: E) returns (r: Settled<RequestConfig, E>)
      ensures r.Reject? && r.reason == error
    {
      r := Reject(error);
    }

    /** Classifies the envelope and applies that branch's effects to `session`. */
    method ResponseInterceptor<T>(res: Response<T>, session: Session)
      returns (r: Settled<Envelope<T>, Envelope<T>>)
      modifies session
      ensures (session.State(), r) == Respond(settings, old(session.State()), res)
    {
      var data := res.data;
      var code, msg := data.code, data.msg;
      if code == Some(settings.overdue) {
        session.token := "";
        session.route := settings.loginUrl;
        session.shown := session.shown + [msg];
        return Reject(data);
      }
      if code.Some? && code.value != 0 && code.value != settings.success {
        session.shown := session.shown + [msg];
        return Reject(data);
      }
      return Resolve(data);
    }

    /** A transport failure is passed on, rejected, unchanged. */
    method ResponseInterceptorCatch<T, E>(error: E) returns (r: Settled<Envelope<T>, E>)
      ensures r.Reject? && r.reason == error
    {
      r := Reject(error);
    }
  }
}
