/** The page's audit session handler (frontend/src/App.tsx, lines 18-83):
    the `loading`, `report` and `error` state cells, the `wsRef` ref, the
    `handleAnalyze` entry point with the three callbacks it attaches to each
    new WebSocket, and the unmount clean-up.

    The transport is not modelled. Each WebSocket the handler creates is a
    connection id; the environment decides which callback fires on which
    connection and when, by calling `Open`, `Message` or `Error` with that
    id. `close()` and `send` are recorded, in order, as ghost effects. */
module Session {
  import opened Wrappers
  import opened Schemas
  import JsonRequest

  /** One WebSocket object created by `handleAnalyze`. */
  type ConnId = nat

  const Endpoint: string := "ws://localhost:8001/analyze-url"
  const ParseFailureMessage: string := "Failed to parse server response"
  const ConnectionErrorMessage: string := "Connection error. Please ensure the backend server is running."
  const InitiateFailureMessage: string := "Failed to initiate connection"

  /** What `onmessage` makes of `event.data`. `Unparseable` is a payload on
      which `JSON.parse(event.data)` throws, and also the payload `null`, on
      which reading `data.error` throws inside the same `try`. Any other JSON
      value is an `Obj` holding the three fields the handler reads (a number,
      a string or an array has none of them). */
  datatype Payload =
    | Unparseable
    | Obj(error: Option<string>, auditSummary: Option<string>, issues: Option<seq<Issue>>)

  /** JavaScript truthiness of an optional string field: present and non-empty. */
  predicate Truthy(s: Option<string>) {
    s.Some? && s.value != ""
  }

  /** The branch `onmessage` takes on a payload. */
  datatype Reaction =
    | ServerError(message: string)   // `data.error` is truthy
    | Completed(report: AuditReport) // `data.audit_summary && data.issues`
    | Undecodable                    // the `catch` branch
    | Ignored                        // neither shape: nothing happens

  /** Classifies a payload. The error field is looked at first, so a payload
      with both a truthy error and a full report is an error; an `issues`
      array counts when present, even when it is empty. */
  function Interpret(m: Payload): (r: Reaction)
    ensures r.Undecodable? <==> m.Unparseable?
    ensures r.ServerError? <==> m.Obj? && Truthy(m.error)
    ensures r.ServerError? ==> r.message == m.error.value && r.message != ""
    ensures r.Completed? <==> m.Obj? && !Truthy(m.error) && Truthy(m.auditSummary) && m.issues.Some?
    ensures r.Completed? ==> r.report.auditSummary == m.auditSummary.value && r.report.issues == m.issues.value
  {
    match m
    case Unparseable => Undecodable
    case Obj(e, s, found) =>
      if Truthy(e) then ServerError(e.value)
      else if Truthy(s) && found.Some? then Completed(AuditReport(s.value, found.value))
      else Ignored
  }

  /** What the handler has done to the outside world, in order. */
  datatype Effect =
    | Created(conn: ConnId, endpoint: string)  // `new WebSocket(endpoint)`
    | Sent(conn: ConnId, text: string)   // `ws.send(text)`
    | Closed(conn: ConnId)               // `ws.close()` or `wsRef.current.close()`

  class AuditSession {
    var loading: bool
    var report: Option<AuditReport>
    var error: Option<string>
    /** `wsRef.current` */
    var current: Option<ConnId>
    /** Every connection created so far, with the `url` its `onopen` closure captured. */
    var urlOf: map<ConnId, string>
    /** The id the next created connection gets. */
    var nextConn: ConnId
    ghost var effects: seq<Effect>

    /** `close()` has been called on `c`. */
    ghost predicate IsClosed(c: ConnId)
      reads this
    {
      Closed(c) in effects
    }

    /** The handler's invariant: ids are fresh, `wsRef` holds a created
        connection, and every created connection other than the one
        `wsRef` holds has been closed: at most one connection is live. */
    ghost predicate Valid()
      reads this
    {
      (forall c :: c in urlOf ==> c < nextConn) &&
      (current.Some? ==> current.value in urlOf) &&
      (forall c :: c in urlOf && current != Some(c) ==> Closed(c) in effects)
    }

    /** The state of a freshly mounted `App`. */
    constructor ()
      ensures Valid()
      ensures !loading && report == None && error == None && current == None
      ensures urlOf == map[] && effects == []
    {
      loading, report, error := false, None, None;
      current := None;
      urlOf, nextConn := map[], 0;
      effects := [];
    }

    /** `handleAnalyze(url)`: clears the state, closes the connection `wsRef`
        holds, creates a new one and stores it in `wsRef`. When the WebSocket
        constructor throws (`constructorThrows`), the `catch` reports it and
        `wsRef` keeps the connection just closed. The state described is the
        one the handler leaves once it returns. */
    method Analyze(url: string, constructorThrows: bool) returns (conn: Option<ConnId>)
      requires Valid()
      modifies this
      ensures Valid()
      ensures report == None
      ensures conn.Some? <==> !constructorThrows
      ensures nextConn == old(nextConn) + (if constructorThrows then 0 else 1)
      ensures !constructorThrows ==>
        loading && error == None &&
        conn.value !in old(urlOf) && current == conn && urlOf == old(urlOf)[conn.value := url]
      ensures constructorThrows ==>
        !loading && error == Some(InitiateFailureMessage) &&
        current == old(current) && urlOf == old(urlOf)
      ensures effects == old(effects)
        + (if old(current).Some? then [Closed(old(current).value)] else [])
        + (if constructorThrows then [] else [Created(conn.value, Endpoint)])
    {
      loading, error, report := true, None, None;
      if current.Some? {
        effects := effects + [Closed(current.value)];
      }
      if constructorThrows {
        error, loading := Some(InitiateFailureMessage), false;
        conn := None;
      } else {
        var c := nextConn;
        nextConn := nextConn + 1;
        urlOf := urlOf[c := url];
        effects := effects + [Created(c, Endpoint)];
        current := Some(c);
        conn := Some(c);
      }
    }

    /** `ws.onopen` of connection `c`: sends the request naming the url
        given to the `handleAnalyze` call that created `c`, and nothing else. */
    method Open(c: ConnId)
      requires Valid() && c in urlOf
      modifies this`effects
      ensures Valid()
      ensures effects == old(effects) + [Sent(c, JsonRequest.Encode(urlOf[c]))]
    {
      effects := effects + [Sent(c, JsonRequest.Encode(urlOf[c]))];
    }

    /** `ws.onmessage` of connection `c`. The callback acts on the state
        whether or not `c` is still the connection `wsRef` holds. */
    method Message(c: ConnId, m: Payload)
      requires Valid() && c in urlOf
      modifies this`loading, this`report, this`error, this`effects
      ensures Valid()
      ensures m.Unparseable? ==>
        error == Some(ParseFailureMessage) && !loading && report == old(report) && effects == old(effects)
      ensures m.Obj? && Truthy(m.error) ==>
        error == m.error && !loading && report == old(report) && effects == old(effects)
      ensures m.Obj? && !Truthy(m.error) && Truthy(m.auditSummary) && m.issues.Some? ==>
        report == Some(AuditReport(m.auditSummary.value, m.issues.value)) && !loading &&
        error == old(error) && effects == old(effects) + [Closed(c)]
      ensures m.Obj? && !Truthy(m.error) && !(Truthy(m.auditSummary) && m.issues.Some?) ==>
        loading == old(loading) && report == old(report) && error == old(error) && effects == old(effects)
    {
      match Interpret(m)
      case ServerError(msg) =>
        error, loading := Some(msg), false;
      case Completed(r) =>
        report, loading := Some(r), false;
        effects := effects + [Closed(c)];
      case Undecodable =>
        error, loading := Some(ParseFailureMessage), false;
      case Ignored =>
    }

    /** `ws.onerror` of connection `c`: reports a transport failure. */
    method Error(c: ConnId)
      requires Valid() && c in urlOf
      modifies this`loading, this`error
      ensures Valid()
      ensures error == Some(ConnectionErrorMessage) && !loading
    {
      error, loading := Some(ConnectionErrorMessage), false;
    }

    /** The clean-up of the mount effect: closes the connection `wsRef`
        holds, if any. Afterwards no connection the handler created is live. */
    method Unmount()
      requires Valid()
      modifies this`effects
      ensures Valid()
      ensures effects == old(effects) + (if current.Some? then [Closed(current.value)] else [])
      ensures forall c :: c in urlOf ==> IsClosed(c)
    {
      if current.Some? {
        effects := effects + [Closed(current.value)];
      }
    }

    /** The environment assumption under which a stale connection cannot
        affect the state: the transport delivers no event on a connection
        after `close()` was called on it. The callbacks themselves do not
        check it. */
    ghost predicate Delivers(c: ConnId)
      reads this
    {
      c in urlOf && !IsClosed(c)
    }

    /** Under that assumption, the only connection whose callbacks can still
        fire is the one `wsRef` holds. */
    lemma OnlyCurrentDelivers(c: ConnId)
      requires Valid() && Delivers(c)
      ensures current == Some(c)
    {
    }
  }

  /** The error and the report are not exclusive: a server error leaves the
      connection open, and a later report on it is still shown, next to the
      error. */
  method ErrorThenReport(url: string, summary: string, issues: seq<Issue>) returns (s: AuditSession)
    requires summary != ""
    ensures s.Valid()
    ensures s.error == Some("rate limited")
    ensures s.report == Some(AuditReport(summary, issues))
    ensures !s.loading
  {
    s := new AuditSession();
    var conn := s.Analyze(url, false);
    s.Open(conn.value);
    s.Message(conn.value, Obj(Some("rate limited"), None, None));
    s.Message(conn.value, Obj(None, Some(summary), Some(issues)));
  }

  /** Without the transport assumption, a reply on the connection a second
      `handleAnalyze` replaced still sets the report and clears `loading`
      of the new session. */
  method StaleReplyWins(first: string, second: string, summary: string) returns (s: AuditSession)
    requires summary != ""
    ensures s.Valid()
    ensures s.report == Some(AuditReport(summary, []))
    ensures !s.loading && s.error == None
  {
    s := new AuditSession();
    var c1 := s.Analyze(first, false);
    var c2 := s.Analyze(second, false);
    assert s.IsClosed(c1.value);
    s.Message(c1.value, Obj(None, Some(summary), Some([])));
  }
}
