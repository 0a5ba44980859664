/** The writers a request goes through, each wrapping the next, and the request from id to log line. */
module ResponseStack {
  import opened Storage
  import opened ResponseSpec

  /** The server's own writer. */
  class Connection {
    var headers: Headers
    var head: Option<Head>
    var offered: string
    var statuses: nat
    const room: nat

    ghost function State(): Wire reads this { Wire(headers, head, offered, room, statuses) }

    constructor (room: nat)
      ensures State() == Wire(map[], None, "", room, 0)
    {
      headers, head, offered, statuses := map[], None, "", 0;
      this.room := room;
    }

    method SetHeader(name: string, value: string)
      modifies this
      ensures State() == old(State()).(headers := old(headers)[name := value])
    {
      headers := headers[name := value];
    }

    method DelHeader(name: string)
      modifies this
      ensures State() == old(State()).(headers := old(headers) - {name})
    {
      headers := headers - {name};
    }

    method WriteHeader(code: int)
      modifies this
      ensures State() == SendHead(old(State()), code)
    {
      if head.None? { head := Some(Head(code, headers)); }
      statuses := statuses + 1;
    }

    method Write(text: string) returns (n: nat)
      modifies this
      ensures State() == SendBody(old(State()), text) && n == Taken(old(State()), text)
    {
      if head.None? { head := Some(Head(200, headers)); }
      var before := if |offered| <= room then |offered| else room;
      offered := offered + text;
      var after := if |offered| <= room then |offered| else room;
      n := after - before;
    }
  }

  /** Remembers the status and counts the bytes for the log line, and lets one status through. */
  class ResponseRecorder {
    const next: Connection
    var status: int
    var bytes: nat
    var wroteHeader: bool

    ghost function State(): Stack reads this, next { Stack(next.State(), status, bytes, wroteHeader, false) }

    constructor (next: Connection)
      ensures this.next == next && State() == Stack(next.State(), 200, 0, false, false)
    {
      this.next := next;
      status, bytes, wroteHeader := 200, 0, false;
    }

    method WriteHeader(code: int)
      modifies this, next
      ensures State() == RecordHead(old(State()), code)
    {
      if wroteHeader { return; }
      status := code;
      wroteHeader := true;
      next.WriteHeader(code);
    }

    method Write(text: string) returns (n: nat)
      modifies this, next
      ensures State() == RecordBody(old(State()), text)
    {
      if !wroteHeader { WriteHeader(200); }
      n := next.Write(text);
      bytes := bytes + n;
    }
  }

  /** Turns the mux's own plain-text errors into the JSON error body. */
  class MuxErrorRewriter {
    const next: ResponseRecorder
    var rewriting: bool

    ghost function State(): Stack reads this, next, next.next { next.State().(rewriting := rewriting) }

    constructor (next: ResponseRecorder)
      ensures this.next == next && State() == next.State()
    {
      this.next := next;
      rewriting := false;
    }

    method WriteHeader(code: int)
      modifies this, next, next.next
      ensures State() == RewriteHead(old(State()), code)
    {
      var headers := next.next.headers;
      if !((code == 404 || code == 405) && CONTENT_TYPE in headers && headers[CONTENT_TYPE] == PLAIN_TEXT) {
        next.WriteHeader(code);
        return;
      }
      next.next.SetHeader(CONTENT_TYPE, JSON);
      next.next.DelHeader(NO_SNIFF);
      next.WriteHeader(code);
      var _ := next.Write(MuxBody(code));
      rewriting := true;
    }

    method Write(text: string) returns (n: nat)
      modifies this, next, next.next
      ensures State() == RewriteBody(old(State()), text)
      ensures old(rewriting) ==> n == |text|
    {
      if rewriting { return |text|; }
      n := next.Write(text);
    }
  }

  method Perform(w: MuxErrorRewriter, a: Action)
    modifies w, w.next, w.next.next
    ensures w.State() == Do(old(w.State()), a)
  {
    match a
    case SetHeader(k, v) => w.next.next.SetHeader(k, v);
    case DelHeader(k) => w.next.next.DelHeader(k);
    case WriteHeader(c) => w.WriteHeader(c);
    case Write(b) => var _ := w.Write(b);
  }

  /** The panic guard: it sits outside the rewriter and sees the recorder. */
  method Recover(rec: ResponseRecorder, end: End)
    requires end != AbortPanic
    modifies rec, rec.next
    ensures rec.State() == Guarded(old(rec.State()), end)
  {
    if end == Returned || rec.wroteHeader { return; }
    rec.next.SetHeader(CONTENT_TYPE, JSON);
    rec.WriteHeader(500);
    var _ := rec.Write(PANIC_BODY);
  }

  /** One request: id, log line, panic guard, rewriter, handler, in that order from the outside. */
  method ServeHTTP(conn: Connection, id: string, acts: seq<Action>, end: End) returns (line: Option<LogLine>)
    requires conn.State() == Wire(map[], None, "", conn.room, 0)
    modifies conn
    ensures var (s, l) := Served(map["X-Request-Id" := id], conn.room, acts, end);
            conn.State() == s.wire && line == l
  {
    conn.SetHeader(REQUEST_ID, id);
    var rec := new ResponseRecorder(conn);
    var w := new MuxErrorRewriter(rec);
    ghost var s0 := w.State();
    assert s0 == Fresh(map[REQUEST_ID := id], conn.room);
    var i := 0;
    while i < |acts|
      invariant 0 <= i <= |acts|
      invariant w.State() == Through(s0, acts[..i])
      invariant fresh(rec) && fresh(w)
    {
      Perform(w, acts[i]);
      assert acts[..i + 1][..i] == acts[..i];
      i := i + 1;
    }
    assert acts[..i] == acts;
    if end == AbortPanic { return None; }
    Recover(rec, end);
    line := Some(LogLine(rec.status, rec.bytes));
  }
}
