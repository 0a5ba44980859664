/** What the response-writer stack does with any sequence of handler calls, against what the handler
    alone would have sent.

    A body is a string with one character per byte. A connection takes the first `room` bytes it is
    handed and no more. Statuses are final ones; header fields have one value each. */
module ResponseSpec {
  import opened Storage

  type Headers = map<string, string>

  datatype Head = Head(status: int, headers: Headers)

  datatype Action =
    | SetHeader(name: string, value: string)
    | DelHeader(name: string)
    | WriteHeader(code: int)
    | Write(text: string)

  datatype End = Returned | Panicked | AbortPanic

  datatype LogLine = LogLine(status: int, bytes: nat)

  /** The connection: the live header map, the head once sent, every byte handed over, and how many
      times a status was written to it. */
  datatype Wire = Wire(headers: Headers, head: Option<Head>, offered: string, room: nat, statuses: nat)

  datatype Stack = Stack(wire: Wire, status: int, bytes: nat, wroteHeader: bool, rewriting: bool)

  const CONTENT_TYPE := "Content-Type"
  const NO_SNIFF := "X-Content-Type-Options"
  const REQUEST_ID := "X-Request-Id"
  const PLAIN_TEXT := "text/plain; charset=utf-8"
  const JSON := "application/json"
  const PANIC_BODY := "{\"code\":\"internal_error\",\"error\":\"internal server error\"}"

  function MuxBody(code: int): string {
    if code == 404 then "{\"code\":\"not_found\",\"error\":\"not found\"}"
    else "{\"code\":\"method_not_allowed\",\"error\":\"method not allowed\"}"
  }

  predicate IsMuxError(headers: Headers, code: int) {
    (code == 404 || code == 405) && CONTENT_TYPE in headers && headers[CONTENT_TYPE] == PLAIN_TEXT
  }

  function AsJson(headers: Headers): Headers {
    headers[CONTENT_TYPE := JSON] - {NO_SNIFF}
  }

  // ---- net/http's own writer ----

  function SendHead(w: Wire, code: int): Wire {
    w.(head := if w.head.None? then Some(Head(code, w.headers)) else w.head, statuses := w.statuses + 1)
  }

  /** The first byte sends the head with it. */
  function SendBody(w: Wire, text: string): Wire {
    w.(head := if w.head.None? then Some(Head(200, w.headers)) else w.head, offered := w.offered + text)
  }

  /** How much of the next text the connection takes. */
  function Taken(w: Wire, text: string): nat {
    Min(|w.offered + text|, w.room) - Min(|w.offered|, w.room)
  }

  /** The handler on the connection itself, with nothing between. */
  function Plain(w: Wire, acts: seq<Action>): Wire
    decreases |acts|
  {
    if acts == [] then w
    else
      var n := |acts| - 1;
      var was := Plain(w, acts[..n]);
      match acts[n]
      case SetHeader(k, v) => was.(headers := was.headers[k := v])
      case DelHeader(k) => was.(headers := was.headers - {k})
      case WriteHeader(c) => SendHead(was, c)
      case Write(b) => SendBody(was, b)
  }

  // ---- The stack ----

  function RecordHead(s: Stack, code: int): Stack {
    if s.wroteHeader then s else s.(wire := SendHead(s.wire, code), status := code, wroteHeader := true)
  }

  function RecordBody(s: Stack, text: string): Stack {
    var r := if s.wroteHeader then s else RecordHead(s, 200);
    r.(wire := SendBody(r.wire, text), bytes := r.bytes + Taken(r.wire, text))
  }

  function RewriteHead(s: Stack, code: int): Stack {
    if !IsMuxError(s.wire.headers, code) then RecordHead(s, code)
    else
      var json := s.(wire := s.wire.(headers := AsJson(s.wire.headers)));
      RecordBody(RecordHead(json, code), MuxBody(code)).(rewriting := true)
  }

  function RewriteBody(s: Stack, text: string): Stack {
    if s.rewriting then s else RecordBody(s, text)
  }

  function Do(s: Stack, a: Action): Stack {
    match a
    case SetHeader(k, v) => s.(wire := s.wire.(headers := s.wire.headers[k := v]))
    case DelHeader(k) => s.(wire := s.wire.(headers := s.wire.headers - {k}))
    case WriteHeader(c) => RewriteHead(s, c)
    case Write(b) => RewriteBody(s, b)
  }

  function Through(s: Stack, acts: seq<Action>): Stack
    decreases |acts|
  {
    if acts == [] then s else Do(Through(s, acts[..|acts| - 1]), acts[|acts| - 1])
  }

  function Answer500(s: Stack): Stack {
    RecordBody(RecordHead(s.(wire := s.wire.(headers := s.wire.headers[CONTENT_TYPE := JSON])), 500), PANIC_BODY)
  }

  function Guarded(s: Stack, end: End): Stack {
    if end == Panicked && !s.wroteHeader then Answer500(s) else s
  }

  function Fresh(headers: Headers, room: nat): Stack {
    Stack(Wire(headers, None, "", room, 0), 200, 0, false, false)
  }

  /** The whole request: the connection afterwards, and the log line unless the panic went through. */
  function Served(headers: Headers, room: nat, acts: seq<Action>, end: End): (Stack, Option<LogLine>) {
    var s := Guarded(Through(Fresh(headers, room), acts), end);
    (s, if end == AbortPanic then None else Some(LogLine(s.status, s.bytes)))
  }

  // ---- At most one status, and the log tells the truth ----

  /** The recorder's three fields say what the connection has. */
  ghost predicate Truthful(s: Stack) {
    && s.wroteHeader == s.wire.head.Some?
    && s.wire.statuses == (if s.wroteHeader then 1 else 0)
    && s.status == (if s.wire.head.Some? then s.wire.head.value.status else 200)
    && s.bytes == Min(|s.wire.offered|, s.wire.room)
    && (!s.wroteHeader ==> s.wire.offered == "" && !s.rewriting)
  }

  lemma HeadStaysTruthful(s: Stack, code: int)
    requires Truthful(s)
    ensures Truthful(RecordHead(s, code)) && RecordHead(s, code).wroteHeader
  {
  }

  lemma BodyStaysTruthful(s: Stack, text: string)
    requires Truthful(s)
    ensures Truthful(RecordBody(s, text))
  {
  }

  lemma DoStaysTruthful(s: Stack, a: Action)
    requires Truthful(s)
    ensures Truthful(Do(s, a)) && Do(s, a).wire.room == s.wire.room
  {
    if a.WriteHeader? && IsMuxError(s.wire.headers, a.code) {
      var json := s.(wire := s.wire.(headers := AsJson(s.wire.headers)));
      HeadStaysTruthful(json, a.code);
      BodyStaysTruthful(RecordHead(json, a.code), MuxBody(a.code));
    }
  }

  lemma {:induction false} ThroughStaysTruthful(s: Stack, acts: seq<Action>)
    requires Truthful(s)
    ensures Truthful(Through(s, acts)) && Through(s, acts).wire.room == s.wire.room
    decreases |acts|
  {
    if acts != [] {
      ThroughStaysTruthful(s, acts[..|acts| - 1]);
      DoStaysTruthful(Through(s, acts[..|acts| - 1]), acts[|acts| - 1]);
    }
  }

  lemma ServedIsTruthful(headers: Headers, room: nat, acts: seq<Action>, end: End)
    ensures Truthful(Served(headers, room, acts, end).0) && Served(headers, room, acts, end).0.wire.room == room
  {
    ThroughStaysTruthful(Fresh(headers, room), acts);
    var s := Through(Fresh(headers, room), acts);
    var json := s.(wire := s.wire.(headers := s.wire.headers[CONTENT_TYPE := JSON]));
    HeadStaysTruthful(json, 500);
    BodyStaysTruthful(RecordHead(json, 500), PANIC_BODY);
  }

  /** Whatever the handler does, the connection gets at most one status; and unless the handler aborts
      the response on purpose the log line has the status the client sees (200 when none was written)
      and the number of bytes the connection took. */
  lemma LogTellsTheTruth(headers: Headers, room: nat, acts: seq<Action>, end: End)
    ensures var (s, line) := Served(headers, room, acts, end);
            && s.wire.statuses <= 1
            && (line == None <==> end == AbortPanic)
            && (line.Some? ==>
                  && line.value.status == (if s.wire.head.Some? then s.wire.head.value.status else 200)
                  && line.value.bytes == Min(|s.wire.offered|, room))
  {
    ServedIsTruthful(headers, room, acts, end);
  }

  // ---- What the stack leaves alone ----

  /** No WriteHeader among the actions meets the mux-error test when it is made. */
  ghost predicate NeverMuxError(w: Wire, acts: seq<Action>)
    decreases |acts|
  {
    acts == [] ||
    var n := |acts| - 1;
    && NeverMuxError(w, acts[..n])
    && (acts[n].WriteHeader? ==> !IsMuxError(Plain(w, acts[..n]).headers, acts[n].code))
  }

  ghost predicate SameResponse(a: Wire, b: Wire) {
    a.headers == b.headers && a.head == b.head && a.offered == b.offered && a.room == b.room
  }

  /** Transparency: with no mux error, the client gets exactly what the handler alone would have sent,
      however many statuses and bodies it writes. */
  lemma {:induction false} OtherwiseTransparent(s: Stack, acts: seq<Action>)
    requires Truthful(s) && !s.rewriting && NeverMuxError(s.wire, acts)
    ensures SameResponse(Through(s, acts).wire, Plain(s.wire, acts)) && !Through(s, acts).rewriting
    decreases |acts|
  {
    if acts != [] {
      OtherwiseTransparent(s, acts[..|acts| - 1]);
      ThroughStaysTruthful(s, acts[..|acts| - 1]);
    }
  }

  // ---- What it replaces ----

  ghost predicate NoStatus(acts: seq<Action>) {
    forall i :: 0 <= i < |acts| ==> !acts[i].WriteHeader?
  }

  ghost predicate NoBody(acts: seq<Action>) {
    forall i :: 0 <= i < |acts| ==> !acts[i].Write?
  }

  lemma {:induction false} NoStatusNoMuxError(w: Wire, acts: seq<Action>)
    requires NoStatus(acts)
    ensures NeverMuxError(w, acts)
    decreases |acts|
  {
    if acts != [] { NoStatusNoMuxError(w, acts[..|acts| - 1]); }
  }

  lemma {:induction false} ThroughJoins(s: Stack, a: seq<Action>, b: seq<Action>)
    ensures Through(s, a + b) == Through(Through(s, a), b)
    decreases |b|
  {
    if b == [] {
      assert a + b == a;
    } else {
      var n := |b| - 1;
      assert (a + b)[..|a + b| - 1] == a + b[..n];
      ThroughJoins(s, a, b[..n]);
    }
  }

  /** The header fields as the rewriter leaves them: after a mux error, the JSON ones. */
  function LiveAfter(headers: Headers, a: Action): Headers {
    match a
    case SetHeader(k, v) => headers[k := v]
    case DelHeader(k) => headers - {k}
    case WriteHeader(c) => if IsMuxError(headers, c) then AsJson(headers) else headers
    case Write(_) => headers
  }

  function Live(headers: Headers, acts: seq<Action>): Headers
    decreases |acts|
  {
    if acts == [] then headers else LiveAfter(Live(headers, acts[..|acts| - 1]), acts[|acts| - 1])
  }

  function MuxErrorOf(headers: Headers, a: Action): seq<int> {
    if a.WriteHeader? && IsMuxError(headers, a.code) then [a.code] else []
  }

  /** The codes of the actions that meet the mux-error test on the fields live at that point. */
  function MuxErrors(headers: Headers, acts: seq<Action>): seq<int>
    decreases |acts|
  {
    if acts == [] then []
    else MuxErrors(headers, acts[..|acts| - 1]) + MuxErrorOf(Live(headers, acts[..|acts| - 1]), acts[|acts| - 1])
  }

  function Bodies(codes: seq<int>): string {
    if codes == [] then "" else Bodies(codes[..|codes| - 1]) + MuxBody(codes[|codes| - 1])
  }

  lemma BodyOfOne(code: int)
    ensures Bodies([code]) == MuxBody(code)
  {
    assert [code][..0] == [] && Bodies([]) + MuxBody(code) == MuxBody(code);
  }

  lemma BodiesWithOne(codes: seq<int>, code: int)
    ensures Bodies(codes + [code]) == Bodies(codes) + MuxBody(code)
  {
    assert (codes + [code])[..|codes|] == codes;
  }

  lemma BodiesOneMore(codes: seq<int>, more: seq<int>)
    requires |more| <= 1
    ensures Bodies(codes + more) == Bodies(codes) + Bodies(more)
  {
    if more == [] {
      assert codes + more == codes;
    } else {
      assert more == [more[0]];
      BodiesWithOne(codes, more[0]);
      BodyOfOne(more[0]);
    }
  }

  /** The head stands, and what is sent on top of it is `text`. */
  ghost predicate Appends(s: Stack, r: Stack, headers: Headers, text: string) {
    && r.wire.headers == headers && r.wire.head == s.wire.head && r.wire.offered == s.wire.offered + text
    && r.wroteHeader && r.rewriting
  }

  lemma AppendsJoin(s: Stack, m: Stack, r: Stack, h1: Headers, h2: Headers, t1: string, t2: string)
    requires Appends(s, m, h1, t1) && Appends(m, r, h2, t2)
    ensures Appends(s, r, h2, t1 + t2)
  {
    assert (s.wire.offered + t1) + t2 == s.wire.offered + (t1 + t2);
  }

  lemma OneAfterAMuxError(s: Stack, a: Action)
    requires Truthful(s) && s.rewriting
    ensures Appends(s, Do(s, a), LiveAfter(s.wire.headers, a), Bodies(MuxErrorOf(s.wire.headers, a)))
  {
    if MuxErrorOf(s.wire.headers, a) != [] { BodyOfOne(a.code); }
  }

  lemma {:induction false} NoBodiesNoErrors(codes: seq<int>)
    ensures Bodies(codes) == "" <==> codes == []
    decreases |codes|
  {
    if codes != [] { assert |MuxBody(codes[|codes| - 1])| > 0; }
  }

  /** After a mux error: the head stands, the handler's bodies are dropped, and every further mux error
      appends its JSON body. */
  lemma {:induction false} AfterAMuxError(s: Stack, acts: seq<Action>)
    requires Truthful(s) && s.rewriting
    ensures Appends(s, Through(s, acts), Live(s.wire.headers, acts), Bodies(MuxErrors(s.wire.headers, acts)))
    decreases |acts|
  {
    if acts == [] {
      assert s.wire.offered + "" == s.wire.offered;
    } else {
      var front, a := acts[..|acts| - 1], acts[|acts| - 1];
      var m := Through(s, front);
      AfterAMuxError(s, front);
      ThroughStaysTruthful(s, front);
      OneAfterAMuxError(m, a);
      BodiesOneMore(MuxErrors(s.wire.headers, front), MuxErrorOf(m.wire.headers, a));
      AppendsJoin(s, m, Do(m, a), m.wire.headers, LiveAfter(m.wire.headers, a),
                  Bodies(MuxErrors(s.wire.headers, front)), Bodies(MuxErrorOf(m.wire.headers, a)));
    }
  }

  lemma {:induction false} QuietSendsNothing(s: Stack, acts: seq<Action>)
    requires Truthful(s) && !s.wroteHeader && NoStatus(acts)
    ensures Through(s, acts).wroteHeader <==> !NoBody(acts)
    ensures Through(s, acts).wire.head.Some? ==> Through(s, acts).wire.head.value.status == 200
    decreases |acts|
  {
    if acts != [] {
      var n := |acts| - 1;
      QuietSendsNothing(s, acts[..n]);
      ThroughStaysTruthful(s, acts[..n]);
      assert NoBody(acts) <==> NoBody(acts[..n]) && !acts[n].Write? by {
        assert forall i :: 0 <= i < n ==> acts[..n][i] == acts[i];
      }
      if Through(s, acts[..n]).wroteHeader { assert !NoBody(acts); }
    }
  }

  /** The client gets the JSON error for the code and nothing else: the handler's own header fields but
      for the content type and the sniffing hint, and none of its body. */
  ghost predicate Replaced(headers: Headers, code: int, w: Wire) {
    w.head == Some(Head(code, AsJson(headers))) && w.offered == MuxBody(code)
  }

  function StatusBetween(first: seq<Action>, code: int, later: seq<Action>): seq<Action> {
    first + [WriteHeader(code)] + later
  }

  lemma OneStatusRuns(s: Stack, first: seq<Action>, code: int, later: seq<Action>)
    ensures Through(s, StatusBetween(first, code, later)) == Through(RewriteHead(Through(s, first), code), later)
  {
    ThroughJoins(s, first + [WriteHeader(code)], later);
    ThroughJoins(s, first, [WriteHeader(code)]);
    assert Through(Through(s, first), [WriteHeader(code)]) == RewriteHead(Through(s, first), code) by {
      assert [WriteHeader(code)][..0] == [];
    }
  }

  /** The whole response once some WriteHeader meets the mux-error test, whatever the handler does before
      and after it and however it ends: the head is the JSON error's if none was sent before, the bodies sent
      before it stand, and after it come one JSON body for it and one for each further mux error. */
  lemma FromTheFirstMuxError(headers: Headers, room: nat, first: seq<Action>, code: int, later: seq<Action>, end: End)
    requires NeverMuxError(Fresh(headers, room).wire, first) && IsMuxError(Plain(Fresh(headers, room).wire, first).headers, code)
    ensures var at := Plain(Fresh(headers, room).wire, first);
            var w := Served(headers, room, StatusBetween(first, code, later), end).0.wire;
            && w.head == (if at.head.None? then Some(Head(code, AsJson(at.headers))) else at.head)
            && w.offered == at.offered + MuxBody(code) + Bodies(MuxErrors(AsJson(at.headers), later))
  {
    var s := Fresh(headers, room);
    var r := Through(s, first);
    OtherwiseTransparent(s, first);
    ThroughStaysTruthful(s, first);
    DoStaysTruthful(r, WriteHeader(code));
    OneStatusRuns(s, first, code, later);
    AfterAMuxError(RewriteHead(r, code), later);
  }

  /** Its response is replaced by the JSON error exactly when nothing else was sent before the mux error and
      no later WriteHeader meets the mux-error test on the fields then live. */
  lemma ReplacedExactlyWhen(headers: Headers, room: nat, first: seq<Action>, code: int, later: seq<Action>, end: End)
    requires NeverMuxError(Fresh(headers, room).wire, first) && IsMuxError(Plain(Fresh(headers, room).wire, first).headers, code)
    ensures var at := Plain(Fresh(headers, room).wire, first);
            var w := Served(headers, room, StatusBetween(first, code, later), end).0.wire;
            Replaced(at.headers, code, w) <==>
              && at.offered == "" && (at.head.None? || at.head == Some(Head(code, AsJson(at.headers))))
              && MuxErrors(AsJson(at.headers), later) == []
  {
    FromTheFirstMuxError(headers, room, first, code, later, end);
    NoBodiesNoErrors(MuxErrors(AsJson(Plain(Fresh(headers, room).wire, first).headers), later));
  }

  /** Every run of actions is one or the other: no mux error, and the handler's own response, or a first one. */
  lemma {:induction false} FirstMuxError(w: Wire, acts: seq<Action>) returns (i: nat)
    ensures i <= |acts| && NeverMuxError(w, acts[..i])
    ensures i < |acts| ==>
              && acts[i].WriteHeader? && IsMuxError(Plain(w, acts[..i]).headers, acts[i].code)
              && acts == StatusBetween(acts[..i], acts[i].code, acts[i + 1..])
    decreases |acts|
  {
    if acts == [] {
      i := 0;
    } else {
      var n := |acts| - 1;
      i := FirstMuxError(w, acts[..n]);
      assert acts[..n][..i] == acts[..i];
      if i == n && !(acts[n].WriteHeader? && IsMuxError(Plain(w, acts[..n]).headers, acts[n].code)) {
        i := |acts|;
        assert acts[..i] == acts;
      }
    }
  }

  lemma {:induction false} NoStatusNoErrors(headers: Headers, acts: seq<Action>)
    requires NoStatus(acts)
    ensures MuxErrors(headers, acts) == []
    decreases |acts|
  {
    if acts != [] { NoStatusNoErrors(headers, acts[..|acts| - 1]); }
  }

  lemma BeforeTheStatus(headers: Headers, room: nat, first: seq<Action>)
    requires NoStatus(first)
    ensures var at := Plain(Fresh(headers, room).wire, first);
            && NeverMuxError(Fresh(headers, room).wire, first)
            && (at.head.None? <==> NoBody(first)) && (at.head.Some? ==> at.head.value.status == 200)
            && (at.head.None? ==> at.offered == "")
  {
    var s := Fresh(headers, room);
    NoStatusNoMuxError(s.wire, first);
    OtherwiseTransparent(s, first);
    ThroughStaysTruthful(s, first);
    QuietSendsNothing(s, first);
  }

  /** A handler that writes one status. Its response is replaced exactly when that status is the mux's
      own error and no body came before it; a mux error after a body has been begun is only appended
      to a response that stays a 200. How the handler ends makes no difference to either. */
  lemma OneStatusReplacedWhen(headers: Headers, room: nat, first: seq<Action>, code: int, later: seq<Action>, end: End)
    requires NoStatus(first) && NoStatus(later)
    ensures var at := Plain(Fresh(headers, room).wire, first);
            var w := Served(headers, room, StatusBetween(first, code, later), end).0.wire;
            && (IsMuxError(at.headers, code) ==> (Replaced(at.headers, code, w) <==> NoBody(first)))
            && (IsMuxError(at.headers, code) && !NoBody(first) ==>
                  w.head == at.head && w.head.Some? && w.head.value.status == 200 && w.offered == at.offered + MuxBody(code))
  {
    var at := Plain(Fresh(headers, room).wire, first);
    BeforeTheStatus(headers, room, first);
    if IsMuxError(at.headers, code) {
      FromTheFirstMuxError(headers, room, first, code, later, end);
      NoStatusNoErrors(AsJson(at.headers), later);
    }
  }

  /** What the mux does for an unknown path, as the client sees it: the whole response, spelled out. */
  lemma UnknownPathIsNotFound(id: string, text: string, room: nat, end: End)
    ensures var first := [SetHeader("Content-Type", "text/plain; charset=utf-8"), SetHeader("X-Content-Type-Options", "nosniff")];
            var w := Served(map["X-Request-Id" := id], room, StatusBetween(first, 404, [Write(text)]), end).0.wire;
            && w.head == Some(Head(404, map["X-Request-Id" := id, "Content-Type" := "application/json"]))
            && w.offered == "{\"code\":\"not_found\",\"error\":\"not found\"}"
  {
    var first := [SetHeader("Content-Type", "text/plain; charset=utf-8"), SetHeader("X-Content-Type-Options", "nosniff")];
    var h0 := map["X-Request-Id" := id];
    var w0 := Fresh(h0, room).wire;
    var one := first[..1];
    assert one == [first[0]] && one[..0] == [];
    assert Plain(w0, one).headers == h0["Content-Type" := "text/plain; charset=utf-8"];
    var at := Plain(w0, first).headers;
    assert at == h0["Content-Type" := "text/plain; charset=utf-8"]["X-Content-Type-Options" := "nosniff"];
    assert AsJson(at) == map["X-Request-Id" := id, "Content-Type" := "application/json"];
    OneStatusReplacedWhen(h0, room, first, 404, [Write(text)], end);
  }

  /** What the mux does for a known path and a wrong method: the Allow field it set reaches the client
      (section 15.5.6 of RFC 9110), under a JSON body. */
  lemma MethodNotAllowedKeepsAllow(id: string, allow: string, text: string, room: nat, end: End)
    ensures var first := [SetHeader("Allow", allow), SetHeader("Content-Type", "text/plain; charset=utf-8"),
                          SetHeader("X-Content-Type-Options", "nosniff")];
            var w := Served(map["X-Request-Id" := id], room, StatusBetween(first, 405, [Write(text)]), end).0.wire;
            && w.head == Some(Head(405, map["X-Request-Id" := id, "Allow" := allow, "Content-Type" := "application/json"]))
            && w.offered == "{\"code\":\"method_not_allowed\",\"error\":\"method not allowed\"}"
  {
    var first := [SetHeader("Allow", allow), SetHeader("Content-Type", "text/plain; charset=utf-8"), SetHeader("X-Content-Type-Options", "nosniff")];
    var h0 := map["X-Request-Id" := id];
    MuxSets(Fresh(h0, room).wire, allow, first);
    assert AsJson(Plain(Fresh(h0, room).wire, first).headers) ==
      map["X-Request-Id" := id, "Allow" := allow, "Content-Type" := "application/json"];
    OneStatusReplacedWhen(h0, room, first, 405, [Write(text)], end);
  }

  lemma MuxSets(w: Wire, allow: string, first: seq<Action>)
    requires first == [SetHeader("Allow", allow), SetHeader("Content-Type", "text/plain; charset=utf-8"),
                       SetHeader("X-Content-Type-Options", "nosniff")]
    ensures Plain(w, first).headers ==
            w.headers["Allow" := allow]["Content-Type" := "text/plain; charset=utf-8"]["X-Content-Type-Options" := "nosniff"]
  {
    var one, two := first[..1], first[..2];
    assert one[..0] == [] && two[..1] == one;
    assert Plain(w, one).headers == w.headers["Allow" := allow];
    assert Plain(w, two).headers == w.headers["Allow" := allow]["Content-Type" := "text/plain; charset=utf-8"];
  }

  /** Nothing else is ever rewritten, part one: a handler that writes no 404 and no 405 sends its own response. */
  lemma {:induction false} OtherCodesPass(w: Wire, acts: seq<Action>)
    requires forall i :: 0 <= i < |acts| && acts[i].WriteHeader? ==> acts[i].code != 404 && acts[i].code != 405
    ensures NeverMuxError(w, acts)
    decreases |acts|
  {
    if acts != [] { OtherCodesPass(w, acts[..|acts| - 1]); }
  }

  /** Part two: so does one that never sets the mux's own content type, whatever codes it writes. */
  lemma {:induction false} OtherTypesPass(w: Wire, acts: seq<Action>)
    requires "Content-Type" in w.headers ==> w.headers["Content-Type"] != "text/plain; charset=utf-8"
    requires SetHeader("Content-Type", "text/plain; charset=utf-8") !in acts
    ensures NeverMuxError(w, acts)
    ensures "Content-Type" in Plain(w, acts).headers ==> Plain(w, acts).headers["Content-Type"] != "text/plain; charset=utf-8"
    decreases |acts|
  {
    if acts != [] { OtherTypesPass(w, acts[..|acts| - 1]); }
  }

  /** A handler's own errors are not the mux's: without a 404 or 405, or without that content type, the client
      gets the handler's response (the panic guard apart). */
  lemma OwnErrorsPass(headers: Headers, room: nat, acts: seq<Action>, end: End)
    requires "Content-Type" !in headers && end != Panicked
    requires || (forall i :: 0 <= i < |acts| && acts[i].WriteHeader? ==> acts[i].code != 404 && acts[i].code != 405)
             || SetHeader("Content-Type", "text/plain; charset=utf-8") !in acts
    ensures SameResponse(Served(headers, room, acts, end).0.wire, Plain(Fresh(headers, room).wire, acts))
  {
    var w := Fresh(headers, room).wire;
    if SetHeader("Content-Type", "text/plain; charset=utf-8") !in acts { OtherTypesPass(w, acts); } else { OtherCodesPass(w, acts); }
    OtherwiseTransparent(Fresh(headers, room), acts);
  }

  lemma NeverMuxErrorJoins(w: Wire, first: seq<Action>, code: int, later: seq<Action>)
    requires NoStatus(first) && NoStatus(later) && !IsMuxError(Plain(w, first).headers, code)
    ensures NeverMuxError(w, StatusBetween(first, code, later))
    decreases |later|
  {
    var all := StatusBetween(first, code, later);
    var n := |all| - 1;
    if later == [] {
      assert all[..n] == first;
      NoStatusNoMuxError(w, first);
    } else {
      assert all[..n] == StatusBetween(first, code, later[..|later| - 1]);
      assert all[n] == later[|later| - 1];
      NeverMuxErrorJoins(w, first, code, later[..|later| - 1]);
    }
  }

  /** Any other status passes with its own body: what the client gets is what the handler sent. */
  lemma OtherStatusesPass(headers: Headers, room: nat, first: seq<Action>, code: int, later: seq<Action>, end: End)
    requires NoStatus(first) && NoStatus(later)
    requires !IsMuxError(Plain(Fresh(headers, room).wire, first).headers, code)
    ensures var acts := StatusBetween(first, code, later);
            SameResponse(Served(headers, room, acts, end).0.wire, Plain(Fresh(headers, room).wire, acts))
  {
    var s := Fresh(headers, room);
    NeverMuxErrorJoins(s.wire, first, code, later);
    OtherwiseTransparent(s, StatusBetween(first, code, later));
    OneStatusWrites(s, first, code, later);
  }

  lemma OneStatusWrites(s: Stack, first: seq<Action>, code: int, later: seq<Action>)
    ensures Through(s, StatusBetween(first, code, later)).wroteHeader
  {
    OneStatusRuns(s, first, code, later);
    OnceWritten(RewriteHead(Through(s, first), code), later);
  }

  lemma {:induction false} OnceWritten(s: Stack, acts: seq<Action>)
    requires s.wroteHeader
    ensures Through(s, acts).wroteHeader
    decreases |acts|
  {
    if acts != [] { OnceWritten(s, acts[..|acts| - 1]); }
  }

  // ---- Panics ----

  /** A panic before anything was sent becomes one JSON 500 under the header fields set so far; after
      that it leaves the response as it stands. */
  lemma PanicsBecomeOne500(headers: Headers, room: nat, acts: seq<Action>)
    ensures var s := Through(Fresh(headers, room), acts);
            var (r, line) := Served(headers, room, acts, Panicked);
            if s.wire.head.None? then
              && r.wire.head == Some(Head(500, s.wire.headers["Content-Type" := "application/json"]))
              && r.wire.offered == "{\"code\":\"internal_error\",\"error\":\"internal server error\"}"
              && line == Some(LogLine(500, Min(|r.wire.offered|, room)))
            else r.wire == s.wire
  {
    ThroughStaysTruthful(Fresh(headers, room), acts);
    ServedIsTruthful(headers, room, acts, Panicked);
  }

  /** Two mux errors in one request: the second is not recognised as already answered, and the client
      gets the JSON body twice. */
  lemma TwoMuxErrorsAnswerTwice(headers: Headers, room: nat)
    ensures var acts := [SetHeader(CONTENT_TYPE, PLAIN_TEXT), WriteHeader(404),
                         SetHeader(CONTENT_TYPE, PLAIN_TEXT), WriteHeader(404)];
            Served(headers, room, acts, Returned).0.wire.offered == MuxBody(404) + MuxBody(404)
  {
    var plain := [SetHeader(CONTENT_TYPE, PLAIN_TEXT)];
    var w := Fresh(headers, room).wire;
    PlainTextOnly(w, plain);
    assert StatusBetween(plain, 404, plain + [WriteHeader(404)]) ==
      [SetHeader(CONTENT_TYPE, PLAIN_TEXT), WriteHeader(404), SetHeader(CONTENT_TYPE, PLAIN_TEXT), WriteHeader(404)];
    FromTheFirstMuxError(headers, room, plain, 404, plain + [WriteHeader(404)], Returned);
    OneMoreMuxError(AsJson(Plain(w, plain).headers), plain);
  }

  lemma PlainTextOnly(w: Wire, plain: seq<Action>)
    requires plain == [SetHeader(CONTENT_TYPE, PLAIN_TEXT)]
    ensures Plain(w, plain) == w.(headers := w.headers[CONTENT_TYPE := PLAIN_TEXT]) && NeverMuxError(w, plain)
  {
    assert plain[..0] == [];
  }

  lemma OneMoreMuxError(headers: Headers, plain: seq<Action>)
    requires plain == [SetHeader(CONTENT_TYPE, PLAIN_TEXT)]
    ensures Bodies(MuxErrors(headers, plain + [WriteHeader(404)])) == MuxBody(404)
  {
    var acts := plain + [WriteHeader(404)];
    assert plain[..0] == [] && acts[..1] == plain;
    assert Live(headers, plain) == headers[CONTENT_TYPE := PLAIN_TEXT] && MuxErrors(headers, plain) == [];
    assert MuxErrors(headers, acts) == [404];
    BodyOfOne(404);
  }
}
