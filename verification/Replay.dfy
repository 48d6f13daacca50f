/** internal/middleware/idempotency.go: recording the first success of a keyed request and replaying it. */
module Replay {
  import opened Sums

  type Bytes = seq<bv8>

  const COLON: bv8 := 58
  const MAX_KEY := 255

  datatype Method = Get | Head | Options | Other(name: Bytes)

  /** What a handler does to its response writer. */
  datatype WriteOp = WriteHeader(status: int) | Write(bytes: Bytes)

  /** A request, who makes it, and what the handler would do with it if it were to run now. */
  datatype Request = Request(caller: string, verb: Method, path: Bytes, key: Bytes, ops: seq<WriteOp>)

  datatype Response = Response(status: int, body: Bytes)

  datatype Answer = Answer(response: Response, ran: bool)

  type Store = map<Bytes, Response>

  // ---------------------------------------------------------------------------------------------
  // What the client sees, and what the recorder keeps

  /** Status codes that announce another one. */
  predicate Informational(status: int) {
    100 <= status <= 199 && status != 101
  }

  /** Responses with these codes carry no body. */
  predicate BodyAllowed(status: int) {
    !(100 <= status <= 199) && status != 204 && status != 304
  }

  /** The net/http writer: the first final status counts, and writing a body without one means 200. */
  datatype Wire = Wire(sent: Option<int>, body: Bytes)

  function OnWire(w: Wire, op: WriteOp): Wire {
    match op
    case WriteHeader(s) => if w.sent.Some? || Informational(s) then w else w.(sent := Some(s))
    case Write(b) =>
      var status := if w.sent.Some? then w.sent.value else 200;
      Wire(Some(status), if BodyAllowed(status) then w.body + b else w.body)
  }

  function WireAfter(ops: seq<WriteOp>, n: nat): Wire
    requires n <= |ops|
  {
    if n == 0 then Wire(None, []) else OnWire(WireAfter(ops, n - 1), ops[n - 1])
  }

  function Seen(w: Wire): Response {
    Response(if w.sent.Some? then w.sent.value else 200, w.body)
  }

  /** What the client gets. */
  function Sent(ops: seq<WriteOp>): Response {
    Seen(WireAfter(ops, |ops|))
  }

  function Noted(r: Response, op: WriteOp): Response {
    match op
    case WriteHeader(s) => r.(status := s)
    case Write(b) => r.(body := r.body + b)
  }

  function NotedAfter(ops: seq<WriteOp>, n: nat): Response
    requires n <= |ops|
  {
    if n == 0 then Response(200, []) else Noted(NotedAfter(ops, n - 1), ops[n - 1])
  }

  /** What the recording writer keeps: the last status and every byte. */
  function Kept(ops: seq<WriteOp>): Response {
    NotedAfter(ops, |ops|)
  }

  function ReplayOps(r: Response): seq<WriteOp> {
    [WriteHeader(r.status), Write(r.body)]
  }

  predicate Success(status: int) {
    200 <= status < 300
  }

  // ---------------------------------------------------------------------------------------------
  // The middleware

  function Composite(path: Bytes, key: Bytes): Bytes {
    path + [COLON] + key
  }

  predicate Keyed(r: Request) {
    r.verb.Other? && r.key != []
  }

  predicate Guarded(r: Request) {
    Keyed(r) && |r.key| <= MAX_KEY
  }

  function TooLong(): Response {
    Response(400, [])
  }

  /** Serving one request; the body of the refusal of a long key is not modelled. */
  function Serve(s: Store, r: Request): (Store, Answer) {
    if !Keyed(r) then (s, Answer(Sent(r.ops), true))
    else if |r.key| > MAX_KEY then (s, Answer(TooLong(), false))
    else
      var k := Composite(r.path, r.key);
      if k in s then (s, Answer(Sent(ReplayOps(s[k])), false))
      else (if Success(Kept(r.ops).status) then s[k := Kept(r.ops)] else s, Answer(Sent(r.ops), true))
  }

  function StoreAfter(s: Store, rs: seq<Request>, n: nat): Store
    requires n <= |rs|
  {
    if n == 0 then s else Serve(StoreAfter(s, rs, n - 1), rs[n - 1]).0
  }

  function AnswerAt(s: Store, rs: seq<Request>, i: nat): Answer
    requires i < |rs|
  {
    Serve(StoreAfter(s, rs, i), rs[i]).1
  }

  class InMemoryIDKeyStore {
    var data: Store

    constructor ()
      ensures data == map[]
    {
      data := map[];
    }

    method Get(path: Bytes, key: Bytes) returns (r: Option<Response>)
      ensures r == if Composite(path, key) in data then Some(data[Composite(path, key)]) else None
    {
      var k := Composite(path, key);
      r := if k in data then Some(data[k]) else None;
    }

    method Set(path: Bytes, key: Bytes, r: Response)
      modifies this
      ensures data == old(data)[Composite(path, key) := r]
    {
      data := data[Composite(path, key) := r];
    }
  }

  class ResponseWriter {
    var sent: Option<int>
    var body: Bytes

    constructor ()
      ensures sent == None && body == []
    {
      sent, body := None, [];
    }

    function Now(): Wire
      reads this
    {
      Wire(sent, body)
    }

    method Apply(op: WriteOp)
      modifies this
      ensures Now() == OnWire(old(Now()), op)
    {
      match op {
        case WriteHeader(s) =>
          if sent.None? && !Informational(s) {
            sent := Some(s);
          }
        case Write(b) =>
          if sent.None? {
            sent := Some(200);
          }
          if BodyAllowed(sent.value) {
            body := body + b;
          }
      }
    }
  }

  class IdempotencyResponseWriter {
    const inner: ResponseWriter
    var status: int
    var body: Bytes

    constructor (inner: ResponseWriter)
      ensures this.inner == inner && status == 200 && body == []
    {
      this.inner, status, body := inner, 200, [];
    }

    method Apply(op: WriteOp)
      modifies this, inner
      ensures Response(status, body) == Noted(old(Response(status, body)), op)
      ensures inner.Now() == OnWire(old(inner.Now()), op)
    {
      match op {
        case WriteHeader(s) => status := s;
        case Write(b) => body := body + b;
      }
      inner.Apply(op);
    }
  }

  class Idempotency {
    const store: InMemoryIDKeyStore

    constructor (store: InMemoryIDKeyStore)
      ensures this.store == store
    {
      this.store := store;
    }

    /** The handler at work on a plain writer. */
    method Run(ops: seq<WriteOp>, w: ResponseWriter)
      requires w.Now() == Wire(None, [])
      modifies w
      ensures Seen(w.Now()) == Sent(ops)
    {
      for i := 0 to |ops|
        invariant w.Now() == WireAfter(ops, i)
      {
        w.Apply(ops[i]);
      }
    }

    /** The handler at work on a recording writer. */
    method RunRecorded(ops: seq<WriteOp>, w: ResponseWriter) returns (kept: Response)
      requires w.Now() == Wire(None, [])
      modifies w
      ensures Seen(w.Now()) == Sent(ops) && kept == Kept(ops)
    {
      var rw := new IdempotencyResponseWriter(w);
      for i := 0 to |ops|
        invariant w.Now() == WireAfter(ops, i) && Response(rw.status, rw.body) == NotedAfter(ops, i)
      {
        rw.Apply(ops[i]);
      }
      kept := Response(rw.status, rw.body);
    }

    method ServeHTTP(r: Request) returns (a: Answer)
      modifies store
      ensures (store.data, a) == Serve(old(store.data), r)
    {
      var w := new ResponseWriter();
      if !r.verb.Other? || r.key == [] {
        Run(r.ops, w);
        return Answer(Seen(w.Now()), true);
      }
      if |r.key| > MAX_KEY {
        return Answer(TooLong(), false);
      }
      var existing := store.Get(r.path, r.key);
      if existing.Some? {
        Run(ReplayOps(existing.value), w);
        return Answer(Seen(w.Now()), false);
      }
      var kept := RunRecorded(r.ops, w);
      if 200 <= kept.status < 300 {
        store.Set(r.path, r.key, kept);
      }
      return Answer(Seen(w.Now()), true);
    }
  }

  // ---------------------------------------------------------------------------------------------
  // Faithfulness

  /** Once the status is out, exactly the bytes that it allows follow. */
  lemma {:induction false} WireBody(ops: seq<WriteOp>, n: nat)
    requires n <= |ops|
    ensures var w, kept := WireAfter(ops, n), NotedAfter(ops, n);
            && (w.sent.None? ==> w.body == [] == kept.body)
            && (w.sent.Some? ==> w.body == if BodyAllowed(w.sent.value) then kept.body else [])
  {
    if n > 0 {
      WireBody(ops, n - 1);
    }
  }

  lemma ReplayOf(r: Response)
    requires !Informational(r.status)
    ensures Sent(ReplayOps(r)) == Response(r.status, if BodyAllowed(r.status) then r.body else [])
  {
    var ops := ReplayOps(r);
    assert WireAfter(ops, 1) == Wire(Some(r.status), []);
    assert WireAfter(ops, 2) == OnWire(WireAfter(ops, 1), Write(r.body));
    assert [] + r.body == r.body;
  }

  /** The status that goes out: the first final header from op i on, or 200 if a body comes first or nothing does. */
  function FirstFinal(ops: seq<WriteOp>, i: nat): int
    requires i <= |ops|
    decreases |ops| - i
  {
    if i == |ops| then 200
    else
      match ops[i]
      case Write(_) => 200
      case WriteHeader(s) => if Informational(s) then FirstFinal(ops, i + 1) else s
  }

  /** The last header that the handler sets in its first n ops; 200 if it sets none. */
  function LastHeader(ops: seq<WriteOp>, n: nat): int
    requires n <= |ops|
  {
    if n == 0 then 200
    else
      match ops[n - 1]
      case Write(_) => LastHeader(ops, n - 1)
      case WriteHeader(s) => s
  }

  lemma {:induction false} SentIsFirst(ops: seq<WriteOp>, n: nat)
    requires n <= |ops|
    ensures var w := WireAfter(ops, n);
            FirstFinal(ops, 0) == if w.sent.Some? then w.sent.value else FirstFinal(ops, n)
  {
    if n > 0 {
      SentIsFirst(ops, n - 1);
    }
  }

  lemma {:induction false} KeptIsLast(ops: seq<WriteOp>, n: nat)
    requires n <= |ops|
    ensures NotedAfter(ops, n).status == LastHeader(ops, n)
  {
    if n > 0 {
      KeptIsLast(ops, n - 1);
    }
  }

  /** The handler does not change its mind: the last header it sets is the status that goes out. */
  predicate Steady(ops: seq<WriteOp>) {
    FirstFinal(ops, 0) == LastHeader(ops, |ops|)
  }

  lemma SteadyKeepsWhatIsSent(ops: seq<WriteOp>)
    ensures Sent(ops).status == FirstFinal(ops, 0) && Kept(ops).status == LastHeader(ops, |ops|)
    ensures Kept(ops).status == Sent(ops).status <==> Steady(ops)
  {
    SentIsFirst(ops, |ops|);
    KeptIsLast(ops, |ops|);
  }

  /** An answer of 2xx is recorded, and replayed byte for byte, if and only if the handler was steady. */
  lemma ReplayIsFaithful(ops: seq<WriteOp>)
    requires Success(Sent(ops).status)
    ensures Success(Kept(ops).status) && Sent(ReplayOps(Kept(ops))) == Sent(ops) <==> Steady(ops)
  {
    SteadyKeepsWhatIsSent(ops);
    WireBody(ops, |ops|);
    if Success(Kept(ops).status) {
      ReplayOf(Kept(ops));
    }
  }

  /** A handler that sets at most one status, before it writes anything. */
  predicate WellBehaved(ops: seq<WriteOp>) {
    && (forall i :: 0 < i < |ops| ==> ops[i].Write?)
    && (|ops| > 0 && ops[0].WriteHeader? ==> !Informational(ops[0].status))
  }

  lemma {:induction false} OneHeader(ops: seq<WriteOp>, n: nat)
    requires WellBehaved(ops) && n <= |ops|
    ensures LastHeader(ops, n) == if n > 0 && ops[0].WriteHeader? then ops[0].status else 200
  {
    if n > 1 {
      OneHeader(ops, n - 1);
    } else if n == 1 {
      assert LastHeader(ops, 0) == 200;
    }
  }

  lemma WellBehavedIsSteady(ops: seq<WriteOp>)
    requires WellBehaved(ops)
    ensures Steady(ops)
  {
    OneHeader(ops, |ops|);
  }

  // ---------------------------------------------------------------------------------------------
  // One request

  /** Everything the handler writes in its first n ops. */
  function AllBytes(ops: seq<WriteOp>, n: nat): Bytes
    requires n <= |ops|
  {
    if n == 0 then []
    else if ops[n - 1].Write? then AllBytes(ops, n - 1) + ops[n - 1].bytes
    else AllBytes(ops, n - 1)
  }

  lemma {:induction false} KeptBytes(ops: seq<WriteOp>, n: nat)
    requires n <= |ops|
    ensures NotedAfter(ops, n).body == AllBytes(ops, n)
  {
    if n > 0 {
      KeptBytes(ops, n - 1);
    }
  }

  /** The handler's own answer: its first final header, and all its bytes unless that status has no body. */
  predicate IsOwnAnswer(r: Response, ops: seq<WriteOp>) {
    && r.status == FirstFinal(ops, 0)
    && r.body == if 100 <= r.status < 200 || r.status == 204 || r.status == 304 then [] else AllBytes(ops, |ops|)
  }

  lemma SentIsOwnAnswer(ops: seq<WriteOp>)
    ensures IsOwnAnswer(Sent(ops), ops)
  {
    SentIsFirst(ops, |ops|);
    WireBody(ops, |ops|);
    KeptBytes(ops, |ops|);
  }

  /** GET, HEAD and OPTIONS, and requests without a key, go to the handler and leave the store alone. */
  lemma PassedThrough(s: Store, r: Request)
    requires r.verb == Get || r.verb == Head || r.verb == Options || |r.key| == 0
    ensures var (s', a) := Serve(s, r);
            s' == s && a.ran && IsOwnAnswer(a.response, r.ops)
  {
    SentIsOwnAnswer(r.ops);
  }

  /** A key of more than 255 bytes is refused. */
  lemma LongKeysAreRefused(s: Store, r: Request)
    requires r.verb.Other? && 255 < |r.key|
    ensures var (s', a) := Serve(s, r);
            s' == s && !a.ran && a.response.status == 400
  {
  }

  /**
   A keyed request without an entry goes to the handler; an entry is made of its last status and all
   its bytes if and only if that status is 2xx, and no other entry changes.
   */
  lemma FirstIsRecorded(s: Store, r: Request)
    requires r.verb.Other? && 0 < |r.key| <= 255 && r.path + [COLON] + r.key !in s
    ensures var (s', a) := Serve(s, r);
            var kept := Response(LastHeader(r.ops, |r.ops|), AllBytes(r.ops, |r.ops|));
            && a.ran && IsOwnAnswer(a.response, r.ops)
            && s' == if 200 <= kept.status <= 299 then s[r.path + [COLON] + r.key := kept] else s
  {
    SentIsOwnAnswer(r.ops);
    KeptIsLast(r.ops, |r.ops|);
    KeptBytes(r.ops, |r.ops|);
  }

  /** With an entry the handler does not run, and its status and bytes are the answer. */
  lemma KnownIsReplayed(s: Store, r: Request)
    requires r.verb.Other? && 0 < |r.key| <= 255 && r.path + [COLON] + r.key in s
    requires Success(s[r.path + [COLON] + r.key].status)
    ensures var (s', a) := Serve(s, r);
            var kept := s[r.path + [COLON] + r.key];
            && s' == s && !a.ran && a.response == Response(kept.status, if kept.status == 204 then [] else kept.body)
  {
    ReplayOf(s[r.path + [COLON] + r.key]);
  }

  // ---------------------------------------------------------------------------------------------
  // Runs

  /** Stored entries are never changed or removed. */
  lemma {:induction false} EntriesStay(s: Store, rs: seq<Request>, i: nat, n: nat, k: Bytes)
    requires i <= n <= |rs| && k in StoreAfter(s, rs, i)
    ensures k in StoreAfter(s, rs, n) && StoreAfter(s, rs, n)[k] == StoreAfter(s, rs, i)[k]
    decreases n
  {
    if n > i {
      EntriesStay(s, rs, i, n - 1, k);
    }
  }

  /** Everything that is stored was a success. */
  lemma {:induction false} EntriesAreSuccesses(s: Store, rs: seq<Request>, n: nat, k: Bytes)
    requires n <= |rs| && (forall j :: j in s ==> Success(s[j].status)) && k in StoreAfter(s, rs, n)
    ensures Success(StoreAfter(s, rs, n)[k].status)
  {
    if n > 0 && k in StoreAfter(s, rs, n - 1) {
      EntriesStay(s, rs, n - 1, n, k);
      EntriesAreSuccesses(s, rs, n - 1, k);
    }
  }

  predicate SameEntry(q: Request, r: Request) {
    Guarded(q) && Guarded(r) && Composite(q.path, q.key) == Composite(r.path, r.key)
  }

  /** After a steady handler has answered 2xx, no later request for the entry runs a handler, and all get that answer. */
  lemma SuccessIsReplayed(s: Store, rs: seq<Request>, i: nat, j: nat)
    requires i < j < |rs| && SameEntry(rs[i], rs[j])
    requires AnswerAt(s, rs, i).ran && Success(AnswerAt(s, rs, i).response.status) && Steady(rs[i].ops)
    ensures !AnswerAt(s, rs, j).ran && AnswerAt(s, rs, j).response == AnswerAt(s, rs, i).response
  {
    var k := Composite(rs[i].path, rs[i].key);
    ReplayIsFaithful(rs[i].ops);
    assert StoreAfter(s, rs, i + 1)[k] == Kept(rs[i].ops);
    EntriesStay(s, rs, i + 1, j, k);
  }

  /** Entries belong to no user: whoever uses path and key of a steady success gets its answer, and runs nothing. */
  lemma EntriesAreShared(s: Store, rs: seq<Request>, i: nat, j: nat)
    requires i < j < |rs| && Guarded(rs[i]) && Guarded(rs[j])
    requires rs[j].path == rs[i].path && rs[j].key == rs[i].key && rs[j].caller != rs[i].caller
    requires AnswerAt(s, rs, i).ran && Success(AnswerAt(s, rs, i).response.status) && Steady(rs[i].ops)
    ensures !AnswerAt(s, rs, j).ran && AnswerAt(s, rs, j).response == AnswerAt(s, rs, i).response
  {
    SuccessIsReplayed(s, rs, i, j);
  }

  lemma {:induction false} StaysAbsent(s: Store, rs: seq<Request>, i: nat, n: nat, k: Bytes)
    requires i <= n <= |rs| && k !in StoreAfter(s, rs, i)
    requires forall x :: i <= x < n && Guarded(rs[x]) ==> Composite(rs[x].path, rs[x].key) != k
    ensures k !in StoreAfter(s, rs, n)
    decreases n
  {
    if n > i {
      StaysAbsent(s, rs, i, n - 1, k);
    }
  }

  /**
   Replay faithfulness, exactly.  After a request that ran and was answered 2xx, the next request for
   the same entry runs no handler and gets the identical answer if and only if the first handler was
   steady: the last header it set is the first final one it sent.
   */
  lemma NextIsReplayed(s: Store, rs: seq<Request>, i: nat, j: nat)
    requires i < j < |rs| && SameEntry(rs[i], rs[j]) && forall x :: i < x < j ==> !SameEntry(rs[i], rs[x])
    requires AnswerAt(s, rs, i).ran && Success(AnswerAt(s, rs, i).response.status)
    ensures !AnswerAt(s, rs, j).ran && AnswerAt(s, rs, j).response == AnswerAt(s, rs, i).response <==> Steady(rs[i].ops)
  {
    var k := Composite(rs[i].path, rs[i].key);
    ReplayIsFaithful(rs[i].ops);
    if Success(Kept(rs[i].ops).status) {
      assert StoreAfter(s, rs, i + 1)[k] == Kept(rs[i].ops);
      EntriesStay(s, rs, i + 1, j, k);
    } else {
      StaysAbsent(s, rs, i + 1, j, k);
    }
  }

  /**
   In a run in which every handler is well-behaved, the handlers reach 2xx at most once for an entry,
   and from then on every request for it is answered byte for byte like that one.
   */
  lemma SuccessAtMostOnce(s: Store, rs: seq<Request>, i: nat, j: nat)
    requires forall x :: 0 <= x < |rs| ==> WellBehaved(rs[x].ops)
    requires i < j < |rs| && SameEntry(rs[i], rs[j])
    requires AnswerAt(s, rs, i).ran && Success(AnswerAt(s, rs, i).response.status)
    ensures !AnswerAt(s, rs, j).ran && AnswerAt(s, rs, j).response == AnswerAt(s, rs, i).response
  {
    WellBehavedIsSteady(rs[i].ops);
    SuccessIsReplayed(s, rs, i, j);
  }

  /** A handler that sends 200 and then sets 500: the client has its 200, nothing is recorded, and a retry runs it again. */
  lemma SecondStatusRunsAgain(s: Store, caller: string, path: Bytes, key: Bytes, verb: Bytes)
    requires 0 < |key| <= MAX_KEY && Composite(path, key) !in s
    ensures var r := Request(caller, Other(verb), path, key, [WriteHeader(200), WriteHeader(500)]);
            var (s1, a1) := Serve(s, r);
            var (s2, a2) := Serve(s1, r);
            && !Steady(r.ops)
            && a1 == a2 == Answer(Response(200, []), true) && s2 == s1 == s
  {
    var ops := [WriteHeader(200), WriteHeader(500)];
    assert WireAfter(ops, 1) == Wire(Some(200), []) && WireAfter(ops, 2) == Wire(Some(200), []);
    assert NotedAfter(ops, 2) == Noted(NotedAfter(ops, 1), WriteHeader(500));
    assert FirstFinal(ops, 0) == 200 && LastHeader(ops, 2) == 500;
  }

  /** A handler that sends 201 and then sets 202: the retry is replayed with the other status. */
  lemma SecondStatusIsReplayed(s: Store, caller: string, path: Bytes, key: Bytes, verb: Bytes)
    requires 0 < |key| <= MAX_KEY && Composite(path, key) !in s
    ensures var r := Request(caller, Other(verb), path, key, [WriteHeader(201), WriteHeader(202)]);
            var (s1, a1) := Serve(s, r);
            var (_, a2) := Serve(s1, r);
            && !Steady(r.ops)
            && a1 == Answer(Response(201, []), true) && a2 == Answer(Response(202, []), false)
  {
    var ops := [WriteHeader(201), WriteHeader(202)];
    assert WireAfter(ops, 1) == Wire(Some(201), []) && WireAfter(ops, 2) == Wire(Some(201), []);
    assert NotedAfter(ops, 2) == Noted(NotedAfter(ops, 1), WriteHeader(202)) == Response(202, []);
    assert FirstFinal(ops, 0) == 201 && LastHeader(ops, 2) == 202;
    ReplayOf(Response(202, []));
  }

  /** A replay is answered alike for ever. */
  lemma ReplaysAgree(s: Store, rs: seq<Request>, i: nat, j: nat)
    requires i < j < |rs| && Guarded(rs[i]) && Guarded(rs[j])
    requires Composite(rs[i].path, rs[i].key) == Composite(rs[j].path, rs[j].key)
    requires !AnswerAt(s, rs, i).ran
    ensures AnswerAt(s, rs, j) == AnswerAt(s, rs, i)
  {
    EntriesStay(s, rs, i, j, Composite(rs[i].path, rs[i].key));
  }

  lemma FirstColon(p: Bytes, k: Bytes)
    requires forall i :: 0 <= i < |p| ==> p[i] != COLON
    ensures var c := Composite(p, k);
            && |p| < |c| && c[|p|] == COLON && (forall i :: 0 <= i < |p| ==> c[i] != COLON)
            && c[..|p|] == p && c[|p| + 1..] == k
  {
  }

  /** Paths without a colon: two requests share an entry only if path and key agree. */
  lemma CompositeTellsApart(p: Bytes, k: Bytes, q: Bytes, l: Bytes)
    requires forall i :: 0 <= i < |p| ==> p[i] != COLON
    requires forall i :: 0 <= i < |q| ==> q[i] != COLON
    ensures Composite(p, k) == Composite(q, l) <==> p == q && k == l
  {
    FirstColon(p, k);
    FirstColon(q, l);
  }

  /** With a colon in the path they can share one: the middleware does not escape it. */
  lemma CompositeCollides(p: Bytes, q: Bytes, k: Bytes)
    ensures Composite(p + [COLON] + q, k) == Composite(p, q + [COLON] + k)
  {
    assert p + [COLON] + q + [COLON] + k == p + [COLON] + (q + [COLON] + k);
  }
}
