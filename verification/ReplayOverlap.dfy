/**
 Requests that overlap.  The middleware looks an entry up before the handler and stores it after; it
 holds no lock in between, so other requests can be served there.
 */
module ReplayOverlap {
  import opened Sums
  import opened Replay

  /** A request is looked up, its handler runs, and then it is over. */
  datatype Point = Arrived | Running | Over(answer: Answer)

  datatype Flight = Flight(request: Request, at: Point)

  datatype Traffic = Traffic(store: Store, flights: seq<Flight>)

  datatype Event = Arrive(request: Request) | Move(i: nat)

  function EntryOf(r: Request): Bytes {
    Composite(r.path, r.key)
  }

  /** What becomes of a request at once: passed on, refused, replayed, or handed to the recording handler. */
  function LookedUp(s: Store, r: Request): Point {
    if !Keyed(r) then Over(Answer(Sent(r.ops), true))
    else if |r.key| > MAX_KEY then Over(Answer(TooLong(), false))
    else if EntryOf(r) in s then Over(Answer(Sent(ReplayOps(s[EntryOf(r)])), false))
    else Running
  }

  /** The handler has run: a success is stored, over whatever is there. */
  function Recorded(s: Store, r: Request): Store {
    if Success(Kept(r.ops).status) then s[EntryOf(r) := Kept(r.ops)] else s
  }

  function FlightStep(s: Store, f: Flight): (Store, Flight) {
    match f.at
    case Arrived => (s, f.(at := LookedUp(s, f.request)))
    case Running => (Recorded(s, f.request), f.(at := Over(Answer(Sent(f.request.ops), true))))
    case Over(_) => (s, f)
  }

  function Apply(t: Traffic, e: Event): Traffic {
    match e
    case Arrive(r) => t.(flights := t.flights + [Flight(r, Arrived)])
    case Move(i) =>
      if i < |t.flights| then
        var (s', f') := FlightStep(t.store, t.flights[i]);
        Traffic(s', t.flights[i := f'])
      else t
  }

  function After(t: Traffic, es: seq<Event>, n: nat): Traffic
    requires n <= |es|
  {
    if n == 0 then t else Apply(After(t, es, n - 1), es[n - 1])
  }

  /** A request that nobody overlaps is served as the middleware serves it. */
  lemma AloneIsServed(s: Store, r: Request)
    ensures var (s1, f1) := FlightStep(s, Flight(r, Arrived));
            var (s2, f2) := FlightStep(s1, f1);
            f2.at.Over? && (s2, f2.at.answer) == Serve(s, r)
  {
  }

  // ---------------------------------------------------------------------------------------------
  // One success for an entry

  /** The handler of a guarded request ran and answered 2xx. */
  predicate Reached(f: Flight) {
    Guarded(f.request) && f.at.Over? && f.at.answer.ran && Success(f.at.answer.response.status)
  }

  /** What the traffic looks like while no two requests for an entry are between lookup and store. */
  ghost predicate Apart(t: Traffic) {
    && (forall i :: 0 <= i < |t.flights| && t.flights[i].at.Running? ==>
          Guarded(t.flights[i].request) && EntryOf(t.flights[i].request) !in t.store)
    && (forall i :: 0 <= i < |t.flights| && Reached(t.flights[i]) ==> EntryOf(t.flights[i].request) in t.store)
    && (forall i, j :: 0 <= i < j < |t.flights| && t.flights[i].at.Running? && t.flights[j].at.Running? ==>
          EntryOf(t.flights[i].request) != EntryOf(t.flights[j].request))
    && (forall i, j :: 0 <= i < j < |t.flights| && Reached(t.flights[i]) && Reached(t.flights[j]) ==>
          EntryOf(t.flights[i].request) != EntryOf(t.flights[j].request))
  }

  /** Request i is not about to be looked up while another one runs for its entry. */
  ghost predicate LooksUpAlone(t: Traffic, i: nat) {
    i < |t.flights| && t.flights[i].at.Arrived? ==>
      forall j :: 0 <= j < |t.flights| && t.flights[j].at.Running? ==>
        EntryOf(t.flights[j].request) != EntryOf(t.flights[i].request)
  }

  ghost predicate AllSteady(t: Traffic) {
    forall i :: 0 <= i < |t.flights| ==> Steady(t.flights[i].request.ops)
  }

  lemma LookupKeepsApart(t: Traffic, i: nat)
    requires Apart(t) && i < |t.flights| && t.flights[i].at.Arrived? && LooksUpAlone(t, i)
    ensures Apart(Apply(t, Move(i)))
  {
    var f := t.flights[i];
    assert !Reached(f.(at := LookedUp(t.store, f.request)));
  }

  lemma FinishKeepsApart(t: Traffic, i: nat)
    requires Apart(t) && i < |t.flights| && t.flights[i].at.Running? && Steady(t.flights[i].request.ops)
    ensures Apart(Apply(t, Move(i)))
  {
    SteadyKeepsWhatIsSent(t.flights[i].request.ops);
  }

  lemma EventKeepsApart(t: Traffic, e: Event)
    requires Apart(t) && AllSteady(t) && (e.Move? ==> LooksUpAlone(t, e.i))
    ensures Apart(Apply(t, e))
  {
    if e.Move? && e.i < |t.flights| {
      match t.flights[e.i].at
      case Arrived => LookupKeepsApart(t, e.i);
      case Running => FinishKeepsApart(t, e.i);
      case Over(_) => assert t.flights[e.i := t.flights[e.i]] == t.flights;
    }
  }

  ghost predicate SteadyEvent(e: Event) {
    e.Arrive? ==> Steady(e.request.ops)
  }

  ghost predicate AloneAt(t: Traffic, es: seq<Event>, n: nat)
    requires n < |es|
  {
    es[n].Move? ==> LooksUpAlone(After(t, es, n), es[n].i)
  }

  /**
   If no request is looked up while another one runs for the same entry, then of all the requests for an
   entry, in any interleaving, at most one handler reaches 2xx.
   */
  lemma {:induction false} OneSuccessForEntry(s: Store, es: seq<Event>, n: nat)
    requires n <= |es| && forall k :: 0 <= k < |es| ==> SteadyEvent(es[k])
    requires forall k: nat {:trigger AloneAt(Traffic(s, []), es, k)} :: k < |es| ==> AloneAt(Traffic(s, []), es, k)
    ensures var t := After(Traffic(s, []), es, n); AllSteady(t) && Apart(t)
  {
    if n > 0 {
      OneSuccessForEntry(s, es, n - 1);
      var t := After(Traffic(s, []), es, n - 1);
      assert AloneAt(Traffic(s, []), es, n - 1) && SteadyEvent(es[n - 1]);
      EventKeepsApart(t, es[n - 1]);
    }
  }

  /** And if two are: both handlers run, whatever they answer, and the later store stands. */
  lemma OverlapRunsBoth(s: Store, q: Request, r: Request)
    requires Guarded(q) && Guarded(r) && EntryOf(q) == EntryOf(r) && EntryOf(q) !in s
    requires Success(Kept(q.ops).status) && Success(Kept(r.ops).status)
    ensures var t0 := Traffic(s, [Flight(q, Arrived), Flight(r, Arrived)]);
            var t := After(t0, [Move(0), Move(1), Move(0), Move(1)], 4);
            && t.flights == [Flight(q, Over(Answer(Sent(q.ops), true))), Flight(r, Over(Answer(Sent(r.ops), true)))]
            && EntryOf(q) in t.store && t.store[EntryOf(q)] == Kept(r.ops)
  {
    var es := [Move(0), Move(1), Move(0), Move(1)];
    var t0 := Traffic(s, [Flight(q, Arrived), Flight(r, Arrived)]);
    assert After(t0, es, 1) == Traffic(s, [Flight(q, Running), Flight(r, Arrived)]);
    assert After(t0, es, 2) == Traffic(s, [Flight(q, Running), Flight(r, Running)]);
    var s1 := Recorded(s, q);
    assert After(t0, es, 3) == Traffic(s1, [Flight(q, Over(Answer(Sent(q.ops), true))), Flight(r, Running)]);
  }
}
