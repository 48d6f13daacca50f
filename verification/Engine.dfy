/**
 Any number of transfers, deposits and top-ups at work on the same tables, one atomic step at a time in
 any order.  The invariant of all reachable states, and what it says about wallets and transactions.
 */
module Engine {
  import opened Sums
  import opened Ledger
  import opened Sourcing
  import opened SourcingLaws
  import opened Transactions
  import opened Transfer
  import opened TransferLaws
  import opened TransferTree
  import opened MoneyIn
  import opened MoneyLaws

  datatype System = System(t: Tables, m: Money, tasks: seq<Task>, runs: seq<Run>)

  datatype Event =
    | BeginTransfer(user: User, req: Request, env: Env)
    | StepTransfer(i: nat)
    | BeginTask(task: Task)
    | StepTask(i: nat)
    | Tick(dt: nat)

  /** Negative amounts do not get past the handlers; anything else may happen at any time. */
  function Apply(s: System, e: Event): System {
    match e
    case BeginTransfer(u, req, env) =>
      if req.amount < 0 then s else s.(runs := s.runs + [Begin(u, req, env)])
    case StepTransfer(i) =>
      if i < |s.runs| then
        var (t', l') := Step(s.t, s.runs[i]);
        s.(t := t', runs := s.runs[i := l'])
      else s
    case BeginTask(k) =>
      if Unstarted(k) then s.(tasks := s.tasks + [k]) else s
    case StepTask(i) =>
      if i < |s.tasks| then
        var (b', m', k') := TaskStep(s.t.book, s.m, s.tasks[i]);
        s.(t := s.t.(book := b'), m := m', tasks := s.tasks[i := k'])
      else s
    case Tick(dt) => s.(m := s.m.(now := s.m.now + dt))
  }

  /** The state after the first n events. */
  function After(s: System, es: seq<Event>, n: nat): System
    requires n <= |es|
  {
    if n == 0 then s else Apply(After(s, es, n - 1), es[n - 1])
  }

  // ---------------------------------------------------------------------------------------------
  // The invariant

  ghost function HeldFor(u: User): Run -> int {
    (l: Run) => if l.user == u then l.held else 0
  }

  ghost function SettledFor(u: User): Run -> int {
    (l: Run) => if l.user == u then l.settled else 0
  }

  /**
   Conservation.  Since s0, what is held of each wallet has grown by what the transfers hold, and its
   balance by the credits recorded on deposits and top-ups less what the transfers settled.
   */
  ghost predicate Conserved(s0: System, s: System) {
    && s.t.book.Keys == s0.t.book.Keys
    && forall u :: u in s.t.book ==>
         && Gap(s.t.book[u]) == Gap(s0.t.book[u]) + Tally(s.runs, HeldFor(u))
         && s.t.book[u].balance
            == s0.t.book[u].balance + CreditsOf(s.m, u) - CreditsOf(s0.m, u) - Tally(s.runs, SettledFor(u))
  }

  ghost predicate RunsOk(s: System) {
    forall i :: 0 <= i < |s.runs| ==> Accounted(s.runs[i], s.t.book)
  }

  ghost predicate TreesOk(s: System) {
    && RowsRefer(s.t)
    && (forall i :: 0 <= i < |s.runs| ==> InTree(s.t, s.runs[i]) && PayoutInTime(s.runs[i]))
    && (forall i, j :: 0 <= i < j < |s.runs| && s.runs[i].parent.Some? ==> s.runs[i].parent != s.runs[j].parent)
  }

  ghost predicate Inv(s0: System, s: System) {
    && AllChecks(s0.t.book) && AllChecks(s.t.book)
    && Conserved(s0, s)
    && RunsOk(s)
    && TreesOk(s)
    && MoneyOk(s.m, s.tasks)
  }

  /** Where runs start: tables in order, nobody at work. */
  ghost predicate Start(s: System) {
    && s.runs == [] && s.tasks == []
    && AllChecks(s.t.book) && RowsRefer(s.t) && MoneyOk(s.m, [])
  }

  // ---------------------------------------------------------------------------------------------
  // Wallets, when a transfer moves

  /** What one transfer holds is part of what is held of its wallet. */
  lemma HeldFits(s0: System, s: System, i: nat)
    requires Inv(s0, s) && i < |s.runs|
    ensures Covered(s.t, s.runs[i])
  {
    var l := s.runs[i];
    assert Accounted(l, s.t.book);
    if l.user in s.t.book {
      assert Checks(s0.t.book[l.user]);
      forall j | 0 <= j < |s.runs|
        ensures 0 <= HeldFor(l.user)(s.runs[j])
      {
        assert Accounted(s.runs[j], s.t.book);
        HeldIsNotNegative(s.runs[j], s.t.book);
      }
      TallyAtLeast(s.runs, HeldFor(l.user), i, |s.runs|);
    }
  }

  lemma HeldIsNotNegative(l: Run, b: Book)
    requires Accounted(l, b)
    ensures 0 <= l.held
  {
  }

  lemma TransferConserves(s0: System, s: System, i: nat)
    requires Inv(s0, s) && i < |s.runs|
    ensures Conserved(s0, Apply(s, StepTransfer(i)))
  {
    var l := s.runs[i];
    var (t', l') := Step(s.t, l);
    StepMoves(s.t, l);
    forall u | u in t'.book
      ensures Gap(t'.book[u]) == Gap(s0.t.book[u]) + Tally(s.runs[i := l'], HeldFor(u))
      ensures t'.book[u].balance
              == s0.t.book[u].balance + CreditsOf(s.m, u) - CreditsOf(s0.m, u) - Tally(s.runs[i := l'], SettledFor(u))
    {
      TallyUpdate(s.runs, i, l', HeldFor(u));
      TallyUpdate(s.runs, i, l', SettledFor(u));
    }
  }

  lemma SameKeysAccounted(l: Run, b: Book, b': Book)
    requires Accounted(l, b) && b'.Keys == b.Keys
    ensures Accounted(l, b')
  {
  }

  lemma TransferKeepsRuns(s0: System, s: System, i: nat)
    requires Inv(s0, s) && i < |s.runs|
    ensures RunsOk(Apply(s, StepTransfer(i))) && AllChecks(Apply(s, StepTransfer(i)).t.book)
  {
    var s' := Apply(s, StepTransfer(i));
    HeldFits(s0, s, i);
    StepKeepsAccounts(s.t, s.runs[i]);
    StepMoves(s.t, s.runs[i]);
    forall j | 0 <= j < |s'.runs|
      ensures Accounted(s'.runs[j], s'.t.book)
    {
      if j != i {
        SameKeysAccounted(s.runs[j], s.t.book, s'.t.book);
      }
    }
  }

  // ---------------------------------------------------------------------------------------------
  // Rows, when a transfer moves

  /** Only making the parent row gives a transfer its parent, and until then it moves no money at banks. */
  lemma ParentOnce(t: Tables, l: Run)
    requires InTree(t, l)
    ensures var (t', l') := Step(t, l);
            && (l'.parent == l.parent || (l.parent.None? && l'.parent == Some(|t.txns|) && |t'.txns| == |t.txns| + 1))
            && (l.parent.None? ==> t'.pulls == t.pulls && t'.payouts == t.payouts)
  {
  }

  lemma TransferKeepsOthers(s0: System, s: System, i: nat, j: nat)
    requires Inv(s0, s) && i < |s.runs| && j < |s.runs| && i != j
    ensures InTree(Step(s.t, s.runs[i]).0, s.runs[j])
  {
    var l, o := s.runs[i], s.runs[j];
    assert InTree(s.t, l) && InTree(s.t, o);
    StepTouches(s.t, l);
    OthersUndisturbed(s.t, Step(s.t, l).0, Owner(s.t, l), o);
  }

  lemma TransferKeepsOwnTree(s0: System, s: System, i: nat)
    requires Inv(s0, s) && i < |s.runs|
    ensures var (t', l') := Step(s.t, s.runs[i]);
            InTree(t', l') && PayoutInTime(l') && RowsRefer(t')
  {
    var l := s.runs[i];
    assert InTree(s.t, l) && PayoutInTime(l) && Accounted(l, s.t.book);
    StepTouches(s.t, l);
    ParentOnce(s.t, l);
    TouchKeepsReferences(s.t, Step(s.t, l).0, Owner(s.t, l));
    StepStaysInTree(s.t, l);
    PayoutStaysInTime(s.t, l);
  }

  lemma TransferKeepsTrees(s0: System, s: System, i: nat)
    requires Inv(s0, s) && i < |s.runs|
    ensures TreesOk(Apply(s, StepTransfer(i)))
  {
    var (t', l') := Step(s.t, s.runs[i]);
    var runs' := s.runs[i := l'];
    TransferKeepsOwnTree(s0, s, i);
    forall j | 0 <= j < |runs'|
      ensures InTree(t', runs'[j]) && PayoutInTime(runs'[j])
    {
      if j != i {
        TransferKeepsOthers(s0, s, i, j);
      }
    }
    assert InTree(s.t, s.runs[i]);
    ParentOnce(s.t, s.runs[i]);
    NewParentIsNew(s, i, t', l');
  }

  lemma NewParentIsNew(s: System, i: nat, t': Tables, l': Run)
    requires TreesOk(s) && i < |s.runs|
    requires l'.parent == s.runs[i].parent || l'.parent == Some(|s.t.txns|)
    ensures var runs' := s.runs[i := l'];
            forall j, k :: 0 <= j < k < |runs'| && runs'[j].parent.Some? ==> runs'[j].parent != runs'[k].parent
  {
    forall j | 0 <= j < |s.runs|
      ensures s.runs[j].parent != Some(|s.t.txns|)
    {
      assert InTree(s.t, s.runs[j]);
    }
  }

  lemma TransferKeepsInv(s0: System, s: System, i: nat)
    requires Inv(s0, s) && i < |s.runs|
    ensures Inv(s0, Apply(s, StepTransfer(i)))
  {
    TransferConserves(s0, s, i);
    TransferKeepsRuns(s0, s, i);
    TransferKeepsTrees(s0, s, i);
  }

  // ---------------------------------------------------------------------------------------------
  // The other events

  lemma BookAside(t: Tables, t': Tables, l: Run)
    requires InTree(t, l) && t'.txns == t.txns && t'.pulls == t.pulls && t'.payouts == t.payouts
    ensures InTree(t', l)
  {
  }

  lemma TaskKeepsRuns(s: System, i: nat)
    requires RunsOk(s) && TreesOk(s) && i < |s.tasks|
    requires TaskStep(s.t.book, s.m, s.tasks[i]).0.Keys == s.t.book.Keys
    ensures RunsOk(Apply(s, StepTask(i))) && TreesOk(Apply(s, StepTask(i)))
  {
    var s' := Apply(s, StepTask(i));
    forall j | 0 <= j < |s.runs|
      ensures Accounted(s.runs[j], s'.t.book) && InTree(s'.t, s.runs[j])
    {
      SameKeysAccounted(s.runs[j], s.t.book, s'.t.book);
      BookAside(s.t, s'.t, s.runs[j]);
    }
  }

  lemma TaskKeepsInv(s0: System, s: System, i: nat)
    requires Inv(s0, s) && i < |s.tasks|
    ensures Inv(s0, Apply(s, StepTask(i)))
  {
    assert InPlace(s.m, s.tasks[i]);
    StepBanks(s.t.book, s.m, s.tasks[i]);
    StepKeepsMoneyOk(s.t.book, s.m, s.tasks, i);
    TaskKeepsRuns(s, i);
  }

  lemma BeginConserves(s0: System, s: System, l: Run)
    requires Conserved(s0, s) && l.held == 0 && l.settled == 0
    ensures Conserved(s0, s.(runs := s.runs + [l]))
  {
    forall v | v in s.t.book
      ensures Tally(s.runs + [l], HeldFor(v)) == Tally(s.runs, HeldFor(v))
      ensures Tally(s.runs + [l], SettledFor(v)) == Tally(s.runs, SettledFor(v))
    {
      TallySnoc(s.runs, l, HeldFor(v));
      TallySnoc(s.runs, l, SettledFor(v));
    }
  }

  lemma BeginKeepsInv(s0: System, s: System, u: User, req: Request, env: Env)
    requires Inv(s0, s) && 0 <= req.amount
    ensures Inv(s0, Apply(s, BeginTransfer(u, req, env)))
  {
    var l := Begin(u, req, env);
    BeginConserves(s0, s, l);
    assert Accounted(l, s.t.book) && InTree(s.t, l) && PayoutInTime(l);
  }

  lemma BeginTaskKeepsInv(s0: System, s: System, k: Task)
    requires Inv(s0, s) && Unstarted(k)
    ensures Inv(s0, Apply(s, BeginTask(k)))
  {
    StartKeepsMoneyOk(s.m, s.tasks, k);
  }

  lemma TickKeepsMoneyOk(m: Money, tasks: seq<Task>, m': Money)
    requires MoneyOk(m, tasks) && m' == m.(now := m'.now)
    ensures MoneyOk(m', tasks)
  {
    forall i | 0 <= i < |tasks|
      ensures InPlace(m', tasks[i])
    {
      assert InPlace(m, tasks[i]);
    }
  }

  lemma TickConserves(s0: System, s: System, s': System)
    requires Conserved(s0, s) && s'.t == s.t && s'.runs == s.runs && s'.m == s.m.(now := s'.m.now)
    ensures Conserved(s0, s')
  {
  }

  lemma TickKeepsInv(s0: System, s: System, dt: nat)
    requires Inv(s0, s)
    ensures Inv(s0, Apply(s, Tick(dt)))
  {
    var s' := Apply(s, Tick(dt));
    TickConserves(s0, s, s');
    TickKeepsMoneyOk(s.m, s.tasks, s'.m);
  }

  lemma ApplyKeepsInv(s0: System, s: System, e: Event)
    requires Inv(s0, s)
    ensures Inv(s0, Apply(s, e))
  {
    match e
    case BeginTransfer(u, req, env) =>
      if 0 <= req.amount {
        BeginKeepsInv(s0, s, u, req, env);
      }
    case StepTransfer(i) =>
      if i < |s.runs| {
        TransferKeepsInv(s0, s, i);
      }
    case BeginTask(k) =>
      if Unstarted(k) {
        BeginTaskKeepsInv(s0, s, k);
      }
    case StepTask(i) =>
      if i < |s.tasks| {
        TaskKeepsInv(s0, s, i);
      }
    case Tick(dt) => TickKeepsInv(s0, s, dt);
  }

  /** The invariant holds after any events in any order. */
  lemma {:induction false} AlwaysInv(s0: System, es: seq<Event>, n: nat)
    requires Start(s0) && n <= |es|
    ensures Inv(s0, After(s0, es, n))
  {
    if n > 0 {
      AlwaysInv(s0, es, n - 1);
      ApplyKeepsInv(s0, After(s0, es, n - 1), es[n - 1]);
    }
  }
}
