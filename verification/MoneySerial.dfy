/**
 Calls one after the other: balances are what the rows say, and every reference is credited once
 exactly when no call fails half-way.
 */
module MoneySerial {
  import opened Sums
  import opened Ledger
  import opened Transactions
  import opened Transfer
  import opened TransferLaws
  import opened TransferSerial
  import opened MoneyIn
  import opened MoneyLaws

  // ---------------------------------------------------------------------------------------------
  // One call alone

  /** Deposits and completed top-ups of m0 are in m as they were. */
  ghost predicate Settled(m0: Money, m: Money) {
    && m.accounts == m0.accounts
    && |m0.deposits| <= |m.deposits| && |m0.funds| <= |m.funds|
    && (forall i :: 0 <= i < |m0.deposits| ==> m.deposits[i] == m0.deposits[i])
    && (forall i :: 0 <= i < |m0.funds| && m0.funds[i].status == FundCompleted ==> m.funds[i] == m0.funds[i])
  }

  /** While k works alone on tables that were m0 when it came. */
  ghost predicate Working(m0: Money, m: Money, k: Task) {
    && MoneyOk(m, [k]) && InPlace(m, k) && Settled(m0, m)
    && (k.FundTask? && k.fundAt.Created? ==> m.funds[k.fundAt.id].status != FundCompleted)
    && (k.TopUpTask? && k.topUpAt.Admitted? ==> m.funds[k.topUpAt.id].status != FundCompleted)
    && (k.TopUpTask? && k.topUpAt.Unmarked? ==> m.funds[k.topUpAt.id].status != FundCompleted)
    && (k.DepositTask? && k.depositAt.DepositRecorded? ==> |m0.deposits| <= k.depositAt.id)
  }

  lemma StepSettles(m0: Money, b: Book, m: Money, k: Task)
    requires Working(m0, m, k)
    ensures Settled(m0, TaskStep(b, m, k).1)
  {
  }

  lemma WorkingStep(m0: Money, b: Book, m: Money, k: Task)
    requires Working(m0, m, k)
    ensures var (_, m', k') := TaskStep(b, m, k); Working(m0, m', k')
  {
    StepKeepsMoneyOk(b, m, [k], 0);
    assert [k][0 := TaskStep(b, m, k).2] == [TaskStep(b, m, k).2];
    StepInPlace(b, m, k);
    StepSettles(m0, b, m, k);
  }

  /** No deposit is lost and no top-up has slipped. */
  ghost predicate Sound(m: Money, k: Task) {
    NoSlips(m) && AllCarried(m, [k])
  }

  predicate Failing(b: Book, m: Money, k: Task) {
    Slipping(m, k) || Losing(b, k)
  }

  lemma SoundStep(m0: Money, b: Book, m: Money, k: Task)
    requires Working(m0, m, k)
    ensures var (_, m', k') := TaskStep(b, m, k); Sound(m', k') <==> Sound(m, k) && !Failing(b, m, k)
  {
    SlipsExactly(b, m, k);
    CarriedExactly(b, m, [k], 0);
    assert [k][0 := TaskStep(b, m, k).2] == [TaskStep(b, m, k).2];
  }

  lemma BankedTwice(b: Book, m: Money, b1: Book, m1: Money, b2: Book, m2: Money)
    requires Banked(b, m, b1, m1) && Banked(b1, m1, b2, m2)
    ensures Banked(b, m, b2, m2)
  {
  }

  /** One of the steps of k fails. */
  predicate Fails(b: Book, m: Money, k: Task)
    decreases TaskStepsLeft(k)
  {
    !Over(k) && (
      Failing(b, m, k) || (
        var (b', m', k') := TaskStep(b, m, k);
        Fails(b', m', k')))
  }

  lemma {:induction false} WorkingToTheEnd(m0: Money, b: Book, m: Money, k: Task)
    requires Working(m0, m, k)
    ensures var (b', m', k') := RunTask(b, m, k);
            Working(m0, m', k') && Banked(b, m, b', m')
    decreases TaskStepsLeft(k)
  {
    if !Over(k) {
      var (b1, m1, k1) := TaskStep(b, m, k);
      WorkingStep(m0, b, m, k);
      WorkingToTheEnd(m0, b1, m1, k1);
      StepBanks(b, m, k);
      BankedTwice(b, m, b1, m1, RunTask(b1, m1, k1).0, RunTask(b1, m1, k1).1);
    }
  }

  lemma {:induction false} SoundToTheEnd(m0: Money, b: Book, m: Money, k: Task)
    requires Working(m0, m, k)
    ensures var (_, m', k') := RunTask(b, m, k);
            Sound(m', k') <==> Sound(m, k) && !Fails(b, m, k)
    decreases TaskStepsLeft(k)
  {
    if !Over(k) {
      var (b1, m1, k1) := TaskStep(b, m, k);
      WorkingStep(m0, b, m, k);
      SoundStep(m0, b, m, k);
      SoundToTheEnd(m0, b1, m1, k1);
    }
  }

  // ---------------------------------------------------------------------------------------------
  // Which calls fail half-way, told before they start

  /** A deposit that will be recorded, is worth something, and will not be credited. */
  predicate LosesDeposit(b: Book, m: Money, c: DepositCall) {
    && c.lookup && c.account in m.accounts && c.insert && !DepositRefUsed(m.deposits, c.ref)
    && Net(c.amount, c.fee) > 0
    && CreditOutcome(b, m.accounts[c.account], Net(c.amount, c.fee), c.walletRead, c.credit) != Credited
  }

  /** A top-up that will be credited, and whose completion mark will be lost. */
  predicate LosesMark(b: Book, m: Money, c: TopUpCall) {
    var hit := FindFund(m.funds, c.ref, |m.funds|);
    && c.lookup && hit.Some? && m.funds[hit.value].status != FundCompleted
    && CreditOutcome(b, m.funds[hit.value].user, c.amount, c.walletRead, c.credit) == Credited
    && !c.mark
  }

  predicate HalfWay(b: Book, m: Money, k: Task) {
    match k
    case DepositTask(c, _) => LosesDeposit(b, m, c)
    case FundTask(_, _) => false
    case TopUpTask(c, _) => LosesMark(b, m, c)
  }

  lemma DepositFails(b: Book, m: Money, c: DepositCall)
    ensures Fails(b, m, DepositTask(c, DepositArrived)) <==> LosesDeposit(b, m, c)
  {
    var (b1, m1, k1) := TaskStep(b, m, DepositTask(c, DepositArrived));
    if !Over(k1) {
      var (b2, m2, k2) := TaskStep(b1, m1, k1);
      assert Over(k2) && !Fails(b2, m2, k2);
      assert Fails(b1, m1, k1) <==> Losing(b1, k1);
    }
  }

  lemma CheckedNeverFails(b: Book, m: Money, c: FundCall)
    ensures !Fails(b, m, FundTask(c, Checked))
  {
    var (b1, m1, k1) := TaskStep(b, m, FundTask(c, Checked));
    if !Over(k1) {
      var (b2, m2, k2) := TaskStep(b1, m1, k1);
      assert m1.funds[|m.funds|].status == FundPending;
      assert Over(k2) && !Fails(b2, m2, k2);
      assert !Fails(b1, m1, k1);
    }
  }

  lemma FundNeverFails(b: Book, m: Money, c: FundCall)
    ensures !Fails(b, m, FundTask(c, Asked))
  {
    var (b1, m1, k1) := TaskStep(b, m, FundTask(c, Asked));
    if !Over(k1) {
      CheckedNeverFails(b1, m1, c);
    }
  }

  lemma TopUpFails(b: Book, m: Money, c: TopUpCall)
    ensures Fails(b, m, TopUpTask(c, TopUpArrived)) <==> LosesMark(b, m, c)
  {
    var (b1, m1, k1) := TaskStep(b, m, TopUpTask(c, TopUpArrived));
    if !Over(k1) {
      AdmittedFails(b1, m1, c, k1.topUpAt.user, k1.topUpAt.id);
    }
  }

  lemma AdmittedFails(b: Book, m: Money, c: TopUpCall, u: User, id: nat)
    requires id < |m.funds| && m.funds[id].status != FundCompleted
    ensures Fails(b, m, TopUpTask(c, Admitted(u, id)))
            <==> CreditOutcome(b, u, c.amount, c.walletRead, c.credit) == Credited && !c.mark
  {
    var (b1, m1, k1) := TaskStep(b, m, TopUpTask(c, Admitted(u, id)));
    if !Over(k1) {
      var (b2, m2, k2) := TaskStep(b1, m1, k1);
      assert Over(k2) && !Fails(b2, m2, k2);
      assert m1.funds[id].status == m.funds[id].status;
      assert Fails(b1, m1, k1) <==> Slipping(m1, k1);
    }
  }

  lemma FailsHalfWay(b: Book, m: Money, k: Task)
    requires Unstarted(k)
    ensures Fails(b, m, k) <==> HalfWay(b, m, k)
  {
    match k
    case DepositTask(c, _) => DepositFails(b, m, c);
    case FundTask(c, _) => FundNeverFails(b, m, c);
    case TopUpTask(c, _) => TopUpFails(b, m, c);
  }

  // ---------------------------------------------------------------------------------------------
  // Between calls

  /** Every recorded deposit is paid, and every top-up is credited once if it is completed and never if not. */
  ghost predicate ExactlyCredited(m: Money) {
    AllPaid(m) && CreditedOnce(m)
  }

  lemma AloneTallies(k: Task)
    requires Unstarted(k) || Over(k)
    ensures forall id: nat :: Tally([k], AboutToCredit(id)) == 0 && Tally([k], AboutToMark(id)) == 0
    ensures forall id: nat :: Tally([], AboutToCredit(id)) == 0 && Tally([], AboutToMark(id)) == 0
  {
    forall id: nat
      ensures Tally([k], AboutToCredit(id)) == 0 && Tally([k], AboutToMark(id)) == 0
    {
      TallySnoc([], k, AboutToCredit(id));
      TallySnoc([], k, AboutToMark(id));
      assert [] + [k] == [k];
    }
  }

  lemma AloneIsOk(m: Money, k: Task)
    requires Unstarted(k) || Over(k)
    ensures MoneyOk(m, [k]) <==> MoneyOk(m, [])
    ensures MoneyOk(m, []) ==> (Sound(m, k) <==> ExactlyCredited(m))
  {
    AloneTallies(k);
    if AllInPlace(m, []) {
      assert InPlace(m, k);
    }
    if MoneyOk(m, []) {
      OnceIsNoSlips(m, [k]);
      assert AllCarried(m, [k]) <==> AllPaid(m) by {
        CarriedAlone(m, k);
      }
    }
  }

  lemma CarriedAlone(m: Money, k: Task)
    requires forall id: nat :: Tally([k], AboutToCredit(id)) == 0
    ensures AllCarried(m, [k]) <==> AllPaid(m)
  {
    if AllCarried(m, [k]) {
      forall id: nat | id < |m.deposits|
        ensures Paid(m.deposits[id])
      {
        assert Carried(m.deposits[id], Tally([k], AboutToCredit(id)));
      }
    }
  }

  /**
   A call that runs alone: the rows say what it does to balances, what was settled before stays as it
   was, and everything is exactly credited after it if and only if it was before and the call does not
   fail half-way.
   */
  lemma TaskStaysInOrder(b: Book, m: Money, k: Task)
    requires MoneyOk(m, []) && Unstarted(k)
    ensures var (b', m', _) := RunTask(b, m, k);
            && MoneyOk(m', []) && Settled(m, m') && Banked(b, m, b', m')
            && (ExactlyCredited(m') <==> ExactlyCredited(m) && !HalfWay(b, m, k))
  {
    AloneIsOk(m, k);
    assert InPlace(m, k);
    WorkingToTheEnd(m, b, m, k);
    SoundToTheEnd(m, b, m, k);
    FailsHalfWay(b, m, k);
    AloneIsOk(RunTask(b, m, k).1, RunTask(b, m, k).2);
  }

  // ---------------------------------------------------------------------------------------------
  // Serial runs of calls of all kinds

  datatype Job = TransferJob(call: Call) | MoneyJob(task: Task)

  function RunJob(t: Tables, m: Money, j: Job): (Tables, Money) {
    match j
    case TransferJob(c) => (RunCall(t, c).0, m)
    case MoneyJob(k) =>
      var (b', m', _) := RunTask(t.book, m, k);
      (t.(book := b'), m')
  }

  function RunJobs(t: Tables, m: Money, jobs: seq<Job>): (Tables, Money)
    decreases jobs
  {
    if jobs == [] then (t, m)
    else
      var (t', m') := RunJob(t, m, jobs[0]);
      RunJobs(t', m', jobs[1..])
  }

  /** What the settlement of a job, if it is a transfer, takes off u's balance. */
  function DebitedBy(t: Tables, j: Job, u: User): int {
    if j.TransferJob? && j.call.user == u then RunCall(t, j.call).1.settled else 0
  }

  function Debited(t: Tables, m: Money, jobs: seq<Job>, u: User): int
    decreases jobs
  {
    if jobs == [] then 0
    else
      var (t', m') := RunJob(t, m, jobs[0]);
      DebitedBy(t, jobs[0], u) + Debited(t', m', jobs[1..], u)
  }

  /** A call as the handlers make it. */
  predicate Proper(j: Job) {
    match j
    case TransferJob(c) => 0 <= c.req.amount
    case MoneyJob(k) => Unstarted(k)
  }

  predicate AllProper(jobs: seq<Job>) {
    forall i :: 0 <= i < |jobs| ==> Proper(jobs[i])
  }

  predicate JobHalfWay(t: Tables, m: Money, j: Job) {
    j.MoneyJob? && HalfWay(t.book, m, j.task)
  }

  /** Some job fails half-way when its turn comes. */
  predicate SomeHalfWay(t: Tables, m: Money, jobs: seq<Job>)
    decreases jobs
  {
    jobs != [] && (
      JobHalfWay(t, m, jobs[0]) || (
        var (t', m') := RunJob(t, m, jobs[0]);
        SomeHalfWay(t', m', jobs[1..])))
  }

  lemma SettledTwice(m: Money, m1: Money, m2: Money)
    requires Settled(m, m1) && Settled(m1, m2)
    ensures Settled(m, m2)
  {
  }

  /** One job moves each balance by what it credits and debits. */
  lemma JobMoves(t: Tables, m: Money, j: Job, u: User)
    requires AllChecks(t.book) && MoneyOk(m, []) && Proper(j) && u in t.book
    ensures var (t', m') := RunJob(t, m, j);
            && AllChecks(t'.book) && t'.book.Keys == t.book.Keys
            && MoneyOk(m', []) && Settled(m, m')
            && t'.book[u].balance - t.book[u].balance == CreditsOf(m', u) - CreditsOf(m, u) - DebitedBy(t, j, u)
            && (ExactlyCredited(m') <==> ExactlyCredited(m) && !JobHalfWay(t, m, j))
  {
    match j
    case TransferJob(c) => ExitAccounting(t, c);
    case MoneyJob(k) => TaskStaysInOrder(t.book, m, k);
  }

  lemma {:induction false} JobsMove(t: Tables, m: Money, jobs: seq<Job>, u: User)
    requires AllChecks(t.book) && MoneyOk(m, []) && AllProper(jobs) && u in t.book
    ensures var (t', m') := RunJobs(t, m, jobs);
            && t'.book.Keys == t.book.Keys && MoneyOk(m', []) && Settled(m, m')
            && t'.book[u].balance - t.book[u].balance
               == CreditsOf(m', u) - CreditsOf(m, u) - Debited(t, m, jobs, u)
            && (ExactlyCredited(m') <==> ExactlyCredited(m) && !SomeHalfWay(t, m, jobs))
    decreases jobs
  {
    if jobs != [] {
      var (t1, m1) := RunJob(t, m, jobs[0]);
      JobMoves(t, m, jobs[0], u);
      JobsMove(t1, m1, jobs[1..], u);
      SettledTwice(m, m1, RunJobs(t1, m1, jobs[1..]).1);
    }
  }

  // ---------------------------------------------------------------------------------------------
  // What the rows are worth

  ghost function NetFor(u: User): DepositRow -> int {
    (d: DepositRow) => if d.user == u then Net(d.amount, d.fee) else 0
  }

  /** The amount of the one delivery that completed the request. */
  ghost function AcceptedFor(u: User): FundRow -> int {
    (r: FundRow) => if r.user == u && r.status == FundCompleted && |r.credits| > 0 then r.credits[0] else 0
  }

  ghost function Worth(m: Money, u: User): int {
    Tally(m.deposits, NetFor(u)) + Tally(m.funds, AcceptedFor(u))
  }

  lemma CreditsAreWorth(m: Money, u: User)
    requires ExactlyCredited(m)
    ensures CreditsOf(m, u) == Worth(m, u)
  {
    forall i | 0 <= i < |m.deposits|
      ensures DepositCreditsOf(u)(m.deposits[i]) == NetFor(u)(m.deposits[i])
    {
      assert Paid(m.deposits[i]);
    }
    TallySame(m.deposits, DepositCreditsOf(u), NetFor(u), |m.deposits|);
    forall i | 0 <= i < |m.funds|
      ensures FundCreditsOf(u)(m.funds[i]) == AcceptedFor(u)(m.funds[i])
    {
      assert OnceIfCompleted(m.funds[i]);
      if m.funds[i].status == FundCompleted {
        var c := m.funds[i].credits[0];
        SumSnoc([], c);
        assert m.funds[i].credits == [] + [c];
      }
    }
    TallySame(m.funds, FundCreditsOf(u), AcceptedFor(u), |m.funds|);
  }

  /**
   Whole-run conservation.  After any serial sequence of deposits, top-ups, top-up requests and
   transfers, repeated deliveries and failures of any statement included, each balance is what it was,
   plus the credits the rows have recorded since, less what transfers settled; and what was recorded or
   completed before is untouched.  Everything is exactly credited if and only if no call failed
   half-way; and then the credits are the net amount of every deposit recorded since and the accepted
   amount of every top-up completed since.
   */
  lemma SerialConservation(t: Tables, m: Money, jobs: seq<Job>, u: User)
    requires AllChecks(t.book) && MoneyOk(m, []) && AllProper(jobs) && u in t.book
    requires ExactlyCredited(m)
    ensures var (t', m') := RunJobs(t, m, jobs);
            && u in t'.book && Settled(m, m')
            && t'.book[u].balance == t.book[u].balance + CreditsOf(m', u) - CreditsOf(m, u) - Debited(t, m, jobs, u)
            && (ExactlyCredited(m') <==> !SomeHalfWay(t, m, jobs))
            && (!SomeHalfWay(t, m, jobs) ==>
                  t'.book[u].balance == t.book[u].balance + Worth(m', u) - Worth(m, u) - Debited(t, m, jobs, u))
  {
    JobsMove(t, m, jobs, u);
    CreditsAreWorth(m, u);
    if !SomeHalfWay(t, m, jobs) {
      CreditsAreWorth(RunJobs(t, m, jobs).1, u);
    }
  }

  /** A delivery of a recorded deposit, or of a completed or unknown top-up, changes nothing. */
  lemma RedeliveryIsNothing(b: Book, m: Money, k: Task)
    requires Unstarted(k)
    requires k.DepositTask? ==> DepositRefUsed(m.deposits, k.deposit.ref)
    requires k.TopUpTask? ==>
               (forall i :: 0 <= i < |m.funds| && m.funds[i].ref == k.topUp.ref ==> m.funds[i].status == FundCompleted)
    requires !k.FundTask?
    ensures RunTask(b, m, k).0 == b && RunTask(b, m, k).1 == m
  {
    var (b1, m1, k1) := TaskStep(b, m, k);
    assert Over(k1) && RunTask(b1, m1, k1) == (b1, m1, k1);
  }
}
