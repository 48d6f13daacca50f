/** Overlapping deposits and top-ups: each deposit is credited once, and how credits and completions of top-ups tie up. */
module MoneyLaws {
  import opened Sums
  import opened Ledger
  import opened MoneyIn

  // ---------------------------------------------------------------------------------------------
  // Tasks in the middle of something

  ghost function AboutToCredit(id: nat): Task -> int {
    (k: Task) => if k.DepositTask? && k.depositAt.DepositRecorded? && k.depositAt.id == id then 1 else 0
  }

  ghost function AboutToMark(id: nat): Task -> int {
    (k: Task) => if k.TopUpTask? && k.topUpAt.Unmarked? && k.topUpAt.id == id then 1 else 0
  }

  /** A task that remembers a row remembers it rightly. */
  ghost predicate InPlace(m: Money, k: Task) {
    && (k.DepositTask? && k.depositAt.DepositRecorded? ==>
          && k.depositAt.id < |m.deposits|
          && var d := m.deposits[k.depositAt.id];
             d.user == k.depositAt.user && d.amount == k.deposit.amount && d.fee == k.deposit.fee && d.ref == k.deposit.ref)
    && (k.FundTask? && k.fundAt.Created? ==> k.fundAt.id < |m.funds| && SameRequest(m.funds[k.fundAt.id], k.fund))
    && (k.FundTask? && k.fundAt.Checked? ==> MIN_TOP_UP <= k.fund.amount <= MAX_TOP_UP)
    && (k.TopUpTask? && k.topUpAt.Admitted? ==> k.topUpAt.id < |m.funds| && m.funds[k.topUpAt.id].user == k.topUpAt.user)
    && (k.TopUpTask? && k.topUpAt.Unmarked? ==> k.topUpAt.id < |m.funds|)
  }

  predicate SameRequest(r: FundRow, c: FundCall) {
    r.user == c.user && r.ref == c.ref && r.amount == c.amount
  }

  // ---------------------------------------------------------------------------------------------
  // The invariant

  /** At most one credit ever, in the amount that the deposit is worth. */
  ghost predicate DepositTied(d: DepositRow, crediting: int) {
    && (d.credits == [] || d.credits == [Net(d.amount, d.fee)])
    && |d.credits| + crediting <= 1
  }

  /**
   The exact law of top-ups: the credits of a request are its completion, the credits whose mark is
   still to come, and the slips.  Without slips a completed request has been credited exactly once.
   */
  ghost predicate Tied(r: FundRow, marking: int) {
    && |r.credits| == r.slips + (if r.status == FundCompleted then 1 else 0) + marking
    && (r.completedAt.Some? <==> r.status == FundCompleted)
    && MIN_TOP_UP <= r.amount <= MAX_TOP_UP
    && forall j :: 0 <= j < |r.credits| ==> r.credits[j] > 0
  }

  ghost predicate DepositsTied(m: Money, tasks: seq<Task>) {
    && (forall i, j :: 0 <= i < j < |m.deposits| ==> m.deposits[i].ref != m.deposits[j].ref)
    && (forall id: nat :: id < |m.deposits| ==> DepositTied(m.deposits[id], Tally(tasks, AboutToCredit(id))))
  }

  ghost predicate FundsTied(m: Money, tasks: seq<Task>) {
    && (forall i, j :: 0 <= i < j < |m.funds| ==> m.funds[i].ref != m.funds[j].ref)
    && (forall id: nat :: id < |m.funds| ==> Tied(m.funds[id], Tally(tasks, AboutToMark(id))))
  }

  ghost predicate AllInPlace(m: Money, tasks: seq<Task>) {
    forall i :: 0 <= i < |tasks| ==> InPlace(m, tasks[i])
  }

  ghost predicate MoneyOk(m: Money, tasks: seq<Task>) {
    AllInPlace(m, tasks) && DepositsTied(m, tasks) && FundsTied(m, tasks)
  }

  // ---------------------------------------------------------------------------------------------
  // What a step does to the rows

  /** Rows are added at the end and keep who they are for, what they are worth and when they were made. */
  ghost predicate Grows(m: Money, m': Money) {
    && |m.deposits| <= |m'.deposits| && |m.funds| <= |m'.funds|
    && (forall i :: 0 <= i < |m.deposits| ==>
          m.deposits[i] == m'.deposits[i].(credits := m.deposits[i].credits))
    && (forall i :: 0 <= i < |m.funds| ==>
          var f, f' := m.funds[i], m'.funds[i];
          f'.user == f.user && f'.ref == f.ref && f'.amount == f.amount && f'.createdAt == f.createdAt)
  }

  lemma StepGrows(b: Book, m: Money, k: Task)
    ensures Grows(m, TaskStep(b, m, k).1)
  {
  }

  lemma GrowingKeepsPlaces(m: Money, m': Money, tasks: seq<Task>)
    requires AllInPlace(m, tasks) && Grows(m, m')
    ensures AllInPlace(m', tasks)
  {
    forall i | 0 <= i < |tasks|
      ensures InPlace(m', tasks[i])
    {
      assert InPlace(m, tasks[i]);
    }
  }

  lemma StepInPlace(b: Book, m: Money, k: Task)
    requires InPlace(m, k)
    ensures InPlace(TaskStep(b, m, k).1, TaskStep(b, m, k).2)
  {
  }

  lemma {:induction false} NobodyThereYet(m: Money, tasks: seq<Task>, n: nat)
    requires AllInPlace(m, tasks) && n <= |tasks|
    ensures TallyTo(tasks, AboutToCredit(|m.deposits|), n) == 0
    ensures TallyTo(tasks, AboutToMark(|m.funds|), n) == 0
  {
    if n > 0 {
      NobodyThereYet(m, tasks, n - 1);
      assert InPlace(m, tasks[n - 1]);
    }
  }

  // ---------------------------------------------------------------------------------------------
  // Steps keep the ties

  lemma DepositsStay(m: Money, m': Money, tasks: seq<Task>, i: nat, k': Task)
    requires DepositsTied(m, tasks) && m'.deposits == m.deposits
    requires i < |tasks| && !tasks[i].DepositTask? && !k'.DepositTask?
    ensures DepositsTied(m', tasks[i := k'])
  {
    forall id: nat | id < |m.deposits|
      ensures DepositTied(m.deposits[id], Tally(tasks[i := k'], AboutToCredit(id)))
    {
      TallyUpdate(tasks, i, k', AboutToCredit(id));
    }
  }

  lemma FundsStay(m: Money, m': Money, tasks: seq<Task>, i: nat, k': Task)
    requires FundsTied(m, tasks) && m'.funds == m.funds
    requires i < |tasks| && forall id: nat :: AboutToMark(id)(tasks[i]) == AboutToMark(id)(k')
    ensures FundsTied(m', tasks[i := k'])
  {
    forall id: nat | id < |m.funds|
      ensures Tied(m.funds[id], Tally(tasks[i := k'], AboutToMark(id)))
    {
      TallyUpdate(tasks, i, k', AboutToMark(id));
    }
  }

  /** A row that the step of task i writes is tied again; the other rows are left alone. */
  lemma FundsChange(m: Money, m': Money, tasks: seq<Task>, i: nat, k': Task, x: nat, row: FundRow)
    requires FundsTied(m, tasks) && i < |tasks| && x < |m.funds|
    requires m'.funds == m.funds[x := row] && row.ref == m.funds[x].ref
    requires forall id: nat :: id != x ==> AboutToMark(id)(tasks[i]) == AboutToMark(id)(k')
    requires Tied(row, Tally(tasks, AboutToMark(x)) - AboutToMark(x)(tasks[i]) + AboutToMark(x)(k'))
    ensures FundsTied(m', tasks[i := k'])
  {
    forall id: nat | id < |m.funds|
      ensures Tied(m'.funds[id], Tally(tasks[i := k'], AboutToMark(id)))
    {
      TallyUpdate(tasks, i, k', AboutToMark(id));
    }
  }

  lemma RecordingKeepsTies(b: Book, m: Money, tasks: seq<Task>, i: nat, c: DepositCall)
    requires MoneyOk(m, tasks) && i < |tasks| && tasks[i] == DepositTask(c, DepositArrived)
    ensures var (_, m', at') := DepositStep(b, m, c, DepositArrived);
            DepositsTied(m', tasks[i := DepositTask(c, at')])
  {
    var (_, m', at') := DepositStep(b, m, c, DepositArrived);
    var k' := DepositTask(c, at');
    NobodyThereYet(m, tasks, |tasks|);
    forall id: nat | id < |m'.deposits|
      ensures DepositTied(m'.deposits[id], Tally(tasks[i := k'], AboutToCredit(id)))
    {
      TallyUpdate(tasks, i, k', AboutToCredit(id));
    }
  }

  lemma CreditingKeepsTies(b: Book, m: Money, tasks: seq<Task>, i: nat, c: DepositCall, u: User, x: nat)
    requires MoneyOk(m, tasks) && i < |tasks| && tasks[i] == DepositTask(c, DepositRecorded(u, x))
    ensures var (_, m', at') := DepositStep(b, m, c, DepositRecorded(u, x));
            DepositsTied(m', tasks[i := DepositTask(c, at')])
  {
    var (_, m', at') := DepositStep(b, m, c, DepositRecorded(u, x));
    var k' := DepositTask(c, at');
    assert InPlace(m, tasks[i]);
    TallyAtLeast(tasks, AboutToCredit(x), i, |tasks|);
    assert DepositTied(m.deposits[x], Tally(tasks, AboutToCredit(x)));
    forall id: nat | id < |m'.deposits|
      ensures DepositTied(m'.deposits[id], Tally(tasks[i := k'], AboutToCredit(id)))
    {
      TallyUpdate(tasks, i, k', AboutToCredit(id));
    }
  }

  lemma DepositStepKeepsTies(b: Book, m: Money, tasks: seq<Task>, i: nat)
    requires MoneyOk(m, tasks) && i < |tasks| && tasks[i].DepositTask?
    ensures var (_, m', k') := TaskStep(b, m, tasks[i]);
            DepositsTied(m', tasks[i := k']) && FundsTied(m', tasks[i := k'])
  {
    var (_, m', k') := TaskStep(b, m, tasks[i]);
    FundsStay(m, m', tasks, i, k');
    var DepositTask(c, at) := tasks[i];
    match at
    case DepositArrived => RecordingKeepsTies(b, m, tasks, i, c);
    case DepositRecorded(u, x) => CreditingKeepsTies(b, m, tasks, i, c, u, x);
    case DepositOver(_) => assert tasks[i := k'] == tasks;
  }

  lemma CreateKeepsTies(m: Money, tasks: seq<Task>, i: nat, c: FundCall)
    requires MoneyOk(m, tasks) && i < |tasks| && tasks[i] == FundTask(c, Checked)
    ensures var (m', at') := FundStep(m, c, Checked);
            FundsTied(m', tasks[i := FundTask(c, at')])
  {
    var (m', at') := FundStep(m, c, Checked);
    var k' := FundTask(c, at');
    NobodyThereYet(m, tasks, |tasks|);
    assert InPlace(m, tasks[i]);
    forall id: nat | id < |m'.funds|
      ensures Tied(m'.funds[id], Tally(tasks[i := k'], AboutToMark(id)))
    {
      TallyUpdate(tasks, i, k', AboutToMark(id));
    }
  }

  lemma FundStepKeepsTies(b: Book, m: Money, tasks: seq<Task>, i: nat)
    requires MoneyOk(m, tasks) && i < |tasks| && tasks[i].FundTask?
    ensures var (_, m', k') := TaskStep(b, m, tasks[i]);
            DepositsTied(m', tasks[i := k']) && FundsTied(m', tasks[i := k'])
  {
    var (_, m', k') := TaskStep(b, m, tasks[i]);
    DepositsStay(m, m', tasks, i, k');
    var FundTask(c, at) := tasks[i];
    match at
    case Asked => FundsStay(m, m', tasks, i, k');
    case Checked => CreateKeepsTies(m, tasks, i, c);
    case Created(x) =>
      assert InPlace(m, tasks[i]) && Tied(m.funds[x], Tally(tasks, AboutToMark(x)));
      FundsChange(m, m', tasks, i, k', x, m'.funds[x]);
    case FundOver(_) => FundsStay(m, m', tasks, i, k');
  }

  lemma TopUpStepKeepsTies(b: Book, m: Money, tasks: seq<Task>, i: nat)
    requires MoneyOk(m, tasks) && i < |tasks| && tasks[i].TopUpTask?
    ensures var (_, m', k') := TaskStep(b, m, tasks[i]);
            DepositsTied(m', tasks[i := k']) && FundsTied(m', tasks[i := k'])
  {
    var (_, m', k') := TaskStep(b, m, tasks[i]);
    DepositsStay(m, m', tasks, i, k');
    var TopUpTask(c, at) := tasks[i];
    match at
    case TopUpArrived => FundsStay(m, m', tasks, i, k');
    case Admitted(u, x) =>
      assert InPlace(m, tasks[i]) && Tied(m.funds[x], Tally(tasks, AboutToMark(x)));
      if CreditOutcome(b, u, c.amount, c.walletRead, c.credit) == Credited {
        FundsChange(m, m', tasks, i, k', x, m'.funds[x]);
      } else {
        FundsStay(m, m', tasks, i, k');
      }
    case Unmarked(x) =>
      assert InPlace(m, tasks[i]) && Tied(m.funds[x], Tally(tasks, AboutToMark(x)));
      FundsChange(m, m', tasks, i, k', x, m'.funds[x]);
    case TopUpOver(_) => FundsStay(m, m', tasks, i, k');
  }

  /** Whichever task moves next, the invariant holds again. */
  lemma StepKeepsMoneyOk(b: Book, m: Money, tasks: seq<Task>, i: nat)
    requires MoneyOk(m, tasks) && i < |tasks|
    ensures MoneyOk(TaskStep(b, m, tasks[i]).1, tasks[i := TaskStep(b, m, tasks[i]).2])
  {
    var k := tasks[i];
    var m' := TaskStep(b, m, k).1;
    assert InPlace(m, k);
    StepGrows(b, m, k);
    StepInPlace(b, m, k);
    GrowingKeepsPlaces(m, m', tasks);
    match k
    case DepositTask(_, _) => DepositStepKeepsTies(b, m, tasks, i);
    case FundTask(_, _) => FundStepKeepsTies(b, m, tasks, i);
    case TopUpTask(_, _) => TopUpStepKeepsTies(b, m, tasks, i);
  }

  lemma StartKeepsMoneyOk(m: Money, tasks: seq<Task>, k: Task)
    requires MoneyOk(m, tasks) && Unstarted(k)
    ensures MoneyOk(m, tasks + [k])
  {
    forall id: nat | id < |m.deposits|
      ensures DepositTied(m.deposits[id], Tally(tasks + [k], AboutToCredit(id)))
    {
      TallySnoc(tasks, k, AboutToCredit(id));
    }
    forall id: nat | id < |m.funds|
      ensures Tied(m.funds[id], Tally(tasks + [k], AboutToMark(id)))
    {
      TallySnoc(tasks, k, AboutToMark(id));
    }
  }

  // ---------------------------------------------------------------------------------------------
  // Slips

  ghost predicate NoSlips(m: Money) {
    forall i :: 0 <= i < |m.funds| ==> m.funds[i].slips == 0
  }

  /**
   The three slips, told before they happen: the last status write of FundFromBank over a completed
   request, a completion mark that is lost, and a completion mark on a request completed already.
   */
  predicate Slipping(m: Money, k: Task) {
    match k
    case DepositTask(_, _) => false
    case FundTask(c, at) => at.Created? && at.id < |m.funds| && c.write && m.funds[at.id].status == FundCompleted
    case TopUpTask(c, at) => at.Unmarked? && at.id < |m.funds| && (!c.mark || m.funds[at.id].status == FundCompleted)
  }

  /** A step writes one row and leaves the slips of the others, or none. */
  lemma RowSlips(m: Money, m': Money, x: nat, row: FundRow)
    requires x < |m.funds| && m'.funds == m.funds[x := row] && m.funds[x].slips <= row.slips
    ensures NoSlips(m') <==> NoSlips(m) && row.slips == m.funds[x].slips
  {
    if NoSlips(m') {
      forall i | 0 <= i < |m.funds|
        ensures m.funds[i].slips == 0 && row.slips == 0
      {
        assert m'.funds[i].slips == 0 && m'.funds[x].slips == 0;
      }
    }
  }

  lemma SlipsExactly(b: Book, m: Money, k: Task)
    requires InPlace(m, k)
    ensures NoSlips(TaskStep(b, m, k).1) <==> NoSlips(m) && !Slipping(m, k)
  {
    var m' := TaskStep(b, m, k).1;
    match k
    case DepositTask(_, _) =>
    case FundTask(c, at) =>
      if at.Created? && c.write {
        RowSlips(m, m', at.id, m'.funds[at.id]);
      } else if m'.funds != m.funds {
        assert m.funds == m'.funds[..|m.funds|];
      }
    case TopUpTask(c, at) =>
      if at.Unmarked? {
        RowSlips(m, m', at.id, m'.funds[at.id]);
      } else if at.Admitted? && m'.funds != m.funds {
        RowSlips(m, m', at.id, m'.funds[at.id]);
      }
  }

  predicate OnceIfCompleted(r: FundRow) {
    |r.credits| == if r.status == FundCompleted then 1 else 0
  }

  /** Every completed request has been credited exactly once, and every other one never. */
  ghost predicate CreditedOnce(m: Money) {
    forall id: nat :: id < |m.funds| ==> OnceIfCompleted(m.funds[id])
  }

  /** While no mark is outstanding, slips are all that stands between the two. */
  lemma OnceIsNoSlips(m: Money, tasks: seq<Task>)
    requires FundsTied(m, tasks) && forall id: nat :: id < |m.funds| ==> Tally(tasks, AboutToMark(id)) == 0
    ensures CreditedOnce(m) <==> NoSlips(m)
  {
    forall id: nat | id < |m.funds|
      ensures OnceIfCompleted(m.funds[id]) <==> m.funds[id].slips == 0
    {
      assert Tied(m.funds[id], Tally(tasks, AboutToMark(id)));
    }
    if CreditedOnce(m) {
      forall id | 0 <= id < |m.funds|
        ensures m.funds[id].slips == 0
      {
        assert OnceIfCompleted(m.funds[id]);
      }
    }
  }

  // ---------------------------------------------------------------------------------------------
  // Lost deposits

  /** The deposit has brought in its net amount. */
  ghost predicate Paid(d: DepositRow) {
    Sum(d.credits) == Net(d.amount, d.fee)
  }

  ghost predicate AllPaid(m: Money) {
    forall id: nat :: id < |m.deposits| ==> Paid(m.deposits[id])
  }

  /** It has, or the call that recorded it is about to see to it. */
  ghost predicate Carried(d: DepositRow, crediting: int) {
    Paid(d) || crediting > 0
  }

  ghost predicate AllCarried(m: Money, tasks: seq<Task>) {
    forall id: nat :: id < |m.deposits| ==> Carried(m.deposits[id], Tally(tasks, AboutToCredit(id)))
  }

  /** The deposit of k is recorded, it is worth something, and its credit is about to fail. */
  predicate Losing(b: Book, k: Task) {
    && k.DepositTask? && k.depositAt.DepositRecorded?
    && Net(k.deposit.amount, k.deposit.fee) > 0
    && CreditOutcome(b, k.depositAt.user, Net(k.deposit.amount, k.deposit.fee), k.deposit.walletRead, k.deposit.credit)
       != Credited
  }

  lemma CreditingCarries(b: Book, m: Money, tasks: seq<Task>, i: nat, c: DepositCall, u: User, x: nat)
    requires MoneyOk(m, tasks) && i < |tasks| && tasks[i] == DepositTask(c, DepositRecorded(u, x))
    ensures var (_, m', at') := DepositStep(b, m, c, DepositRecorded(u, x));
            && x < |m.deposits| && |m'.deposits| == |m.deposits|
            && Carried(m.deposits[x], Tally(tasks, AboutToCredit(x)))
            && (Carried(m'.deposits[x], Tally(tasks[i := DepositTask(c, at')], AboutToCredit(x))) <==> !Losing(b, tasks[i]))
  {
    var (_, m', at') := DepositStep(b, m, c, DepositRecorded(u, x));
    var net := Net(c.amount, c.fee);
    assert InPlace(m, tasks[i]);
    assert DepositTied(m.deposits[x], Tally(tasks, AboutToCredit(x)));
    TallyAtLeast(tasks, AboutToCredit(x), i, |tasks|);
    TallyUpdate(tasks, i, DepositTask(c, at'), AboutToCredit(x));
    SumSnoc([], net);
    assert [] + [net] == [net];
  }

  /** A deposit that is in the table: a step carries it on, unless it is the one whose credit fails in this step. */
  lemma CarriedStep(b: Book, m: Money, tasks: seq<Task>, i: nat, id: nat)
    requires MoneyOk(m, tasks) && i < |tasks| && id < |m.deposits|
    ensures var (_, m', k') := TaskStep(b, m, tasks[i]);
            && id < |m'.deposits|
            && (Carried(m'.deposits[id], Tally(tasks[i := k'], AboutToCredit(id)))
                <==> Carried(m.deposits[id], Tally(tasks, AboutToCredit(id)))
                     && !(Losing(b, tasks[i]) && tasks[i].depositAt.id == id))
  {
    var k := tasks[i];
    var (_, _, k') := TaskStep(b, m, k);
    TallyUpdate(tasks, i, k', AboutToCredit(id));
    if k.DepositTask? && k.depositAt.DepositRecorded? && k.depositAt.id == id {
      CreditingCarries(b, m, tasks, i, k.deposit, k.depositAt.user, id);
    }
  }

  /** A deposit recorded in this step is carried by the call that recorded it. */
  lemma NewDepositCarried(b: Book, m: Money, tasks: seq<Task>, i: nat)
    requires MoneyOk(m, tasks) && i < |tasks|
    ensures var (_, m', k') := TaskStep(b, m, tasks[i]);
            |m.deposits| < |m'.deposits| ==>
              && |m'.deposits| == |m.deposits| + 1
              && Carried(m'.deposits[|m.deposits|], Tally(tasks[i := k'], AboutToCredit(|m.deposits|)))
  {
    var (_, m', k') := TaskStep(b, m, tasks[i]);
    NobodyThereYet(m, tasks, |tasks|);
    TallyUpdate(tasks, i, k', AboutToCredit(|m.deposits|));
  }

  /** A step loses a deposit exactly when its credit fails. */
  lemma CarriedExactly(b: Book, m: Money, tasks: seq<Task>, i: nat)
    requires MoneyOk(m, tasks) && i < |tasks|
    ensures var (_, m', k') := TaskStep(b, m, tasks[i]);
            AllCarried(m', tasks[i := k']) <==> AllCarried(m, tasks) && !Losing(b, tasks[i])
  {
    var (_, m', k') := TaskStep(b, m, tasks[i]);
    assert InPlace(m, tasks[i]);
    StepGrows(b, m, tasks[i]);
    NewDepositCarried(b, m, tasks, i);
    forall id: nat | id < |m.deposits|
      ensures Carried(m'.deposits[id], Tally(tasks[i := k'], AboutToCredit(id)))
              <==> Carried(m.deposits[id], Tally(tasks, AboutToCredit(id)))
                   && !(Losing(b, tasks[i]) && tasks[i].depositAt.id == id)
    {
      CarriedStep(b, m, tasks, i, id);
    }
    CarriedTogether(m, m', tasks, tasks[i := k'], if Losing(b, tasks[i]) then Some(tasks[i].depositAt.id) else None);
  }

  lemma CarriedTogether(m: Money, m': Money, tasks: seq<Task>, tasks': seq<Task>, lost: Option<nat>)
    requires |m.deposits| <= |m'.deposits| && (lost.Some? ==> lost.value < |m.deposits|)
    requires forall id: nat :: |m.deposits| <= id < |m'.deposits| ==>
               Carried(m'.deposits[id], Tally(tasks', AboutToCredit(id)))
    requires forall id: nat :: id < |m.deposits| ==>
               (Carried(m'.deposits[id], Tally(tasks', AboutToCredit(id)))
                <==> Carried(m.deposits[id], Tally(tasks, AboutToCredit(id))) && lost != Some(id))
    ensures AllCarried(m', tasks') <==> AllCarried(m, tasks) && lost == None
  {
    if AllCarried(m', tasks') {
      forall id: nat | id < |m.deposits|
        ensures Carried(m.deposits[id], Tally(tasks, AboutToCredit(id))) && lost != Some(id)
      {
        assert Carried(m'.deposits[id], Tally(tasks', AboutToCredit(id)));
      }
    }
  }

  lemma StartCarries(m: Money, tasks: seq<Task>, k: Task)
    requires Unstarted(k)
    ensures AllCarried(m, tasks + [k]) <==> AllCarried(m, tasks)
  {
    forall id: nat
      ensures Tally(tasks + [k], AboutToCredit(id)) == Tally(tasks, AboutToCredit(id))
    {
      TallySnoc(tasks, k, AboutToCredit(id));
    }
  }

  // ---------------------------------------------------------------------------------------------
  // What a step does to the wallets

  ghost function DepositCreditsOf(u: User): DepositRow -> int {
    (d: DepositRow) => if d.user == u then Sum(d.credits) else 0
  }

  ghost function FundCreditsOf(u: User): FundRow -> int {
    (r: FundRow) => if r.user == u then Sum(r.credits) else 0
  }

  /** All the money that came in for u. */
  ghost function CreditsOf(m: Money, u: User): int {
    Tally(m.deposits, DepositCreditsOf(u)) + Tally(m.funds, FundCreditsOf(u))
  }

  /** From b to b' each balance rose by what came in for its owner; nothing was held or released. */
  ghost predicate Banked(b: Book, m: Money, b': Book, m': Money) {
    && b'.Keys == b.Keys
    && (forall u :: u in b ==> Gap(b'[u]) == Gap(b[u]) && b'[u].balance - b[u].balance == CreditsOf(m', u) - CreditsOf(m, u))
    && (AllChecks(b) ==> AllChecks(b'))
  }

  lemma CreditBanks(b: Book, u: User, amount: int, walletRead: bool, up: bool)
    ensures var r := CreditOutcome(b, u, amount, walletRead, up);
            var b' := CreditedBook(b, u, amount, r);
            && b'.Keys == b.Keys
            && (forall v :: v in b ==>
                  Gap(b'[v]) == Gap(b[v]) && b'[v].balance == b[v].balance + (if r == Credited && v == u then amount else 0))
            && (AllChecks(b) ==> AllChecks(b'))
  {
    if AllChecks(b) && CreditOutcome(b, u, amount, walletRead, up) == Credited {
      GuardsProtectChecks(b, u, Credit(amount), true);
    }
  }

  lemma DepositStepBanks(b: Book, m: Money, k: Task)
    requires InPlace(m, k) && k.DepositTask?
    ensures Banked(b, m, TaskStep(b, m, k).0, TaskStep(b, m, k).1)
  {
    var c, at := k.deposit, k.depositAt;
    var (b', m', _) := DepositStep(b, m, c, at);
    if at.DepositRecorded? {
      CreditBanks(b, at.user, Net(c.amount, c.fee), c.walletRead, c.credit);
    }
    forall u | u in b
      ensures b'[u].balance - b[u].balance == CreditsOf(m', u) - CreditsOf(m, u)
    {
      if at.DepositArrived? && m'.deposits != m.deposits {
        var row := m'.deposits[|m.deposits|];
        TallySnoc(m.deposits, row, DepositCreditsOf(u));
        assert row.credits == [] && m'.deposits == m.deposits + [row];
      } else if at.DepositRecorded? && CreditOutcome(b, at.user, Net(c.amount, c.fee), c.walletRead, c.credit) == Credited {
        TallyUpdate(m.deposits, at.id, m'.deposits[at.id], DepositCreditsOf(u));
        SumSnoc(m.deposits[at.id].credits, Net(c.amount, c.fee));
      }
    }
  }

  lemma TopUpStepBanks(b: Book, m: Money, k: Task)
    requires InPlace(m, k) && k.TopUpTask?
    ensures Banked(b, m, TaskStep(b, m, k).0, TaskStep(b, m, k).1)
  {
    var c, at := k.topUp, k.topUpAt;
    var (b', m', _) := TopUpStep(b, m, c, at);
    if at.Admitted? {
      CreditBanks(b, at.user, c.amount, c.walletRead, c.credit);
    }
    forall u | u in b
      ensures b'[u].balance - b[u].balance == CreditsOf(m', u) - CreditsOf(m, u)
    {
      if m'.funds != m.funds {
        TallyUpdate(m.funds, at.id, m'.funds[at.id], FundCreditsOf(u));
        SumSnoc(m.funds[at.id].credits, c.amount);
      }
    }
  }

  lemma FundStepBanks(b: Book, m: Money, k: Task)
    requires InPlace(m, k) && k.FundTask?
    ensures Banked(b, m, TaskStep(b, m, k).0, TaskStep(b, m, k).1)
  {
    var (m', _) := FundStep(m, k.fund, k.fundAt);
    forall u | u in b
      ensures CreditsOf(m', u) == CreditsOf(m, u)
    {
      if m'.funds != m.funds {
        if k.fundAt.Checked? {
          TallySnoc(m.funds, m'.funds[|m.funds|], FundCreditsOf(u));
        } else {
          TallyUpdate(m.funds, k.fundAt.id, m'.funds[k.fundAt.id], FundCreditsOf(u));
        }
      }
    }
  }

  /** Whatever task moves, wallets change by what the rows say came in. */
  lemma StepBanks(b: Book, m: Money, k: Task)
    requires InPlace(m, k)
    ensures Banked(b, m, TaskStep(b, m, k).0, TaskStep(b, m, k).1)
  {
    match k
    case DepositTask(_, _) => DepositStepBanks(b, m, k);
    case FundTask(_, _) => FundStepBanks(b, m, k);
    case TopUpTask(_, _) => TopUpStepBanks(b, m, k);
  }

  // ---------------------------------------------------------------------------------------------
  // The rolling limit

  ghost function Today(u: User, now: int): FundRow -> int {
    (r: FundRow) => if CountsToday(r, u, now) then r.amount else 0
  }

  ghost function Outstanding(u: User): FundRow -> int {
    (r: FundRow) => if r.user == u && r.status != FundCompleted then r.amount else 0
  }

  ghost function OutstandingCount(u: User): FundRow -> int {
    (r: FundRow) => if r.user == u && r.status != FundCompleted then 1 else 0
  }

  /** A request that has passed the check and has no row yet. */
  ghost function Reserved(u: User): Task -> int {
    (k: Task) => if k.FundTask? && k.fundAt.Checked? && k.fund.user == u then k.fund.amount else 0
  }

  ghost function ReservedCount(u: User): Task -> int {
    (k: Task) => if k.FundTask? && k.fundAt.Checked? && k.fund.user == u then 1 else 0
  }

  /** How many requests of u are not completed; failed ones count, for the webhook can still complete them. */
  ghost function InFlight(m: Money, tasks: seq<Task>, u: User): int {
    Tally(m.funds, OutstandingCount(u)) + Tally(tasks, ReservedCount(u))
  }

  /** What u completed in the last 24 hours and could still complete. */
  ghost function Exposure(m: Money, tasks: seq<Task>, u: User): int {
    Tally(m.funds, Today(u, m.now)) + Tally(m.funds, Outstanding(u)) + Tally(tasks, Reserved(u))
  }

  function Limit(k: nat): int {
    DAILY_LIMIT + (k - 1) * MAX_TOP_UP
  }

  /** The late status write of FundFromBank is about to reopen a request completed and older than a day. */
  predicate ReopensOld(m: Money, k: Task) {
    && k.FundTask? && k.fundAt.Created? && k.fundAt.id < |m.funds| && k.fund.write
    && m.funds[k.fundAt.id].status == FundCompleted && m.funds[k.fundAt.id].createdAt <= m.now - DAY
  }

  lemma {:induction false} TodayIsTally(funds: seq<FundRow>, u: User, now: int, n: nat)
    requires n <= |funds|
    ensures SumCompletedToday(funds, u, now, n) == TallyTo(funds, Today(u, now), n)
  {
    if n > 0 {
      TodayIsTally(funds, u, now, n - 1);
    }
  }

  /** What the next step of k adds to u's exposure without a check: the amount of such a request. */
  function Reopening(m: Money, k: Task, u: User): nat {
    if ReopensOld(m, k) && m.funds[k.fundAt.id].user == u then Max(0, m.funds[k.fundAt.id].amount) else 0
  }

  /** Requests that are not completed are worth at most the maximum each. */
  lemma OutstandingBound(m: Money, tasks: seq<Task>, u: User)
    requires MoneyOk(m, tasks)
    ensures Tally(m.funds, Outstanding(u)) + Tally(tasks, Reserved(u)) <= MAX_TOP_UP * InFlight(m, tasks, u)
  {
    forall i | 0 <= i < |m.funds|
      ensures Outstanding(u)(m.funds[i]) <= MAX_TOP_UP * OutstandingCount(u)(m.funds[i])
    {
      assert Tied(m.funds[i], Tally(tasks, AboutToMark(i)));
    }
    forall i | 0 <= i < |tasks|
      ensures Reserved(u)(tasks[i]) <= MAX_TOP_UP * ReservedCount(u)(tasks[i])
    {
      assert InPlace(m, tasks[i]);
    }
    TallyBound(m.funds, Outstanding(u), OutstandingCount(u), MAX_TOP_UP, |m.funds|);
    TallyBound(tasks, Reserved(u), ReservedCount(u), MAX_TOP_UP, |tasks|);
  }

  /** A step that leaves the rows alone and does not pass a check adds nothing. */
  lemma NothingReserved(m: Money, tasks: seq<Task>, i: nat, k': Task, u: User)
    requires MoneyOk(m, tasks) && i < |tasks|
    requires Reserved(u)(k') == 0
    ensures Exposure(m, tasks[i := k'], u) <= Exposure(m, tasks, u)
  {
    assert InPlace(m, tasks[i]);
    TallyUpdate(tasks, i, k', Reserved(u));
  }

  /** A step that passes the check found room for its amount beside what others may still complete. */
  lemma CheckingKeepsLimit(m: Money, tasks: seq<Task>, i: nat, c: FundCall, u: User, k: nat)
    requires MoneyOk(m, tasks) && i < |tasks| && tasks[i] == FundTask(c, Asked) && CheckFund(m, c) == Checked
    requires InFlight(m, tasks[i := FundTask(c, Checked)], u) <= k
    ensures Exposure(m, tasks[i := FundTask(c, Checked)], u) <= Max(Limit(k), Exposure(m, tasks, u))
  {
    var k' := FundTask(c, Checked);
    TallyUpdate(tasks, i, k', Reserved(u));
    TallyUpdate(tasks, i, k', ReservedCount(u));
    if c.user == u {
      TodayIsTally(m.funds, u, m.now, |m.funds|);
      OutstandingBound(m, tasks, u);
      assert MAX_TOP_UP * InFlight(m, tasks, u) <= MAX_TOP_UP * (k - 1);
    }
  }

  /** Writing row x so that its share of the exposure does not grow. */
  lemma RowWritten(m: Money, m': Money, tasks: seq<Task>, i: nat, k': Task, u: User, x: nat, row: FundRow)
    requires MoneyOk(m, tasks) && i < |tasks| && x < |m.funds|
    requires m' == m.(funds := m.funds[x := row])
    requires row.user == m.funds[x].user && row.amount == m.funds[x].amount && row.createdAt == m.funds[x].createdAt
    requires row.user != u || row.status == FundCompleted
             || m.funds[x].status != FundCompleted || m.funds[x].createdAt > m.now - DAY
    requires Reserved(u)(k') == 0
    ensures Exposure(m', tasks[i := k'], u) <= Exposure(m, tasks, u)
  {
    assert InPlace(m, tasks[i]) && Tied(m.funds[x], Tally(tasks, AboutToMark(x)));
    TallyUpdate(tasks, i, k', Reserved(u));
    TallyUpdate(m.funds, x, row, Today(u, m.now));
    TallyUpdate(m.funds, x, row, Outstanding(u));
  }

  lemma CreatingKeepsLimit(m: Money, tasks: seq<Task>, i: nat, c: FundCall, u: User)
    requires MoneyOk(m, tasks) && i < |tasks| && tasks[i] == FundTask(c, Checked)
    ensures var (m', at') := FundStep(m, c, Checked);
            Exposure(m', tasks[i := FundTask(c, at')], u) <= Exposure(m, tasks, u)
  {
    var (m', at') := FundStep(m, c, Checked);
    var k' := FundTask(c, at');
    if at'.Created? {
      var row := m'.funds[|m.funds|];
      assert m'.funds == m.funds + [row];
      TallyUpdate(tasks, i, k', Reserved(u));
      TallySnoc(m.funds, row, Today(u, m.now));
      TallySnoc(m.funds, row, Outstanding(u));
    } else {
      NothingReserved(m, tasks, i, k', u);
    }
  }

  /** Reopening a request completed more than a day ago adds exactly its amount, unchecked. */
  lemma ReopeningAdds(m: Money, tasks: seq<Task>, i: nat, u: User)
    requires MoneyOk(m, tasks) && i < |tasks| && ReopensOld(m, tasks[i]) && m.funds[tasks[i].fundAt.id].user == u
    ensures var (m', at') := FundStep(m, tasks[i].fund, tasks[i].fundAt);
            Exposure(m', tasks[i := FundTask(tasks[i].fund, at')], u) == Exposure(m, tasks, u) + Reopening(m, tasks[i], u)
  {
    var FundTask(c, at) := tasks[i];
    var (m', at') := FundStep(m, c, at);
    var k' := FundTask(c, at');
    assert Tied(m.funds[at.id], Tally(tasks, AboutToMark(at.id)));
    TallyUpdate(tasks, i, k', Reserved(u));
    TallyUpdate(m.funds, at.id, m'.funds[at.id], Today(u, m.now));
    TallyUpdate(m.funds, at.id, m'.funds[at.id], Outstanding(u));
  }

  /** The status write at the end of FundFromBank. */
  lemma ClosingKeepsLimit(m: Money, tasks: seq<Task>, i: nat, c: FundCall, x: nat, u: User)
    requires MoneyOk(m, tasks) && i < |tasks| && tasks[i] == FundTask(c, Created(x))
    ensures var (m', at') := FundStep(m, c, Created(x));
            Exposure(m', tasks[i := FundTask(c, at')], u) <= Exposure(m, tasks, u) + Reopening(m, tasks[i], u)
  {
    var (m', at') := FundStep(m, c, Created(x));
    var k' := FundTask(c, at');
    assert InPlace(m, tasks[i]);
    if !c.write {
      NothingReserved(m, tasks, i, k', u);
    } else if ReopensOld(m, tasks[i]) && m.funds[x].user == u {
      ReopeningAdds(m, tasks, i, u);
    } else {
      RowWritten(m, m', tasks, i, k', u, x, StatusWritten(m.funds[x], CloseAnswer(c).0, m.now));
    }
  }

  lemma FundStepKeepsLimit(b: Book, m: Money, tasks: seq<Task>, i: nat, u: User, k: nat, slack: nat)
    requires MoneyOk(m, tasks) && i < |tasks| && tasks[i].FundTask?
    requires Exposure(m, tasks, u) <= Limit(k) + slack
    requires var (_, m', k') := TaskStep(b, m, tasks[i]); InFlight(m', tasks[i := k'], u) <= k
    ensures var (_, m', k') := TaskStep(b, m, tasks[i]);
            Exposure(m', tasks[i := k'], u) <= Limit(k) + slack + Reopening(m, tasks[i], u)
  {
    var FundTask(c, at) := tasks[i];
    var (m', at') := FundStep(m, c, at);
    var k' := FundTask(c, at');
    match at
    case Asked =>
      if at' == Checked {
        CheckingKeepsLimit(m, tasks, i, c, u, k);
      } else {
        NothingReserved(m, tasks, i, k', u);
      }
    case Checked => CreatingKeepsLimit(m, tasks, i, c, u);
    case Created(x) => ClosingKeepsLimit(m, tasks, i, c, x, u);
    case FundOver(_) => NothingReserved(m, tasks, i, k', u);
  }

  lemma TopUpStepKeepsLimit(b: Book, m: Money, tasks: seq<Task>, i: nat, u: User)
    requires MoneyOk(m, tasks) && i < |tasks| && tasks[i].TopUpTask?
    ensures var (_, m', k') := TaskStep(b, m, tasks[i]); Exposure(m', tasks[i := k'], u) <= Exposure(m, tasks, u)
  {
    var TopUpTask(c, at) := tasks[i];
    var (_, m', at') := TopUpStep(b, m, c, at);
    var k' := TopUpTask(c, at');
    assert InPlace(m, tasks[i]);
    if at.Admitted? && at'.Unmarked? {
      RowWritten(m, m', tasks, i, k', u, at.id, m'.funds[at.id]);
    } else if at.Unmarked? {
      RowWritten(m, m', tasks, i, k', u, at.id, m'.funds[at.id]);
    } else {
      NothingReserved(m, tasks, i, k', u);
    }
  }

  /**
   Whichever task moves, k requests in flight keep the exposure within the limit for k, but for what
   late status writes have reopened: `slack` is what they had reopened before the step.
   */
  lemma StepKeepsLimit(b: Book, m: Money, tasks: seq<Task>, i: nat, u: User, k: nat, slack: nat)
    requires MoneyOk(m, tasks) && i < |tasks|
    requires Exposure(m, tasks, u) <= Limit(k) + slack
    requires var (_, m', k') := TaskStep(b, m, tasks[i]); InFlight(m', tasks[i := k'], u) <= k
    ensures var (_, m', k') := TaskStep(b, m, tasks[i]);
            Exposure(m', tasks[i := k'], u) <= Limit(k) + slack + Reopening(m, tasks[i], u)
  {
    match tasks[i]
    case DepositTask(_, _) =>
      var (_, m', k') := TaskStep(b, m, tasks[i]);
      assert m'.funds == m.funds && m'.now == m.now;
      NothingReserved(m, tasks, i, k', u);
    case FundTask(_, _) => FundStepKeepsLimit(b, m, tasks, i, u, k, slack);
    case TopUpTask(_, _) => TopUpStepKeepsLimit(b, m, tasks, i, u);
  }

  lemma StartKeepsLimit(m: Money, tasks: seq<Task>, k: Task, u: User)
    requires Unstarted(k)
    ensures Exposure(m, tasks + [k], u) == Exposure(m, tasks, u)
  {
    TallySnoc(tasks, k, Reserved(u));
  }

  /** As time passes, completed requests only drop out of the window. */
  lemma TickKeepsLimit(m: Money, tasks: seq<Task>, u: User, dt: nat)
    requires MoneyOk(m, tasks)
    ensures Exposure(m.(now := m.now + dt), tasks, u) <= Exposure(m, tasks, u)
  {
    forall i | 0 <= i < |m.funds|
      ensures Today(u, m.now + dt)(m.funds[i]) <= 1 * Today(u, m.now)(m.funds[i])
    {
      assert Tied(m.funds[i], Tally(tasks, AboutToMark(i)));
    }
    TallyBound(m.funds, Today(u, m.now + dt), Today(u, m.now), 1, |m.funds|);
  }
}
