/**
 What the answers of the money-in calls mean for the tables, and what a request must satisfy to get its
 row, in the fields of the call and in kobo.
 */
module MoneyAnswers {
  import opened Sums
  import opened Ledger
  import opened Transfer
  import opened MoneyIn
  import opened MoneyLaws
  import opened Engine

  // ---------------------------------------------------------------------------------------------
  // Deposits

  /** b with amount more for u, available and in all. */
  ghost predicate PaidIn(b: Book, b': Book, u: User, amount: int) {
    u in b && b' == b[u := Row(b[u].balance + amount, b[u].ledger + amount)]
  }

  /** The call recorded the deposit, for the owner of the account, with these credits. */
  ghost predicate DepositMade(m: Money, m': Money, c: DepositCall, credits: seq<int>) {
    && c.lookup && c.insert && c.account in m.accounts
    && (forall i :: 0 <= i < |m.deposits| ==> m.deposits[i].ref != c.ref)
    && m' == m.(deposits := m.deposits + [DepositRow(m.accounts[c.account], c.amount, c.fee, c.ref, credits)])
  }

  /** What each answer to a deposit delivery says; an answer not listed is never given. */
  ghost predicate DepositMeans(b: Book, m: Money, c: DepositCall, b': Book, m': Money, r: MoneyResult) {
    match r
    case Credited =>
      && DepositMade(m, m', c, [c.amount - c.fee]) && c.amount > c.fee && c.walletRead && c.credit
      && PaidIn(b, b', m.accounts[c.account], c.amount - c.fee)
    case WalletUnread => DepositMade(m, m', c, []) && b' == b && !c.walletRead
    case WalletMissing => DepositMade(m, m', c, []) && b' == b && c.walletRead && m.accounts[c.account] !in b
    case BadCredit =>
      DepositMade(m, m', c, []) && b' == b && c.walletRead && m.accounts[c.account] in b && c.amount <= c.fee
    case CreditDown =>
      && DepositMade(m, m', c, []) && b' == b && c.walletRead && m.accounts[c.account] in b && c.amount > c.fee && !c.credit
    case LookupUnread => m' == m && b' == b && !c.lookup
    case UnknownAccount => m' == m && b' == b && c.lookup && c.account !in m.accounts
    case DepositRefused =>
      && m' == m && b' == b && c.lookup && c.account in m.accounts
      && (!c.insert || exists i :: 0 <= i < |m.deposits| && m.deposits[i].ref == c.ref)
    case _ => false
  }

  lemma CreditMeans(b: Book, u: User, amount: int, walletRead: bool, up: bool)
    requires AllChecks(b)
    ensures var r := CreditOutcome(b, u, amount, walletRead, up);
            && (r == WalletUnread <==> !walletRead)
            && (r == WalletMissing <==> walletRead && u !in b)
            && (r == BadCredit <==> walletRead && u in b && amount <= 0)
            && (r == CreditDown <==> walletRead && u in b && amount > 0 && !up)
            && (r == Credited <==> walletRead && u in b && amount > 0 && up)
            && (r == Credited ==> PaidIn(b, CreditedBook(b, u, amount, r), u, amount))
            && (r != Credited ==> CreditedBook(b, u, amount, r) == b)
  {
    if amount > 0 {
      StatementsMean(b, u, amount, up);
      StatementsMean(b, u, amount, true);
    }
  }

  lemma RecordedMeans(b: Book, m: Money, c: DepositCall, u: User, m1: Money)
    requires AllChecks(b) && DepositMade(m, m1, c, []) && u == m.accounts[c.account]
    ensures var (b', m', k') := RunTask(b, m1, DepositTask(c, DepositRecorded(u, |m.deposits|)));
            DepositMeans(b, m, c, b', m', ResultOf(k'))
  {
    var k := DepositTask(c, DepositRecorded(u, |m.deposits|));
    CreditMeans(b, u, Net(c.amount, c.fee), c.walletRead, c.credit);
    var (b', m', k') := TaskStep(b, m1, k);
    assert RunTask(b', m', k') == (b', m', k');
    if ResultOf(k') == Credited {
      var row := DepositRow(u, c.amount, c.fee, c.ref, []);
      assert [] + [c.amount - c.fee] == [c.amount - c.fee];
      assert m'.deposits == m.deposits + [row.(credits := [c.amount - c.fee])];
    }
  }

  /** A delivery that runs alone: its answer says exactly what became of the tables, and why. */
  lemma DepositAnswers(b: Book, m: Money, c: DepositCall)
    requires AllChecks(b)
    ensures var (b', m', k') := RunTask(b, m, DepositTask(c, DepositArrived));
            DepositMeans(b, m, c, b', m', ResultOf(k'))
  {
    var (b1, m1, k1) := TaskStep(b, m, DepositTask(c, DepositArrived));
    if Over(k1) {
      assert RunTask(b1, m1, k1) == (b1, m1, k1);
      if ResultOf(k1) == DepositRefused && c.insert {
        var i :| 0 <= i < |m.deposits| && m.deposits[i].ref == c.ref;
      }
    } else {
      RecordedMeans(b, m, c, m.accounts[c.account], m1);
    }
  }

  /** The table grew by one row that has the net amount of the delivery. */
  predicate GrewByPaid(m: Money, m': Money, c: DepositCall) {
    |m'.deposits| == |m.deposits| + 1 && m'.deposits[|m.deposits|].credits == [c.amount - c.fee]
  }

  lemma AnswerTellsPaid(b: Book, m: Money, c: DepositCall, b': Book, m': Money, r: MoneyResult)
    requires DepositMeans(b, m, c, b', m', r)
    ensures r == Credited <==> GrewByPaid(m, m', c)
  {
  }

  /** So it is answered as credited if and only if it grew the table by one row that has its net amount. */
  lemma CreditedMeansPaid(b: Book, m: Money, c: DepositCall)
    requires AllChecks(b)
    ensures var (b', m', k') := RunTask(b, m, DepositTask(c, DepositArrived));
            ResultOf(k') == Credited <==> GrewByPaid(m, m', c)
  {
    DepositAnswers(b, m, c);
    var (b', m', k') := RunTask(b, m, DepositTask(c, DepositArrived));
    AnswerTellsPaid(b, m, c, b', m', ResultOf(k'));
  }

  // ---------------------------------------------------------------------------------------------
  // Requests for a top-up

  /** What FundFromBank demands before it writes anything. */
  predicate InOrder(m: Money, c: FundCall) {
    && 10_000 <= c.amount <= 50_000_000
    && c.bank == BankIs(c.user, true, true)
    && c.sumRead && SumCompletedToday(m.funds, c.user, m.now, |m.funds|) + c.amount <= 100_000_000
  }

  /** The request made its row, which ends with this status. */
  ghost predicate RequestMade(m: Money, m': Money, c: FundCall, s: FundStatus) {
    && InOrder(m, c) && c.create && (forall i :: 0 <= i < |m.funds| ==> m.funds[i].ref != c.ref)
    && m' == m.(funds := m.funds + [FundRow(c.user, c.ref, c.amount, s, m.now, None, [], 0)])
  }

  /** What each answer to a request says. */
  ghost predicate FundMeans(m: Money, c: FundCall, m': Money, r: MoneyResult) {
    match r
    case Waiting(ref) => RequestMade(m, m', c, FundPending) && c.initiation == Initiated && ref == c.ref
    case MonoUnavailable => RequestMade(m, m', c, if c.write then FundFailed else FundPending) && c.initiation == NoMono
    case UserMissing => RequestMade(m, m', c, if c.write then FundFailed else FundPending) && c.initiation == NoUser
    case DirectDebitFailed => RequestMade(m, m', c, if c.write then FundFailed else FundPending) && c.initiation == Rejected
    case RequestRefused =>
      m' == m && InOrder(m, c) && (!c.create || exists i :: 0 <= i < |m.funds| && m.funds[i].ref == c.ref)
    case TooSmall => m' == m && c.amount < 10_000
    case TooLarge => m' == m && c.amount > 50_000_000
    case BankDown => m' == m && c.bank == BankUnread
    case Forbidden => m' == m && (c.bank == NoSuchBank || (c.bank.BankIs? && c.bank.owner != c.user))
    case BankNotActive => m' == m && c.bank.BankIs? && c.bank.owner == c.user && !(c.bank.active && c.bank.verified)
    case SumUnread => m' == m && !c.sumRead
    case OverDailyLimit => m' == m && SumCompletedToday(m.funds, c.user, m.now, |m.funds|) + c.amount > 100_000_000
    case _ => false
  }

  lemma CheckMeans(m: Money, c: FundCall)
    ensures var at := CheckFund(m, c);
            && (at == Checked <==> InOrder(m, c))
            && (at != Checked ==> at.FundOver? && FundMeans(m, c, m, at.result) && !at.result.RequestRefused?)
  {
  }

  lemma CreatedMeans(b: Book, m: Money, c: FundCall, m1: Money)
    requires RequestMade(m, m1, c, FundPending)
    ensures var (b', m', k') := RunTask(b, m1, FundTask(c, Created(|m.funds|)));
            b' == b && FundMeans(m, c, m', ResultOf(k'))
  {
    var (b', m', k') := TaskStep(b, m1, FundTask(c, Created(|m.funds|)));
    assert RunTask(b', m', k') == (b', m', k');
    var s := if c.initiation == Initiated || !c.write then FundPending else FundFailed;
    assert m'.funds == m.funds + [FundRow(c.user, c.ref, c.amount, s, m.now, None, [], 0)];
  }

  lemma CheckedMeans(b: Book, m: Money, c: FundCall)
    requires InOrder(m, c)
    ensures var (b', m', k') := RunTask(b, m, FundTask(c, Checked));
            b' == b && FundMeans(m, c, m', ResultOf(k'))
  {
    var (b1, m1, k1) := TaskStep(b, m, FundTask(c, Checked));
    if Over(k1) {
      assert RunTask(b1, m1, k1) == (b1, m1, k1);
      if c.create {
        var i :| 0 <= i < |m.funds| && m.funds[i].ref == c.ref;
      }
    } else {
      CreatedMeans(b, m, c, m1);
    }
  }

  /** A request that runs alone: its answer says exactly what became of the table, and why; wallets are not touched. */
  lemma FundAnswers(b: Book, m: Money, c: FundCall)
    ensures var (b', m', k') := RunTask(b, m, FundTask(c, Asked));
            b' == b && FundMeans(m, c, m', ResultOf(k'))
  {
    CheckMeans(m, c);
    var k1 := FundTask(c, CheckFund(m, c));
    if CheckFund(m, c) == Checked {
      CheckedMeans(b, m, c);
    } else {
      assert RunTask(b, m, k1) == (b, m, k1);
    }
    assert TaskStep(b, m, FundTask(c, Asked)) == (b, m, k1);
    assert RunTask(b, m, FundTask(c, Asked)) == RunTask(b, m, k1);
  }

  /**
   A request gets its row if and only if the amount is within the bounds, the bank is the user's own and
   active and verified, today's sum can be read and leaves room, and the insert gets through.
   */
  lemma RequestsExactly(b: Book, m: Money, c: FundCall)
    ensures var m' := RunTask(b, m, FundTask(c, Asked)).1;
            m'.funds != m.funds
            <==> && 10_000 <= c.amount <= 50_000_000
                 && c.bank.BankIs? && c.bank.owner == c.user && c.bank.active && c.bank.verified
                 && c.sumRead && SumCompletedToday(m.funds, c.user, m.now, |m.funds|) + c.amount <= 100_000_000
                 && c.create && forall i :: 0 <= i < |m.funds| ==> m.funds[i].ref != c.ref
  {
    FundAnswers(b, m, c);
    var (_, m', k') := RunTask(b, m, FundTask(c, Asked));
    if m'.funds != m.funds {
      assert |m'.funds| == |m.funds| + 1;
    }
  }

  /** And it is answered as waiting for the bank if and only if it got its row and the debit was initiated. */
  lemma WaitingMeansRequested(b: Book, m: Money, c: FundCall, ref: string)
    ensures var (_, m', k') := RunTask(b, m, FundTask(c, Asked));
            ResultOf(k') == Waiting(ref) <==> m'.funds != m.funds && c.initiation == Initiated && ref == c.ref
  {
    FundAnswers(b, m, c);
    var (_, m', k') := RunTask(b, m, FundTask(c, Asked));
    if m'.funds != m.funds {
      assert |m'.funds| == |m.funds| + 1;
    }
  }

  // ---------------------------------------------------------------------------------------------
  // Deliveries of a top-up

  /** The row that the delivery is for. */
  ghost predicate IsFor(m: Money, c: TopUpCall, id: nat) {
    id < |m.funds| && m.funds[id].ref == c.ref && forall i :: 0 <= i < id ==> m.funds[i].ref != c.ref
  }

  /** The delivery found an open request whose wallet is there; the request is as it was but for this. */
  ghost predicate FoundOpen(m: Money, c: TopUpCall, id: nat) {
    c.lookup && IsFor(m, c, id) && m.funds[id].status != FundCompleted
  }

  /** The row has the credit, and is completed now if the mark gets through. */
  ghost predicate ToppedUp(m: Money, m': Money, c: TopUpCall, id: nat)
    requires id < |m.funds|
  {
    var f := m.funds[id];
    var credited := f.(credits := f.credits + [c.amount]);
    m' == m.(funds := m.funds[id := if c.mark then credited.(status := FundCompleted, completedAt := Some(m.now))
                                    else credited.(slips := f.slips + 1)])
  }

  ghost predicate TopUpMeans(b: Book, m: Money, c: TopUpCall, b': Book, m': Money, r: MoneyResult) {
    match r
    case Credited =>
      exists id: nat :: FoundOpen(m, c, id) && c.walletRead && c.credit && c.amount > 0
                        && PaidIn(b, b', m.funds[id].user, c.amount) && ToppedUp(m, m', c, id)
    case WalletUnread => m' == m && b' == b && !c.walletRead && exists id: nat :: FoundOpen(m, c, id)
    case WalletMissing => m' == m && b' == b && exists id: nat :: FoundOpen(m, c, id) && m.funds[id].user !in b
    case BadCredit => m' == m && b' == b && c.amount <= 0 && exists id: nat :: FoundOpen(m, c, id)
    case CreditDown => m' == m && b' == b && c.amount > 0 && !c.credit && exists id: nat :: FoundOpen(m, c, id)
    case LookupUnread => m' == m && b' == b && !c.lookup
    case UnknownRef => m' == m && b' == b && c.lookup && forall i :: 0 <= i < |m.funds| ==> m.funds[i].ref != c.ref
    case AlreadyCompleted =>
      m' == m && b' == b && c.lookup && exists id: nat :: IsFor(m, c, id) && m.funds[id].status == FundCompleted
    case _ => false
  }

  lemma AdmittedMeans(b: Book, m: Money, c: TopUpCall, id: nat)
    requires AllChecks(b) && FoundOpen(m, c, id)
    ensures var (b', m', k') := RunTask(b, m, TopUpTask(c, Admitted(m.funds[id].user, id)));
            TopUpMeans(b, m, c, b', m', ResultOf(k'))
  {
    var u := m.funds[id].user;
    CreditMeans(b, u, c.amount, c.walletRead, c.credit);
    var (b1, m1, k1) := TaskStep(b, m, TopUpTask(c, Admitted(u, id)));
    if Over(k1) {
      assert RunTask(b1, m1, k1) == (b1, m1, k1);
    } else {
      var (b2, m2, k2) := TaskStep(b1, m1, k1);
      assert RunTask(b2, m2, k2) == (b2, m2, k2);
      assert RunTask(b, m, TopUpTask(c, Admitted(u, id))) == RunTask(b1, m1, k1) == (b2, m2, k2);
      UnmarkedMeans(b1, m, c, id, m1);
      assert ToppedUp(m, m2, c, id);
    }
  }

  lemma UnmarkedMeans(b: Book, m: Money, c: TopUpCall, id: nat, m1: Money)
    requires FoundOpen(m, c, id) && m1 == m.(funds := FundCredited(m.funds, id, c.amount))
    ensures var (b', m', k') := TaskStep(b, m1, TopUpTask(c, Unmarked(id)));
            b' == b && k' == TopUpTask(c, TopUpOver(Credited)) && ToppedUp(m, m', c, id)
  {
  }

  /** A delivery that runs alone: its answer says exactly what became of wallet and request, and why. */
  lemma TopUpAnswers(b: Book, m: Money, c: TopUpCall)
    requires AllChecks(b)
    ensures var (b', m', k') := RunTask(b, m, TopUpTask(c, TopUpArrived));
            TopUpMeans(b, m, c, b', m', ResultOf(k'))
  {
    var (b1, m1, k1) := TaskStep(b, m, TopUpTask(c, TopUpArrived));
    var hit := FindFund(m.funds, c.ref, |m.funds|);
    if Over(k1) {
      assert RunTask(b1, m1, k1) == (b1, m1, k1);
      if c.lookup && hit.Some? {
        assert IsFor(m, c, hit.value);
      }
    } else {
      assert IsFor(m, c, hit.value);
      AdmittedMeans(b, m, c, hit.value);
      assert RunTask(b, m, TopUpTask(c, TopUpArrived)) == RunTask(b1, m1, k1);
    }
  }

  /** Some request has this credit on top of those it had. */
  ghost predicate GainedCredit(funds: seq<FundRow>, funds': seq<FundRow>, amount: int) {
    && |funds'| == |funds|
    && exists id :: 0 <= id < |funds| && funds'[id].credits == funds[id].credits + [amount]
  }

  lemma ToppedUpGains(m: Money, m': Money, c: TopUpCall, id: nat)
    requires id < |m.funds| && ToppedUp(m, m', c, id)
    ensures GainedCredit(m.funds, m'.funds, c.amount)
  {
    var f := m'.funds[id];
    assert f.credits == m.funds[id].credits + [c.amount];
  }

  /** It is answered as credited if and only if a request gained the credit. */
  lemma ToppedUpMeansPaid(b: Book, m: Money, c: TopUpCall)
    requires AllChecks(b)
    ensures var (b', m', k') := RunTask(b, m, TopUpTask(c, TopUpArrived));
            ResultOf(k') == Credited <==> GainedCredit(m.funds, m'.funds, c.amount)
  {
    TopUpAnswers(b, m, c);
    var (b', m', k') := RunTask(b, m, TopUpTask(c, TopUpArrived));
    if ResultOf(k') == Credited {
      var id: nat :| id < |m.funds| && ToppedUp(m, m', c, id);
      ToppedUpGains(m, m', c, id);
    }
  }

  // ---------------------------------------------------------------------------------------------
  // In every interleaving

  /** A request that has passed the check, or has its row, is for the user's own usable bank and within the bounds. */
  predicate OwnBank(k: Task) {
    k.FundTask? && (k.fundAt.Checked? || k.fundAt.Created?) ==>
      k.fund.bank == BankIs(k.fund.user, true, true) && 10_000 <= k.fund.amount <= 50_000_000
  }

  ghost predicate AllOwnBanks(s: System) {
    forall i :: 0 <= i < |s.tasks| ==> OwnBank(s.tasks[i])
  }

  lemma StepKeepsBank(b: Book, m: Money, k: Task)
    requires OwnBank(k)
    ensures OwnBank(TaskStep(b, m, k).2)
  {
    if k.FundTask? && k.fundAt.Asked? {
      CheckMeans(m, k.fund);
    }
  }

  /** No row is ever made, in any interleaving, by a request for a bank that is not the user's own, active and verified. */
  lemma {:induction false} OnlyOwnBanks(s0: System, es: seq<Event>, n: nat)
    requires s0.tasks == [] && n <= |es|
    ensures AllOwnBanks(After(s0, es, n))
  {
    if n > 0 {
      OnlyOwnBanks(s0, es, n - 1);
      var s, e := After(s0, es, n - 1), es[n - 1];
      if e.StepTask? && e.i < |s.tasks| {
        StepKeepsBank(s.t.book, s.m, s.tasks[e.i]);
      }
    }
  }
}
