/** What holds of every reachable state, and of every step between two of them. */
module EngineLaws {
  import opened Sums
  import opened Ledger
  import opened Sourcing
  import opened SourcingLaws
  import opened Transactions
  import opened Transfer
  import opened TransferLaws
  import opened TransferTree
  import opened MoneyIn
  import opened MoneyLaws
  import opened Engine

  // ---------------------------------------------------------------------------------------------
  // Wallets

  /** The statement on a wallet that a task issues next. */
  function TaskOp(b: Book, k: Task): Option<(User, Op, bool)> {
    match k
    case DepositTask(c, at) =>
      (match at
       case DepositRecorded(u, _) => CreditOp(b, u, Net(c.amount, c.fee), c.walletRead, c.credit)
       case _ => None)
    case FundTask(_, _) => None
    case TopUpTask(c, at) =>
      (match at
       case Admitted(u, _) => CreditOp(b, u, c.amount, c.walletRead, c.credit)
       case _ => None)
  }

  function CreditOp(b: Book, u: User, amount: int, walletRead: bool, up: bool): Option<(User, Op, bool)> {
    if walletRead && u in b && amount > 0 then Some((u, Credit(amount), up)) else None
  }

  /** The statement on a wallet that an event issues. */
  function EventOp(s: System, e: Event): Option<(User, Op, bool)> {
    match e
    case StepTransfer(i) =>
      if i < |s.runs| && NextOp(s.t.book, s.runs[i]).Some? then
        var (op, up) := NextOp(s.t.book, s.runs[i]).value;
        Some((s.runs[i].user, op, up))
      else None
    case StepTask(i) => if i < |s.tasks| then TaskOp(s.t.book, s.tasks[i]) else None
    case _ => None
  }

  lemma TaskOpIsIssued(b: Book, m: Money, k: Task)
    requires AllChecks(b)
    ensures var op := TaskOp(b, k);
            && TaskStep(b, m, k).0 == (if op.Some? then Exec(b, op.value.0, op.value.1, op.value.2) else b)
            && (op.Some? ==> 0 <= op.value.1.amount && OutcomeOf(b, op.value.0, op.value.1, op.value.2) != CheckFired)
  {
    var op := TaskOp(b, k);
    if op.Some? {
      GuardsProtectChecks(b, op.value.0, op.value.1, op.value.2);
    }
  }

  /** The event changes the wallets by its statement alone, and that fires no constraint. */
  ghost predicate FiresNothing(s: System, e: Event) {
    var op := EventOp(s, e);
    && Apply(s, e).t.book == (if op.Some? then Exec(s.t.book, op.value.0, op.value.1, op.value.2) else s.t.book)
    && (op.Some? ==> OutcomeOf(s.t.book, op.value.0, op.value.1, op.value.2) != CheckFired)
  }

  lemma TransferFiresNothing(s0: System, s: System, i: nat)
    requires Inv(s0, s) && i < |s.runs|
    ensures FiresNothing(s, StepTransfer(i))
  {
    HeldFits(s0, s, i);
    NextOpIsIssued(s.t, s.runs[i]);
    NextOpIsSafe(s.t, s.runs[i]);
  }

  lemma TaskFiresNothing(s: System, i: nat)
    requires AllChecks(s.t.book) && i < |s.tasks|
    ensures FiresNothing(s, StepTask(i))
  {
    TaskOpIsIssued(s.t.book, s.m, s.tasks[i]);
  }

  /**
   In every interleaving the wallets change by the credits, debits, holds and releases that EventOp
   names and by nothing else, and none of these ever fires a CHECK constraint.
   */
  lemma ConstraintsNeverFire(s0: System, es: seq<Event>, n: nat)
    requires Start(s0) && n < |es|
    ensures FiresNothing(After(s0, es, n), es[n])
  {
    AlwaysInv(s0, es, n);
    var s := After(s0, es, n);
    match es[n]
    case StepTransfer(i) =>
      if i < |s.runs| {
        TransferFiresNothing(s0, s, i);
      }
    case StepTask(i) =>
      if i < |s.tasks| {
        TaskFiresNothing(s, i);
      }
    case _ =>
  }

  /**
   0 <= available <= balance; what is held grew by what the transfers hold; the balance moved by the
   recorded credits and settlements; and a transfer that has ended holds exactly what its result says.
   */
  ghost predicate WalletsInOrder(s0: System, s: System) {
    && Conserved(s0, s)
    && (forall u :: u in s.t.book ==> 0 <= s.t.book[u].ledger <= s.t.book[u].balance)
    && (forall i :: 0 <= i < |s.runs| ==> HoldsWhatItSays(s.runs[i]))
  }

  ghost predicate HoldsWhatItSays(l: Run) {
    l.pc.Exit? ==> l.held == HeldAtExit(l, l.pc.result) && (l.settled == 0 || l.settled == WalletShare(l.legs))
  }

  lemma ChecksOrder(b: Book)
    requires AllChecks(b)
    ensures forall u :: u in b ==> 0 <= b[u].ledger <= b[u].balance
  {
    forall u | u in b
      ensures 0 <= b[u].ledger <= b[u].balance
    {
      assert Checks(b[u]);
    }
  }

  lemma EndedHolds(l: Run, b: Book)
    requires Accounted(l, b)
    ensures HoldsWhatItSays(l)
  {
  }

  lemma InvOrdersWallets(s0: System, s: System)
    requires Inv(s0, s)
    ensures WalletsInOrder(s0, s)
  {
    ChecksOrder(s.t.book);
    forall i | 0 <= i < |s.runs|
      ensures HoldsWhatItSays(s.runs[i])
    {
      assert Accounted(s.runs[i], s.t.book);
      EndedHolds(s.runs[i], s.t.book);
    }
  }

  /** Wallets are in order after any events in any order. */
  lemma WalletsAddUp(s0: System, es: seq<Event>, n: nat)
    requires Start(s0) && n <= |es|
    ensures WalletsInOrder(s0, After(s0, es, n))
  {
    AlwaysInv(s0, es, n);
    InvOrdersWallets(s0, After(s0, es, n));
  }

  // ---------------------------------------------------------------------------------------------
  // Transactions

  /** The family of a completed transfer. */
  ghost predicate CompleteFamily(t: Tables, l: Run, p: nat) {
    var f := Family(t.txns, p, |t.txns|);
    && p < |t.txns|
    && t.txns[p].status == Completed && t.txns[p].user == l.user && t.txns[p].key == l.req.key
    && f.amount == t.txns[p].amount == l.req.amount
    && f.fee == t.txns[p].fee
    && f.payouts == 1
    && l.payout.Some? && l.payout.value < |t.txns|
    && t.txns[l.payout.value].parent == Some(p) && t.txns[l.payout.value].kind == PayoutLeg
    && t.txns[l.payout.value].amount == l.req.amount && t.txns[l.payout.value].payee == l.req.payee
    && t.txns[l.payout.value].status == Completed
    && l.held == WalletShare(l.legs)
    && l.held + MovedFor(t.pulls, p, |t.pulls|) == l.req.amount
    && MovedFor(t.payouts, p, |t.payouts|) == if l.env.payoutEnabled then l.req.amount else 0
  }

  /**
   Under any interleaving, a transfer that ends as completed has debit legs that add up to its amount
   and its fee, exactly one payout, and as much money held and pulled as it sent.
   */
  lemma CompletedFamilies(s0: System, es: seq<Event>, n: nat, i: nat)
    requires Start(s0) && n <= |es| && i < |After(s0, es, n).runs|
    requires var l := After(s0, es, n).runs[i]; l.pc.Exit? && l.pc.result.Done?
    ensures var s := After(s0, es, n);
            s.runs[i].parent.Some? && CompleteFamily(s.t, s.runs[i], s.runs[i].parent.value)
  {
    AlwaysInv(s0, es, n);
    OwnInvariants(s0, After(s0, es, n), i);
    DoneFamily(After(s0, es, n).t, After(s0, es, n).runs[i]);
  }

  lemma OwnInvariants(s0: System, s: System, i: nat)
    requires Inv(s0, s) && i < |s.runs|
    ensures InTree(s.t, s.runs[i]) && Accounted(s.runs[i], s.t.book) && PayoutInTime(s.runs[i])
  {
  }

  lemma DoneFamily(t: Tables, l: Run)
    requires InTree(t, l) && Accounted(l, t.book) && l.pc.Exit? && l.pc.result.Done? && PayoutInTime(l)
    ensures l.parent.Some? && CompleteFamily(t, l, l.parent.value)
  {
    var n := |l.legs|;
    LegTotalsAreTotals(l.legs, n);
    assert l.legs[..n] == l.legs;
    WalletAndBanks(l.legs, l.req.amount, n);
  }

  /** The rows and the money of a transfer that has a parent row, wherever it stands or ended. */
  ghost predicate MoneyOnBooks(t: Tables, l: Run, p: nat) {
    var rows, drawn := RowsMade(l), LegsDrawn(l);
    && rows.Some? && rows.value <= |l.legs| && drawn.Some? && drawn.value <= |l.legs|
    && Family(t.txns, p, |t.txns|).amount == LegTotals(l.legs, rows.value).amount
    && Family(t.txns, p, |t.txns|).fee == LegTotals(l.legs, rows.value).fee
    && MovedFor(t.pulls, p, |t.pulls|) == BankTotal(l.legs, drawn.value)
    && MovedFor(t.payouts, p, |t.payouts|) == if PayoutSent(l) then l.req.amount else 0
  }

  /**
   Under any interleaving, at every point and every exit: the debit-leg rows are those of the legs
   reached, the pulls are those of the banks that accepted, and nothing is paid out but the amount.
   */
  lemma MoneyAtEveryExit(s0: System, es: seq<Event>, n: nat, i: nat)
    requires Start(s0) && n <= |es| && i < |After(s0, es, n).runs| && After(s0, es, n).runs[i].parent.Some?
    ensures var s := After(s0, es, n); MoneyOnBooks(s.t, s.runs[i], s.runs[i].parent.value)
  {
    AlwaysInv(s0, es, n);
    OwnInvariants(s0, After(s0, es, n), i);
  }

  /** Pulls are never taken back: from one state to the next the list only grows. */
  lemma PullsOnlyGrow(s: System, e: Event)
    ensures |s.t.pulls| <= |Apply(s, e).t.pulls| && Apply(s, e).t.pulls[..|s.t.pulls|] == s.t.pulls
  {
    if e.StepTransfer? && e.i < |s.runs| {
      PullsAppended(s.t, s.runs[e.i]);
    }
  }

  lemma PullsAppended(t: Tables, l: Run)
    ensures var t' := Step(t, l).0;
            t'.pulls == t.pulls || exists m: Movement :: t'.pulls == t.pulls + [m]
  {
    if l.pc.AskBank? && l.legs[l.pc.i].source.Bank? && BankAccepts(l.env, l.legs[l.pc.i].source.id) {
      assert Step(t, l).0.pulls == t.pulls + [PullOf(l, l.pc.i)];
    }
  }

  /** So a failed payout gives the wallet its hold back, and leaves everything drawn on banks where it went. */
  lemma FailedPayoutKeepsPulls(s0: System, es: seq<Event>, n: nat, i: nat)
    requires Start(s0) && n <= |es| && i < |After(s0, es, n).runs|
    requires After(s0, es, n).runs[i].pc == Exit(PayoutFailed)
    ensures var s := After(s0, es, n);
            var l := s.runs[i];
            && l.parent.Some?
            && MovedFor(s.t.pulls, l.parent.value, |s.t.pulls|) == l.req.amount - WalletShare(l.legs)
            && MovedFor(s.t.payouts, l.parent.value, |s.t.payouts|) == 0
            && l.held == if l.env.undoRead && l.env.undo then 0 else WalletShare(l.legs)
  {
    AlwaysInv(s0, es, n);
    OwnInvariants(s0, After(s0, es, n), i);
    FailedPayoutMoney(After(s0, es, n).t, After(s0, es, n).runs[i]);
  }

  lemma FailedPayoutMoney(t: Tables, l: Run)
    requires InTree(t, l) && Accounted(l, t.book) && PayoutInTime(l) && l.pc == Exit(PayoutFailed)
    ensures l.parent.Some?
    ensures MovedFor(t.pulls, l.parent.value, |t.pulls|) == l.req.amount - WalletShare(l.legs)
    ensures MovedFor(t.payouts, l.parent.value, |t.payouts|) == 0
    ensures l.held == if l.env.undoRead && l.env.undo then 0 else WalletShare(l.legs)
  {
    var n := |l.legs|;
    LegTotalsAreTotals(l.legs, n);
    assert l.legs[..n] == l.legs;
    WalletAndBanks(l.legs, l.req.amount, n);
  }

  /** From one state to the next no row leaves COMPLETED or FAILED, and rows are only added. */
  ghost predicate FinishedStay(t: Tables, t': Tables) {
    && |t.txns| <= |t'.txns|
    && forall r :: 0 <= r < |t.txns| ==>
         && (Terminal(t.txns[r].status) ==> t'.txns[r] == t.txns[r])
         && SameRow(t.txns[r], t'.txns[r])
  }

  lemma TouchingKeepsFinished(t: Tables, t': Tables, p: nat)
    requires OnlyTouches(t, t', p)
    ensures FinishedStay(t, t')
  {
    forall r | 0 <= r < |t.txns|
      ensures Terminal(t.txns[r].status) ==> t'.txns[r] == t.txns[r]
      ensures SameRow(t.txns[r], t'.txns[r])
    {
      assert RowTouched(t.txns[r], t'.txns[r], r, p);
    }
  }

  /** Status safety: completion times mark exactly the finished rows, and finished rows never change again. */
  lemma StatusesAreSafe(s0: System, es: seq<Event>, n: nat)
    requires Start(s0) && n < |es|
    ensures var t, t' := After(s0, es, n).t, After(s0, es, n + 1).t;
            FinishedStay(t, t') && (forall r :: 0 <= r < |t'.txns| ==> RowOk(t'.txns[r], r))
  {
    AlwaysInv(s0, es, n);
    AlwaysInv(s0, es, n + 1);
    var s := After(s0, es, n);
    match es[n]
    case StepTransfer(i) =>
      if i < |s.runs| {
        assert InTree(s.t, s.runs[i]);
        StepTouches(s.t, s.runs[i]);
        TouchingKeepsFinished(s.t, Step(s.t, s.runs[i]).0, Owner(s.t, s.runs[i]));
      }
    case _ =>
  }

  lemma FinishedRowsStay(s0: System, es: seq<Event>, n: nat, s: System, s': System)
    requires Start(s0) && n < |es| && s == After(s0, es, n) && s' == After(s0, es, n + 1)
    ensures FinishedStay(s.t, s'.t)
  {
    StatusesAreSafe(s0, es, n);
  }

  /** A completed payout has a completed parent; a failed parent has a failed payout unless that one write was lost. */
  lemma StatusesAgree(s0: System, es: seq<Event>, n: nat, i: nat)
    requires Start(s0) && n <= |es| && i < |After(s0, es, n).runs| && After(s0, es, n).runs[i].payout.Some?
    ensures var s := After(s0, es, n);
            var l := s.runs[i];
            && l.parent.Some? && l.parent.value < |s.t.txns| && l.payout.value < |s.t.txns|
            && var parent, payout := s.t.txns[l.parent.value], s.t.txns[l.payout.value];
               && payout.parent == Some(l.parent.value)
               && (payout.status == Completed ==> parent.status == Completed)
               && (parent.status == Failed ==> (payout.status == Failed <==> l.env.payoutFailed))
  {
    AlwaysInv(s0, es, n);
    assert InTree(After(s0, es, n).t, After(s0, es, n).runs[i]);
  }

  /** What a transfer leaves its parent row at, once it has ended with this result. */
  predicate ParentEndsAt(l: Run, r: Result, s: Status) {
    match r
    case PayoutRowRefused => s == Processing
    case PayoutFailed => if l.env.parentFailed then s == Failed else s == Processing
    case CompletionNotMarked => s == Processing
    case PayoutNotMarked => s == Completed
    case Done(_, _) => s == Completed
    case _ => s == Pending
  }

  predicate PayoutEndsAt(l: Run, r: Result, s: Status) {
    match r
    case PayoutFailed => if l.env.payoutFailed then s == Failed else s == Pending
    case Done(_, _) => s == Completed
    case _ => s == Pending
  }

  /** The statuses that each result leaves, in every interleaving. */
  lemma ExitStatuses(s0: System, es: seq<Event>, n: nat, i: nat)
    requires Start(s0) && n <= |es| && i < |After(s0, es, n).runs|
    requires var l := After(s0, es, n).runs[i]; l.pc.Exit? && l.parent.Some?
    ensures var s := After(s0, es, n);
            var l := s.runs[i];
            && l.parent.value < |s.t.txns| && ParentEndsAt(l, l.pc.result, s.t.txns[l.parent.value].status)
            && (l.payout.Some? ==>
                  l.payout.value < |s.t.txns| && PayoutEndsAt(l, l.pc.result, s.t.txns[l.payout.value].status))
  {
    AlwaysInv(s0, es, n);
    assert InTree(After(s0, es, n).t, After(s0, es, n).runs[i]);
  }

  // ---------------------------------------------------------------------------------------------
  // Money in

  /** Under any interleaving, deposit references are unique and each deposit has been credited at most once, net. */
  lemma DepositsOnce(s0: System, es: seq<Event>, n: nat)
    requires Start(s0) && n <= |es|
    ensures var m := After(s0, es, n).m;
            && (forall i, j :: 0 <= i < j < |m.deposits| ==> m.deposits[i].ref != m.deposits[j].ref)
            && (forall id :: 0 <= id < |m.deposits| ==> AtMostOnce(m.deposits[id]))
  {
    AlwaysInv(s0, es, n);
    var s := After(s0, es, n);
    forall id | 0 <= id < |s.m.deposits|
      ensures AtMostOnce(s.m.deposits[id])
    {
      assert DepositTied(s.m.deposits[id], Tally(s.tasks, AboutToCredit(id)));
    }
  }

  predicate AtMostOnce(d: DepositRow) {
    d.credits == [] || d.credits == [Net(d.amount, d.fee)]
  }

  /** The credit of a recorded deposit that is worth something fails. */
  predicate LossEvent(s: System, e: Event) {
    e.StepTask? && e.i < |s.tasks| && Losing(s.t.book, s.tasks[e.i])
  }

  predicate LossAt(s0: System, es: seq<Event>, n: nat)
    requires n < |es|
  {
    LossEvent(After(s0, es, n), es[n])
  }

  lemma EventCarries(s0: System, s: System, e: Event, s': System)
    requires Inv(s0, s) && s' == Apply(s, e)
    ensures AllCarried(s'.m, s'.tasks) <==> AllCarried(s.m, s.tasks) && !LossEvent(s, e)
  {
    match e
    case StepTask(i) =>
      if i < |s.tasks| {
        CarriedExactly(s.t.book, s.m, s.tasks, i);
      }
    case BeginTask(k) =>
      if Unstarted(k) {
        StartCarries(s.m, s.tasks, k);
      }
    case _ =>
  }

  /**
   Every deposit is credited, exactly when.  After any events every recorded deposit has brought in its
   net amount, or the call that recorded it is about to credit it, if and only if no credit of a
   recorded deposit worth something has failed: a wallet read that fails, a wallet that is missing, or
   a credit that does not get through.
   */
  lemma {:induction false} DepositsCarried(s0: System, es: seq<Event>, n: nat)
    requires Start(s0) && n <= |es| && AllPaid(s0.m)
    ensures var s := After(s0, es, n);
            AllCarried(s.m, s.tasks) <==> forall k: nat {:trigger LossAt(s0, es, k)} :: k < n ==> !LossAt(s0, es, k)
  {
    if n > 0 {
      DepositsCarried(s0, es, n - 1);
      LastEventCarries(s0, es, n, After(s0, es, n - 1), After(s0, es, n));
    }
  }

  lemma LastEventCarries(s0: System, es: seq<Event>, n: nat, s: System, s': System)
    requires Start(s0) && 0 < n <= |es| && s == After(s0, es, n - 1) && s' == After(s0, es, n)
    ensures AllCarried(s'.m, s'.tasks) <==> AllCarried(s.m, s.tasks) && !LossAt(s0, es, n - 1)
  {
    AlwaysInv(s0, es, n - 1);
    EventCarries(s0, s, es[n - 1], s');
  }

  /** The deposit id is recorded, not paid, and no call will pay it. */
  ghost predicate Lost(s: System, id: nat) {
    id < |s.m.deposits| && !Carried(s.m.deposits[id], Tally(s.tasks, AboutToCredit(id)))
  }

  lemma EventLeavesLost(s0: System, s: System, e: Event, s': System, id: nat)
    requires Inv(s0, s) && s' == Apply(s, e) && Lost(s, id)
    ensures Lost(s', id)
  {
    match e
    case StepTask(i) =>
      if i < |s.tasks| {
        CarriedStep(s.t.book, s.m, s.tasks, i, id);
      }
    case BeginTask(k) =>
      if Unstarted(k) {
        TallySnoc(s.tasks, k, AboutToCredit(id));
      }
    case _ =>
  }

  /** What is lost stays lost, whatever is delivered afterwards. */
  lemma {:induction false} LostForEver(s0: System, es: seq<Event>, i: nat, n: nat, id: nat)
    requires Start(s0) && i <= n <= |es| && Lost(After(s0, es, i), id)
    ensures Lost(After(s0, es, n), id)
    decreases n
  {
    if n > i {
      LostForEver(s0, es, i, n - 1, id);
      AlwaysInv(s0, es, n - 1);
      EventLeavesLost(s0, After(s0, es, n - 1), es[n - 1], After(s0, es, n), id);
    }
  }

  predicate SlipEvent(s: System, e: Event) {
    e.StepTask? && e.i < |s.tasks| && Slipping(s.m, s.tasks[e.i])
  }

  predicate SlipAt(s0: System, es: seq<Event>, n: nat)
    requires n < |es|
  {
    SlipEvent(After(s0, es, n), es[n])
  }

  lemma EventSlips(s0: System, s: System, e: Event, s': System)
    requires Inv(s0, s) && s' == Apply(s, e)
    ensures NoSlips(s'.m) <==> NoSlips(s.m) && !SlipEvent(s, e)
  {
    if e.StepTask? && e.i < |s.tasks| {
      assert InPlace(s.m, s.tasks[e.i]);
      SlipsExactly(s.t.book, s.m, s.tasks[e.i]);
    }
  }

  lemma {:induction false} SlipsAreEvents(s0: System, es: seq<Event>, n: nat)
    requires Start(s0) && n <= |es| && NoSlips(s0.m)
    ensures NoSlips(After(s0, es, n).m)
            <==> forall k: nat {:trigger SlipAt(s0, es, k)} :: k < n ==> !SlipAt(s0, es, k)
  {
    if n > 0 {
      SlipsAreEvents(s0, es, n - 1);
      AlwaysInv(s0, es, n - 1);
      EventSlips(s0, After(s0, es, n - 1), es[n - 1], After(s0, es, n));
      assert SlipAt(s0, es, n - 1) == SlipEvent(After(s0, es, n - 1), es[n - 1]);
    }
  }

  ghost predicate NothingToMark(s: System) {
    forall id: nat :: id < |s.m.funds| ==> Tally(s.tasks, AboutToMark(id)) == 0
  }

  /**
   Exactly once, exactly when.  After any events, with no mark outstanding: every completed top-up has
   been credited once and every other one never, if and only if none of the three slips has happened.
   */
  lemma ExactlyOnce(s0: System, es: seq<Event>, n: nat)
    requires Start(s0) && n <= |es| && NoSlips(s0.m) && NothingToMark(After(s0, es, n))
    ensures CreditedOnce(After(s0, es, n).m)
            <==> forall k: nat {:trigger SlipAt(s0, es, k)} :: k < n ==> !SlipAt(s0, es, k)
  {
    AlwaysInv(s0, es, n);
    OnceIsNoSlips(After(s0, es, n).m, After(s0, es, n).tasks);
    SlipsAreEvents(s0, es, n);
  }
}
