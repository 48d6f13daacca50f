/** What one step of a transfer does to its wallet, and how much it holds at each point and at each exit. */
module TransferLaws {
  import opened Sums
  import opened Ledger
  import opened Sourcing
  import opened SourcingLaws
  import opened Transactions
  import opened Transfer

  // ---------------------------------------------------------------------------------------------
  // The wallet

  /** From b to b' the balance of u fell by `settled`, what is held of it rose by `held`, and no other wallet changed. */
  ghost predicate Moved(b: Book, b': Book, u: User, held: int, settled: int) {
    && b'.Keys == b.Keys
    && (forall v :: v in b && v != u ==> b'[v] == b[v])
    && (u in b ==> b'[u].balance == b[u].balance - settled && Gap(b'[u]) == Gap(b[u]) + held)
    && (u !in b ==> held == 0 && settled == 0)
  }

  lemma ExecMoves(b: Book, u: User, op: Op, up: bool)
    ensures var applied := OutcomeOf(b, u, op, up) == Applied;
            match op
            case Hold(a) => Moved(b, Exec(b, u, op, up), u, if applied then a else 0, 0)
            case ReleaseHold(a) => Moved(b, Exec(b, u, op, up), u, if applied then -a else 0, 0)
            case Debit(a) => Moved(b, Exec(b, u, op, up), u, 0, if applied then a else 0)
            case Credit(a) => Moved(b, Exec(b, u, op, up), u, 0, if applied then -a else 0)
  {
  }

  /** The counters of a transfer tell exactly what a step does to the wallets. */
  ghost predicate Tells(t: Tables, l: Run, r: (Tables, Run)) {
    r.1.user == l.user && Moved(t.book, r.0.book, l.user, r.1.held - l.held, r.1.settled - l.settled)
  }

  lemma ReleaseTells(t: Tables, l: Run, amount: int, up: bool, next: Pc)
    requires WellFormed(l.(pc := next))
    ensures Tells(t, l, ReleaseStep(t, l, amount, up, next))
  {
    ExecMoves(t.book, l.user, ReleaseHold(amount), up);
  }

  lemma LegTells(t: Tables, l: Run, i: nat)
    requires l.pc == LegAt(i)
    ensures Tells(t, l, LegStep(t, l, i))
  {
    if i < |l.legs| {
      ExecMoves(t.book, l.user, Hold(l.legs[i].amount + l.legs[i].fee), l.env.wallet.hold);
    }
  }

  lemma UndoTells(t: Tables, l: Run, i: nat)
    requires l.pc == Undo(i)
    ensures Tells(t, l, UndoStep(t, l, i))
  {
    if i < |l.legs| {
      ReleaseTells(t, l, l.legs[i].amount + l.legs[i].fee, l.env.undo, Undo(i + 1));
    }
  }

  lemma SettleTells(t: Tables, l: Run, i: nat)
    requires l.pc == Settle(i)
    ensures Tells(t, l, SettleStep(t, l, i))
  {
    if i < |l.legs| {
      ExecMoves(t.book, l.user, Debit(l.legs[i].amount + l.legs[i].fee), l.env.settle);
    }
  }

  /** The steps that touch no wallet. */
  lemma QuietSteps(t: Tables, l: Run)
    requires !l.pc.LegAt? && !l.pc.UndoChild? && !l.pc.Undo? && !l.pc.Settle?
    ensures var (t', l') := Step(t, l);
            t'.book == t.book && l'.user == l.user && l'.held == l.held && l'.settled == l.settled
  {
  }

  lemma StepMoves(t: Tables, l: Run)
    ensures Tells(t, l, Step(t, l))
  {
    match l.pc
    case LegAt(i) => LegTells(t, l, i);
    case UndoChild(i) =>
      ReleaseTells(t, l, l.legs[i].amount + l.legs[i].fee, l.env.wallet.release, Exit(WalletRowRefused(i)));
    case Undo(i) => UndoTells(t, l, i);
    case Settle(i) => SettleTells(t, l, i);
    case _ => QuietSteps(t, l);
  }

  lemma StepDescends(t: Tables, l: Run)
    requires !l.pc.Exit?
    ensures var l' := Step(t, l).1;
            Stage(l'.pc) < Stage(l.pc) || (Stage(l'.pc) == Stage(l.pc) && StepsLeft(l') < StepsLeft(l))
  {
  }

  lemma MovesAdd(b: Book, b1: Book, b2: Book, u: User, h1: int, s1: int, h2: int, s2: int)
    requires Moved(b, b1, u, h1, s1) && Moved(b1, b2, u, h2, s2)
    ensures Moved(b, b2, u, h1 + h2, s1 + s2)
  {
  }

  lemma {:induction false} FinishMoves(t: Tables, l: Run)
    ensures Tells(t, l, Finish(t, l))
    decreases Stage(l.pc), StepsLeft(l)
  {
    if !l.pc.Exit? {
      var (t1, l1) := Step(t, l);
      StepMoves(t, l);
      StepDescends(t, l);
      FinishMoves(t1, l1);
      var (t2, l2) := Finish(t1, l1);
      MovesAdd(t.book, t1.book, t2.book, l.user,
               l1.held - l.held, l1.settled - l.settled, l2.held - l1.held, l2.settled - l1.settled);
    }
  }

  // ---------------------------------------------------------------------------------------------
  // What is held, and when

  /** The wallet leg of a plan; zero if there is none. */
  function WalletShare(legs: seq<Leg>): int {
    if |legs| > 0 && legs[0].source.Wallet? then legs[0].amount else 0
  }

  /** What a transfer that has ended this way still holds. */
  function HeldAtExit(l: Local, r: Result): int {
    match r
    case LookupFailed => 0
    case Hit(_, _, _) => 0
    case PlanFailed(_) => 0
    case ParentRefused => 0
    case WalletUnreadable(_) => 0
    case HoldRefused(_) => 0
    case WalletRowRefused(_) => if l.env.wallet.release then 0 else WalletShare(l.legs)
    case PayoutFailed => if l.env.undoRead && l.env.undo then 0 else WalletShare(l.legs)
    case _ => WalletShare(l.legs)
  }

  /** What a transfer holds at each point. */
  function HeldAt(l: Local): int {
    match l.pc
    case Lookup => 0
    case Planning => 0
    case MakeParent => 0
    case LegAt(i) => if i == 0 then 0 else WalletShare(l.legs)
    case Undo(i) => if i == 0 then WalletShare(l.legs) else HeldAtExit(l, PayoutFailed)
    case Exit(r) => HeldAtExit(l, r)
    case _ => WalletShare(l.legs)
  }

  /** The plan has been made. */
  predicate HasPlan(pc: Pc) {
    && !pc.Lookup? && !pc.Planning?
    && !(pc.Exit? && (pc.result.LookupFailed? || pc.result.Hit? || pc.result.PlanFailed?))
  }

  predicate AfterSettling(pc: Pc) {
    || (pc.Settle? && pc.i > 0)
    || pc.MarkParentDone?
    || pc.MarkPayoutDone?
    || (pc.Exit? && (pc.result.CompletionNotMarked? || pc.result.PayoutNotMarked? || pc.result.Done?))
  }

  /** The books of one transfer are in order. */
  ghost predicate Accounted(l: Run, b: Book) {
    && 0 <= l.req.amount
    && (HasPlan(l.pc) ==> Shaped(l.legs, l.req.amount))
    && (!HasPlan(l.pc) ==> l.legs == [])
    && l.fees == TotalFees(l.legs)
    && l.held == HeldAt(l)
    && (l.held > 0 || l.settled > 0 ==> l.user in b)
    && (l.settled == 0 || (l.settled == WalletShare(l.legs) && AfterSettling(l.pc)))
    && (l.pc.WalletChild? || l.pc.UndoChild? ==> l.legs[l.pc.i].source.Wallet?)
    && (l.pc.AskBank? ==> l.legs[l.pc.i].source.Bank?)
  }

  /** The statement on the wallet that the next step issues, if any, and whether it gets through. */
  function NextOp(b: Book, l: Run): Option<(Op, bool)> {
    match l.pc
    case LegAt(i) =>
      if i < |l.legs| && l.legs[i].source.Wallet? && l.env.wallet.read && l.user in b then
        Some((Hold(l.legs[i].amount + l.legs[i].fee), l.env.wallet.hold))
      else None
    case UndoChild(i) => Some((ReleaseHold(l.legs[i].amount + l.legs[i].fee), l.env.wallet.release))
    case Undo(i) =>
      if i < |l.legs| && l.legs[i].source.Wallet? && l.env.undoRead then
        Some((ReleaseHold(l.legs[i].amount + l.legs[i].fee), l.env.undo))
      else None
    case Settle(i) =>
      if i < |l.legs| && l.legs[i].source.Wallet? && l.env.settleRead then
        Some((Debit(l.legs[i].amount + l.legs[i].fee), l.env.settle))
      else None
    case _ => None
  }

  /** NextOp is all that a step does to the wallets. */
  lemma NextOpIsIssued(t: Tables, l: Run)
    ensures var op := NextOp(t.book, l);
            Step(t, l).0.book == if op.Some? then Exec(t.book, l.user, op.value.0, op.value.1) else t.book
  {
    if !l.pc.LegAt? && !l.pc.UndoChild? && !l.pc.Undo? && !l.pc.Settle? {
      QuietSteps(t, l);
    }
  }

  /** A transfer never asks for more back than it holds, so it never fires a CHECK constraint. */
  lemma NextOpIsSafe(t: Tables, l: Run)
    requires Covered(t, l)
    ensures var op := NextOp(t.book, l);
            op.Some? ==> 0 <= op.value.0.amount && OutcomeOf(t.book, l.user, op.value.0, op.value.1) != CheckFired
  {
    var op := NextOp(t.book, l);
    if op.Some? {
      assert l.pc.i == 0 && l.legs[0].source.Wallet?;
      GuardsProtectChecks(t.book, l.user, op.value.0, op.value.1);
    }
  }

  /** What the accounts of a transfer rely on. */
  ghost predicate Covered(t: Tables, l: Run) {
    && Accounted(l, t.book)
    && AllChecks(t.book)
    && (l.user in t.book ==> l.held <= Gap(t.book[l.user]))
  }

  ghost predicate StillAccounted(r: (Tables, Run)) {
    Accounted(r.1, r.0.book) && AllChecks(r.0.book)
  }

  lemma PlanKeepsAccounts(t: Tables, l: Run)
    requires Covered(t, l) && l.pc == Planning
    ensures StillAccounted(PlanStep(t, l))
  {
    PlanShape(ReadWallet(t.book, l.user, l.env.balanceRead), l.req.amount, l.env.accounts, l.env.fetches);
  }

  lemma WalletLegKeepsAccounts(t: Tables, l: Run, i: nat)
    requires Covered(t, l) && l.pc == LegAt(i) && i < |l.legs| && l.legs[i].source.Wallet?
    ensures StillAccounted(LegStep(t, l, i))
  {
    assert i == 0 && l.legs[0].fee == 0 && 0 <= l.legs[0].amount;
    GuardsProtectChecks(t.book, l.user, Hold(l.legs[i].amount + l.legs[i].fee), l.env.wallet.hold);
  }

  lemma LegKeepsAccounts(t: Tables, l: Run, i: nat)
    requires Covered(t, l) && l.pc == LegAt(i)
    ensures StillAccounted(LegStep(t, l, i))
  {
    if i < |l.legs| && l.legs[i].source.Wallet? {
      WalletLegKeepsAccounts(t, l, i);
    } else if i < |l.legs| {
      assert l.held == (if i == 0 then 0 else WalletShare(l.legs));
    } else if i == 0 {
      assert WalletShare(l.legs) == 0;
    }
  }

  lemma UndoChildKeepsAccounts(t: Tables, l: Run, i: nat)
    requires Covered(t, l) && l.pc == UndoChild(i)
    ensures StillAccounted(ReleaseStep(t, l, l.legs[i].amount + l.legs[i].fee, l.env.wallet.release,
                                       Exit(WalletRowRefused(i))))
  {
    GuardsProtectChecks(t.book, l.user, ReleaseHold(l.legs[i].amount + l.legs[i].fee), l.env.wallet.release);
  }

  lemma UndoKeepsAccounts(t: Tables, l: Run, i: nat)
    requires Covered(t, l) && l.pc == Undo(i)
    ensures StillAccounted(UndoStep(t, l, i))
  {
    if i < |l.legs| && l.legs[i].source.Wallet? {
      GuardsProtectChecks(t.book, l.user, ReleaseHold(l.legs[i].amount + l.legs[i].fee), l.env.undo);
    }
  }

  lemma SettleKeepsAccounts(t: Tables, l: Run, i: nat)
    requires Covered(t, l) && l.pc == Settle(i)
    ensures StillAccounted(SettleStep(t, l, i))
  {
    if i < |l.legs| && l.legs[i].source.Wallet? {
      GuardsProtectChecks(t.book, l.user, Debit(l.legs[i].amount + l.legs[i].fee), l.env.settle);
    }
  }

  lemma EarlyKeepsAccounts(t: Tables, l: Run)
    requires Covered(t, l) && (l.pc.Lookup? || l.pc.MakeParent?)
    ensures StillAccounted(Step(t, l))
  {
  }

  lemma RecordingKeepsAccounts(t: Tables, l: Run)
    requires Covered(t, l) && (l.pc.WalletChild? || l.pc.AskBank?)
    ensures StillAccounted(Step(t, l))
  {
  }

  /** l' differs from l in where it stands and which rows it made, not in its accounts. */
  ghost predicate SameAccounts(l: Run, l': Run) {
    && l'.user == l.user && l'.req == l.req && l'.env == l.env && l'.legs == l.legs && l'.fees == l.fees
    && l'.held == l.held && l'.settled == l.settled
    && HeldAt(l') == HeldAt(l)
    && (AfterSettling(l.pc) ==> AfterSettling(l'.pc))
    && HasPlan(l.pc) && HasPlan(l'.pc) && !BeforeParent(l'.pc) && !InLegs(l'.pc)
  }

  lemma CarryAccounts(l: Run, l': Run, b: Book)
    requires Accounted(l, b) && SameAccounts(l, l')
    ensures Accounted(l', b)
  {
  }

  /** From the PROCESSING mark on, a step that touches no wallet leaves the accounts as they are. */
  lemma LateStep(t: Tables, l: Run)
    requires Stage(l.pc) <= 10 && !l.pc.Undo? && !l.pc.Settle? && !l.pc.Exit?
    ensures Step(t, l).0.book == t.book && SameAccounts(l, Step(t, l).1)
  {
  }

  lemma StepKeepsAccounts(t: Tables, l: Run)
    requires Covered(t, l)
    ensures StillAccounted(Step(t, l))
  {
    match l.pc
    case Planning => PlanKeepsAccounts(t, l);
    case LegAt(i) => LegKeepsAccounts(t, l, i);
    case UndoChild(i) => UndoChildKeepsAccounts(t, l, i);
    case Undo(i) => UndoKeepsAccounts(t, l, i);
    case Settle(i) => SettleKeepsAccounts(t, l, i);
    case Exit(_) =>
    case Lookup => EarlyKeepsAccounts(t, l);
    case MakeParent => EarlyKeepsAccounts(t, l);
    case WalletChild(_) => RecordingKeepsAccounts(t, l);
    case AskBank(_) => RecordingKeepsAccounts(t, l);
    case _ =>
      LateStep(t, l);
      CarryAccounts(l, Step(t, l).1, t.book);
  }
}
