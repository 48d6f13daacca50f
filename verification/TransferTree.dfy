/** The rows, pulls and payouts of a transfer, step by step, while other transfers work on the same tables. */
module TransferTree {
  import opened Sums
  import opened Ledger
  import opened Sourcing
  import opened SourcingLaws
  import opened Transactions
  import opened Transfer
  import opened TransferLaws

  // ---------------------------------------------------------------------------------------------
  // Totals over the rows below a parent

  datatype Totals = Totals(amount: int, fee: int, payouts: nat)

  function AddRow(s: Totals, r: Txn, p: nat): Totals {
    if r.parent != Some(p) then s
    else if r.kind == PayoutLeg then s.(payouts := s.payouts + 1)
    else s.(amount := s.amount + r.amount, fee := s.fee + r.fee)
  }

  /** The children of p among the first n rows: the debit legs added up, the payout legs counted. */
  function Family(txns: seq<Txn>, p: nat, n: nat): Totals
    requires n <= |txns|
  {
    if n == 0 then Totals(0, 0, 0) else AddRow(Family(txns, p, n - 1), txns[n - 1], p)
  }

  /** What was moved on behalf of p by the first n movements. */
  function MovedFor(ms: seq<Movement>, p: nat, n: nat): int
    requires n <= |ms|
  {
    if n == 0 then 0 else MovedFor(ms, p, n - 1) + (if ms[n - 1].owner == p then ms[n - 1].amount else 0)
  }

  function LegTotals(legs: seq<Leg>, n: nat): Totals
    requires n <= |legs|
  {
    if n == 0 then Totals(0, 0, 0)
    else
      var s := LegTotals(legs, n - 1);
      s.(amount := s.amount + legs[n - 1].amount, fee := s.fee + legs[n - 1].fee)
  }

  function BankTotal(legs: seq<Leg>, n: nat): int
    requires n <= |legs|
  {
    if n == 0 then 0 else BankTotal(legs, n - 1) + (if legs[n - 1].source.Bank? then legs[n - 1].amount else 0)
  }

  lemma {:induction false} LegTotalsAreTotals(legs: seq<Leg>, n: nat)
    requires n <= |legs|
    ensures LegTotals(legs, n) == Totals(TotalAmount(legs[..n]), TotalFees(legs[..n]), 0)
  {
    if n > 0 {
      LegTotalsAreTotals(legs, n - 1);
      assert legs[..n][..n - 1] == legs[..n - 1];
    }
  }

  /** The wallet leg and the bank legs make up the whole. */
  lemma {:induction false} WalletAndBanks(legs: seq<Leg>, amount: int, n: nat)
    requires Shaped(legs, amount) && n <= |legs|
    ensures LegTotals(legs, n).amount == BankTotal(legs, n) + (if n > 0 then WalletShare(legs) else 0)
  {
    if n > 0 {
      WalletAndBanks(legs, amount, n - 1);
    }
  }

  // ---------------------------------------------------------------------------------------------
  // Where the rows stand at each point

  predicate LateExit(r: Result) {
    r.ProcessingNotMarked? || r.PayoutRowRefused? || r.PayoutFailed? || r.CompletionNotMarked? || r.PayoutNotMarked?
    || r.Done?
  }

  function ParentStatus(l: Run): Status {
    match l.pc
    case MakePayout => Processing
    case Send => Processing
    case MarkPayoutFailed => Processing
    case MarkParentFailed => Processing
    case Undo(_) => if l.env.parentFailed then Failed else Processing
    case Settle(_) => Processing
    case MarkParentDone => Processing
    case MarkPayoutDone => Completed
    case Exit(r) =>
      (match r
       case PayoutRowRefused => Processing
       case PayoutFailed => if l.env.parentFailed then Failed else Processing
       case CompletionNotMarked => Processing
       case PayoutNotMarked => Completed
       case Done(_, _) => Completed
       case _ => Pending)
    case _ => Pending
  }

  function PayoutStatus(l: Run): Status {
    match l.pc
    case MarkParentFailed => if l.env.payoutFailed then Failed else Pending
    case Undo(_) => if l.env.payoutFailed then Failed else Pending
    case Exit(r) =>
      (match r
       case PayoutFailed => if l.env.payoutFailed then Failed else Pending
       case Done(_, _) => Completed
       case _ => Pending)
    case _ => Pending
  }

  /** How many legs have their row; None before there is a parent row. */
  function RowsMade(l: Run): Option<nat> {
    match l.pc
    case Lookup => None
    case Planning => None
    case MakeParent => None
    case LegAt(i) => Some(i)
    case WalletChild(i) => Some(i)
    case UndoChild(i) => Some(i)
    case AskBank(i) => Some(i + 1)
    case Exit(r) =>
      (match r
       case WalletUnreadable(i) => Some(i)
       case HoldRefused(i) => Some(i)
       case WalletRowRefused(i) => Some(i)
       case BankUnusable(i) => Some(i)
       case BankRowRefused(i) => Some(i)
       case BankRefused(i) => Some(i + 1)
       case _ => if LateExit(r) then Some(|l.legs|) else None)
    case _ => Some(|l.legs|)
  }

  /** How many legs have been drawn on: the bank that is being asked, or has refused, is not among them. */
  function LegsDrawn(l: Run): Option<nat> {
    if l.pc.AskBank? then Some(l.pc.i)
    else if l.pc.Exit? && l.pc.result.BankRefused? then Some(l.pc.result.leg)
    else RowsMade(l)
  }

  predicate PayoutSent(l: Run) {
    l.env.payoutEnabled
    && (l.pc.Settle? || l.pc.MarkParentDone? || l.pc.MarkPayoutDone?
        || (l.pc.Exit? && (l.pc.result.CompletionNotMarked? || l.pc.result.PayoutNotMarked? || l.pc.result.Done?)))
  }

  ghost predicate ParentOk(t: Tables, l: Run, p: nat) {
    && p < |t.txns|
    && var r := t.txns[p];
       r.user == l.user && r.parent == None && r.amount == l.req.amount && r.fee == l.fees && r.key == l.req.key
       && r.payee == l.req.payee && r.status == ParentStatus(l)
  }

  ghost predicate PayoutOk(t: Tables, l: Run, p: nat) {
    && Family(t.txns, p, |t.txns|).payouts == (if l.payout.Some? then 1 else 0)
    && (l.payout.Some? ==>
          && l.payout.value < |t.txns|
          && var r := t.txns[l.payout.value];
             r.parent == Some(p) && r.kind == PayoutLeg && r.amount == l.req.amount && r.payee == l.req.payee
             && r.status == PayoutStatus(l))
  }

  ghost predicate SumsOk(t: Tables, l: Run, p: nat) {
    var n := RowsMade(l);
    && n.Some? && n.value <= |l.legs|
    && Family(t.txns, p, |t.txns|).amount == LegTotals(l.legs, n.value).amount
    && Family(t.txns, p, |t.txns|).fee == LegTotals(l.legs, n.value).fee
  }

  ghost predicate MovesOk(t: Tables, l: Run, p: nat) {
    var n := LegsDrawn(l);
    && n.Some? && n.value <= |l.legs| && MovedFor(t.pulls, p, |t.pulls|) == BankTotal(l.legs, n.value)
    && MovedFor(t.payouts, p, |t.payouts|) == if PayoutSent(l) then l.req.amount else 0
  }

  /** The rows of l are what its program counter says. */
  ghost predicate InTree(t: Tables, l: Run) {
    && (l.parent.None? ==> l.payout.None? && (BeforeParent(l.pc) || (l.pc.Exit? && !LateExit(l.pc.result))))
    && (BeforeParent(l.pc) ==> l.parent.None?)
    && (l.parent.Some? ==>
          var p := l.parent.value;
          ParentOk(t, l, p) && PayoutOk(t, l, p) && SumsOk(t, l, p) && MovesOk(t, l, p))
  }

  /** Rows refer back, movements refer to rows, and exactly the finished rows carry a completion time. */
  ghost predicate RowsRefer(t: Tables) {
    && (forall r :: 0 <= r < |t.txns| ==> RowOk(t.txns[r], r))
    && (forall i :: 0 <= i < |t.pulls| ==> t.pulls[i].owner < |t.txns|)
    && (forall i :: 0 <= i < |t.payouts| ==> t.payouts[i].owner < |t.txns|)
  }

  predicate RowOk(x: Txn, r: nat) {
    && (x.parent.Some? ==> x.parent.value < r)
    && (x.completedAt.Some? <==> Terminal(x.status))
  }

  // ---------------------------------------------------------------------------------------------
  // What a step touches

  /** Only the status of a row, and with it its completion time, may change. */
  predicate SameRow(a: Txn, b: Txn) {
    a == b.(status := a.status, completedAt := a.completedAt)
  }

  /** The row that a transfer's rows hang on: its parent row, or the next row if it has none yet. */
  function Owner(t: Tables, l: Run): nat {
    if l.parent.Some? then l.parent.value else |t.txns|
  }

  ghost predicate RowTouched(a: Txn, b: Txn, r: nat, p: nat) {
    || b == a
    || ((r == p || a.parent == Some(p)) && SameRow(a, b) && !Terminal(a.status)
        && (b.completedAt.Some? <==> Terminal(b.status)))
  }

  predicate MovementsTouched(a: seq<Movement>, b: seq<Movement>, p: nat) {
    b == a || (|b| == |a| + 1 && b[..|a|] == a && b[|a|].owner == p)
  }

  /** From t to t' only rows and movements of p changed: finished rows did not, and at most one row is new. */
  ghost predicate OnlyTouches(t: Tables, t': Tables, p: nat) {
    && (|t'.txns| == |t.txns| || |t'.txns| == |t.txns| + 1)
    && (forall r :: 0 <= r < |t.txns| ==> RowTouched(t.txns[r], t'.txns[r], r, p))
    && (|t'.txns| == |t.txns| + 1 ==>
          var x := t'.txns[|t.txns|];
          x.status == Pending && x.completedAt == None && x.parent == (if p < |t.txns| then Some(p) else None))
    && MovementsTouched(t.pulls, t'.pulls, p)
    && MovementsTouched(t.payouts, t'.payouts, p)
  }

  lemma InsertTouches(t: Tables, row: Txn, up: bool, yes: Run, no: Run, p: nat)
    requires row.status == Pending && row.completedAt == None
    requires p <= |t.txns| && row.parent == if p < |t.txns| then Some(p) else None
    ensures OnlyTouches(t, InsertStep(t, row, up, yes, no).0, p)
  {
  }

  lemma MarkTouches(t: Tables, id: nat, s: Status, l: Run, up: bool, yes: Run, no: Run, p: nat)
    requires id < |t.txns| && !Terminal(t.txns[id].status) && RowsRefer(t)
    requires id == p || t.txns[id].parent == Some(p)
    ensures OnlyTouches(t, MarkStep(t, id, s, l, up, yes, no).0, p)
  {
    assert RowOk(t.txns[id], id);
  }

  lemma NothingTouched(t: Tables, t': Tables, p: nat)
    requires t'.txns == t.txns && t'.pulls == t.pulls && t'.payouts == t.payouts
    ensures OnlyTouches(t, t', p)
  {
  }

  lemma LegTouches(t: Tables, l: Run, i: nat)
    requires l.pc == LegAt(i) && l.parent.value < |t.txns|
    ensures OnlyTouches(t, LegStep(t, l, i).0, l.parent.value)
  {
    var p := l.parent.value;
    if i < |l.legs| && l.legs[i].source.Bank? {
      var id := l.legs[i].source.id;
      var b := BankOf(l.env, id);
      if b.Usable? {
        InsertTouches(t, BankTxn(l, l.legs[i], id, b.provider), b.row,
                      l.(pc := AskBank(i)), l.(pc := Exit(BankRowRefused(i))), p);
      } else {
        NothingTouched(t, LegStep(t, l, i).0, p);
      }
    } else {
      NothingTouched(t, LegStep(t, l, i).0, p);
    }
  }

  /** Steps that change neither rows nor movements. */
  predicate Idle(pc: Pc) {
    pc.Lookup? || pc.Planning? || pc.UndoChild? || pc.Undo? || pc.Settle? || pc.Exit?
  }

  lemma IdleStep(t: Tables, l: Run)
    requires Idle(l.pc)
    ensures var (t', l') := Step(t, l);
            && t'.txns == t.txns && t'.pulls == t.pulls && t'.payouts == t.payouts
            && l'.user == l.user && l'.req == l.req && l'.env == l.env && l'.parent == l.parent && l'.payout == l.payout
  {
  }

  lemma ParentMarkTouches(t: Tables, l: Run)
    requires l.parent.Some? && ParentOk(t, l, l.parent.value) && RowsRefer(t)
    requires l.pc.MarkProcessing? || l.pc.MarkParentFailed? || l.pc.MarkParentDone?
    ensures OnlyTouches(t, Step(t, l).0, l.parent.value)
  {
    var p := l.parent.value;
    match l.pc
    case MarkProcessing =>
      MarkTouches(t, p, Processing, l, l.env.processing, l.(pc := MakePayout), l.(pc := Exit(ProcessingNotMarked)), p);
    case MarkParentFailed =>
      MarkTouches(t, p, Failed, l, l.env.parentFailed, l.(pc := Undo(0)), l.(pc := Undo(0)), p);
    case MarkParentDone =>
      MarkTouches(t, p, Completed, l, l.env.parentDone, l.(pc := MarkPayoutDone), l.(pc := Exit(CompletionNotMarked)), p);
  }

  lemma PayoutMarkTouches(t: Tables, l: Run)
    requires l.parent.Some? && PayoutOk(t, l, l.parent.value) && RowsRefer(t)
    requires l.pc.MarkPayoutFailed? || l.pc.MarkPayoutDone?
    ensures OnlyTouches(t, Step(t, l).0, l.parent.value)
  {
    var p := l.parent.value;
    match l.pc
    case MarkPayoutFailed =>
      MarkTouches(t, l.payout.value, Failed, l, l.env.payoutFailed,
                  l.(pc := MarkParentFailed), l.(pc := MarkParentFailed), p);
    case MarkPayoutDone =>
      MarkTouches(t, l.payout.value, Completed, l, l.env.payoutDone,
                  l.(pc := Exit(Done(p, Ref(l.env.base, Root)))), l.(pc := Exit(PayoutNotMarked)), p);
  }

  lemma RecordingTouches(t: Tables, l: Run)
    requires l.parent.Some? ==> l.parent.value < |t.txns|
    requires l.pc.MakeParent? <==> l.parent.None?
    requires l.pc.MakeParent? || l.pc.WalletChild? || l.pc.AskBank? || l.pc.MakePayout? || l.pc.Send?
    ensures OnlyTouches(t, Step(t, l).0, Owner(t, l))
  {
  }

  /** A step of l touches nothing but what belongs to l. */
  lemma StepTouches(t: Tables, l: Run)
    requires InTree(t, l) && RowsRefer(t)
    ensures OnlyTouches(t, Step(t, l).0, Owner(t, l))
  {
    match l.pc
    case LegAt(i) => LegTouches(t, l, i);
    case MakeParent => RecordingTouches(t, l);
    case WalletChild(_) => RecordingTouches(t, l);
    case AskBank(_) => RecordingTouches(t, l);
    case MakePayout => RecordingTouches(t, l);
    case Send => RecordingTouches(t, l);
    case MarkProcessing => ParentMarkTouches(t, l);
    case MarkPayoutFailed => PayoutMarkTouches(t, l);
    case MarkParentFailed => ParentMarkTouches(t, l);
    case MarkParentDone => ParentMarkTouches(t, l);
    case MarkPayoutDone => PayoutMarkTouches(t, l);
    case _ =>
      IdleStep(t, l);
      NothingTouched(t, Step(t, l).0, Owner(t, l));
  }

  lemma TouchKeepsReferences(t: Tables, t': Tables, p: nat)
    requires OnlyTouches(t, t', p) && RowsRefer(t) && p <= |t.txns|
    requires p < |t.txns| || (p == |t.txns| && t'.pulls == t.pulls && t'.payouts == t.payouts)
    ensures RowsRefer(t')
  {
    forall r | 0 <= r < |t'.txns|
      ensures RowOk(t'.txns[r], r)
    {
      if r < |t.txns| {
        assert RowOk(t.txns[r], r) && RowTouched(t.txns[r], t'.txns[r], r, p);
      }
    }
    MovementsKeepOwners(t.pulls, t'.pulls, p, |t.txns|, |t'.txns|);
    MovementsKeepOwners(t.payouts, t'.payouts, p, |t.txns|, |t'.txns|);
  }

  lemma MovementsKeepOwners(a: seq<Movement>, b: seq<Movement>, p: nat, n: nat, n': nat)
    requires MovementsTouched(a, b, p) && n <= n' && (p < n || b == a)
    requires forall i :: 0 <= i < |a| ==> a[i].owner < n
    ensures forall i :: 0 <= i < |b| ==> b[i].owner < n'
  {
    if b != a {
      assert forall i :: 0 <= i < |a| ==> b[i] == a[i];
    }
  }

  // ---------------------------------------------------------------------------------------------
  // What a step leaves alone

  lemma {:induction false} FamilyUntouched(t: Tables, t': Tables, p: nat, q: nat, n: nat)
    requires OnlyTouches(t, t', p) && n <= |t.txns|
    ensures Family(t'.txns, q, n) == Family(t.txns, q, n)
  {
    if n > 0 {
      FamilyUntouched(t, t', p, q, n - 1);
      assert RowTouched(t.txns[n - 1], t'.txns[n - 1], n - 1, p);
    }
  }

  lemma {:induction false} MovedPrefix(a: seq<Movement>, b: seq<Movement>, q: nat, n: nat)
    requires n <= |a| <= |b| && b[..|a|] == a
    ensures MovedFor(b, q, n) == MovedFor(a, q, n)
  {
    if n > 0 {
      MovedPrefix(a, b, q, n - 1);
      assert b[n - 1] == b[..|a|][n - 1] == a[n - 1];
    }
  }

  lemma MovedUntouched(a: seq<Movement>, b: seq<Movement>, p: nat, q: nat)
    requires MovementsTouched(a, b, p) && p != q
    ensures MovedFor(b, q, |b|) == MovedFor(a, q, |a|)
  {
    if b != a {
      MovedPrefix(a, b, q, |a|);
    }
  }

  /** The rows of one transfer are left alone by the steps of another. */
  lemma OthersUndisturbed(t: Tables, t': Tables, p: nat, l: Run)
    requires OnlyTouches(t, t', p) && RowsRefer(t) && InTree(t, l)
    requires l.parent != Some(p)
    requires p == |t.txns| || (p < |t.txns| && t.txns[p].parent == None)
    ensures InTree(t', l)
  {
    if l.parent.Some? {
      var q := l.parent.value;
      assert RowTouched(t.txns[q], t'.txns[q], q, p);
      FamilyUntouched(t, t', p, q, |t.txns|);
      assert Family(t'.txns, q, |t'.txns|) == Family(t.txns, q, |t.txns|);
      MovedUntouched(t.pulls, t'.pulls, p, q);
      MovedUntouched(t.payouts, t'.payouts, p, q);
      if l.payout.Some? {
        var r := l.payout.value;
        assert RowTouched(t.txns[r], t'.txns[r], r, p);
      }
    }
  }

  // ---------------------------------------------------------------------------------------------
  // What a step does to its own rows

  lemma {:induction false} NoFamilyYet(t: Tables, n: nat)
    requires RowsRefer(t) && n <= |t.txns|
    ensures Family(t.txns, |t.txns|, n) == Totals(0, 0, 0)
  {
    if n > 0 {
      NoFamilyYet(t, n - 1);
      assert RowOk(t.txns[n - 1], n - 1);
    }
  }

  lemma {:induction false} NoneMovedYet(ms: seq<Movement>, p: nat, n: nat)
    requires n <= |ms| && forall i :: 0 <= i < |ms| ==> ms[i].owner < p
    ensures MovedFor(ms, p, n) == 0
  {
    if n > 0 {
      NoneMovedYet(ms, p, n - 1);
    }
  }

  lemma {:induction false} FamilyPrefix(txns: seq<Txn>, row: Txn, p: nat, n: nat)
    requires n <= |txns|
    ensures Family(txns + [row], p, n) == Family(txns, p, n)
  {
    if n > 0 {
      FamilyPrefix(txns, row, p, n - 1);
    }
  }

  lemma FamilyGrows(txns: seq<Txn>, row: Txn, p: nat)
    ensures Family(txns + [row], p, |txns + [row]|) == AddRow(Family(txns, p, |txns|), row, p)
  {
    FamilyPrefix(txns, row, p, |txns|);
  }

  lemma {:induction false} FamilyMarked(txns: seq<Txn>, id: nat, s: Status, now: int, up: bool, p: nat, n: nat)
    requires n <= |txns|
    ensures Family(StatusSet(txns, id, s, now, up), p, n) == Family(txns, p, n)
  {
    if n > 0 {
      FamilyMarked(txns, id, s, now, up, p, n - 1);
    }
  }

  lemma MovedGrows(ms: seq<Movement>, m: Movement, p: nat)
    ensures MovedFor(ms + [m], p, |ms + [m]|) == MovedFor(ms, p, |ms|) + (if m.owner == p then m.amount else 0)
  {
    MovedPrefix(ms, ms + [m], p, |ms|);
  }

  ghost predicate StaysInTree(r: (Tables, Run)) {
    InTree(r.0, r.1)
  }

  lemma MakeParentGrows(t: Tables, l: Run)
    requires InTree(t, l) && RowsRefer(t) && l.pc.MakeParent?
    ensures StaysInTree(Step(t, l))
  {
    var p, row := |t.txns|, ParentTxn(l);
    NoFamilyYet(t, p);
    FamilyGrows(t.txns, row, p);
    NoneMovedYet(t.pulls, p, |t.pulls|);
    NoneMovedYet(t.payouts, p, |t.payouts|);
    if Insertable(t.txns, row, l.env.parentRow) {
      assert (t.txns + [row])[p] == row;
    }
  }

  /** l' is l at another point, with the same plan and rows. */
  ghost predicate SameRows(l: Run, l': Run) {
    && l.parent.Some?
    && l'.user == l.user && l'.req == l.req && l'.env == l.env && l'.legs == l.legs && l'.fees == l.fees
    && l'.parent == l.parent && l'.payout == l.payout
    && !BeforeParent(l'.pc)
    && ParentStatus(l') == ParentStatus(l)
    && (l.payout.Some? ==> PayoutStatus(l') == PayoutStatus(l))
    && PayoutSent(l') == PayoutSent(l)
  }

  /** Moving on without touching rows or movements. */
  lemma MoveOn(t: Tables, l: Run, t': Tables, l': Run)
    requires InTree(t, l) && SameRows(l, l')
    requires t'.txns == t.txns && t'.pulls == t.pulls && t'.payouts == t.payouts
    requires RowsMade(l') == RowsMade(l) && LegsDrawn(l') == LegsDrawn(l)
    ensures InTree(t', l')
  {
  }

  /** Recording the row of leg n. */
  lemma RecordLeg(t: Tables, l: Run, t': Tables, l': Run, row: Txn, n: nat)
    requires InTree(t, l) && SameRows(l, l')
    requires n < |l.legs| && RowsMade(l) == Some(n) && RowsMade(l') == Some(n + 1)
    requires row.parent == l.parent && row.kind == DebitLeg && row.amount == l.legs[n].amount && row.fee == l.legs[n].fee
    requires t'.txns == t.txns + [row] && t'.pulls == t.pulls && t'.payouts == t.payouts
    requires LegsDrawn(l') == LegsDrawn(l)
             || (l.legs[n].source.Wallet? && LegsDrawn(l) == Some(n) && LegsDrawn(l') == Some(n + 1))
    ensures InTree(t', l')
  {
    var p := l.parent.value;
    FamilyGrows(t.txns, row, p);
    assert t'.txns[p] == t.txns[p];
    if l.payout.Some? {
      assert t'.txns[l.payout.value] == t.txns[l.payout.value];
    }
  }

  lemma BankRowGrows(t: Tables, l: Run, i: nat, provider: Provider, row: bool)
    requires InTree(t, l) && l.pc == LegAt(i) && i < |l.legs| && l.legs[i].source.Bank?
    ensures StaysInTree(InsertStep(t, BankTxn(l, l.legs[i], l.legs[i].source.id, provider), row,
                                   l.(pc := AskBank(i)), l.(pc := Exit(BankRowRefused(i)))))
  {
    var x := BankTxn(l, l.legs[i], l.legs[i].source.id, provider);
    if Insertable(t.txns, x, row) {
      RecordLeg(t, l, t.(txns := t.txns + [x]), l.(pc := AskBank(i)), x, i);
    } else {
      MoveOn(t, l, t, l.(pc := Exit(BankRowRefused(i))));
    }
  }

  lemma BankLegGrows(t: Tables, l: Run, i: nat)
    requires InTree(t, l) && l.pc == LegAt(i) && i < |l.legs| && l.legs[i].source.Bank?
    ensures StaysInTree(LegStep(t, l, i))
  {
    match BankOf(l.env, l.legs[i].source.id)
    case Unusable => MoveOn(t, l, t, l.(pc := Exit(BankUnusable(i))));
    case Usable(provider, _, row, _) => BankRowGrows(t, l, i, provider, row);
  }

  lemma LegGrows(t: Tables, l: Run, i: nat)
    requires InTree(t, l) && l.pc == LegAt(i)
    ensures StaysInTree(LegStep(t, l, i))
  {
    if i < |l.legs| && l.legs[i].source.Bank? {
      BankLegGrows(t, l, i);
    } else {
      MoveOn(t, l, LegStep(t, l, i).0, LegStep(t, l, i).1);
    }
  }

  lemma WalletChildGrows(t: Tables, l: Run, i: nat)
    requires InTree(t, l) && l.pc == WalletChild(i) && l.legs[i].source.Wallet?
    ensures StaysInTree(Step(t, l))
  {
    var (t', l') := Step(t, l);
    if l'.pc.LegAt? {
      RecordLeg(t, l, t', l', WalletTxn(l, l.legs[i]), i);
    } else {
      MoveOn(t, l, t', l');
    }
  }

  /** Drawing on leg n, which has its row. */
  lemma DrawLeg(t: Tables, l: Run, t': Tables, l': Run, n: nat)
    requires InTree(t, l) && SameRows(l, l')
    requires n < |l.legs| && l.legs[n].source.Bank? && RowsMade(l') == RowsMade(l) == Some(n + 1)
    requires LegsDrawn(l) == Some(n) && LegsDrawn(l') == Some(n + 1)
    requires t'.txns == t.txns && t'.payouts == t.payouts
    requires t'.pulls == t.pulls + [PullOf(l, n)]
    ensures InTree(t', l')
  {
    MovedGrows(t.pulls, PullOf(l, n), l.parent.value);
  }

  lemma AskBankGrows(t: Tables, l: Run, i: nat)
    requires InTree(t, l) && l.pc == AskBank(i)
    ensures StaysInTree(Step(t, l))
  {
    var (t', l') := Step(t, l);
    if l'.pc.LegAt? {
      DrawLeg(t, l, t', l', i);
    } else {
      MoveOn(t, l, t', l');
    }
  }

  lemma MakePayoutGrows(t: Tables, l: Run)
    requires InTree(t, l) && l.pc.MakePayout? && l.payout.None?
    ensures StaysInTree(Step(t, l))
  {
    var row := PayoutTxn(l);
    if Insertable(t.txns, row, l.env.payoutRow) {
      FamilyGrows(t.txns, row, l.parent.value);
      assert (t.txns + [row])[|t.txns|] == row;
      assert (t.txns + [row])[l.parent.value] == t.txns[l.parent.value];
    } else {
      MoveOn(t, l, Step(t, l).0, Step(t, l).1);
    }
  }

  lemma PayoutGoesOut(t: Tables, l: Run, t': Tables, l': Run)
    requires InTree(t, l) && l.pc.Send? && l.env.payoutEnabled && l' == l.(pc := Settle(0))
    requires t'.txns == t.txns && t'.pulls == t.pulls
    requires t'.payouts == t.payouts + [PayoutOf(l)]
    ensures InTree(t', l')
  {
    MovedGrows(t.payouts, PayoutOf(l), l.parent.value);
  }

  lemma SendGrows(t: Tables, l: Run)
    requires InTree(t, l) && l.pc.Send?
    ensures StaysInTree(SendStep(t, l))
  {
    var (t', l') := SendStep(t, l);
    if l.env.payoutEnabled && l.env.payoutAccepted {
      PayoutGoesOut(t, l, t', l');
    } else {
      MoveOn(t, l, t', l');
    }
  }

  lemma SettleGrows(t: Tables, l: Run, i: nat)
    requires InTree(t, l) && l.pc == Settle(i)
    ensures StaysInTree(SettleStep(t, l, i))
  {
    MoveOn(t, l, SettleStep(t, l, i).0, SettleStep(t, l, i).1);
  }

  lemma UndoGrows(t: Tables, l: Run, i: nat)
    requires InTree(t, l) && l.pc == Undo(i)
    ensures StaysInTree(UndoStep(t, l, i))
  {
    MoveOn(t, l, UndoStep(t, l, i).0, UndoStep(t, l, i).1);
  }

  lemma UndoChildGrows(t: Tables, l: Run, i: nat)
    requires InTree(t, l) && l.pc == UndoChild(i)
    ensures StaysInTree(ReleaseStep(t, l, l.legs[i].amount + l.legs[i].fee, l.env.wallet.release, Exit(WalletRowRefused(i))))
  {
    var (t', l') := ReleaseStep(t, l, l.legs[i].amount + l.legs[i].fee, l.env.wallet.release, Exit(WalletRowRefused(i)));
    MoveOn(t, l, t', l');
  }

  /** Setting the status of the parent or of the payout row to what the new point expects. */
  lemma MarkGrows(t: Tables, l: Run, id: nat, s: Status, up: bool, t': Tables, l': Run)
    requires InTree(t, l) && l.parent.Some? && l.payout != l.parent
    requires t' == t.(txns := StatusSet(t.txns, id, s, l.env.now, up))
    requires l' == l.(pc := l'.pc) && !BeforeParent(l'.pc) && PayoutSent(l') == PayoutSent(l)
    requires RowsMade(l') == RowsMade(l) && LegsDrawn(l') == LegsDrawn(l)
    requires ParentStatus(l') == if up && id == l.parent.value then s else ParentStatus(l)
    requires l.payout.Some? ==> PayoutStatus(l') == if up && id == l.payout.value then s else PayoutStatus(l)
    ensures InTree(t', l')
  {
    FamilyMarked(t.txns, id, s, l.env.now, up, l.parent.value, |t.txns|);
  }

  lemma MarkProcessingGrows(t: Tables, l: Run)
    requires InTree(t, l) && l.pc.MarkProcessing? && l.payout.None?
    ensures StaysInTree(Step(t, l))
  {
    MarkGrows(t, l, l.parent.value, Processing, l.env.processing, Step(t, l).0, Step(t, l).1);
  }

  lemma MarkFailedGrows(t: Tables, l: Run)
    requires InTree(t, l) && (l.pc.MarkPayoutFailed? || l.pc.MarkParentFailed?) && l.payout != l.parent
    ensures StaysInTree(Step(t, l))
  {
    var (t', l') := Step(t, l);
    if l.pc.MarkPayoutFailed? {
      MarkGrows(t, l, l.payout.value, Failed, l.env.payoutFailed, t', l');
    } else {
      MarkGrows(t, l, l.parent.value, Failed, l.env.parentFailed, t', l');
    }
  }

  lemma MarkParentDoneGrows(t: Tables, l: Run)
    requires InTree(t, l) && l.pc.MarkParentDone? && l.payout != l.parent
    ensures StaysInTree(MarkStep(t, l.parent.value, Completed, l, l.env.parentDone,
                                 l.(pc := MarkPayoutDone), l.(pc := Exit(CompletionNotMarked))))
  {
    var l' := if l.env.parentDone then l.(pc := MarkPayoutDone) else l.(pc := Exit(CompletionNotMarked));
    var t' := t.(txns := StatusSet(t.txns, l.parent.value, Completed, l.env.now, l.env.parentDone));
    MarkGrows(t, l, l.parent.value, Completed, l.env.parentDone, t', l');
  }

  lemma MarkPayoutDoneGrows(t: Tables, l: Run)
    requires InTree(t, l) && l.pc.MarkPayoutDone? && l.payout != l.parent
    ensures StaysInTree(MarkStep(t, l.payout.value, Completed, l, l.env.payoutDone,
                                 l.(pc := Exit(Done(l.parent.value, Ref(l.env.base, Root)))),
                                 l.(pc := Exit(PayoutNotMarked))))
  {
    var r := if l.env.payoutDone then Done(l.parent.value, Ref(l.env.base, Root)) else PayoutNotMarked;
    var t' := t.(txns := StatusSet(t.txns, l.payout.value, Completed, l.env.now, l.env.payoutDone));
    MarkGrows(t, l, l.payout.value, Completed, l.env.payoutDone, t', l.(pc := Exit(r)));
  }

  /** The payout row exists from the step on that makes it, and no earlier. */
  predicate PayoutInTime(l: Run) {
    && (l.pc.MarkProcessing? || l.pc.MakePayout? || InLegs(l.pc) ==> l.payout.None?)
    && (l.pc.Exit? && LateExit(l.pc.result) && !l.pc.result.ProcessingNotMarked? && !l.pc.result.PayoutRowRefused?
        ==> l.payout.Some?)
  }

  lemma PayoutStaysInTime(t: Tables, l: Run)
    requires PayoutInTime(l) && (BeforeParent(l.pc) ==> l.payout.None?)
    ensures PayoutInTime(Step(t, l).1)
  {
  }

  lemma BeforeParentGrows(t: Tables, l: Run)
    requires InTree(t, l) && (l.pc.Lookup? || l.pc.Planning?)
    ensures StaysInTree(Step(t, l))
  {
  }

  lemma EarlyPhaseStaysInTree(t: Tables, l: Run)
    requires InTree(t, l) && RowsRefer(t) && BeforeParent(l.pc)
    ensures StaysInTree(Step(t, l))
  {
    match l.pc
    case Lookup => BeforeParentGrows(t, l);
    case Planning => BeforeParentGrows(t, l);
    case MakeParent => MakeParentGrows(t, l);
  }

  lemma LegPhaseStaysInTree(t: Tables, l: Run)
    requires InTree(t, l) && InLegs(l.pc)
    requires l.pc.WalletChild? ==> l.legs[l.pc.i].source.Wallet?
    ensures StaysInTree(Step(t, l))
  {
    match l.pc
    case LegAt(i) => LegGrows(t, l, i);
    case WalletChild(i) => WalletChildGrows(t, l, i);
    case UndoChild(i) => UndoChildGrows(t, l, i);
    case AskBank(i) => AskBankGrows(t, l, i);
  }

  lemma PayoutPhaseStaysInTree(t: Tables, l: Run)
    requires InTree(t, l) && PayoutInTime(l) && Stage(l.pc) <= 10 && l.payout != l.parent
    requires !l.pc.Exit?
    ensures StaysInTree(Step(t, l))
  {
    match l.pc
    case MarkProcessing => MarkProcessingGrows(t, l);
    case MakePayout => MakePayoutGrows(t, l);
    case Send => SendGrows(t, l);
    case MarkPayoutFailed => MarkFailedGrows(t, l);
    case MarkParentFailed => MarkFailedGrows(t, l);
    case Undo(i) => UndoGrows(t, l, i);
    case Settle(i) => SettleGrows(t, l, i);
    case MarkParentDone => MarkParentDoneGrows(t, l);
    case MarkPayoutDone => MarkPayoutDoneGrows(t, l);
  }

  lemma PayoutIsNotParent(t: Tables, l: Run)
    requires InTree(t, l) && l.parent.Some?
    ensures l.payout != l.parent
  {
  }

  /** A step of l leaves the rows of l where its program counter says. */
  lemma StepStaysInTree(t: Tables, l: Run)
    requires InTree(t, l) && RowsRefer(t) && PayoutInTime(l) && Accounted(l, t.book)
    ensures StaysInTree(Step(t, l))
  {
    if BeforeParent(l.pc) {
      EarlyPhaseStaysInTree(t, l);
    } else if InLegs(l.pc) {
      LegPhaseStaysInTree(t, l);
    } else if !l.pc.Exit? {
      PayoutIsNotParent(t, l);
      PayoutPhaseStaysInTree(t, l);
    }
  }
}
