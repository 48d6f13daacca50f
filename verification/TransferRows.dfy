/** The rows a transfer writes, field by field, in every interleaving; and that no reference is used twice. */
module TransferRows {
  import opened Sums
  import opened Ledger
  import opened Sourcing
  import opened SourcingLaws
  import opened Transactions
  import opened Transfer
  import opened TransferLaws
  import opened TransferSerial
  import opened TransferTree
  import opened MoneyIn
  import opened Engine
  import opened EngineLaws

  // ---------------------------------------------------------------------------------------------
  // What the rows say

  predicate IsParentRow(x: Txn, l: Run) {
    && x.user == l.user && x.parent == None && x.kind == DebitLeg && x.amount == l.req.amount && x.fee == l.fees
    && x.provider == OtherProvider && x.payee == l.req.payee && x.key == l.req.key && x.ref == Ref(l.env.base, Root)
    && x.createdAt == l.env.now && (Terminal(x.status) ==> x.completedAt == Some(l.env.now))
  }

  predicate IsPayoutRow(x: Txn, l: Run) {
    && x.user == l.user && x.parent == l.parent && x.kind == PayoutLeg && x.amount == l.req.amount && x.fee == 0
    && x.provider == Paystack && x.payee == l.req.payee && x.key == [] && x.ref == Ref(l.env.base, PayoutPart)
    && x.createdAt == l.env.now && (Terminal(x.status) ==> x.completedAt == Some(l.env.now))
  }

  /** The row of a leg: it stays PENDING for ever. */
  predicate IsLegRow(x: Txn, l: Run, leg: Leg) {
    && x.user == l.user && x.parent == l.parent && x.kind == DebitLeg && x.amount == leg.amount && x.fee == leg.fee
    && x.status == Pending && x.completedAt == None && x.payee == NOBODY && x.key == []
    && x.ref.base == l.env.base && x.createdAt == l.env.now
    && match leg.source
       case Wallet => x.provider == WalletProvider && x.ref.part == WalletPart
       case Bank(id) =>
         && id in l.env.banks && l.env.banks[id].Usable? && x.provider == l.env.banks[id].provider
         && x.ref.part == BankPart(if |id| < 8 then id else id[..8])
  }

  ghost predicate LegHasRow(txns: seq<Txn>, l: Run, leg: Leg) {
    exists r :: 0 <= r < |txns| && IsLegRow(txns[r], l, leg)
  }

  /** The parent row, the payout row and the rows of the legs reached. */
  ghost predicate RowsWritten(t: Tables, l: Run) {
    && (l.parent.Some? ==> l.parent.value < |t.txns| && IsParentRow(t.txns[l.parent.value], l))
    && (l.payout.Some? ==> l.payout.value < |t.txns| && IsPayoutRow(t.txns[l.payout.value], l))
    && (l.parent.Some? && RowsMade(l).Some? ==>
          RowsMade(l).value <= |l.legs| && forall k :: 0 <= k < RowsMade(l).value ==> LegHasRow(t.txns, l, l.legs[k]))
  }

  // ---------------------------------------------------------------------------------------------
  // Steps of others, and steps that write no row

  /** Two points of one call: the same but for where it stands. */
  predicate SamePlan(l: Run, l': Run) {
    && l'.user == l.user && l'.req == l.req && l'.env == l.env && l'.legs == l.legs && l'.fees == l.fees
    && l'.parent == l.parent
  }

  lemma RowsStay(t: Tables, t': Tables, l: Run, l': Run)
    requires RowsWritten(t, l) && SamePlan(l, l') && l'.payout == l.payout && RowsMade(l') == RowsMade(l)
    requires |t.txns| <= |t'.txns| && forall r :: 0 <= r < |t.txns| ==> t'.txns[r] == t.txns[r]
    ensures RowsWritten(t', l')
  {
    if l.parent.Some? && RowsMade(l).Some? {
      forall k | 0 <= k < RowsMade(l).value
        ensures LegHasRow(t'.txns, l', l'.legs[k])
      {
        LegStays(t.txns, t'.txns, l, l', l.legs[k]);
      }
    }
  }

  lemma LegStays(txns: seq<Txn>, txns': seq<Txn>, l: Run, l': Run, leg: Leg)
    requires LegHasRow(txns, l, leg) && SamePlan(l, l')
    requires |txns| <= |txns'| && forall r :: 0 <= r < |txns| && IsLegRow(txns[r], l, leg) ==> txns'[r] == txns[r]
    ensures LegHasRow(txns', l', leg)
  {
    var r :| 0 <= r < |txns| && IsLegRow(txns[r], l, leg);
    assert IsLegRow(txns'[r], l', leg);
  }

  /** A step of another transfer touches none of these rows. */
  lemma OthersLeaveRows(t: Tables, t': Tables, p: nat, l: Run)
    requires OnlyTouches(t, t', p) && RowsWritten(t, l) && l.parent.Some? && l.parent != Some(p)
    requires p == |t.txns| || (p < |t.txns| && t.txns[p].parent == None)
    ensures RowsWritten(t', l)
  {
    var q := l.parent.value;
    assert RowTouched(t.txns[q], t'.txns[q], q, p);
    if l.payout.Some? {
      assert RowTouched(t.txns[l.payout.value], t'.txns[l.payout.value], l.payout.value, p);
    }
    if l.parent.Some? && RowsMade(l).Some? {
      forall k | 0 <= k < RowsMade(l).value
        ensures LegHasRow(t'.txns, l, l.legs[k])
      {
        forall r | 0 <= r < |t.txns| && IsLegRow(t.txns[r], l, l.legs[k])
          ensures t'.txns[r] == t.txns[r]
        {
          assert RowTouched(t.txns[r], t'.txns[r], r, p);
        }
        LegStays(t.txns, t'.txns, l, l, l.legs[k]);
      }
    }
  }

  // ---------------------------------------------------------------------------------------------
  // Steps that write

  /** The row of the next leg. */
  lemma LegRecorded(t: Tables, l: Run, l': Run, row: Txn, n: nat)
    requires RowsWritten(t, l) && SamePlan(l, l') && l'.payout == l.payout && l.parent.Some?
    requires n < |l.legs| && RowsMade(l) == Some(n) && RowsMade(l') == Some(n + 1) && IsLegRow(row, l, l.legs[n])
    ensures RowsWritten(t.(txns := t.txns + [row]), l')
  {
    var txns' := t.txns + [row];
    forall k | 0 <= k < n + 1
      ensures LegHasRow(txns', l', l'.legs[k])
    {
      if k < n {
        LegStays(t.txns, txns', l, l', l.legs[k]);
      } else {
        assert IsLegRow(txns'[|t.txns|], l', l'.legs[n]);
      }
    }
  }

  /** A mark on the parent or the payout row. */
  lemma MarkedRows(t: Tables, l: Run, l': Run, id: nat, s: Status, up: bool)
    requires RowsWritten(t, l) && SamePlan(l, l') && l'.payout == l.payout && RowsMade(l') == RowsMade(l)
    requires l.parent.Some? && (id == l.parent.value || (l.payout.Some? && id == l.payout.value))
    ensures RowsWritten(t.(txns := StatusSet(t.txns, id, s, l.env.now, up)), l')
  {
    var txns' := StatusSet(t.txns, id, s, l.env.now, up);
    if l.parent.Some? && RowsMade(l).Some? {
      forall k | 0 <= k < RowsMade(l).value
        ensures LegHasRow(txns', l', l'.legs[k])
      {
        LegStays(t.txns, txns', l, l', l.legs[k]);
      }
    }
  }

  ghost predicate StaysWritten(r: (Tables, Run)) {
    RowsWritten(r.0, r.1)
  }

  lemma ParentWrites(t: Tables, l: Run)
    requires RowsWritten(t, l) && InTree(t, l) && l.pc.MakeParent?
    ensures StaysWritten(Step(t, l))
  {
    if Insertable(t.txns, ParentTxn(l), l.env.parentRow) {
      assert (t.txns + [ParentTxn(l)])[|t.txns|] == ParentTxn(l);
    }
  }

  lemma LegWrites(t: Tables, l: Run, i: nat)
    requires RowsWritten(t, l) && l.pc == LegAt(i)
    ensures StaysWritten(LegStep(t, l, i))
  {
    var (t', l') := LegStep(t, l, i);
    if l'.pc.AskBank? {
      var id := l.legs[i].source.id;
      LegRecorded(t, l, l', BankTxn(l, l.legs[i], id, l.env.banks[id].provider), i);
    } else {
      RowsStay(t, t', l, l');
    }
  }

  lemma WalletChildWrites(t: Tables, l: Run, i: nat)
    requires RowsWritten(t, l) && l.pc == WalletChild(i) && l.legs[i].source.Wallet?
    ensures StaysWritten(Step(t, l))
  {
    var (t', l') := Step(t, l);
    if l'.pc.LegAt? {
      LegRecorded(t, l, l', WalletTxn(l, l.legs[i]), i);
    } else {
      RowsStay(t, t', l, l');
    }
  }

  lemma PayoutWrites(t: Tables, l: Run)
    requires RowsWritten(t, l) && l.pc.MakePayout? && l.payout.None?
    ensures StaysWritten(Step(t, l))
  {
    var row := PayoutTxn(l);
    if Insertable(t.txns, row, l.env.payoutRow) {
      var t' := t.(txns := t.txns + [row]);
      assert t'.txns[|t.txns|] == row;
      RowsStay(t, t', l, l);
    } else {
      RowsStay(t, t, l, Step(t, l).1);
    }
  }

  lemma ParentMarkWrites(t: Tables, l: Run)
    requires RowsWritten(t, l) && (l.pc.MarkProcessing? || l.pc.MarkParentFailed? || l.pc.MarkParentDone?)
    ensures StaysWritten(Step(t, l))
  {
    var p, l' := l.parent.value, Step(t, l).1;
    match l.pc
    case MarkProcessing => MarkedRows(t, l, l', p, Processing, l.env.processing);
    case MarkParentFailed => MarkedRows(t, l, l', p, Failed, l.env.parentFailed);
    case MarkParentDone => MarkedRows(t, l, l', p, Completed, l.env.parentDone);
  }

  lemma PayoutMarkWrites(t: Tables, l: Run)
    requires RowsWritten(t, l) && (l.pc.MarkPayoutFailed? || l.pc.MarkPayoutDone?)
    ensures StaysWritten(Step(t, l))
  {
    var p, l' := l.payout.value, Step(t, l).1;
    match l.pc
    case MarkPayoutFailed => MarkedRows(t, l, l', p, Failed, l.env.payoutFailed);
    case MarkPayoutDone => MarkedRows(t, l, l', p, Completed, l.env.payoutDone);
  }

  lemma QuietWrites(t: Tables, l: Run)
    requires RowsWritten(t, l)
    requires l.pc.UndoChild? || l.pc.AskBank? || l.pc.Send? || l.pc.Undo? || l.pc.Settle? || l.pc.Exit?
    ensures StaysWritten(Step(t, l))
  {
    RowsStay(t, Step(t, l).0, l, Step(t, l).1);
  }

  lemma StepWrites(t: Tables, l: Run)
    requires RowsWritten(t, l) && InTree(t, l) && PayoutInTime(l) && Accounted(l, t.book)
    ensures StaysWritten(Step(t, l))
  {
    match l.pc
    case Lookup =>
    case Planning =>
    case MakeParent => ParentWrites(t, l);
    case LegAt(i) => LegWrites(t, l, i);
    case WalletChild(i) => WalletChildWrites(t, l, i);
    case MakePayout => PayoutWrites(t, l);
    case MarkProcessing => ParentMarkWrites(t, l);
    case MarkParentFailed => ParentMarkWrites(t, l);
    case MarkParentDone => ParentMarkWrites(t, l);
    case MarkPayoutFailed => PayoutMarkWrites(t, l);
    case MarkPayoutDone => PayoutMarkWrites(t, l);
    case _ => QuietWrites(t, l);
  }

  // ---------------------------------------------------------------------------------------------
  // In every interleaving

  ghost predicate AllWritten(s: System) {
    forall i :: 0 <= i < |s.runs| ==> RowsWritten(s.t, s.runs[i])
  }

  lemma OtherRunWritten(s0: System, s: System, i: nat, j: nat)
    requires Inv(s0, s) && i < |s.runs| && j < |s.runs| && i != j && RowsWritten(s.t, s.runs[j])
    ensures RowsWritten(Step(s.t, s.runs[i]).0, s.runs[j])
  {
    var l, o := s.runs[i], s.runs[j];
    assert InTree(s.t, l) && InTree(s.t, o);
    if o.parent.Some? {
      StepTouches(s.t, l);
      OthersLeaveRows(s.t, Step(s.t, l).0, Owner(s.t, l), o);
    }
  }

  lemma TransferWrites(s0: System, s: System, i: nat)
    requires Inv(s0, s) && AllWritten(s) && i < |s.runs|
    ensures AllWritten(Apply(s, StepTransfer(i)))
  {
    var (t', l') := Step(s.t, s.runs[i]);
    OwnInvariants(s0, s, i);
    StepWrites(s.t, s.runs[i]);
    var runs' := s.runs[i := l'];
    forall j | 0 <= j < |runs'|
      ensures RowsWritten(t', runs'[j])
    {
      if j != i {
        OtherRunWritten(s0, s, i, j);
      }
    }
  }

  lemma SameTableWritten(t: Tables, t': Tables, l: Run)
    requires RowsWritten(t, l) && t'.txns == t.txns
    ensures RowsWritten(t', l)
  {
  }

  lemma EventWrites(s0: System, s: System, e: Event, s': System)
    requires Inv(s0, s) && AllWritten(s) && s' == Apply(s, e)
    ensures AllWritten(s')
  {
    if e.StepTransfer? && e.i < |s.runs| {
      TransferWrites(s0, s, e.i);
    } else {
      forall i | 0 <= i < |s.runs|
        ensures RowsWritten(s'.t, s.runs[i])
      {
        SameTableWritten(s.t, s'.t, s.runs[i]);
      }
    }
  }

  /** After any events in any order, every transfer has exactly the rows its point calls for, as described above. */
  lemma {:induction false} AlwaysWritten(s0: System, es: seq<Event>, n: nat)
    requires Start(s0) && n <= |es|
    ensures AllWritten(After(s0, es, n))
  {
    if n > 0 {
      AlwaysWritten(s0, es, n - 1);
      AlwaysInv(s0, es, n - 1);
      EventWrites(s0, After(s0, es, n - 1), es[n - 1], After(s0, es, n));
    }
  }

  // ---------------------------------------------------------------------------------------------
  // Alone

  /** What the rows of a transfer that runs alone rely on, seen from the tables t0 it started on. */
  ghost predicate Orderly(t0: Tables, t: Tables, l: Run) {
    && Covered(t, l) && RowsRefer(t) && InTree(t, l) && PayoutInTime(l) && RowsWritten(t, l)
    && |t0.txns| <= |t.txns|
    && (l.parent.Some? ==> |t0.txns| <= l.parent.value) && (l.payout.Some? ==> |t0.txns| <= l.payout.value)
  }

  /** Rows are appended, and the transfer remembers the one it has just appended. */
  lemma RowsAreNew(t: Tables, l: Run)
    ensures var (t', l') := Step(t, l);
            && |t.txns| <= |t'.txns|
            && (l'.parent == l.parent || l'.parent == Some(|t.txns|))
            && (l'.payout == l.payout || l'.payout == Some(|t.txns|))
  {
    if Stage(l.pc) >= 11 {
      EarlyRowsAreNew(t, l);
    }
  }

  lemma EarlyRowsAreNew(t: Tables, l: Run)
    requires Stage(l.pc) >= 11
    ensures var (t', l') := Step(t, l);
            && |t.txns| <= |t'.txns|
            && (l'.parent == l.parent || l'.parent == Some(|t.txns|)) && l'.payout == l.payout
  {
  }

  lemma OrderlyStep(t0: Tables, t: Tables, l: Run)
    requires Orderly(t0, t, l)
    ensures Orderly(t0, Step(t, l).0, Step(t, l).1)
  {
    StepStaysCovered(t, l);
    StepTouches(t, l);
    TouchKeepsReferences(t, Step(t, l).0, Owner(t, l));
    StepStaysInTree(t, l);
    PayoutStaysInTime(t, l);
    StepWrites(t, l);
    RowsAreNew(t, l);
  }

  lemma {:induction false} OrderlyToTheEnd(t0: Tables, t: Tables, l: Run)
    requires Orderly(t0, t, l)
    ensures Orderly(t0, Finish(t, l).0, Finish(t, l).1)
    decreases Stage(l.pc), StepsLeft(l)
  {
    if !l.pc.Exit? {
      OrderlyStep(t0, t, l);
      StepDescends(t, l);
      OrderlyToTheEnd(t0, Step(t, l).0, Step(t, l).1);
    }
  }

  /** A transfer that runs alone: its rows are new, and are exactly those of its exit. */
  lemma CallRows(t: Tables, c: Call)
    requires AllChecks(t.book) && RowsRefer(t) && 0 <= c.req.amount
    ensures Orderly(t, RunCall(t, c).0, RunCall(t, c).1)
  {
    AloneFromTheStart(t, c);
    OrderlyToTheEnd(t, t, Begin(c.user, c.req, c.env));
  }

  // ---------------------------------------------------------------------------------------------
  // References

  /**
   The reference of a bank leg has the first eight characters of the bank's id only: a bank that shares
   them with an earlier one of the same transfer is refused its row, whatever was pulled before.
   */
  lemma SharedPrefixIsRefused(t: Tables, l: Run, i: nat, j: nat)
    requires RowsWritten(t, l) && l.pc == LegAt(j) && i < j < |l.legs| && l.parent.Some?
    requires l.legs[i].source.Bank? && l.legs[j].source.Bank?
    requires Head8(l.legs[i].source.id) == Head8(l.legs[j].source.id)
    requires BankOf(l.env, l.legs[j].source.id).Usable?
    ensures LegStep(t, l, j) == (t, l.(pc := Exit(BankRowRefused(j))))
  {
    assert LegHasRow(t.txns, l, l.legs[i]);
    var r :| 0 <= r < |t.txns| && IsLegRow(t.txns[r], l, l.legs[i]);
    assert t.txns[r].ref == Ref(l.env.base, BankPart(Head8(l.legs[j].source.id)));
  }

  ghost predicate RefsUnique(txns: seq<Txn>) {
    forall i, j :: 0 <= i < j < |txns| ==> txns[i].ref != txns[j].ref
  }

  /** A row that a step adds has a reference of its own. */
  lemma AddedRowIsNew(t: Tables, l: Run)
    ensures var txns := Step(t, l).0.txns;
            |txns| > |t.txns| ==>
              |txns| == |t.txns| + 1 && forall r :: 0 <= r < |t.txns| ==> t.txns[r].ref != txns[|t.txns|].ref
  {
  }

  lemma EventKeepsRefs(s: System, e: Event, s': System)
    requires RefsUnique(s.t.txns) && s' == Apply(s, e) && FinishedStay(s.t, s'.t)
    ensures RefsUnique(s'.t.txns)
  {
    if e.StepTransfer? && e.i < |s.runs| {
      AddedRowIsNew(s.t, s.runs[e.i]);
      forall r | 0 <= r < |s.t.txns|
        ensures s'.t.txns[r].ref == s.t.txns[r].ref
      {
        assert SameRow(s.t.txns[r], s'.t.txns[r]);
      }
    }
  }

  /** In every interleaving our_ref tells all rows apart. */
  lemma {:induction false} RefsStayUnique(s0: System, es: seq<Event>, n: nat)
    requires Start(s0) && RefsUnique(s0.t.txns) && n <= |es|
    ensures RefsUnique(After(s0, es, n).t.txns)
  {
    if n > 0 {
      RefsStayUnique(s0, es, n - 1);
      FinishedRowsStay(s0, es, n - 1, After(s0, es, n - 1), After(s0, es, n));
      EventKeepsRefs(After(s0, es, n - 1), es[n - 1], After(s0, es, n));
    }
  }
}
