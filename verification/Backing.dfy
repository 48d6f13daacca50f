/** Under any interleaving no bank is asked and nothing is paid out unless its row was recorded first. */
module Backing {
  import opened Sums
  import opened Ledger
  import opened Sourcing
  import opened Transactions
  import opened Transfer
  import opened TransferLaws
  import opened TransferTree
  import opened MoneyIn
  import opened Engine
  import opened EngineLaws

  /** The row a movement goes by: same parent, amount and reference, and for a payout the same recipient. */
  predicate Backs(x: Txn, v: Movement, kind: Kind) {
    x.parent == Some(v.owner) && x.kind == kind && x.amount == v.amount && x.ref == v.ref && x.payee == v.payee
  }

  ghost predicate Backed(txns: seq<Txn>, v: Movement, kind: Kind) {
    exists r :: 0 <= r < |txns| && Backs(txns[r], v, kind)
  }

  ghost predicate AllBacked(txns: seq<Txn>, vs: seq<Movement>, kind: Kind) {
    forall i :: 0 <= i < |vs| ==> Backed(txns, vs[i], kind)
  }

  /** A transfer about to move money has the row for it. */
  ghost predicate Prepared(txns: seq<Txn>, l: Run) {
    && (l.pc.AskBank? && l.legs[l.pc.i].source.Bank? ==> Backed(txns, PullOf(l, l.pc.i), DebitLeg))
    && (l.pc.Send? ==> Backed(txns, PayoutOf(l), PayoutLeg))
  }

  ghost predicate BackedSystem(s: System) {
    && AllBacked(s.t.txns, s.t.pulls, DebitLeg)
    && AllBacked(s.t.txns, s.t.payouts, PayoutLeg)
    && forall i :: 0 <= i < |s.runs| ==> Prepared(s.t.txns, s.runs[i])
  }

  lemma StaysBacked(t: Tables, t': Tables, v: Movement, kind: Kind)
    requires FinishedStay(t, t') && Backed(t.txns, v, kind)
    ensures Backed(t'.txns, v, kind)
  {
    var r :| 0 <= r < |t.txns| && Backs(t.txns[r], v, kind);
    assert SameRow(t.txns[r], t'.txns[r]) && Backs(t'.txns[r], v, kind);
  }

  lemma AllStayBacked(t: Tables, t': Tables, vs: seq<Movement>, kind: Kind)
    requires FinishedStay(t, t') && AllBacked(t.txns, vs, kind)
    ensures AllBacked(t'.txns, vs, kind)
  {
    forall i | 0 <= i < |vs|
      ensures Backed(t'.txns, vs[i], kind)
    {
      StaysBacked(t, t', vs[i], kind);
    }
  }

  lemma StaysPrepared(t: Tables, t': Tables, l: Run)
    requires FinishedStay(t, t') && Prepared(t.txns, l)
    ensures Prepared(t'.txns, l)
  {
    if l.pc.AskBank? && l.legs[l.pc.i].source.Bank? {
      StaysBacked(t, t', PullOf(l, l.pc.i), DebitLeg);
    } else if l.pc.Send? {
      StaysBacked(t, t', PayoutOf(l), PayoutLeg);
    }
  }

  lemma BackedLast(txns: seq<Txn>, row: Txn, v: Movement, kind: Kind)
    requires Backs(row, v, kind)
    ensures Backed(txns + [row], v, kind)
  {
    assert (txns + [row])[|txns|] == row;
  }

  /** Recording a bank leg or the payout prepares the movement that comes next. */
  lemma BankLegPrepares(t: Tables, l: Run, i: nat)
    requires l.pc == LegAt(i) && i < |l.legs| && l.legs[i].source.Bank?
    ensures Prepared(LegStep(t, l, i).0.txns, LegStep(t, l, i).1)
  {
    var id := l.legs[i].source.id;
    var b := BankOf(l.env, id);
    if b.Usable? {
      BackedLast(t.txns, BankTxn(l, l.legs[i], id, b.provider), PullOf(l, i), DebitLeg);
    }
  }

  lemma PayoutPrepares(t: Tables, l: Run)
    requires l.pc.MakePayout?
    ensures Prepared(Step(t, l).0.txns, Step(t, l).1)
  {
    BackedLast(t.txns, PayoutTxn(l), PayoutOf(l), PayoutLeg);
  }

  lemma StepPrepares(t: Tables, l: Run)
    ensures Prepared(Step(t, l).0.txns, Step(t, l).1)
  {
    match l.pc
    case LegAt(i) =>
      if i < |l.legs| && l.legs[i].source.Bank? {
        BankLegPrepares(t, l, i);
      }
    case MakePayout => PayoutPrepares(t, l);
    case _ =>
  }

  /** Money moves only in the two steps that a row has prepared. */
  lemma StepMovements(t: Tables, l: Run)
    ensures var t' := Step(t, l).0;
            && (t'.pulls == t.pulls ||
                (l.pc.AskBank? && l.legs[l.pc.i].source.Bank? && t'.txns == t.txns
                 && t'.pulls == t.pulls + [PullOf(l, l.pc.i)]))
            && (t'.payouts == t.payouts || (l.pc.Send? && t'.txns == t.txns && t'.payouts == t.payouts + [PayoutOf(l)]))
  {
  }

  lemma TransferKeepsBacking(s: System, i: nat)
    requires BackedSystem(s) && i < |s.runs| && FinishedStay(s.t, Step(s.t, s.runs[i]).0)
    ensures BackedSystem(Apply(s, StepTransfer(i)))
  {
    var l := s.runs[i];
    var (t', l') := Step(s.t, l);
    StepMovements(s.t, l);
    StepPrepares(s.t, l);
    AllStayBacked(s.t, t', s.t.pulls, DebitLeg);
    AllStayBacked(s.t, t', s.t.payouts, PayoutLeg);
    assert Prepared(s.t.txns, l);
    var runs' := s.runs[i := l'];
    forall j | 0 <= j < |runs'|
      ensures Prepared(t'.txns, runs'[j])
    {
      if j != i {
        StaysPrepared(s.t, t', s.runs[j]);
      }
    }
  }

  lemma EventKeepsBacking(s: System, e: Event, s': System)
    requires BackedSystem(s) && s' == Apply(s, e) && FinishedStay(s.t, s'.t)
    ensures BackedSystem(s')
  {
    if e.StepTransfer? && e.i < |s.runs| {
      TransferKeepsBacking(s, e.i);
    }
  }

  /**
   At every moment of every interleaving, each amount asked of a bank has a debit leg of the same
   parent, amount and reference in the table, and each payout sent has its payout row, recipient included.
   */
  lemma {:induction false} MoneyMovesOnRecord(s0: System, es: seq<Event>, n: nat)
    requires Start(s0) && BackedSystem(s0) && n <= |es|
    ensures BackedSystem(After(s0, es, n))
  {
    if n > 0 {
      MoneyMovesOnRecord(s0, es, n - 1);
      FinishedRowsStay(s0, es, n - 1, After(s0, es, n - 1), After(s0, es, n));
      EventKeepsBacking(After(s0, es, n - 1), es[n - 1], After(s0, es, n));
    }
  }
}
