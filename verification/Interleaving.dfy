/** Idempotency when transfers overlap, and serial runs as a special case of interleavings. */
module Interleaving {
  import opened Sums
  import opened Ledger
  import opened Sourcing
  import opened Transactions
  import opened Transfer
  import opened TransferLaws
  import opened TransferSerial
  import opened TransferTree
  import opened MoneyIn
  import opened Engine
  import opened EngineLaws

  // ---------------------------------------------------------------------------------------------
  // Idempotency keys

  /** The transfer is about to insert a parent row whose key is in the table already. */
  predicate AboutToDuplicate(t: Tables, l: Run) {
    l.pc.MakeParent? && Insertable(t.txns, ParentTxn(l), l.env.parentRow) && Recorded(t.txns, l.req.key)
  }

  /** Exactly the parent insert of a recorded key makes a key label two rows: the table has no rule against it. */
  lemma KeysBreakExactlyThere(t: Tables, l: Run)
    requires KeysUnique(t.txns)
    ensures KeysUnique(Step(t, l).0.txns) <==> !AboutToDuplicate(t, l)
  {
    var txns := Step(t, l).0.txns;
    if AboutToDuplicate(t, l) {
      var i :| 0 <= i < |t.txns| && t.txns[i].key == l.req.key;
      assert txns == t.txns + [ParentTxn(l)];
      assert txns[i].key == txns[|t.txns|].key != [];
    } else if l.pc.MakeParent? {
      InsertKeepsKeysUnless(t.txns, ParentTxn(l), l.env.parentRow);
    } else {
      StepTxns(t, l);
      AfterKeepsKeys(t, l, txns);
    }
  }

  lemma InsertKeepsKeysUnless(txns: seq<Txn>, row: Txn, up: bool)
    requires KeysUnique(txns) && (Insertable(txns, row, up) ==> !Recorded(txns, row.key))
    ensures KeysUnique(Inserted(txns, row, up))
  {
  }

  lemma AfterKeepsKeys(t: Tables, l: Run, txns: seq<Txn>)
    requires KeysUnique(t.txns) && TxnsAfter(t, l, txns) && !l.pc.MakeParent?
    ensures KeysUnique(txns)
  {
    if txns != t.txns {
      if exists id: nat, s :: txns == StatusSet(t.txns, id, s, l.env.now, true) {
        var id: nat, s :| txns == StatusSet(t.txns, id, s, l.env.now, true);
        MarkKeepsKeys(t.txns, id, s, l.env.now, true);
      }
    }
  }

  predicate DuplicateAt(s0: System, es: seq<Event>, n: nat)
    requires n < |es|
  {
    var s := After(s0, es, n);
    es[n].StepTransfer? && es[n].i < |s.runs| && AboutToDuplicate(s.t, s.runs[es[n].i])
  }

  lemma DuplicatesStay(t: Tables, t': Tables)
    requires FinishedStay(t, t') && !KeysUnique(t.txns)
    ensures !KeysUnique(t'.txns)
  {
    var i, j :| 0 <= i < j < |t.txns| && t.txns[i].key == t.txns[j].key && t.txns[i].key != [];
    assert SameRow(t.txns[i], t'.txns[i]) && SameRow(t.txns[j], t'.txns[j]);
  }

  lemma EventDuplicates(s: System, e: Event, s': System)
    requires KeysUnique(s.t.txns) && s' == Apply(s, e)
    ensures KeysUnique(s'.t.txns)
            <==> !(e.StepTransfer? && e.i < |s.runs| && AboutToDuplicate(s.t, s.runs[e.i]))
  {
    if e.StepTransfer? && e.i < |s.runs| {
      KeysBreakExactlyThere(s.t, s.runs[e.i]);
    }
  }

  /** Over a whole interleaving: keys are unique at the end if and only if no such insert has happened. */
  lemma {:induction false} KeysUniqueExactlyWithout(s0: System, es: seq<Event>, n: nat)
    requires Start(s0) && KeysUnique(s0.t.txns) && n <= |es|
    ensures KeysUnique(After(s0, es, n).t.txns)
            <==> forall k: nat {:trigger DuplicateAt(s0, es, k)} :: k < n ==> !DuplicateAt(s0, es, k)
  {
    if n > 0 {
      KeysUniqueExactlyWithout(s0, es, n - 1);
      var s, s' := After(s0, es, n - 1), After(s0, es, n);
      LastEventDecides(s0, es, n, s, s');
    }
  }

  lemma LastEventDecides(s0: System, es: seq<Event>, n: nat, s: System, s': System)
    requires Start(s0) && 0 < n <= |es| && s == After(s0, es, n - 1) && s' == After(s0, es, n)
    ensures KeysUnique(s'.t.txns) <==> KeysUnique(s.t.txns) && !DuplicateAt(s0, es, n - 1)
  {
    if KeysUnique(s.t.txns) {
      assert s' == Apply(s, es[n - 1]);
      EventDuplicates(s, es[n - 1], s');
    } else {
      FinishedRowsStay(s0, es, n - 1, s, s');
      DuplicatesStay(s.t, s'.t);
    }
  }

  /** A key that is not in the table does not get there by a step of a transfer with another key. */
  lemma StaysUnrecorded(t: Tables, l: Run, key: string)
    requires !Recorded(t.txns, key) && (l.pc.MakeParent? ==> l.req.key != key)
    ensures !Recorded(Step(t, l).0.txns, key)
  {
    var txns := Step(t, l).0.txns;
    StepTxns(t, l);
    if key != [] && exists id: nat, s :: txns == StatusSet(t.txns, id, s, l.env.now, true) {
      var id: nat, s :| txns == StatusSet(t.txns, id, s, l.env.now, true);
      assert forall i :: 0 <= i < |t.txns| ==> txns[i].key == t.txns[i].key;
    }
  }

  /** Between its lookup and its parent row. */
  predicate Claiming(l: Run) {
    l.req.key != [] && (l.pc.Planning? || l.pc.MakeParent?)
  }

  /** Transfer i is not about to look a key up that another one is claiming. */
  ghost predicate LooksUpAlone(s: System, i: nat) {
    i < |s.runs| && s.runs[i].pc.Lookup? ==>
      forall j :: 0 <= j < |s.runs| && Claiming(s.runs[j]) ==> s.runs[j].req.key != s.runs[i].req.key
  }

  ghost predicate ClaimsApart(s: System) {
    && KeysUnique(s.t.txns)
    && (forall i :: 0 <= i < |s.runs| && Claiming(s.runs[i]) ==> !Recorded(s.t.txns, s.runs[i].req.key))
    && (forall i, j :: 0 <= i < j < |s.runs| && Claiming(s.runs[i]) && Claiming(s.runs[j]) ==>
          s.runs[i].req.key != s.runs[j].req.key)
  }

  lemma ClaimingStep(t: Tables, l: Run)
    ensures var l' := Step(t, l).1;
            && l'.req == l.req
            && (Claiming(l') ==> Claiming(l) || (l.pc.Lookup? && !Recorded(t.txns, l.req.key)))
            && (Claiming(l') ==> Step(t, l).0.txns == t.txns)
  {
  }

  lemma TransferKeepsApart(s: System, i: nat)
    requires ClaimsApart(s) && i < |s.runs| && LooksUpAlone(s, i)
    ensures ClaimsApart(Apply(s, StepTransfer(i)))
  {
    var l := s.runs[i];
    var (t', l') := Step(s.t, l);
    ClaimingStep(s.t, l);
    KeysBreakExactlyThere(s.t, l);
    forall j | 0 <= j < |s.runs| && j != i && Claiming(s.runs[j])
      ensures !Recorded(t'.txns, s.runs[j].req.key)
      ensures Claiming(l') ==> s.runs[j].req.key != l'.req.key
    {
      StaysUnrecorded(s.t, l, s.runs[j].req.key);
    }
  }

  lemma EventKeepsApart(s: System, e: Event)
    requires ClaimsApart(s) && (e.StepTransfer? ==> LooksUpAlone(s, e.i))
    ensures ClaimsApart(Apply(s, e))
  {
    if e.StepTransfer? && e.i < |s.runs| {
      TransferKeepsApart(s, e.i);
    }
  }

  ghost predicate LookupsApartAt(s0: System, es: seq<Event>, n: nat)
    requires n < |es|
  {
    es[n].StepTransfer? ==> LooksUpAlone(After(s0, es, n), es[n].i)
  }

  /**
   Idempotency when transfers overlap: if no transfer looks its key up while another with the same key
   is between lookup and insert, every non-empty key labels at most one row, always.
   */
  lemma {:induction false} KeysStayUnique(s0: System, es: seq<Event>, n: nat)
    requires s0.runs == [] && KeysUnique(s0.t.txns) && n <= |es|
    requires forall k: nat {:trigger LookupsApartAt(s0, es, k)} :: k < |es| ==> LookupsApartAt(s0, es, k)
    ensures ClaimsApart(After(s0, es, n))
  {
    if n > 0 {
      KeysStayUnique(s0, es, n - 1);
      assert LookupsApartAt(s0, es, n - 1);
      EventKeepsApart(After(s0, es, n - 1), es[n - 1]);
    }
  }

  /** And if they do: two transfers that both look a fresh key up before either inserts it both get a row. */
  lemma LookupRace(t: Tables, a: Run, b: Run)
    requires a.pc.Lookup? && b.pc.Lookup? && a.req.key == b.req.key != [] && a.env.keyRead && b.env.keyRead
    requires !Recorded(t.txns, a.req.key)
    requires PlanFor(ReadWallet(t.book, a.user, a.env.balanceRead), a.req.amount, a.env.accounts, a.env.fetches).Planned?
    requires PlanFor(ReadWallet(t.book, b.user, b.env.balanceRead), b.req.amount, b.env.accounts, b.env.fetches).Planned?
    requires a.env.parentRow && b.env.parentRow && a.env.base != b.env.base
    requires !RefUsed(t.txns, Ref(a.env.base, Root)) && !RefUsed(t.txns, Ref(b.env.base, Root))
    ensures var a1, b1 := LookupStep(t, a).1, LookupStep(t, b).1;
            && a1.pc.Planning? && b1.pc.Planning?
            && var a2, b2 := PlanStep(t, a1).1, PlanStep(t, b1).1;
               && a2.pc.MakeParent? && b2.pc.MakeParent?
               && var t1 := Step(t, a2).0;
                  var t2 := Step(t1, b2).0;
                  |t2.txns| == |t.txns| + 2 && t2.txns[|t.txns|].key == t2.txns[|t.txns| + 1].key == a.req.key
  {
  }

  // ---------------------------------------------------------------------------------------------
  // Serial runs

  lemma {:induction false} AfterCons(s: System, e: Event, es: seq<Event>, n: nat)
    requires n <= |es|
    ensures After(s, [e] + es, n + 1) == After(Apply(s, e), es, n)
  {
    if n > 0 {
      AfterCons(s, e, es, n - 1);
      assert ([e] + es)[n] == es[n - 1];
    } else {
      assert After(s, [e] + es, 0) == s;
    }
  }

  lemma RunsTwice(s: System, s1: System, i: nat, t1: Tables, l1: Run, t2: Tables, l2: Run)
    requires i < |s.runs| && s1 == s.(t := t1, runs := s.runs[i := l1])
    ensures s1.(t := t2, runs := s1.runs[i := l2]) == s.(t := t2, runs := s.runs[i := l2])
  {
    assert s.runs[i := l1][i := l2] == s.runs[i := l2];
  }

  /** A transfer that runs alone to its end is the interleaving in which only its steps are taken. */
  lemma {:induction false} AloneIsAnInterleaving(s: System, i: nat) returns (es: seq<Event>)
    requires i < |s.runs|
    ensures var (t', l') := Finish(s.t, s.runs[i]);
            After(s, es, |es|) == s.(t := t', runs := s.runs[i := l'])
    decreases Stage(s.runs[i].pc), StepsLeft(s.runs[i])
  {
    if s.runs[i].pc.Exit? {
      es := [];
    } else {
      var s1 := Apply(s, StepTransfer(i));
      StepDescends(s.t, s.runs[i]);
      var rest := AloneIsAnInterleaving(s1, i);
      es := [StepTransfer(i)] + rest;
      AfterCons(s, StepTransfer(i), rest, |rest|);
      var (t1, l1) := Step(s.t, s.runs[i]);
      var (t2, l2) := Finish(t1, l1);
      RunsTwice(s, s1, i, t1, l1, t2, l2);
    }
  }

  /** The same for deposits and top-ups. */
  lemma {:induction false} TaskAloneIsAnInterleaving(s: System, i: nat) returns (es: seq<Event>)
    requires i < |s.tasks|
    ensures var (b', m', k') := RunTask(s.t.book, s.m, s.tasks[i]);
            After(s, es, |es|) == s.(t := s.t.(book := b'), m := m', tasks := s.tasks[i := k'])
    decreases TaskStepsLeft(s.tasks[i])
  {
    if Over(s.tasks[i]) {
      es := [];
    } else {
      var s1 := Apply(s, StepTask(i));
      var rest := TaskAloneIsAnInterleaving(s1, i);
      es := [StepTask(i)] + rest;
      AfterCons(s, StepTask(i), rest, |rest|);
      assert s1.tasks[i := RunTask(s1.t.book, s1.m, s1.tasks[i]).2] == s.tasks[i := RunTask(s1.t.book, s1.m, s1.tasks[i]).2];
    }
  }
}
