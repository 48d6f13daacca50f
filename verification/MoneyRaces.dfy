/**
 Where the guarantees for money coming in end.  Three ways to credit one top-up twice, which are the
 slips that MoneyLaws counts, and runs that use the rolling limit up to the last kobo.
 */
module MoneyRaces {
  import opened Sums
  import opened Ledger
  import opened MoneyIn
  import opened MoneyLaws

  /** A delivery for row id that nothing outside stops, for a user with a wallet in order. */
  ghost predicate Deliverable(b: Book, m: Money, id: nat, c: TopUpCall) {
    && AllChecks(b)
    && id < |m.funds| && m.funds[id].user in b
    && (forall i :: 0 <= i < |m.funds| && i != id ==> m.funds[i].ref != m.funds[id].ref)
    && c.ref == m.funds[id].ref && c.lookup && c.walletRead && c.credit && c.amount > 0
  }

  lemma DeliveryIsFound(b: Book, m: Money, id: nat, c: TopUpCall)
    requires Deliverable(b, m, id, c)
    ensures FindFund(m.funds, c.ref, |m.funds|) == Some(id)
  {
    var hit := FindFund(m.funds, c.ref, |m.funds|);
    assert m.funds[id].ref == c.ref;
  }

  /** The three statements of such a delivery to a request that is not completed. */
  lemma DeliverySteps(b: Book, m: Money, id: nat, c: TopUpCall)
    requires Deliverable(b, m, id, c) && m.funds[id].status != FundCompleted
    ensures var r := m.funds[id];
            var (b1, m1, k1) := TaskStep(b, m, TopUpTask(c, TopUpArrived));
            var (b2, m2, k2) := TaskStep(b1, m1, k1);
            var (b3, m3, k3) := TaskStep(b2, m2, k2);
            && (b1, m1, k1) == (b, m, TopUpTask(c, Admitted(r.user, id)))
            && b2 == Exec(b, r.user, Credit(c.amount), true) && AllChecks(b2) && b2.Keys == b.Keys
            && m2 == m.(funds := FundCredited(m.funds, id, c.amount)) && k2 == TopUpTask(c, Unmarked(id))
            && b3 == b2 && Over(k3)
            && (b3, m3, k3) == RunTask(b, m, TopUpTask(c, TopUpArrived))
            && m3.funds == if c.mark then FundStatusSet(m2.funds, id, FundCompleted, m.now, true)
                           else MarkLost(m2.funds, id)
  {
    DeliveryIsFound(b, m, id, c);
    GuardsProtectChecks(b, m.funds[id].user, Credit(c.amount), true);
    var (b1, m1, k1) := TaskStep(b, m, TopUpTask(c, TopUpArrived));
    var (b2, m2, k2) := TaskStep(b1, m1, k1);
    var (b3, m3, k3) := TaskStep(b2, m2, k2);
    assert RunTask(b3, m3, k3) == (b3, m3, k3);
    assert RunTask(b1, m1, k1) == RunTask(b2, m2, k2);
  }

  /** The delivery as a whole. */
  lemma DeliveryRuns(b: Book, m: Money, id: nat, c: TopUpCall)
    requires Deliverable(b, m, id, c) && m.funds[id].status != FundCompleted
    ensures var (b', m', _) := RunTask(b, m, TopUpTask(c, TopUpArrived));
            var credited := FundCredited(m.funds, id, c.amount);
            && AllChecks(b') && b'.Keys == b.Keys
            && m' == m.(funds := if c.mark then FundStatusSet(credited, id, FundCompleted, m.now, true)
                                 else MarkLost(credited, id))
  {
    DeliverySteps(b, m, id, c);
  }

  // ---------------------------------------------------------------------------------------------
  // Lost deposits

  /**
   A deposit whose row is recorded and whose credit then fails is lost: the row stays without a credit,
   no wallet changes, and a second delivery, however well it goes, is refused by the reference.
   */
  lemma FailedCreditLosesDeposit(b: Book, m: Money, c: DepositCall, d: DepositCall)
    requires c.lookup && c.account in m.accounts && c.insert && !DepositRefUsed(m.deposits, c.ref) && d.ref == c.ref
    requires CreditOutcome(b, m.accounts[c.account], Net(c.amount, c.fee), c.walletRead, c.credit) != Credited
    ensures var row := DepositRow(m.accounts[c.account], c.amount, c.fee, c.ref, []);
            var (b1, m1, _) := RunTask(b, m, DepositTask(c, DepositArrived));
            && b1 == b && m1 == m.(deposits := m.deposits + [row])
            && (Paid(row) <==> Net(c.amount, c.fee) == 0)
            && var (b2, m2, _) := RunTask(b1, m1, DepositTask(d, DepositArrived));
               b2 == b && m2 == m1
  {
    var u, id := m.accounts[c.account], |m.deposits|;
    var row := DepositRow(u, c.amount, c.fee, c.ref, []);
    var m1 := m.(deposits := m.deposits + [row]);
    var r := CreditOutcome(b, u, Net(c.amount, c.fee), c.walletRead, c.credit);
    assert TaskStep(b, m, DepositTask(c, DepositArrived)) == (b, m1, DepositTask(c, DepositRecorded(u, id)));
    assert TaskStep(b, m1, DepositTask(c, DepositRecorded(u, id))) == (b, m1, DepositTask(c, DepositOver(r)));
    assert RunTask(b, m1, DepositTask(c, DepositRecorded(u, id))) == (b, m1, DepositTask(c, DepositOver(r)));
    assert m1.deposits[id].ref == d.ref;
    var (b2, m2, k2) := TaskStep(b, m1, DepositTask(d, DepositArrived));
    assert Over(k2) && RunTask(b2, m2, k2) == (b2, m2, k2);
  }

  // ---------------------------------------------------------------------------------------------
  // Double credits

  /** The webhook beats the end of FundFromBank: its late status write reopens the request, and it is credited again. */
  lemma LateWriteCreditsTwice(b: Book, m: Money, id: nat, fund: FundCall, c: TopUpCall, d: TopUpCall)
    requires Deliverable(b, m, id, c) && Deliverable(b, m, id, d) && c.mark && fund.write
    requires m.funds[id].status == FundPending
    ensures var (b1, m1, _) := RunTask(b, m, TopUpTask(c, TopUpArrived));
            var (m2, _) := FundStep(m1, fund, Created(id));
            var (_, m3, _) := RunTask(b1, m2, TopUpTask(d, TopUpArrived));
            id < |m3.funds| && m3.funds[id].credits == m.funds[id].credits + [c.amount, d.amount]
  {
    DeliveryRuns(b, m, id, c);
    var (b1, m1, _) := RunTask(b, m, TopUpTask(c, TopUpArrived));
    var (m2, _) := FundStep(m1, fund, Created(id));
    DeliveryRuns(b1, m2, id, d);
    assert m.funds[id].credits + [c.amount] + [d.amount] == m.funds[id].credits + [c.amount, d.amount];
  }

  /** A lost mark: the request stays open, and the next delivery credits it again. */
  lemma LostMarkCreditsTwice(b: Book, m: Money, id: nat, c: TopUpCall, d: TopUpCall)
    requires Deliverable(b, m, id, c) && Deliverable(b, m, id, d) && !c.mark
    requires m.funds[id].status == FundPending
    ensures var (b1, m1, _) := RunTask(b, m, TopUpTask(c, TopUpArrived));
            var (_, m2, _) := RunTask(b1, m1, TopUpTask(d, TopUpArrived));
            id < |m2.funds| && m2.funds[id].credits == m.funds[id].credits + [c.amount, d.amount]
  {
    DeliveryRuns(b, m, id, c);
    var (b1, m1, _) := RunTask(b, m, TopUpTask(c, TopUpArrived));
    DeliveryRuns(b1, m1, id, d);
    assert m.funds[id].credits + [c.amount] + [d.amount] == m.funds[id].credits + [c.amount, d.amount];
  }

  /** Two deliveries that both read the request before either marks it. */
  lemma OverlapCreditsTwice(b: Book, m: Money, id: nat, c: TopUpCall, d: TopUpCall)
    requires Deliverable(b, m, id, c) && Deliverable(b, m, id, d)
    requires m.funds[id].status == FundPending
    ensures var c1 := TaskStep(b, m, TopUpTask(c, TopUpArrived)).2;
            var d1 := TaskStep(b, m, TopUpTask(d, TopUpArrived)).2;
            var (b1, m1, _) := TaskStep(b, m, c1);
            var (_, m2, _) := TaskStep(b1, m1, d1);
            id < |m2.funds| && m2.funds[id].credits == m.funds[id].credits + [c.amount, d.amount]
  {
    DeliverySteps(b, m, id, c);
    DeliverySteps(b, m, id, d);
    var u := m.funds[id].user;
    var (b1, m1, _) := TaskStep(b, m, TopUpTask(c, Admitted(u, id)));
    GuardsProtectChecks(b1, u, Credit(d.amount), true);
    assert m.funds[id].credits + [c.amount] + [d.amount] == m.funds[id].credits + [c.amount, d.amount];
  }

  // ---------------------------------------------------------------------------------------------
  // The limit is attained

  /** A request for the largest amount that nothing outside stops. */
  function LargestRequest(u: User, ref: string): FundCall {
    FundCall(u, BankIs(u, true, true), MAX_TOP_UP, ref, true, true, Initiated, true)
  }

  function Opened(b: Book, m: Money, u: User, ref: string): Money {
    RunTask(b, m, FundTask(LargestRequest(u, ref), Asked)).1
  }

  lemma {:induction false} TodayPrefix(funds: seq<FundRow>, r: FundRow, u: User, now: int, n: nat)
    requires n <= |funds|
    ensures SumCompletedToday(funds + [r], u, now, n) == SumCompletedToday(funds, u, now, n)
  {
    if n > 0 {
      TodayPrefix(funds, r, u, now, n - 1);
    }
  }

  lemma OneMoreRequest(b: Book, m: Money, u: User, ref: string)
    requires SumCompletedToday(m.funds, u, m.now, |m.funds|) + MAX_TOP_UP <= DAILY_LIMIT
    requires !FundRefUsed(m.funds, ref)
    ensures var row := FundRow(u, ref, MAX_TOP_UP, FundPending, m.now, None, [], 0);
            Opened(b, m, u, ref) == m.(funds := m.funds + [row])
    ensures var m' := Opened(b, m, u, ref);
            SumCompletedToday(m'.funds, u, m'.now, |m'.funds|) == SumCompletedToday(m.funds, u, m.now, |m.funds|)
  {
    var c := LargestRequest(u, ref);
    var row := FundRow(u, ref, MAX_TOP_UP, FundPending, m.now, None, [], 0);
    var m' := m.(funds := m.funds + [row]);
    assert TaskStep(b, m, FundTask(c, Asked)) == (b, m, FundTask(c, Checked));
    assert TaskStep(b, m, FundTask(c, Checked)) == (b, m', FundTask(c, Created(|m.funds|)));
    assert m'.funds[|m.funds| := StatusWritten(row, FundPending, m.now)] == m'.funds;
    assert TaskStep(b, m', FundTask(c, Created(|m.funds|))) == (b, m', FundTask(c, FundOver(Waiting(ref))));
    assert RunTask(b, m', FundTask(c, Created(|m.funds|))) == (b, m', FundTask(c, FundOver(Waiting(ref))));
    assert RunTask(b, m, FundTask(c, Checked)) == RunTask(b, m', FundTask(c, Created(|m.funds|)));
    assert RunTask(b, m, FundTask(c, Asked)) == RunTask(b, m, FundTask(c, Checked));
    TodayPrefix(m.funds, row, u, m.now, |m.funds|);
  }

  function OpenAll(b: Book, m: Money, u: User, refs: seq<string>, n: nat): Money
    requires n <= |refs|
  {
    if n == 0 then m else Opened(b, OpenAll(b, m, u, refs, n - 1), u, refs[n - 1])
  }

  ghost predicate FreshRefs(m: Money, refs: seq<string>) {
    && (forall i :: 0 <= i < |refs| ==> !FundRefUsed(m.funds, refs[i]))
    && (forall i, j :: 0 <= i < j < |refs| ==> refs[i] != refs[j])
  }

  /** The rows after n requests: those of m, and one open request for each of the first n references. */
  ghost predicate OpenRows(m: Money, m': Money, u: User, refs: seq<string>, n: nat)
    requires n <= |refs|
  {
    && m' == m.(funds := m'.funds)
    && |m'.funds| == |m.funds| + n && m'.funds[..|m.funds|] == m.funds
    && forall i :: 0 <= i < n ==>
         m'.funds[|m.funds| + i] == FundRow(u, refs[i], MAX_TOP_UP, FundPending, m.now, None, [], 0)
  }

  /** Requests made one after the other all pass the check, however many: it looks at completed requests only. */
  lemma {:induction false} AllPass(b: Book, m: Money, u: User, refs: seq<string>, n: nat)
    requires n <= |refs| && FreshRefs(m, refs)
    requires SumCompletedToday(m.funds, u, m.now, |m.funds|) + MAX_TOP_UP <= DAILY_LIMIT
    ensures var m' := OpenAll(b, m, u, refs, n);
            && OpenRows(m, m', u, refs, n)
            && SumCompletedToday(m'.funds, u, m'.now, |m'.funds|) == SumCompletedToday(m.funds, u, m.now, |m.funds|)
  {
    if n > 0 {
      AllPass(b, m, u, refs, n - 1);
      var m1 := OpenAll(b, m, u, refs, n - 1);
      forall i | 0 <= i < |m1.funds|
        ensures m1.funds[i].ref != refs[n - 1]
      {
        if i < |m.funds| {
          assert m1.funds[i] == m1.funds[..|m.funds|][i] == m.funds[i];
        } else {
          assert m1.funds[|m.funds| + (i - |m.funds|)].ref == refs[i - |m.funds|];
        }
      }
      OneMoreRequest(b, m1, u, refs[n - 1]);
      var m' := OpenAll(b, m, u, refs, n);
      assert m'.funds[..|m.funds|] == m1.funds[..|m.funds|];
    }
  }

  /** Completed rows of u made now count in full. */
  lemma {:induction false} OpenAddUp(m: Money, m': Money, u: User, refs: seq<string>, n: nat)
    requires n <= |refs| && OpenRows(m, m', u, refs, |refs|)
    ensures TallyTo(m'.funds, Outstanding(u), |m.funds| + n) == Tally(m.funds, Outstanding(u)) + n * MAX_TOP_UP
    ensures TallyTo(m'.funds, OutstandingCount(u), |m.funds| + n) == Tally(m.funds, OutstandingCount(u)) + n
  {
    if n > 0 {
      OpenAddUp(m, m', u, refs, n - 1);
      assert m'.funds[|m.funds| + (n - 1)].ref == refs[n - 1];
    } else {
      forall i | 0 <= i < |m.funds|
        ensures m'.funds[i] == m.funds[i]
      {
        assert m'.funds[..|m.funds|][i] == m'.funds[i];
      }
      TallyPrefix(m'.funds, m.funds, Outstanding(u), |m.funds|);
      TallyPrefix(m'.funds, m.funds, OutstandingCount(u), |m.funds|);
    }
  }

  /**
   The rolling limit is attained for every k: with one largest top-up completed today and nothing else
   open, k largest requests one after the other all pass, and bring the exposure to exactly the limit.
   */
  lemma LimitIsAttained(b: Book, m: Money, u: User, refs: seq<string>)
    requires FreshRefs(m, refs)
    requires SumCompletedToday(m.funds, u, m.now, |m.funds|) == MAX_TOP_UP
    requires Tally(m.funds, Outstanding(u)) == 0 && Tally(m.funds, OutstandingCount(u)) == 0
    ensures var m' := OpenAll(b, m, u, refs, |refs|);
            InFlight(m', [], u) == |refs| && Exposure(m', [], u) == Limit(|refs|)
  {
    var m' := OpenAll(b, m, u, refs, |refs|);
    AllPass(b, m, u, refs, |refs|);
    OpenAddUp(m, m', u, refs, |refs|);
    TodayIsTally(m'.funds, u, m'.now, |m'.funds|);
  }

  /** A delivery of the largest amount that nothing outside stops. */
  function LargestDelivery(ref: string): Task {
    TopUpTask(TopUpCall(ref, MAX_TOP_UP, true, true, true, true), TopUpArrived)
  }

  /** Delivering the first n of the open requests. */
  function DeliverAll(b: Book, m: Money, refs: seq<string>, n: nat): (Book, Money)
    requires n <= |refs|
  {
    if n == 0 then (b, m)
    else
      var (b1, m1) := DeliverAll(b, m, refs, n - 1);
      var (b2, m2, _) := RunTask(b1, m1, LargestDelivery(refs[n - 1]));
      (b2, m2)
  }

  ghost predicate DeliverableRows(b: Book, m: Money, u: User, refs: seq<string>, from: nat, n: nat)
    requires n <= |refs|
  {
    && AllChecks(b) && u in b
    && |m.funds| == from + |refs|
    && (forall i, j :: 0 <= i < j < |m.funds| ==> m.funds[i].ref != m.funds[j].ref)
    && forall i :: n <= i < |refs| ==>
         m.funds[from + i] == FundRow(u, refs[i], MAX_TOP_UP, FundPending, m.now, None, [], 0)
  }

  lemma OneMoreCompletes(b: Book, m: Money, u: User, refs: seq<string>, from: nat, n: nat)
    requires 0 < n <= |refs| && DeliverableRows(b, m, u, refs, from, n - 1)
    ensures var (b', m', _) := RunTask(b, m, LargestDelivery(refs[n - 1]));
            && DeliverableRows(b', m', u, refs, from, n) && m'.now == m.now
            && Tally(m'.funds, Today(u, m.now)) == Tally(m.funds, Today(u, m.now)) + MAX_TOP_UP
  {
    var c := TopUpCall(refs[n - 1], MAX_TOP_UP, true, true, true, true);
    var id := from + (n - 1);
    DeliveryRuns(b, m, id, c);
    var (_, m', _) := RunTask(b, m, TopUpTask(c, TopUpArrived));
    assert m'.funds == m.funds[id := m'.funds[id]];
    TallyUpdate(m.funds, id, m'.funds[id], Today(u, m.now));
  }

  /** Every open request can still be completed, and then counts. */
  lemma {:induction false} AllComplete(b: Book, m: Money, u: User, refs: seq<string>, from: nat, n: nat)
    requires n <= |refs| && DeliverableRows(b, m, u, refs, from, 0)
    ensures var (b', m') := DeliverAll(b, m, refs, n);
            && DeliverableRows(b', m', u, refs, from, n) && m'.now == m.now
            && Tally(m'.funds, Today(u, m.now)) == Tally(m.funds, Today(u, m.now)) + n * MAX_TOP_UP
  {
    if n > 0 {
      AllComplete(b, m, u, refs, from, n - 1);
      var (b1, m1) := DeliverAll(b, m, refs, n - 1);
      OneMoreCompletes(b1, m1, u, refs, from, n);
    }
  }

  /**
   With k requests open at a time a user can complete 100,000,000 + (k - 1) * 50,000,000 kobo in one
   day, which is more than the daily limit as soon as k is two.
   */
  lemma DailyLimitIsPassed(b: Book, m: Money, u: User, refs: seq<string>)
    requires AllChecks(b) && u in b && FreshRefs(m, refs)
    requires forall i, j :: 0 <= i < j < |m.funds| ==> m.funds[i].ref != m.funds[j].ref
    requires SumCompletedToday(m.funds, u, m.now, |m.funds|) == MAX_TOP_UP
    ensures var m' := DeliverAll(b, OpenAll(b, m, u, refs, |refs|), refs, |refs|).1;
            SumCompletedToday(m'.funds, u, m'.now, |m'.funds|) == Limit(|refs|)
  {
    var m1 := OpenAll(b, m, u, refs, |refs|);
    AllPass(b, m, u, refs, |refs|);
    OpenRefsUnique(m, m1, u, refs);
    AllComplete(b, m1, u, refs, |m.funds|, |refs|);
    TodayIsTally(m1.funds, u, m1.now, |m1.funds|);
    var m' := DeliverAll(b, m1, refs, |refs|).1;
    TodayIsTally(m'.funds, u, m'.now, |m'.funds|);
  }

  lemma OpenRefsUnique(m: Money, m': Money, u: User, refs: seq<string>)
    requires FreshRefs(m, refs) && OpenRows(m, m', u, refs, |refs|)
    requires forall i, j :: 0 <= i < j < |m.funds| ==> m.funds[i].ref != m.funds[j].ref
    ensures forall i, j :: 0 <= i < j < |m'.funds| ==> m'.funds[i].ref != m'.funds[j].ref
  {
    forall i, j | 0 <= i < j < |m'.funds|
      ensures m'.funds[i].ref != m'.funds[j].ref
    {
      var n := |m.funds|;
      if i < n {
        assert m'.funds[i] == m'.funds[..n][i] == m.funds[i];
      } else {
        assert m'.funds[n + (i - n)].ref == refs[i - n];
      }
      if j < n {
        assert m'.funds[j] == m'.funds[..n][j] == m.funds[j];
      } else {
        assert m'.funds[n + (j - n)].ref == refs[j - n];
      }
    }
  }

  // ---------------------------------------------------------------------------------------------
  // Reopening passes the limit

  /** A largest request, and then its delivery. */
  function OneTopUp(b: Book, m: Money, u: User, ref: string): (Book, Money) {
    Delivered(b, Opened(b, m, u, ref), ref)
  }

  function Delivered(b: Book, m: Money, ref: string): (Book, Money) {
    var (b', m', _) := RunTask(b, m, LargestDelivery(ref));
    (b', m')
  }

  function TopUpRow(u: User, ref: string, now: int): FundRow {
    FundRow(u, ref, MAX_TOP_UP, FundCompleted, now, Some(now), [MAX_TOP_UP], 0)
  }

  lemma OneTopUpCompletes(b: Book, m: Money, u: User, ref: string)
    requires AllChecks(b) && u in b && !FundRefUsed(m.funds, ref)
    requires SumCompletedToday(m.funds, u, m.now, |m.funds|) + MAX_TOP_UP <= DAILY_LIMIT
    ensures var (b', m') := OneTopUp(b, m, u, ref);
            && AllChecks(b') && u in b'
            && m' == m.(funds := m.funds + [TopUpRow(u, ref, m.now)])
            && SumCompletedToday(m'.funds, u, m'.now, |m'.funds|)
               == SumCompletedToday(m.funds, u, m.now, |m.funds|) + MAX_TOP_UP
  {
    OneMoreRequest(b, m, u, ref);
    var m1 := Opened(b, m, u, ref);
    var id := |m.funds|;
    var c := TopUpCall(ref, MAX_TOP_UP, true, true, true, true);
    assert Deliverable(b, m1, id, c);
    DeliveryRuns(b, m1, id, c);
    var (_, m') := OneTopUp(b, m, u, ref);
    assert m'.funds[id].credits == [MAX_TOP_UP];
    assert m'.funds == m.funds + [TopUpRow(u, ref, m.now)];
    TodayPrefix(m.funds, TopUpRow(u, ref, m.now), u, m.now, id);
  }

  /** A largest request that has taken its first two steps: it has its row and waits for the provider. */
  function Stalled(b: Book, m: Money, u: User, ref: string): (Money, Task) {
    var (_, m1, k1) := TaskStep(b, m, FundTask(LargestRequest(u, ref), Asked));
    var (_, m2, k2) := TaskStep(b, m1, k1);
    (m2, k2)
  }

  /** It has left the table as a finished one does. */
  lemma StalledRequest(b: Book, m: Money, u: User, ref: string)
    requires SumCompletedToday(m.funds, u, m.now, |m.funds|) + MAX_TOP_UP <= DAILY_LIMIT && !FundRefUsed(m.funds, ref)
    ensures Stalled(b, m, u, ref) == (Opened(b, m, u, ref), FundTask(LargestRequest(u, ref), Created(|m.funds|)))
  {
    OneMoreRequest(b, m, u, ref);
  }

  function TwoTopUps(b: Book, m: Money, u: User, y: string, z: string): (Book, Money) {
    var (b1, m1) := OneTopUp(b, m, u, y);
    OneTopUp(b1, m1, u, z)
  }

  lemma FirstOfTwo(b: Book, m: Money, u: User, row: FundRow, y: string)
    requires AllChecks(b) && u in b && m.funds == [row] && row.createdAt <= m.now - DAY && row.ref != y
    ensures var (b', m') := OneTopUp(b, m, u, y);
            && AllChecks(b') && u in b'
            && m' == m.(funds := [row, TopUpRow(u, y, m.now)])
            && SumCompletedToday(m'.funds, u, m.now, 2) == MAX_TOP_UP
  {
    assert SumCompletedToday(m.funds, u, m.now, 1) == 0;
    OneTopUpCompletes(b, m, u, y);
  }

  lemma SecondOfTwo(b: Book, m: Money, u: User, row: FundRow, other: FundRow, z: string)
    requires AllChecks(b) && u in b && m.funds == [row, other] && row.ref != z && other.ref != z
    requires SumCompletedToday(m.funds, u, m.now, 2) == MAX_TOP_UP
    ensures var m' := OneTopUp(b, m, u, z).1;
            && m' == m.(funds := [row, other, TopUpRow(u, z, m.now)])
            && SumCompletedToday(m'.funds, u, m.now, 3) == DAILY_LIMIT
  {
    OneTopUpCompletes(b, m, u, z);
  }

  lemma TwoTopUpsComplete(b: Book, m: Money, u: User, row: FundRow, y: string, z: string)
    requires AllChecks(b) && u in b && m.funds == [row] && row.createdAt <= m.now - DAY
    requires row.ref != y && y != z && row.ref != z
    ensures var m' := TwoTopUps(b, m, u, y, z).1;
            && m' == m.(funds := [row, TopUpRow(u, y, m.now), TopUpRow(u, z, m.now)])
            && SumCompletedToday(m'.funds, u, m.now, 3) == DAILY_LIMIT
  {
    FirstOfTwo(b, m, u, row, y);
    var (b1, m1) := OneTopUp(b, m, u, y);
    SecondOfTwo(b1, m1, u, row, TopUpRow(u, y, m.now), z);
  }

  /** The delivery of that request, and a day later two more requests, each with its delivery. */
  function ThreeTopUps(b: Book, m: Money, u: User, x: string, y: string, z: string): (Book, Money) {
    var (b1, m1) := Delivered(b, m, x);
    TwoTopUps(b1, DayLater(m1), u, y, z)
  }

  function DayLater(m: Money): Money {
    m.(now := m.now + DAY)
  }

  ghost predicate ThreeRows(m: Money, m': Money, u: User, x: string, y: string, z: string) {
    var now := m.now + DAY;
    && m' == m.(now := now, funds := [TopUpRow(u, x, m.now), TopUpRow(u, y, now), TopUpRow(u, z, now)])
    && SumCompletedToday(m'.funds, u, now, 3) == DAILY_LIMIT
  }

  lemma FirstTopUp(b: Book, m: Money, u: User, x: string)
    requires AllChecks(b) && u in b && m.funds == []
    ensures var (b', m') := Delivered(b, Opened(b, m, u, x), x);
            AllChecks(b') && u in b' && m' == m.(funds := [TopUpRow(u, x, m.now)])
  {
    OneTopUpCompletes(b, m, u, x);
  }

  lemma ADayLater(b: Book, m: Money, m1: Money, u: User, x: string, y: string, z: string)
    requires AllChecks(b) && u in b && m1 == m.(funds := [TopUpRow(u, x, m.now)]) && x != y && y != z && x != z
    ensures ThreeRows(m, TwoTopUps(b, DayLater(m1), u, y, z).1, u, x, y, z)
  {
    TwoTopUpsComplete(b, DayLater(m1), u, TopUpRow(u, x, m.now), y, z);
  }

  lemma ThreeTopUpsComplete(b: Book, m: Money, u: User, x: string, y: string, z: string)
    requires AllChecks(b) && u in b && m.funds == [] && x != y && y != z && x != z
    ensures ThreeRows(m, ThreeTopUps(b, Opened(b, m, u, x), u, x, y, z).1, u, x, y, z)
  {
    FirstTopUp(b, m, u, x);
    var (b1, m1) := Delivered(b, Opened(b, m, u, x), x);
    ADayLater(b1, m, m1, u, x, y, z);
  }

  /** The last step: three completed requests, the first a day old, and its status write still to come. */
  lemma ReopeningStep(m: Money, u: User, x: string, y: string, z: string, created: int)
    requires created <= m.now - DAY
    requires m.funds == [TopUpRow(u, x, created), TopUpRow(u, y, m.now), TopUpRow(u, z, m.now)]
    requires SumCompletedToday(m.funds, u, m.now, 3) == DAILY_LIMIT
    ensures var k := FundTask(LargestRequest(u, x), Created(0));
            var (m', _) := FundStep(m, k.fund, k.fundAt);
            && ReopensOld(m, k)
            && InFlight(m, [], u) == 0 && Exposure(m, [], u) == Limit(1)
            && InFlight(m', [], u) == 1 && Exposure(m', [], u) == Limit(1) + MAX_TOP_UP
  {
    TodayIsTally(m.funds, u, m.now, 3);
    AllCompleted(m.funds, u, 3);
    var reopened := StatusWritten(m.funds[0], FundPending, m.now);
    TallyUpdate(m.funds, 0, reopened, Today(u, m.now));
    TallyUpdate(m.funds, 0, reopened, Outstanding(u));
    TallyUpdate(m.funds, 0, reopened, OutstandingCount(u));
  }

  /**
   A run in which a late status write passes the limit for one request at a time.  The first request is
   completed while its FundFromBank still waits for the provider; a day later two more are requested
   and completed; then the late write reopens the first one, one largest top-up above the limit.
   */
  lemma ReopeningPassesLimit(b: Book, m: Money, u: User, x: string, y: string, z: string)
    requires AllChecks(b) && u in b && m.funds == [] && x != y && y != z && x != z
    ensures var (m1, waiting) := Stalled(b, m, u, x);
            var (b2, m2) := ThreeTopUps(b, m1, u, x, y, z);
            var (_, m3, _) := TaskStep(b2, m2, waiting);
            && ReopensOld(m2, waiting)
            && InFlight(m2, [], u) == 0 && Exposure(m2, [], u) == Limit(1)
            && InFlight(m3, [], u) == 1 && Exposure(m3, [], u) == Limit(1) + MAX_TOP_UP
  {
    StalledRequest(b, m, u, x);
    ThreeTopUpsComplete(b, m, u, x, y, z);
    ReopeningStep(ThreeTopUps(b, Opened(b, m, u, x), u, x, y, z).1, u, x, y, z, m.now);
  }

  lemma {:induction false} AllCompleted(rows: seq<FundRow>, u: User, n: nat)
    requires n <= |rows| && forall i :: 0 <= i < |rows| ==> rows[i].status == FundCompleted
    ensures TallyTo(rows, Outstanding(u), n) == 0 && TallyTo(rows, OutstandingCount(u), n) == 0
  {
    if n > 0 {
      AllCompleted(rows, u, n - 1);
    }
  }
}
