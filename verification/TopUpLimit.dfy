/**
 How much a user can top up in a day.  A request counts for the day in which it was made, whatever
 becomes of it: completed, failed, or reopened by a late write.  This is what the check keeps bounded.
 */
module TopUpLimit {
  import opened Sums
  import opened Ledger
  import opened Transfer
  import opened MoneyIn
  import opened MoneyLaws
  import opened Engine

  // ---------------------------------------------------------------------------------------------
  // What was requested in the last 24 hours

  predicate Recent(r: FundRow, u: User, now: int) {
    r.user == u && r.createdAt > now - DAY
  }

  ghost function RecentAmount(u: User, now: int): FundRow -> int {
    (r: FundRow) => if Recent(r, u, now) then r.amount else 0
  }

  /** The part of it that is not completed. */
  ghost function RecentOpen(u: User, now: int): FundRow -> int {
    (r: FundRow) => if Recent(r, u, now) && r.status != FundCompleted then r.amount else 0
  }

  ghost function RecentOpenCount(u: User, now: int): FundRow -> int {
    (r: FundRow) => if Recent(r, u, now) && r.status != FundCompleted then 1 else 0
  }

  /** Everything u has requested in the last 24 hours, with what has passed the check and has no row yet. */
  ghost function RequestedToday(m: Money, tasks: seq<Task>, u: User): int {
    Tally(m.funds, RecentAmount(u, m.now)) + Tally(tasks, Reserved(u))
  }

  /** How many of these requests are not completed. */
  ghost function Pending(m: Money, tasks: seq<Task>, u: User): int {
    Tally(m.funds, RecentOpenCount(u, m.now)) + Tally(tasks, ReservedCount(u))
  }

  /** Every pending request is in flight; one older than a day is in flight only. */
  lemma PendingIsInFlight(m: Money, tasks: seq<Task>, u: User)
    ensures Pending(m, tasks, u) <= InFlight(m, tasks, u)
  {
    TallyBound(m.funds, RecentOpenCount(u, m.now), OutstandingCount(u), 1, |m.funds|);
  }

  /** Completed today and pending make up what was requested; pending requests are at most the maximum each. */
  lemma RequestedSplits(m: Money, tasks: seq<Task>, u: User)
    requires MoneyOk(m, tasks)
    ensures RequestedToday(m, tasks, u)
            <= SumCompletedToday(m.funds, u, m.now, |m.funds|) + MAX_TOP_UP * Pending(m, tasks, u)
    ensures SumCompletedToday(m.funds, u, m.now, |m.funds|) <= RequestedToday(m, tasks, u)
  {
    forall i | 0 <= i < |m.funds|
      ensures 0 <= RecentOpen(u, m.now)(m.funds[i]) <= MAX_TOP_UP * RecentOpenCount(u, m.now)(m.funds[i])
    {
      assert Tied(m.funds[i], Tally(tasks, AboutToMark(i)));
    }
    forall i | 0 <= i < |tasks|
      ensures 0 <= Reserved(u)(tasks[i]) <= MAX_TOP_UP * ReservedCount(u)(tasks[i])
    {
      assert InPlace(m, tasks[i]);
    }
    TodayIsTally(m.funds, u, m.now, |m.funds|);
    TallyAdd(m.funds, Today(u, m.now), RecentOpen(u, m.now), RecentAmount(u, m.now), |m.funds|);
    TallyBound(m.funds, RecentOpen(u, m.now), RecentOpenCount(u, m.now), MAX_TOP_UP, |m.funds|);
    TallyBound(tasks, Reserved(u), ReservedCount(u), MAX_TOP_UP, |tasks|);
    TallyAtLeast(m.funds, RecentOpen(u, m.now), 0, |m.funds|);
    TallyAtLeast(tasks, Reserved(u), 0, |tasks|);
  }

  // ---------------------------------------------------------------------------------------------
  // No step passes the limit

  /** Steps that make no row and pass no check: no status matters, so nothing is added. */
  lemma NothingRequested(m: Money, m': Money, tasks: seq<Task>, i: nat, k': Task, u: User)
    requires MoneyOk(m, tasks) && i < |tasks| && Reserved(u)(k') == 0
    requires Grows(m, m') && |m'.funds| == |m.funds| && m'.now == m.now
    ensures RequestedToday(m', tasks[i := k'], u) <= RequestedToday(m, tasks, u)
  {
    assert InPlace(m, tasks[i]);
    TallyUpdate(tasks, i, k', Reserved(u));
    TallyAlike(m.funds, m'.funds, RecentAmount(u, m.now), |m.funds|);
  }

  /** The check leaves room for its own amount beside what is completed and what others have pending. */
  lemma CheckingKeepsDay(m: Money, tasks: seq<Task>, i: nat, c: FundCall, u: User, k: nat)
    requires MoneyOk(m, tasks) && i < |tasks| && tasks[i] == FundTask(c, Asked) && CheckFund(m, c) == Checked
    requires Pending(m, tasks[i := FundTask(c, Checked)], u) <= k
    ensures RequestedToday(m, tasks[i := FundTask(c, Checked)], u) <= Max(Limit(k), RequestedToday(m, tasks, u))
  {
    var k' := FundTask(c, Checked);
    TallyUpdate(tasks, i, k', Reserved(u));
    TallyUpdate(tasks, i, k', ReservedCount(u));
    if c.user == u {
      RequestedSplits(m, tasks, u);
      assert MAX_TOP_UP * Pending(m, tasks, u) <= MAX_TOP_UP * (k - 1);
    }
  }

  lemma CreatingKeepsDay(m: Money, tasks: seq<Task>, i: nat, c: FundCall, u: User)
    requires MoneyOk(m, tasks) && i < |tasks| && tasks[i] == FundTask(c, Checked)
    ensures var (m', at') := FundStep(m, c, Checked);
            RequestedToday(m', tasks[i := FundTask(c, at')], u) <= RequestedToday(m, tasks, u)
  {
    var (m', at') := FundStep(m, c, Checked);
    var k' := FundTask(c, at');
    if at'.Created? {
      var row := m'.funds[|m.funds|];
      assert m'.funds == m.funds + [row];
      TallyUpdate(tasks, i, k', Reserved(u));
      TallySnoc(m.funds, row, RecentAmount(u, m.now));
    } else {
      NothingRequested(m, m', tasks, i, k', u);
    }
  }

  /** Whichever task moves, late status writes included. */
  lemma StepKeepsDay(b: Book, m: Money, tasks: seq<Task>, i: nat, u: User, k: nat)
    requires MoneyOk(m, tasks) && i < |tasks| && RequestedToday(m, tasks, u) <= Limit(k)
    requires var (_, m', k') := TaskStep(b, m, tasks[i]); Pending(m', tasks[i := k'], u) <= k
    ensures var (_, m', k') := TaskStep(b, m, tasks[i]); RequestedToday(m', tasks[i := k'], u) <= Limit(k)
  {
    var (_, m', k') := TaskStep(b, m, tasks[i]);
    StepGrows(b, m, tasks[i]);
    match tasks[i]
    case DepositTask(_, _) => NothingRequested(m, m', tasks, i, k', u);
    case TopUpTask(_, _) => NothingRequested(m, m', tasks, i, k', u);
    case FundTask(c, at) =>
      if at.Checked? {
        CreatingKeepsDay(m, tasks, i, c, u);
      } else if at.Asked? && k'.fundAt.Checked? {
        CheckingKeepsDay(m, tasks, i, c, u, k);
      } else {
        NothingRequested(m, m', tasks, i, k', u);
      }
  }

  lemma StartKeepsDay(m: Money, tasks: seq<Task>, k: Task, u: User)
    requires Unstarted(k)
    ensures RequestedToday(m, tasks + [k], u) == RequestedToday(m, tasks, u)
  {
    TallySnoc(tasks, k, Reserved(u));
  }

  /** As time passes, requests only leave the window. */
  lemma TickKeepsDay(m: Money, tasks: seq<Task>, u: User, dt: nat)
    requires MoneyOk(m, tasks)
    ensures RequestedToday(m.(now := m.now + dt), tasks, u) <= RequestedToday(m, tasks, u)
  {
    forall i | 0 <= i < |m.funds|
      ensures RecentAmount(u, m.now + dt)(m.funds[i]) <= 1 * RecentAmount(u, m.now)(m.funds[i])
    {
      assert Tied(m.funds[i], Tally(tasks, AboutToMark(i)));
    }
    TallyBound(m.funds, RecentAmount(u, m.now + dt), RecentAmount(u, m.now), 1, |m.funds|);
  }

  // ---------------------------------------------------------------------------------------------
  // The limit for a day, in every interleaving

  ghost predicate FewPending(s0: System, es: seq<Event>, n: nat, u: User, k: nat)
    requires n <= |es|
  {
    Pending(After(s0, es, n).m, After(s0, es, n).tasks, u) <= k
  }

  /** At any time at most k of the requests of the last 24 hours are not completed. */
  ghost predicate AlwaysFewPending(s0: System, es: seq<Event>, u: User, k: nat) {
    forall n: nat {:trigger FewPending(s0, es, n, u, k)} :: n <= |es| ==> FewPending(s0, es, n, u, k)
  }

  ghost predicate WithinDay(s: System, u: User, k: nat) {
    RequestedToday(s.m, s.tasks, u) <= Limit(k)
  }

  lemma EventKeepsDay(s0: System, s: System, e: Event, s': System, u: User, k: nat)
    requires Inv(s0, s) && WithinDay(s, u, k)
    requires s' == Apply(s, e) && Pending(s'.m, s'.tasks, u) <= k
    ensures WithinDay(s', u, k)
  {
    match e
    case BeginTransfer(_, _, _) =>
    case StepTransfer(_) =>
    case BeginTask(task) =>
      if Unstarted(task) {
        StartKeepsDay(s.m, s.tasks, task, u);
      }
    case StepTask(i) =>
      if i < |s.tasks| {
        StepKeepsDay(s.t.book, s.m, s.tasks, i, u, k);
      }
    case Tick(dt) => TickKeepsDay(s.m, s.tasks, u, dt);
  }

  /**
   The rolling limit.  With at most k pending requests at a time, everything u has requested in the last
   24 hours, completed or not, stays within 100,000,000 + (k - 1) * 50,000,000 kobo: at every moment of
   every interleaving, with late status writes, repeated deliveries and failures of any statement.
   */
  lemma {:induction false} RollingLimit(s0: System, es: seq<Event>, u: User, k: nat, n: nat)
    requires Start(s0) && n <= |es| && AlwaysFewPending(s0, es, u, k) && WithinDay(s0, u, k)
    ensures WithinDay(After(s0, es, n), u, k)
  {
    if n > 0 {
      RollingLimit(s0, es, u, k, n - 1);
      AlwaysInv(s0, es, n - 1);
      var s, s' := After(s0, es, n - 1), After(s0, es, n);
      assert s' == Apply(s, es[n - 1]);
      assert FewPending(s0, es, n, u, k);
      EventKeepsDay(s0, s, es[n - 1], s', u, k);
    }
  }

  /**
   The daily limit.  What u completed in the last 24 hours stays within the limit for k, and with one
   request at a time within the daily limit itself.
   */
  lemma DailyLimit(s0: System, es: seq<Event>, u: User, k: nat, n: nat)
    requires Start(s0) && n <= |es| && AlwaysFewPending(s0, es, u, k) && WithinDay(s0, u, k)
    ensures var m := After(s0, es, n).m;
            var sum := SumCompletedToday(m.funds, u, m.now, |m.funds|);
            sum <= Limit(k) && (k == 1 ==> sum <= DAILY_LIMIT)
  {
    RollingLimit(s0, es, u, k, n);
    AlwaysInv(s0, es, n);
    RequestedSplits(After(s0, es, n).m, After(s0, es, n).tasks, u);
  }

  // ---------------------------------------------------------------------------------------------
  // A remark on requests older than a day

  /** What the event reopens of u's. */
  function ReopenedBy(s: System, e: Event, u: User): nat {
    if e.StepTask? && e.i < |s.tasks| then Reopening(s.m, s.tasks[e.i], u) else 0
  }

  /** What the first n events reopened: requests completed more than a day before a late status write hit them. */
  function Reopened(s0: System, es: seq<Event>, u: User, n: nat): nat
    requires n <= |es|
  {
    if n == 0 then 0 else Reopened(s0, es, u, n - 1) + ReopenedBy(After(s0, es, n - 1), es[n - 1], u)
  }

  /** After n events at most k requests of u are not completed. */
  ghost predicate FewInFlight(s0: System, es: seq<Event>, n: nat, u: User, k: nat)
    requires n <= |es|
  {
    InFlight(After(s0, es, n).m, After(s0, es, n).tasks, u) <= k
  }

  ghost predicate AlwaysFewInFlight(s0: System, es: seq<Event>, u: User, k: nat) {
    forall n: nat {:trigger FewInFlight(s0, es, n, u, k)} :: n <= |es| ==> FewInFlight(s0, es, n, u, k)
  }

  ghost predicate WithinExposure(s: System, u: User, k: nat, slack: nat) {
    Exposure(s.m, s.tasks, u) <= Limit(k) + slack
  }

  lemma EventKeepsExposure(s0: System, s: System, e: Event, s': System, u: User, k: nat, slack: nat)
    requires Inv(s0, s) && WithinExposure(s, u, k, slack)
    requires s' == Apply(s, e) && InFlight(s'.m, s'.tasks, u) <= k
    ensures WithinExposure(s', u, k, slack + ReopenedBy(s, e, u))
  {
    match e
    case BeginTransfer(_, _, _) =>
    case StepTransfer(_) =>
    case BeginTask(task) =>
      if Unstarted(task) {
        StartKeepsLimit(s.m, s.tasks, task, u);
      }
    case StepTask(i) =>
      if i < |s.tasks| {
        StepKeepsLimit(s.t.book, s.m, s.tasks, i, u, k, slack);
      }
    case Tick(dt) => TickKeepsLimit(s.m, s.tasks, u, dt);
  }

  /**
   With at most k requests uncompleted at a time, what u completed in the last 24 hours together with
   all that is uncompleted, however old, stays within the limit for k plus what late writes reopened.
   */
  lemma {:induction false} ExposureLimit(s0: System, es: seq<Event>, u: User, k: nat, n: nat)
    requires Start(s0) && n <= |es| && AlwaysFewInFlight(s0, es, u, k)
    requires WithinExposure(s0, u, k, 0)
    ensures WithinExposure(After(s0, es, n), u, k, Reopened(s0, es, u, n))
  {
    if n > 0 {
      ExposureLimit(s0, es, u, k, n - 1);
      AlwaysInv(s0, es, n - 1);
      var s, s' := After(s0, es, n - 1), After(s0, es, n);
      assert s' == Apply(s, es[n - 1]);
      assert FewInFlight(s0, es, n, u, k);
      EventKeepsExposure(s0, s, es[n - 1], s', u, k, Reopened(s0, es, u, n - 1));
    }
  }

  /** Every FundFromBank that has its row and still waits made that row less than a day ago. */
  ghost predicate Prompt(s: System) {
    forall i :: 0 <= i < |s.tasks| && s.tasks[i].FundTask? && s.tasks[i].fundAt.Created? ==>
      s.tasks[i].fundAt.id < |s.m.funds| && s.m.funds[s.tasks[i].fundAt.id].createdAt > s.m.now - DAY
  }

  ghost predicate PromptAt(s0: System, es: seq<Event>, n: nat)
    requires n <= |es|
  {
    Prompt(After(s0, es, n))
  }

  /** While no call takes a day, late writes reopen nothing that has left the window. */
  lemma {:induction false} PromptReopensNothing(s0: System, es: seq<Event>, u: User, n: nat)
    requires n <= |es|
    requires forall i: nat {:trigger PromptAt(s0, es, i)} :: i <= |es| ==> PromptAt(s0, es, i)
    ensures Reopened(s0, es, u, n) == 0
  {
    if n > 0 {
      PromptReopensNothing(s0, es, u, n - 1);
      assert PromptAt(s0, es, n - 1);
      PromptStep(After(s0, es, n - 1), es[n - 1], u);
    }
  }

  lemma PromptStep(s: System, e: Event, u: User)
    requires Prompt(s)
    ensures ReopenedBy(s, e, u) == 0
  {
  }

  /** And then the limit holds for all that is uncompleted, however old. */
  lemma PromptExposureLimit(s0: System, es: seq<Event>, u: User, k: nat, n: nat)
    requires Start(s0) && n <= |es| && AlwaysFewInFlight(s0, es, u, k) && WithinExposure(s0, u, k, 0)
    requires forall i: nat {:trigger PromptAt(s0, es, i)} :: i <= |es| ==> PromptAt(s0, es, i)
    ensures WithinExposure(After(s0, es, n), u, k, 0)
  {
    ExposureLimit(s0, es, u, k, n);
    PromptReopensNothing(s0, es, u, n);
  }
}
