/**
 internal/service/auth_service.go and user_repo.go: lockout over a shared log of PIN attempts.

 A call first counts the recent failures, then compares the PIN, then records the attempt; between the
 two statements time passes and other calls may do theirs.  The comparison is an oracle.
 */
module PinLockout {
  import opened Sums
  import opened Ledger

  /** A row of pin_attempts; an empty address is stored as NULL. */
  datatype Attempt = Attempt(user: User, success: bool, at: int, ip: Option<string>)

  /** Configuration: MaxPINAttempts, and PINLockoutMins in clock ticks. */
  datatype Config = Config(max: int, lockout: nat)

  /**
   Login and VerifyPIN differ in how they find the user only.  `found` is None if the lookup fails,
   Some(None) for an unknown user; `userRead` and `ipRead` say whether the two counts get through.
   */
  datatype PinCall = PinCall(found: Option<Option<User>>, userRead: bool, ipRead: bool, correct: bool, record: bool)

  datatype PinResult = LookupError | UserNotFound | CountError | PinLocked | InvalidPin | PinAccepted

  datatype PinPoint = PinAsked | Comparing(user: User) | PinOver(result: PinResult)

  datatype PinTask = PinTask(call: PinCall, at: PinPoint)

  datatype PinSystem = PinSystem(log: seq<Attempt>, now: int, tasks: seq<PinTask>)

  datatype PinEvent = PinArrives(call: PinCall) | PinStep(i: nat) | PinTick(dt: nat)

  // ---------------------------------------------------------------------------------------------
  // The program

  /** RecentFailedPINAttempts: failures of u later than `lockout` ago. */
  function RecentFailed(log: seq<Attempt>, u: User, now: int, lockout: nat, n: nat): nat
    requires n <= |log|
  {
    if n == 0 then 0
    else
      var a := log[n - 1];
      RecentFailed(log, u, now, lockout, n - 1) + (if a.user == u && !a.success && a.at > now - lockout then 1 else 0)
  }

  /** getIP: the address that every caller passes. */
  const OWN_ADDRESS: string := []

  function Stored(ip: string): Option<string> {
    if ip == [] then None else Some(ip)
  }

  /** RecentFailedPINAttemptsByIP: nothing for the empty address, otherwise the failures that came from it. */
  function RecentFailedByIp(log: seq<Attempt>, ip: string, now: int, lockout: nat, n: nat): nat
    requires n <= |log|
  {
    if ip == [] || n == 0 then 0
    else
      var a := log[n - 1];
      RecentFailedByIp(log, ip, now, lockout, n - 1)
      + (if a.ip == Some(ip) && !a.success && a.at > now - lockout then 1 else 0)
  }

  function Admit(cfg: Config, log: seq<Attempt>, now: int, c: PinCall): PinPoint {
    match c.found
    case None => PinOver(LookupError)
    case Some(None) => PinOver(UserNotFound)
    case Some(Some(u)) =>
      if !c.userRead then PinOver(CountError)
      else if RecentFailed(log, u, now, cfg.lockout, |log|) >= cfg.max then PinOver(PinLocked)
      else if !c.ipRead then PinOver(CountError)
      else if RecentFailedByIp(log, OWN_ADDRESS, now, cfg.lockout, |log|) >= cfg.max * 3 then PinOver(PinLocked)
      else Comparing(u)
  }

  /** The attempt is recorded whatever came out; nobody looks whether that worked. */
  function Recording(log: seq<Attempt>, u: User, now: int, c: PinCall): seq<Attempt> {
    if c.record then log + [Attempt(u, c.correct, now, Stored(OWN_ADDRESS))] else log
  }

  function PinTaskStep(cfg: Config, log: seq<Attempt>, now: int, k: PinTask): (seq<Attempt>, PinTask) {
    match k.at
    case PinAsked => (log, k.(at := Admit(cfg, log, now, k.call)))
    case Comparing(u) =>
      (Recording(log, u, now, k.call), k.(at := PinOver(if k.call.correct then PinAccepted else InvalidPin)))
    case PinOver(_) => (log, k)
  }

  function PinApply(cfg: Config, s: PinSystem, e: PinEvent): PinSystem {
    match e
    case PinArrives(c) => s.(tasks := s.tasks + [PinTask(c, PinAsked)])
    case PinStep(i) =>
      if i < |s.tasks| then
        var (log', k') := PinTaskStep(cfg, s.log, s.now, s.tasks[i]);
        s.(log := log', tasks := s.tasks[i := k'])
      else s
    case PinTick(dt) => s.(now := s.now + dt)
  }

  function PinAfter(cfg: Config, s: PinSystem, es: seq<PinEvent>, n: nat): PinSystem
    requires n <= |es|
  {
    if n == 0 then s else PinApply(cfg, PinAfter(cfg, s, es, n - 1), es[n - 1])
  }

  /** The call alone, with `think` ticks between its count and its record. */
  function PinAlone(cfg: Config, log: seq<Attempt>, now: int, c: PinCall, think: nat): (seq<Attempt>, PinResult) {
    var (log1, k1) := PinTaskStep(cfg, log, now, PinTask(c, PinAsked));
    var (log2, k2) := PinTaskStep(cfg, log1, now + think, k1);
    (log2, if k2.at.PinOver? then k2.at.result else LookupError)
  }

  class UserRepo {
    var log: seq<Attempt>

    constructor ()
      ensures log == []
    {
      log := [];
    }

    method RecordPINAttempt(u: User, success: bool, ip: string, now: int, up: bool) returns (ok: bool)
      modifies this
      ensures ok == up
      ensures log == if up then old(log) + [Attempt(u, success, now, if ip == [] then None else Some(ip))] else old(log)
    {
      if up {
        log := log + [Attempt(u, success, now, Stored(ip))];
      }
      return up;
    }

    method RecentFailedPINAttempts(u: User, now: int, lockout: nat) returns (count: nat)
      ensures count == RecentFailed(log, u, now, lockout, |log|)
    {
      count := 0;
      for i := 0 to |log|
        invariant count == RecentFailed(log, u, now, lockout, i)
      {
        var a := log[i];
        if a.user == u && !a.success && a.at > now - lockout {
          count := count + 1;
        }
      }
    }

    method RecentFailedPINAttemptsByIP(ip: string, now: int, lockout: nat) returns (count: nat)
      ensures count == RecentFailedByIp(log, ip, now, lockout, |log|)
    {
      if ip == [] {
        return 0;
      }
      count := 0;
      for i := 0 to |log|
        invariant count == RecentFailedByIp(log, ip, now, lockout, i)
      {
        var a := log[i];
        if a.ip == Some(ip) && !a.success && a.at > now - lockout {
          count := count + 1;
        }
      }
    }
  }

  class AuthService {
    const users: UserRepo
    const cfg: Config

    constructor (users: UserRepo, cfg: Config)
      ensures this.users == users && this.cfg == cfg
    {
      this.users, this.cfg := users, cfg;
    }

    /** The lockout half of Login and of VerifyPIN. */
    method CheckPin(c: PinCall, now: int, think: nat) returns (r: PinResult)
      modifies users
      ensures (users.log, r) == PinAlone(cfg, old(users.log), now, c, think)
    {
      if c.found.None? {
        return LookupError;
      }
      if c.found.value.None? {
        return UserNotFound;
      }
      var u := c.found.value.value;
      if !c.userRead {
        return CountError;
      }
      var failed := users.RecentFailedPINAttempts(u, now, cfg.lockout);
      if failed >= cfg.max {
        return PinLocked;
      }
      if !c.ipRead {
        return CountError;
      }
      var ipFailed := users.RecentFailedPINAttemptsByIP(OWN_ADDRESS, now, cfg.lockout);
      if ipFailed >= cfg.max * 3 {
        return PinLocked;
      }
      if !c.correct {
        var recorded := users.RecordPINAttempt(u, false, OWN_ADDRESS, now + think, c.record);
        return InvalidPin;
      }
      var recorded := users.RecordPINAttempt(u, true, OWN_ADDRESS, now + think, c.record);
      return PinAccepted;
    }
  }

  // ---------------------------------------------------------------------------------------------
  // The window

  /** The failures of u recorded in the window that ends at t. */
  function FailedIn(log: seq<Attempt>, u: User, t: int, lockout: nat, n: nat): nat
    requires n <= |log|
  {
    if n == 0 then 0
    else
      var a := log[n - 1];
      FailedIn(log, u, t, lockout, n - 1) + (if a.user == u && !a.success && t - lockout < a.at <= t then 1 else 0)
  }

  /** Calls that have been let through and have yet to record their attempt. */
  ghost function ComparingFor(u: User): PinTask -> int {
    (k: PinTask) => if k.at.Comparing? && k.at.user == u then 1 else 0
  }

  ghost predicate PastOnly(s: PinSystem) {
    forall i :: 0 <= i < |s.log| ==> s.log[i].at <= s.now
  }

  lemma {:induction false} SameCount(s: PinSystem, u: User, lockout: nat, n: nat)
    requires PastOnly(s) && n <= |s.log|
    ensures FailedIn(s.log, u, s.now, lockout, n) == RecentFailed(s.log, u, s.now, lockout, n)
  {
    if n > 0 {
      SameCount(s, u, lockout, n - 1);
    }
  }

  /** The window only empties as time goes by without records. */
  lemma {:induction false} WindowEmpties(log: seq<Attempt>, u: User, now: int, t: int, lockout: nat, n: nat)
    requires n <= |log| && now <= t && forall i :: 0 <= i < |log| ==> log[i].at <= now
    ensures FailedIn(log, u, t, lockout, n) <= FailedIn(log, u, now, lockout, n)
  {
    if n > 0 {
      WindowEmpties(log, u, now, t, lockout, n - 1);
    }
  }

  lemma {:induction false} FailedPrefix(log: seq<Attempt>, a: Attempt, u: User, t: int, lockout: nat, n: nat)
    requires n <= |log|
    ensures FailedIn(log + [a], u, t, lockout, n) == FailedIn(log, u, t, lockout, n)
  {
    if n > 0 {
      FailedPrefix(log, a, u, t, lockout, n - 1);
    }
  }

  /** In every window up to now at most `bound` failures, and now with room for the calls that are still comparing. */
  ghost predicate Bounded(s: PinSystem, u: User, lockout: nat, bound: int) {
    && PastOnly(s)
    && (forall t :: FailedIn(s.log, u, t, lockout, |s.log|) <= bound)
    && FailedIn(s.log, u, s.now, lockout, |s.log|) + Tally(s.tasks, ComparingFor(u)) <= bound
  }

  lemma AdmittingBounded(cfg: Config, s: PinSystem, i: nat, u: User, k: nat)
    requires i < |s.tasks| && s.tasks[i].at.PinAsked? && Bounded(s, u, cfg.lockout, cfg.max - 1 + k)
    requires Tally(PinApply(cfg, s, PinStep(i)).tasks, ComparingFor(u)) <= k
    ensures Bounded(PinApply(cfg, s, PinStep(i)), u, cfg.lockout, cfg.max - 1 + k)
  {
    SameCount(s, u, cfg.lockout, |s.log|);
    TallyUpdate(s.tasks, i, PinTaskStep(cfg, s.log, s.now, s.tasks[i]).1, ComparingFor(u));
  }

  lemma RecordingBounded(cfg: Config, s: PinSystem, i: nat, u: User, bound: int)
    requires i < |s.tasks| && s.tasks[i].at.Comparing? && Bounded(s, u, cfg.lockout, bound)
    ensures Bounded(PinApply(cfg, s, PinStep(i)), u, cfg.lockout, bound)
  {
    var k := s.tasks[i];
    var s' := PinApply(cfg, s, PinStep(i));
    TallyUpdate(s.tasks, i, s'.tasks[i], ComparingFor(u));
    TallyIsNat(s'.tasks, u);
    if k.call.record {
      var a := Attempt(k.at.user, k.call.correct, s.now, Stored(OWN_ADDRESS));
      forall t
        ensures FailedIn(s'.log, u, t, cfg.lockout, |s'.log|) <= bound
      {
        FailedPrefix(s.log, a, u, t, cfg.lockout, |s.log|);
        if t >= s.now {
          WindowEmpties(s.log, u, s.now, t, cfg.lockout, |s.log|);
        }
      }
      FailedPrefix(s.log, a, u, s.now, cfg.lockout, |s.log|);
    }
  }

  lemma TallyIsNat(tasks: seq<PinTask>, u: User)
    ensures 0 <= Tally(tasks, ComparingFor(u))
  {
    TallyAtLeast(tasks, ComparingFor(u), 0, |tasks|);
  }

  lemma PinEventBounded(cfg: Config, s: PinSystem, e: PinEvent, s': PinSystem, u: User, k: nat)
    requires Bounded(s, u, cfg.lockout, cfg.max - 1 + k) && s' == PinApply(cfg, s, e)
    requires Tally(s'.tasks, ComparingFor(u)) <= k
    ensures Bounded(s', u, cfg.lockout, cfg.max - 1 + k)
  {
    match e
    case PinArrives(c) => TallySnoc(s.tasks, PinTask(c, PinAsked), ComparingFor(u));
    case PinStep(i) =>
      if i < |s.tasks| {
        match s.tasks[i].at
        case PinAsked => AdmittingBounded(cfg, s, i, u, k);
        case Comparing(_) => RecordingBounded(cfg, s, i, u, cfg.max - 1 + k);
        case PinOver(_) => assert s.tasks[i := s.tasks[i]] == s.tasks;
      }
    case PinTick(dt) => WindowEmpties(s.log, u, s.now, s.now + dt, cfg.lockout, |s.log|);
  }

  ghost predicate FewComparing(cfg: Config, s0: PinSystem, es: seq<PinEvent>, n: nat, u: User, k: nat)
    requires n <= |es|
  {
    Tally(PinAfter(cfg, s0, es, n).tasks, ComparingFor(u)) <= k
  }

  /**
   The sliding window.  However calls overlap, if at most k of a user's calls are between check and
   record at a time, no window of the lockout length ever holds more than max - 1 + k failures of that user;
   one call at a time gives the configured maximum.
   */
  lemma {:induction false} LockoutWindow(cfg: Config, s0: PinSystem, es: seq<PinEvent>, u: User, k: nat, n: nat)
    requires Bounded(s0, u, cfg.lockout, cfg.max - 1 + k) && n <= |es|
    requires forall i: nat {:trigger FewComparing(cfg, s0, es, i, u, k)} :: i <= |es| ==> FewComparing(cfg, s0, es, i, u, k)
    ensures Bounded(PinAfter(cfg, s0, es, n), u, cfg.lockout, cfg.max - 1 + k)
  {
    if n > 0 {
      LockoutWindow(cfg, s0, es, u, k, n - 1);
      assert FewComparing(cfg, s0, es, n, u, k);
      PinEventBounded(cfg, PinAfter(cfg, s0, es, n - 1), es[n - 1], PinAfter(cfg, s0, es, n), u, k);
    }
  }

  /** The first n of the calls record, after all of them were let through. */
  function RecordAll(log: seq<Attempt>, u: User, now: int, calls: seq<PinCall>, n: nat): seq<Attempt>
    requires n <= |calls|
  {
    if n == 0 then log else Recording(RecordAll(log, u, now, calls, n - 1), u, now, calls[n - 1])
  }

  /** A call for u with a wrong PIN that nothing outside stops. */
  predicate WrongPin(c: PinCall, u: User) {
    c.found == Some(Some(u)) && c.userRead && c.ipRead && !c.correct && c.record
  }

  /**
   The bound for overlapping calls is attained for every k: one failure short of the maximum, k wrong
   PINs that are counted before any is recorded are all let through, and make max - 1 + k failures.
   */
  lemma {:induction false} OverlapAttainsBound(cfg: Config, log: seq<Attempt>, u: User, now: int,
                                               calls: seq<PinCall>, k: nat)
    requires 1 <= cfg.max && 0 < cfg.lockout && RecentFailed(log, u, now, cfg.lockout, |log|) == cfg.max - 1
    requires k <= |calls| && forall i :: 0 <= i < |calls| ==> WrongPin(calls[i], u)
    ensures forall i :: 0 <= i < k ==> Admit(cfg, log, now, calls[i]) == Comparing(u)
    ensures var log' := RecordAll(log, u, now, calls, k);
            RecentFailed(log', u, now, cfg.lockout, |log'|) == cfg.max - 1 + k
  {
    if k > 0 {
      OverlapAttainsBound(cfg, log, u, now, calls, k - 1);
      var before := RecordAll(log, u, now, calls, k - 1);
      assert WrongPin(calls[k - 1], u);
      RecentPrefix(before, Attempt(u, false, now, Stored(OWN_ADDRESS)), u, now, cfg.lockout, |before|);
    }
  }

  // ---------------------------------------------------------------------------------------------
  // Locks

  /** A call that is locked out, or does not get to the comparison for any other reason, records nothing. */
  lemma LockedRecordsNothing(cfg: Config, log: seq<Attempt>, now: int, c: PinCall, think: nat)
    ensures var (log', r) := PinAlone(cfg, log, now, c, think);
            && (r == PinLocked ==> log' == log)
            && (log' != log ==>
                  && (r == PinAccepted || r == InvalidPin)
                  && log' == log + [Attempt(c.found.value.value, r == PinAccepted, now + think, None)])
  {
  }

  lemma {:induction false} NothingRecent(log: seq<Attempt>, u: User, now: int, lockout: nat, n: nat)
    requires n <= |log|
    requires forall i :: 0 <= i < n && log[i].user == u && !log[i].success ==> log[i].at <= now - lockout
    ensures RecentFailed(log, u, now, lockout, n) == 0
  {
    if n > 0 {
      NothingRecent(log, u, now, lockout, n - 1);
    }
  }

  /** Every lock ends: once the last failure is as old as the lockout, the user is let through again. */
  lemma LocksEnd(cfg: Config, log: seq<Attempt>, u: User, now: int, c: PinCall)
    requires 1 <= cfg.max && c.found == Some(Some(u)) && c.userRead && c.ipRead
    requires forall i :: 0 <= i < |log| && log[i].user == u && !log[i].success ==> log[i].at <= now - cfg.lockout
    ensures Admit(cfg, log, now, c) == Comparing(u)
  {
    NothingRecent(log, u, now, cfg.lockout, |log|);
  }

  /** No attempt of the log carries an address. */
  ghost predicate NoAddresses(log: seq<Attempt>) {
    forall i :: 0 <= i < |log| ==> log[i].ip == None
  }

  lemma {:induction false} NoneFromAddress(log: seq<Attempt>, ip: string, now: int, lockout: nat, n: nat)
    requires NoAddresses(log) && n <= |log|
    ensures RecentFailedByIp(log, ip, now, lockout, n) == 0
  {
    if n > 0 && ip != [] {
      NoneFromAddress(log, ip, now, lockout, n - 1);
    }
  }

  /** The user is found and both counts are read. */
  predicate Counted(c: PinCall, u: User) {
    c.found == Some(Some(u)) && c.userRead && c.ipRead
  }

  /**
   Each answer, exactly, on a log that carries no address: the PIN is compared for a user with fewer
   than max recent failures and for nobody else, accepted if it is right, and recorded either way.
   */
  lemma PinAnswers(cfg: Config, log: seq<Attempt>, now: int, c: PinCall, think: nat, u: User)
    requires NoAddresses(log) && 1 <= cfg.max && Counted(c, u)
    ensures var (log', r) := PinAlone(cfg, log, now, c, think);
            var failed := RecentFailed(log, u, now, cfg.lockout, |log|);
            && (r == PinLocked <==> failed >= cfg.max)
            && (r == PinAccepted <==> failed < cfg.max && c.correct)
            && (r == InvalidPin <==> failed < cfg.max && !c.correct)
            && log' == if failed < cfg.max && c.record then log + [Attempt(u, c.correct, now + think, None)] else log
  {
    NoneFromAddress(log, OWN_ADDRESS, now, cfg.lockout, |log|);
  }

  /** Without the user, or without both counts, nothing is compared and nothing recorded. */
  lemma UncountedAnswers(cfg: Config, log: seq<Attempt>, now: int, c: PinCall, think: nat)
    requires forall u :: !Counted(c, u)
    ensures var (log', r) := PinAlone(cfg, log, now, c, think);
            && log' == log
            && (r == LookupError <==> c.found == None)
            && (r == UserNotFound <==> c.found == Some(None))
            && (r == LookupError || r == UserNotFound || r == CountError || (r == PinLocked && !c.ipRead && c.userRead))
  {
    if c.found.Some? && c.found.value.Some? {
      assert !Counted(c, c.found.value.value);
    }
  }

  /**
   The lockout by address never locks anybody out: since every caller passes the empty address, no
   address is ever recorded, every count by address is zero, and a positive maximum is never reached.
   */
  lemma {:induction false} AddressNeverLocks(cfg: Config, s0: PinSystem, es: seq<PinEvent>, n: nat, ip: string)
    requires NoAddresses(s0.log) && n <= |es|
    ensures var s := PinAfter(cfg, s0, es, n);
            NoAddresses(s.log) && RecentFailedByIp(s.log, ip, s.now, cfg.lockout, |s.log|) == 0
  {
    if n > 0 {
      AddressNeverLocks(cfg, s0, es, n - 1, ip);
    }
    var s := PinAfter(cfg, s0, es, n);
    NoneFromAddress(s.log, ip, s.now, cfg.lockout, |s.log|);
  }

  /** Successes neither lock nor unlock: the decision is the same without them. */
  function FailuresOnly(log: seq<Attempt>, n: nat): seq<Attempt>
    requires n <= |log|
  {
    if n == 0 then []
    else if log[n - 1].success then FailuresOnly(log, n - 1)
    else FailuresOnly(log, n - 1) + [log[n - 1]]
  }

  lemma {:induction false} SuccessesDoNotCount(log: seq<Attempt>, u: User, now: int, lockout: nat, n: nat)
    requires n <= |log|
    ensures var f := FailuresOnly(log, n);
            RecentFailed(f, u, now, lockout, |f|) == RecentFailed(log, u, now, lockout, n)
  {
    if n > 0 {
      SuccessesDoNotCount(log, u, now, lockout, n - 1);
      if !log[n - 1].success {
        RecentPrefix(FailuresOnly(log, n - 1), log[n - 1], u, now, lockout, |FailuresOnly(log, n - 1)|);
      }
    }
  }

  lemma {:induction false} RecentPrefix(log: seq<Attempt>, a: Attempt, u: User, now: int, lockout: nat, n: nat)
    requires n <= |log|
    ensures RecentFailed(log + [a], u, now, lockout, n) == RecentFailed(log, u, now, lockout, n)
  {
    if n > 0 {
      RecentPrefix(log, a, u, now, lockout, n - 1);
    }
  }
}
