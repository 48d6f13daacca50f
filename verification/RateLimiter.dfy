/** internal/middleware/auth.go: the token bucket, against a specification by the history of calls. */
module RateLimiter {
  import opened Sums

  datatype Bucket = Bucket(tokens: int, last: int)

  /** A call that was decided. */
  datatype Served = Served(key: string, at: int, allowed: bool)

  /** What matters of the calls of one key: the time of the last one, and how many were allowed since the last gap. */
  datatype Streak = Streak(last: int, used: nat)

  function One(b: bool): nat {
    if b then 1 else 0
  }

  /** A gap is a pause of at least one window between two calls of the same key. */
  function StreakOf(log: seq<Served>, window: int, key: string, n: nat): Option<Streak>
    requires n <= |log|
  {
    if n == 0 then None
    else
      var before := StreakOf(log, window, key, n - 1);
      var c := log[n - 1];
      if c.key != key then before
      else if before.None? || c.at - before.value.last >= window then Some(Streak(c.at, One(c.allowed)))
      else Some(Streak(c.at, before.value.used + One(c.allowed)))
  }

  /** How many calls have been allowed since the last gap, seen from a new call at this time. */
  function UsedAt(s: Option<Streak>, window: int, now: int): nat {
    if s.None? || now - s.value.last >= window then 0 else s.value.used
  }

  /** The rule: the first call of a key, or fewer than rate allowed since the last gap. */
  predicate Permits(s: Option<Streak>, rate: int, window: int, now: int) {
    s.None? || UsedAt(s, window, now) < rate
  }

  /** Time does not run backwards between two calls of a key. */
  predicate InOrder(s: Option<Streak>, now: int) {
    s.Some? ==> s.value.last <= now
  }

  /** The bucket of a key against its history. */
  ghost predicate Tied(b: Option<Bucket>, s: Option<Streak>, rate: int) {
    && (b.Some? <==> s.Some?)
    && (b.Some? ==>
          && b.value.last == s.value.last
          && (if rate >= 1 then s.value.used <= rate && b.value.tokens == rate - s.value.used else b.value.tokens <= 0))
  }

  function Lookup(buckets: map<string, Bucket>, key: string): Option<Bucket> {
    if key in buckets then Some(buckets[key]) else None
  }

  /** Whole windows that went by refill the bucket; anything less refills nothing. */
  lemma RefillIsAllOrNothing(tokens: int, elapsed: int, window: int, rate: int)
    requires 0 <= tokens <= rate && rate >= 1 && window > 0 && elapsed >= 0
    ensures Min(rate, tokens + elapsed / window * rate) == if elapsed >= window then rate else tokens
  {
    if elapsed >= window {
      assert elapsed / window >= 1;
      assert elapsed / window * rate >= rate;
    }
  }

  lemma NoRateNoRefill(elapsed: int, window: int, rate: int)
    requires rate <= 0 && window > 0 && elapsed >= 0
    ensures elapsed / window * rate <= 0
  {
    assert elapsed / window >= 0;
  }

  /** The bucket after a call, and whether the call is allowed. */
  function Taken(b: Option<Bucket>, rate: int, window: int, now: int): (Bucket, bool)
    requires window > 0
  {
    match b
    case None => (Bucket(rate - 1, now), true)
    case Some(was) =>
      var tokens := Min(rate, was.tokens + (now - was.last) / window * rate);
      if tokens <= 0 then (Bucket(tokens, now), false) else (Bucket(tokens - 1, now), true)
  }

  lemma TakenIsRuled(b: Option<Bucket>, s: Option<Streak>, rate: int, window: int, now: int)
    requires window > 0 && Tied(b, s, rate) && InOrder(s, now)
    ensures var (b', ok) := Taken(b, rate, window, now);
            && ok == Permits(s, rate, window, now)
            && Tied(Some(b'), Some(Streak(now, UsedAt(s, window, now) + One(ok))), rate)
  {
    if b.Some? {
      if rate >= 1 {
        RefillIsAllOrNothing(b.value.tokens, now - b.value.last, window, rate);
      } else {
        NoRateNoRefill(now - b.value.last, window, rate);
      }
    }
  }

  /** Every call was decided by the rule, and time did not run backwards. */
  ghost predicate Ruled(log: seq<Served>, rate: int, window: int) {
    forall i :: 0 <= i < |log| ==> RuledAt(log, rate, window, i)
  }

  ghost predicate RuledAt(log: seq<Served>, rate: int, window: int, i: nat)
    requires i < |log|
  {
    var s := StreakOf(log, window, log[i].key, i);
    log[i].allowed == Permits(s, rate, window, log[i].at) && InOrder(s, log[i].at)
  }

  class RateLimiter {
    const rate: int
    const window: int
    var buckets: map<string, Bucket>
    ghost var log: seq<Served>

    ghost predicate Valid()
      reads this
    {
      && window > 0
      && Ruled(log, rate, window)
      && forall key :: Tied(Lookup(buckets, key), StreakOf(log, window, key, |log|), rate)
    }

    constructor (rate: int, window: int)
      requires window > 0
      ensures this.rate == rate && this.window == window && log == [] && Valid()
    {
      this.rate, this.window, buckets, log := rate, window, map[], [];
    }

    /** Allow decides by the rule, for any rate, and nothing but the calls of this key counts. */
    method Allow(key: string, now: int) returns (ok: bool)
      requires Valid() && InOrder(StreakOf(log, window, key, |log|), now)
      modifies this
      ensures Valid()
      ensures ok == Permits(old(StreakOf(log, window, key, |log|)), rate, window, now)
      ensures log == old(log) + [Served(key, now, ok)]
    {
      ghost var s, before := StreakOf(log, window, key, |log|), buckets;
      assert Tied(Lookup(before, key), s, rate);
      TakenIsRuled(Lookup(before, key), s, rate, window, now);
      if key !in buckets {
        buckets := buckets[key := Bucket(rate - 1, now)];
        ok := true;
      } else {
        var b := buckets[key];
        var tokens := b.tokens + (now - b.last) / window * rate;
        if tokens > rate {
          tokens := rate;
        }
        ok := tokens > 0;
        if ok {
          tokens := tokens - 1;
        }
        buckets := buckets[key := Bucket(tokens, now)];
      }
      ghost var call := Served(key, now, ok);
      forall other
        ensures Tied(Lookup(buckets, other), StreakOf(log + [call], window, other, |log| + 1), rate)
      {
        assert Tied(Lookup(before, other), StreakOf(log, window, other, |log|), rate);
        StreakSnoc(log, call, window, other);
      }
      RuledSnoc(log, call, rate, window);
      log := log + [call];
    }
  }

  lemma RuledSnoc(log: seq<Served>, c: Served, rate: int, window: int)
    requires Ruled(log, rate, window)
    requires var s := StreakOf(log, window, c.key, |log|); c.allowed == Permits(s, rate, window, c.at) && InOrder(s, c.at)
    ensures Ruled(log + [c], rate, window)
  {
    forall i | 0 <= i < |log| + 1
      ensures RuledAt(log + [c], rate, window, i)
    {
      StreakPrefix(log, c, window, (log + [c])[i].key, i);
      assert i < |log| ==> RuledAt(log, rate, window, i);
    }
  }

  lemma {:induction false} StreakPrefix(log: seq<Served>, c: Served, window: int, key: string, n: nat)
    requires n <= |log|
    ensures StreakOf(log + [c], window, key, n) == StreakOf(log, window, key, n)
  {
    if n > 0 {
      StreakPrefix(log, c, window, key, n - 1);
    }
  }

  lemma StreakSnoc(log: seq<Served>, c: Served, window: int, key: string)
    ensures var s := StreakOf(log, window, key, |log|);
            StreakOf(log + [c], window, key, |log| + 1)
            == if c.key != key then s else Some(Streak(c.at, UsedAt(s, window, c.at) + One(c.allowed)))
  {
    StreakPrefix(log, c, window, key, |log|);
  }

  // ---------------------------------------------------------------------------------------------
  // What the rule means for whole histories

  /** The calls of one key. */
  function Only(log: seq<Served>, key: string, n: nat): seq<Served>
    requires n <= |log|
  {
    if n == 0 then []
    else if log[n - 1].key == key then Only(log, key, n - 1) + [log[n - 1]]
    else Only(log, key, n - 1)
  }

  /** Keys do not influence each other: the calls of the others can be deleted from the history. */
  lemma {:induction false} KeysAreIndependent(log: seq<Served>, window: int, key: string, n: nat)
    requires n <= |log|
    ensures var own := Only(log, key, n);
            StreakOf(own, window, key, |own|) == StreakOf(log, window, key, n)
  {
    if n > 0 {
      KeysAreIndependent(log, window, key, n - 1);
      if log[n - 1].key == key {
        StreakSnoc(Only(log, key, n - 1), log[n - 1], window, key);
      }
    }
  }

  /** The allowed calls of the key among calls i to n - 1. */
  function AllowedIn(log: seq<Served>, key: string, i: nat, n: nat): nat
    requires i <= n <= |log|
    decreases n
  {
    if n == i then 0 else AllowedIn(log, key, i, n - 1) + One(log[n - 1].key == key && log[n - 1].allowed)
  }

  /** The time of the first call of the key among them. */
  function FirstIn(log: seq<Served>, key: string, i: nat, n: nat): Option<int>
    requires i <= n <= |log|
    decreases n
  {
    if n == i then None
    else
      var r := FirstIn(log, key, i, n - 1);
      if r.Some? then r else if log[n - 1].key == key then Some(log[n - 1].at) else None
  }

  /** The gaps between calls of the key among them. */
  function GapsIn(log: seq<Served>, window: int, key: string, i: nat, n: nat): nat
    requires i <= n <= |log|
    decreases n
  {
    if n == i then 0
    else
      var s := StreakOf(log, window, key, n - 1);
      GapsIn(log, window, key, i, n - 1)
      + One(log[n - 1].key == key && FirstIn(log, key, i, n - 1).Some? && s.Some? && log[n - 1].at - s.value.last >= window)
  }

  lemma GapStep(rate: int, window: int, gaps: nat, allowed: nat, used: nat, first: int, last: int, at: int, now: nat)
    requires allowed <= rate * gaps + used && window * gaps <= last - first && used <= rate && at - last >= window
    ensures allowed + now <= rate * (gaps + 1) + now && window * (gaps + 1) <= at - first
  {
    assert rate * (gaps + 1) == rate * gaps + rate && window * (gaps + 1) == window * gaps + window;
  }

  /** Between gaps at most rate calls are allowed, and each gap takes a window. */
  ghost predicate SpanOk(log: seq<Served>, rate: int, window: int, key: string, i: nat, n: nat)
    requires i <= n <= |log|
  {
    var first, s := FirstIn(log, key, i, n), StreakOf(log, window, key, n);
    var gaps, allowed := GapsIn(log, window, key, i, n), AllowedIn(log, key, i, n);
    && (first.None? ==> allowed == 0 && gaps == 0)
    && (first.Some? ==> s.Some? && allowed <= rate * gaps + s.value.used && window * gaps <= s.value.last - first.value)
  }

  lemma SpanStep(log: seq<Served>, rate: int, window: int, key: string, i: nat, n: nat)
    requires i < n <= |log| && rate >= 1 && window > 0 && SpanOk(log, rate, window, key, i, n - 1)
    requires RuledAt(log, rate, window, n - 1)
    requires StreakOf(log, window, key, n - 1).Some? ==> StreakOf(log, window, key, n - 1).value.used <= rate
    ensures SpanOk(log, rate, window, key, i, n)
  {
    var first, s := FirstIn(log, key, i, n - 1), StreakOf(log, window, key, n - 1);
    var c := log[n - 1];
    if c.key == key && first.Some? && c.at - s.value.last >= window {
      GapStep(rate, window, GapsIn(log, window, key, i, n - 1), AllowedIn(log, key, i, n - 1), s.value.used,
              first.value, s.value.last, c.at, One(c.allowed));
    } else if c.key == key && first.None? {
      assert GapsIn(log, window, key, i, n) == 0;
    }
  }

  lemma {:induction false} SpanCounts(log: seq<Served>, rate: int, window: int, key: string, i: nat, n: nat)
    requires i <= n <= |log| && Ruled(log, rate, window) && rate >= 1 && window > 0
    ensures SpanOk(log, rate, window, key, i, n)
    decreases n
  {
    if n > i {
      SpanCounts(log, rate, window, key, i, n - 1);
      UsedAtMostRate(log, rate, window, key, n - 1);
      assert RuledAt(log, rate, window, n - 1);
      SpanStep(log, rate, window, key, i, n);
    }
  }

  lemma {:induction false} UsedAtMostRate(log: seq<Served>, rate: int, window: int, key: string, n: nat)
    requires n <= |log| && Ruled(log, rate, window) && rate >= 1
    ensures StreakOf(log, window, key, n).Some? ==> StreakOf(log, window, key, n).value.used <= rate
  {
    if n > 0 {
      UsedAtMostRate(log, rate, window, key, n - 1);
      assert RuledAt(log, rate, window, n - 1);
    }
  }

  /** The bound: calls of one key over a span of length T allow at most rate * (1 + T / window) of them. */
  lemma SpanBound(log: seq<Served>, rate: int, window: int, key: string, i: nat, n: nat)
    requires i <= n <= |log| && Ruled(log, rate, window) && rate >= 1 && window > 0
    requires FirstIn(log, key, i, n).Some?
    ensures StreakOf(log, window, key, n).Some?
    ensures var span := StreakOf(log, window, key, n).value.last - FirstIn(log, key, i, n).value;
            AllowedIn(log, key, i, n) <= rate * (1 + span / window)
  {
    SpanCounts(log, rate, window, key, i, n);
    UsedAtMostRate(log, rate, window, key, n);
    var span := StreakOf(log, window, key, n).value.last - FirstIn(log, key, i, n).value;
    var gaps := GapsIn(log, window, key, i, n);
    FitsIn(gaps, span, window);
    Times(rate, gaps, span / window);
  }

  lemma FitsIn(gaps: nat, span: int, window: int)
    requires window > 0 && window * gaps <= span
    ensures gaps <= span / window
  {
    if gaps > span / window {
      Overshoots(gaps, span, window);
    }
  }

  lemma Overshoots(n: nat, span: int, window: int)
    requires window > 0 && n >= span / window + 1
    ensures window * n > span
  {
    assert window * n >= window * (span / window + 1);
  }

  lemma Times(rate: int, a: int, b: int)
    requires rate >= 1 && a <= b
    ensures rate * a + rate <= rate * (1 + b)
  {
  }

  /** No calls of the key from i on come after a gap. */
  ghost predicate NoGaps(log: seq<Served>, window: int, key: string, i: nat)
    requires i <= |log|
  {
    forall k :: i <= k < |log| && log[k].key == key ==>
      StreakOf(log, window, key, k).Some? && log[k].at - StreakOf(log, window, key, k).value.last < window
  }

  /**
   The bucket is not a bucket that drips: a key that used its rate up and keeps calling without a
   pause of a whole window is refused for ever, however long that goes on.
   */
  lemma {:induction false} Starves(log: seq<Served>, rate: int, window: int, key: string, i: nat, n: nat)
    requires i <= n <= |log| && Ruled(log, rate, window) && NoGaps(log, window, key, i)
    requires StreakOf(log, window, key, i).Some? && StreakOf(log, window, key, i).value.used >= rate
    ensures AllowedIn(log, key, i, n) == 0
    ensures StreakOf(log, window, key, n).Some? && StreakOf(log, window, key, n).value.used >= rate
    decreases n
  {
    if n > i {
      Starves(log, rate, window, key, i, n - 1);
      assert RuledAt(log, rate, window, n - 1);
    }
  }

  /** Without a positive rate every key is allowed exactly its first call. */
  lemma NoRateAllowsFirstOnly(log: seq<Served>, rate: int, window: int, i: nat)
    requires Ruled(log, rate, window) && rate <= 0 && i < |log|
    ensures log[i].allowed <==> forall k :: 0 <= k < i ==> log[k].key != log[i].key
  {
    assert RuledAt(log, rate, window, i);
    SeenBefore(log, window, log[i].key, i);
  }

  lemma {:induction false} SeenBefore(log: seq<Served>, window: int, key: string, n: nat)
    requires n <= |log|
    ensures StreakOf(log, window, key, n).None? <==> forall k :: 0 <= k < n ==> log[k].key != key
  {
    if n > 0 {
      SeenBefore(log, window, key, n - 1);
    }
  }

  // ---------------------------------------------------------------------------------------------
  // The decision, told from the calls alone

  /** The call of the key before call n. */
  function Previous(log: seq<Served>, key: string, n: nat): (r: Option<nat>)
    requires n <= |log|
    ensures r.Some? ==> r.value < n && log[r.value].key == key && forall k :: r.value < k < n ==> log[k].key != key
    ensures r.None? ==> forall k :: 0 <= k < n ==> log[k].key != key
  {
    if n == 0 then None else if log[n - 1].key == key then Some(n - 1) else Previous(log, key, n - 1)
  }

  /** Call i is the first of its key, or comes a window or more after the one before. */
  predicate AfterPause(log: seq<Served>, window: int, i: nat)
    requires i < |log|
  {
    var before := Previous(log, log[i].key, i);
    before.None? || log[i].at >= log[before.value].at + window
  }

  lemma {:induction false} StreakIsPrevious(log: seq<Served>, window: int, key: string, n: nat)
    requires n <= |log|
    ensures var s, before := StreakOf(log, window, key, n), Previous(log, key, n);
            (s.Some? <==> before.Some?) && (s.Some? ==> s.value.last == log[before.value].at)
  {
    if n > 0 {
      StreakIsPrevious(log, window, key, n - 1);
    }
  }

  /** A call after a pause is allowed, and so is the first one whatever the rate. */
  lemma PausesReset(log: seq<Served>, rate: int, window: int, i: nat)
    requires Ruled(log, rate, window) && i < |log| && AfterPause(log, window, i)
    requires rate >= 1 || Previous(log, log[i].key, i).None?
    ensures log[i].allowed
  {
    assert RuledAt(log, rate, window, i);
    StreakIsPrevious(log, window, log[i].key, i);
  }

  /** Call j is the last of the key before call n that came after a pause. */
  ghost predicate LastPause(log: seq<Served>, window: int, key: string, j: nat, n: nat)
    requires n <= |log|
  {
    && j < n && log[j].key == key && AfterPause(log, window, j)
    && forall k :: j < k < n && log[k].key == key ==> !AfterPause(log, window, k)
  }

  lemma {:induction false} UsedIsAllowed(log: seq<Served>, window: int, key: string, j: nat, n: nat)
    requires n <= |log| && LastPause(log, window, key, j, n)
    ensures StreakOf(log, window, key, n).Some?
    ensures StreakOf(log, window, key, n).value.used == AllowedIn(log, key, j, n)
    decreases n
  {
    StreakIsPrevious(log, window, key, n - 1);
    if j < n - 1 {
      UsedIsAllowed(log, window, key, j, n - 1);
    } else {
      assert AllowedIn(log, key, j, j) == 0;
    }
  }

  /** Any other call is allowed if and only if fewer than rate have been since the last pause, that one included. */
  lemma AllowedExactly(log: seq<Served>, rate: int, window: int, j: nat, i: nat)
    requires Ruled(log, rate, window) && i < |log|
    requires LastPause(log, window, log[i].key, j, i) && !AfterPause(log, window, i)
    ensures log[i].allowed <==> AllowedIn(log, log[i].key, j, i) < rate
  {
    assert RuledAt(log, rate, window, i);
    StreakIsPrevious(log, window, log[i].key, i);
    UsedIsAllowed(log, window, log[i].key, j, i);
  }
}
