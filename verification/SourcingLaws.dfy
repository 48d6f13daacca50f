/** What the debit plan is worth: it is exact, cheapest for the banks, and best for every priority prefix. */
module SourcingLaws {
  import opened Sums
  import opened Ledger
  import opened Sourcing

  /** The legs drawn on the first k sources add up to min(amount, capacity of those sources). */
  lemma {:induction false} PrefixSupply(accounts: seq<Account>, caps: seq<int>, amount: int, k: nat)
    requires k <= |caps| == |accounts| + 1 && NonNegative(caps) && 0 <= amount
    ensures TotalAmount(LegsUpTo(accounts, caps, amount, k)) == Min(amount, SumTo(caps, k))
  {
    if k == 0 {
    } else {
      PrefixSupply(accounts, caps, amount, k - 1);
      PrefixMonotone(caps, k - 1, k);
      var before, after := LegsUpTo(accounts, caps, amount, k - 1), LegsUpTo(accounts, caps, amount, k);
      if Share(caps, amount, k - 1) > 0 {
        var leg := LegAt(accounts, caps, amount, k - 1);
        assert after == before + [leg];
        TotalsSnoc(before, leg);
      } else {
        assert after == before;
      }
    }
  }

  /** `alloc` says how much some other plan would draw on each source. */
  ghost predicate Feasible(alloc: seq<int>, caps: seq<int>, amount: int) {
    && |alloc| == |caps|
    && (forall i :: 0 <= i < |alloc| ==> 0 <= alloc[i] <= caps[i])
    && Sum(alloc) == amount
  }

  /**
   No plan within the capacities takes more from any prefix of the priority order, and none
   draws less on the banks altogether.
   */
  lemma GreedyIsBest(accounts: seq<Account>, caps: seq<int>, amount: int, alloc: seq<int>, k: nat)
    requires k <= |caps| == |accounts| + 1 && NonNegative(caps) && 0 <= amount
    requires Feasible(alloc, caps, amount)
    ensures SumTo(alloc, k) <= TotalAmount(LegsUpTo(accounts, caps, amount, k))
    ensures TotalAmount(GreedyLegs(accounts, caps, amount)) == amount
    ensures Sum(alloc) - alloc[0] >= amount - TotalAmount(LegsUpTo(accounts, caps, amount, 1))
  {
    PrefixSupply(accounts, caps, amount, k);
    PrefixSupply(accounts, caps, amount, 1);
    PrefixSupply(accounts, caps, amount, |caps|);
    PrefixAtMost(alloc, caps, k);
    PrefixAtMost(alloc, caps, 1);
    PrefixAtMost(alloc, caps, |caps|);
    PrefixMonotone(alloc, k, |alloc|);
    PrefixMonotone(alloc, 1, |alloc|);
    assert SumTo(alloc, 1) == alloc[0];
  }

  /** A source that gives less than it could is the last one drawn on. */
  lemma EarlierSourcesAreDrained(caps: seq<int>, amount: int, s: nat, t: nat)
    requires s < t < |caps| && NonNegative(caps)
    requires Share(caps, amount, t) > 0
    ensures Share(caps, amount, s) == caps[s]
  {
    PrefixMonotone(caps, s, s + 1);
    PrefixMonotone(caps, s + 1, t);
  }

  function BankLegs(legs: seq<Leg>): nat {
    if legs == [] then 0
    else BankLegs(legs[..|legs| - 1]) + (if legs[|legs| - 1].source.Bank? then 1 else 0)
  }

  lemma {:induction false} FlatFees(accounts: seq<Account>, caps: seq<int>, amount: int, k: nat)
    requires 1 <= k <= |caps| == |accounts| + 1
    ensures TotalFees(LegsUpTo(accounts, caps, amount, k)) == BANK_FEE * BankLegs(LegsUpTo(accounts, caps, amount, k))
    ensures BankLegs(LegsUpTo(accounts, caps, amount, k)) < k
  {
    var before, after := LegsUpTo(accounts, caps, amount, k - 1), LegsUpTo(accounts, caps, amount, k);
    if k == 1 {
      assert before == [];
    } else {
      FlatFees(accounts, caps, amount, k - 1);
    }
    if Share(caps, amount, k - 1) > 0 {
      var leg := LegAt(accounts, caps, amount, k - 1);
      assert after == before + [leg] && after[..|after| - 1] == before;
      TotalsSnoc(before, leg);
    } else {
      assert after == before;
    }
  }

  /** Picks are the sources with a share, in increasing order; the legs are theirs. */
  ghost predicate ArePicks(picks: seq<nat>, accounts: seq<Account>, caps: seq<int>, amount: int, k: nat, legs: seq<Leg>)
    requires k <= |caps| == |accounts| + 1
  {
    && |legs| == |picks|
    && (forall j :: 0 <= j < |picks| ==> picks[j] < k && Share(caps, amount, picks[j]) > 0)
    && (forall j :: 0 <= j < |picks| ==> legs[j] == LegAt(accounts, caps, amount, picks[j]))
    && (forall i, j :: 0 <= i < j < |picks| ==> picks[i] < picks[j])
  }

  lemma MorePicks(picks: seq<nat>, accounts: seq<Account>, caps: seq<int>, amount: int, k: nat, legs: seq<Leg>)
    returns (picks': seq<nat>, legs': seq<Leg>)
    requires k < |caps| == |accounts| + 1
    requires ArePicks(picks, accounts, caps, amount, k, legs)
    ensures ArePicks(picks', accounts, caps, amount, k + 1, legs')
    ensures legs' == if Share(caps, amount, k) > 0 then legs + [LegAt(accounts, caps, amount, k)] else legs
  {
    picks', legs' := picks, legs;
    if Share(caps, amount, k) > 0 {
      picks', legs' := picks + [k], legs + [LegAt(accounts, caps, amount, k)];
    }
  }

  /** Which sources the plan draws on. */
  lemma LegsArePicks(accounts: seq<Account>, caps: seq<int>, amount: int, n: nat)
    returns (picks: seq<nat>, legs: seq<Leg>)
    requires n <= |caps| == |accounts| + 1
    ensures legs == LegsUpTo(accounts, caps, amount, n)
    ensures ArePicks(picks, accounts, caps, amount, n, legs)
  {
    picks, legs := [], [];
    for k := 0 to n
      invariant legs == LegsUpTo(accounts, caps, amount, k)
      invariant ArePicks(picks, accounts, caps, amount, k, legs)
    {
      picks, legs := MorePicks(picks, accounts, caps, amount, k, legs);
    }
  }

  lemma {:induction false} SharesAreLegs(accounts: seq<Account>, caps: seq<int>, amount: int, s: nat, k: nat)
    requires s < k <= |caps| == |accounts| + 1 && Share(caps, amount, s) > 0
    ensures LegAt(accounts, caps, amount, s) in LegsUpTo(accounts, caps, amount, k)
    decreases k
  {
    if s < k - 1 {
      SharesAreLegs(accounts, caps, amount, s, k - 1);
    }
  }

  /** The shape of a plan, as the transfer protocol relies on it. */
  ghost predicate Shaped(legs: seq<Leg>, amount: int) {
    && TotalAmount(legs) == amount
    && forall i :: 0 <= i < |legs| ==>
         0 <= legs[i].amount && (legs[i].source.Wallet? ==> i == 0 && legs[i].fee == 0)
  }

  /** The legs are the picked sources, in order, none twice, all but the last one drained. */
  ghost predicate Greedy(legs: seq<Leg>, accounts: seq<Account>, caps: seq<int>)
    requires |caps| == |accounts| + 1
  {
    && (forall i :: 0 <= i < |legs| ==> 0 < legs[i].amount)
    && (forall i, j :: 0 <= i < j < |legs| ==> legs[i].source != legs[j].source)
    && (forall i :: 0 <= i < |legs| ==> DrawnOn(legs[i], accounts, caps, i < |legs| - 1))
  }

  /** A leg names one of the sources and stays within its capacity; a drained one uses it up. */
  ghost predicate DrawnOn(leg: Leg, accounts: seq<Account>, caps: seq<int>, drained: bool)
    requires |caps| == |accounts| + 1
  {
    exists s :: 0 <= s <= |accounts| && leg.source == SourceAt(accounts, s)
                && leg.amount <= caps[s] && (drained ==> leg.amount == caps[s])
  }

  lemma GreedyLegsAreGreedy(accounts: seq<Account>, caps: seq<int>, amount: int)
    requires |caps| == |accounts| + 1 && NonNegative(caps) && 0 <= amount <= Sum(caps) && Distinct(accounts)
    ensures Greedy(GreedyLegs(accounts, caps, amount), accounts, caps)
  {
    var picks, legs := LegsArePicks(accounts, caps, amount, |caps|);
    forall i | 0 <= i < |legs|
      ensures DrawnOn(legs[i], accounts, caps, i < |legs| - 1)
    {
      var s := picks[i];
      assert legs[i].source == SourceAt(accounts, s);
      if i < |legs| - 1 {
        EarlierSourcesAreDrained(caps, amount, s, picks[|picks| - 1]);
      }
    }
  }

  lemma GreedyLegsAreShaped(accounts: seq<Account>, caps: seq<int>, amount: int)
    requires |caps| == |accounts| + 1 && NonNegative(caps) && 0 <= amount <= Sum(caps)
    ensures Shaped(GreedyLegs(accounts, caps, amount), amount)
  {
    var picks, legs := LegsArePicks(accounts, caps, amount, |caps|);
    PrefixSupply(accounts, caps, amount, |caps|);
    forall i | 0 <= i < |legs|
      ensures 0 <= legs[i].amount && (legs[i].source.Wallet? ==> i == 0 && legs[i].fee == 0)
    {
      assert legs[i] == LegAt(accounts, caps, amount, picks[i]);
      if i > 0 {
        assert picks[0] < picks[i];
      }
    }
  }

  /** When the wallet covers the amount it is the whole plan, whatever the banks hold. */
  lemma WalletCovers(accounts: seq<Account>, caps: seq<int>, amount: int)
    requires |caps| == |accounts| + 1 && NonNegative(caps) && 0 < amount <= caps[0]
    ensures GreedyLegs(accounts, caps, amount) == [Leg(Wallet, amount, 0)]
  {
    OneMoreSource(accounts, caps, amount, 0);
    PlanIsFinal(accounts, caps, amount, 1, |caps|);
  }

  /** Planning succeeds exactly when the capacities cover the amount, and reports exactly what is missing. */
  lemma PlanSucceedsIffCovered(w: WalletRead, amount: int, accounts: seq<Account>, f: Fetches)
    requires 0 < amount && !w.ReadFailed?
    ensures var missing := amount - Sum(Caps(w, accounts, f));
            if missing <= 0 then PlanFor(w, amount, Some(accounts), f).Planned?
            else PlanFor(w, amount, Some(accounts), f) == Insufficient(missing)
  {
    SumAtLeast(Caps(w, accounts, f), 0);
  }

  lemma PlanIsGreedy(w: WalletRead, amount: int, accounts: seq<Account>, f: Fetches)
    requires 0 < amount && PlanFor(w, amount, Some(accounts), f).Planned?
    ensures amount <= Sum(Caps(w, accounts, f))
    ensures PlanFor(w, amount, Some(accounts), f).plan.legs == GreedyLegs(accounts, Caps(w, accounts, f), amount)
  {
    var caps := Caps(w, accounts, f);
    SumAtLeast(caps, 0);
    if amount <= WalletCap(w) {
      WalletCovers(accounts, caps, amount);
    }
  }

  /** A plan is exact, greedy and charged at the flat fee, which the listing limit bounds. */
  lemma PlanTheorem(w: WalletRead, amount: int, accounts: seq<Account>, f: Fetches, plan: Plan)
    requires 0 < amount && Distinct(accounts) && |accounts| <= LIST_LIMIT
    requires PlanFor(w, amount, Some(accounts), f) == Planned(plan)
    ensures plan.total == amount && Shaped(plan.legs, amount)
    ensures Greedy(plan.legs, accounts, Caps(w, accounts, f))
    ensures plan.fees == TotalFees(plan.legs) == BANK_FEE * BankLegs(plan.legs) <= 350_000
  {
    var caps := Caps(w, accounts, f);
    PlanIsGreedy(w, amount, accounts, f);
    GreedyLegsAreGreedy(accounts, caps, amount);
    GreedyLegsAreShaped(accounts, caps, amount);
    FlatFees(accounts, caps, amount, |caps|);
    if amount <= WalletCap(w) {
      OneLegTotals(Leg(Wallet, amount, 0));
    }
  }

  lemma OneLegTotals(leg: Leg)
    ensures TotalAmount([leg]) == leg.amount && TotalFees([leg]) == leg.fee
  {
    TotalsSnoc([], leg);
    assert [] + [leg] == [leg];
  }

  /** Every plan for an amount that is not negative has the shape the transfer protocol relies on. */
  lemma PlanShape(w: WalletRead, amount: int, accounts: Option<seq<Account>>, f: Fetches)
    requires 0 <= amount
    ensures var r := PlanFor(w, amount, accounts, f);
            r.Planned? ==> Shaped(r.plan.legs, amount) && r.plan.fees == TotalFees(r.plan.legs)
  {
    var r := PlanFor(w, amount, accounts, f);
    if amount <= WalletCap(w) || amount == 0 {
      OneLegTotals(Leg(Wallet, amount, 0));
    } else if accounts.Some? && r.Planned? {
      GreedyLegsAreShaped(accounts.value, Caps(w, accounts.value, f), amount);
    }
  }

  /** The plan draws on this bank. */
  ghost predicate Draws(legs: seq<Leg>, id: BankId) {
    exists p :: 0 <= p < |legs| && legs[p].source == Bank(id)
  }

  lemma LaterBankMeansDrained(accounts: seq<Account>, caps: seq<int>, amount: int, i: nat, j: nat)
    requires |caps| == |accounts| + 1 && NonNegative(caps) && i < j < |accounts| && Distinct(accounts)
    requires Draws(GreedyLegs(accounts, caps, amount), accounts[j].id)
    requires 0 < caps[i + 1]
    ensures Leg(Bank(accounts[i].id), caps[i + 1], BANK_FEE) in GreedyLegs(accounts, caps, amount)
  {
    var picks, legs := LegsArePicks(accounts, caps, amount, |caps|);
    var p :| 0 <= p < |legs| && legs[p].source == Bank(accounts[j].id);
    var t := picks[p];
    assert legs[p] == LegAt(accounts, caps, amount, t);
    assert t == j + 1;
    EarlierSourcesAreDrained(caps, amount, i + 1, t);
    SharesAreLegs(accounts, caps, amount, i + 1, |caps|);
  }

  /**
   A bank is drawn on only when every eligible bank of strictly higher priority (or the same priority
   and linked earlier) is drawn down to its cushion.
   */
  lemma PriorityIsRespected(w: WalletRead, amount: int, table: seq<Account>, u: User, rows: seq<Account>, f: Fetches,
                            i: nat, j: nat)
    requires 0 < amount && QueryAnswer(table, u, LIST_LIMIT, rows)
    requires i < |rows| && j < |rows|
    requires rows[i].priority < rows[j].priority
             || (rows[i].priority == rows[j].priority && rows[i].createdAt < rows[j].createdAt)
    requires PlanFor(w, amount, Some(Scanned(rows)), f).Planned?
    requires Draws(PlanFor(w, amount, Some(Scanned(rows)), f).plan.legs, rows[j].id)
    requires rows[i].isActive && rows[i].isVerified && rows[i].minBalance < rows[i].lastBalance
    ensures Leg(Bank(rows[i].id), rows[i].lastBalance - rows[i].minBalance, BANK_FEE)
            in PlanFor(w, amount, Some(Scanned(rows)), f).plan.legs
  {
    var accounts := Scanned(rows);
    var caps := Caps(w, accounts, f);
    PlanIsGreedy(w, amount, accounts, f);
    ListedAccountsAreNeverFetched(rows, f, i);
    assert caps[i + 1] == BankCap(accounts[i], f);
    LaterBankMeansDrained(accounts, caps, amount, i, j);
  }

  lemma LegWithinCap(legs: seq<Leg>, accounts: seq<Account>, caps: seq<int>, i: nat, p: nat)
    requires |caps| == |accounts| + 1 && Distinct(accounts) && Greedy(legs, accounts, caps)
    requires i < |accounts| && p < |legs| && legs[p].source == Bank(accounts[i].id)
    ensures legs[p].amount <= caps[i + 1]
  {
    assert DrawnOn(legs[p], accounts, caps, p < |legs| - 1);
    var s :| 0 <= s <= |accounts| && legs[p].source == SourceAt(accounts, s) && legs[p].amount <= caps[s];
    assert s == i + 1;
  }

  /** Debiting what the plan draws leaves every bank at or above its cushion. */
  lemma CushionIsKept(w: WalletRead, amount: int, accounts: seq<Account>, f: Fetches, legs: seq<Leg>, i: nat, p: nat)
    requires 0 < amount && Distinct(accounts)
    requires PlanFor(w, amount, Some(accounts), f).Planned? && legs == PlanFor(w, amount, Some(accounts), f).plan.legs
    requires i < |accounts| && p < |legs| && legs[p].source == Bank(accounts[i].id)
    ensures BalanceOf(accounts[i], f) - legs[p].amount >= accounts[i].minBalance
  {
    var caps := Caps(w, accounts, f);
    PlanIsGreedy(w, amount, accounts, f);
    GreedyLegsAreGreedy(accounts, caps, amount);
    LegWithinCap(legs, accounts, caps, i, p);
  }

  // ---------------------------------------------------------------------------------------------
  // Which accounts, and how much of them

  /** A source can give what its wallet has available, or what a usable account holds above its minimum, fresh if fetched. */
  lemma CapacitiesAre(w: WalletRead, accounts: seq<Account>, f: Fetches, i: nat)
    requires i < |accounts|
    ensures Caps(w, accounts, f)[0] == if w.Found? && w.row.ledger > 0 then w.row.ledger else 0
    ensures var a := accounts[i];
            var fetched := f.mono && a.provider == Mono && |a.token| > 0 && a.id in f.answers;
            var balance := if fetched then f.answers[a.id] else a.lastBalance;
            Caps(w, accounts, f)[i + 1]
            == if a.isActive && a.isVerified && balance > a.minBalance then balance - a.minBalance else 0
  {
    assert Caps(w, accounts, f)[i + 1] == BankCap(accounts[i], f);
  }

  /** The balances that planning uses: fetched for Mono accounts with a token when the fetch succeeds, stored otherwise. */
  lemma RefreshedBalances(m: map<BankId, int>, accounts: seq<Account>, f: Fetches, i: nat)
    requires IsRefresh(m, accounts, f) && i < |accounts|
    ensures var a := accounts[i];
            var fetched := f.mono && a.provider == Mono && |a.token| > 0 && a.id in f.answers;
            a.id in m && m[a.id] == if fetched then f.answers[a.id] else a.lastBalance
  {
    assert i !in {};
  }

  /** A plan draws on active and verified accounts only, and on each within its balance above the minimum. */
  lemma OnlyUsableBanks(w: WalletRead, amount: int, accounts: seq<Account>, f: Fetches, legs: seq<Leg>, i: nat, p: nat)
    requires 0 < amount && Distinct(accounts)
    requires PlanFor(w, amount, Some(accounts), f).Planned? && legs == PlanFor(w, amount, Some(accounts), f).plan.legs
    requires i < |accounts| && p < |legs| && legs[p].source == Bank(accounts[i].id)
    ensures accounts[i].isActive && accounts[i].isVerified
    ensures 0 < legs[p].amount <= Caps(w, accounts, f)[i + 1]
  {
    var caps := Caps(w, accounts, f);
    PlanIsGreedy(w, amount, accounts, f);
    GreedyLegsAreGreedy(accounts, caps, amount);
    LegWithinCap(legs, accounts, caps, i, p);
    CapacitiesAre(w, accounts, f, i);
  }

  /** And each of its bank legs is such an account. */
  lemma EveryBankIsListed(w: WalletRead, amount: int, accounts: seq<Account>, f: Fetches, legs: seq<Leg>, p: nat)
    returns (i: nat)
    requires 0 < amount && Distinct(accounts)
    requires PlanFor(w, amount, Some(accounts), f).Planned? && legs == PlanFor(w, amount, Some(accounts), f).plan.legs
    requires p < |legs| && legs[p].source.Bank?
    ensures i < |accounts| && legs[p].source == Bank(accounts[i].id)
    ensures accounts[i].isActive && accounts[i].isVerified
  {
    var caps := Caps(w, accounts, f);
    PlanIsGreedy(w, amount, accounts, f);
    GreedyLegsAreGreedy(accounts, caps, amount);
    assert DrawnOn(legs[p], accounts, caps, p < |legs| - 1);
    var s :| 0 <= s <= |accounts| && legs[p].source == SourceAt(accounts, s);
    i := s - 1;
    OnlyUsableBanks(w, amount, accounts, f, legs, i, p);
  }

  /** Of the rows that the listing answers for u, a plan draws on u's own active and verified accounts only. */
  lemma OnlyOwnUsableBanks(w: WalletRead, amount: int, table: seq<Account>, u: User, rows: seq<Account>, f: Fetches, p: nat)
    returns (i: nat)
    requires 0 < amount && QueryAnswer(table, u, LIST_LIMIT, rows)
    requires PlanFor(w, amount, Some(Scanned(rows)), f).Planned?
    requires p < |PlanFor(w, amount, Some(Scanned(rows)), f).plan.legs|
    requires PlanFor(w, amount, Some(Scanned(rows)), f).plan.legs[p].source.Bank?
    ensures var leg := PlanFor(w, amount, Some(Scanned(rows)), f).plan.legs[p];
            && i < |rows| && leg.source == Bank(rows[i].id)
            && rows[i].owner == u && rows[i].isActive && rows[i].isVerified
            && leg.amount <= rows[i].lastBalance - rows[i].minBalance && leg.fee == 3500
  {
    var accounts := Scanned(rows);
    var legs := PlanFor(w, amount, Some(accounts), f).plan.legs;
    i := EveryBankIsListed(w, amount, accounts, f, legs, p);
    assert accounts[i] == rows[i].(token := []) && rows[i] in rows;
    CushionIsKept(w, amount, accounts, f, legs, i, p);
    ListedAccountsAreNeverFetched(rows, f, i);
    BankLegsAreCharged(w, amount, accounts, f, p);
  }

  lemma BankLegsAreCharged(w: WalletRead, amount: int, accounts: seq<Account>, f: Fetches, p: nat)
    requires 0 < amount && PlanFor(w, amount, Some(accounts), f).Planned?
    requires p < |PlanFor(w, amount, Some(accounts), f).plan.legs|
    requires PlanFor(w, amount, Some(accounts), f).plan.legs[p].source.Bank?
    ensures PlanFor(w, amount, Some(accounts), f).plan.legs[p].fee == 3500
  {
    var caps := Caps(w, accounts, f);
    PlanIsGreedy(w, amount, accounts, f);
    var picks, legs := LegsArePicks(accounts, caps, amount, |caps|);
    assert legs[p] == LegAt(accounts, caps, amount, picks[p]);
  }

  /** The ways planning fails: a wallet that cannot be read, or banks needed and not listed, or too little money. */
  lemma PlanFailsExactly(w: WalletRead, amount: int, accounts: Option<seq<Account>>, f: Fetches)
    ensures var r := PlanFor(w, amount, accounts, f);
            var own := if w.Found? && w.row.ledger > 0 then w.row.ledger else 0;
            && (r == WalletReadFailed <==> w.ReadFailed?)
            && (r == AccountsReadFailed <==> !w.ReadFailed? && own < amount && accounts.None?)
            && (r.Insufficient? <==> !w.ReadFailed? && own < amount && accounts.Some?
                                     && Sum(Caps(w, accounts.value, f)) < amount)
  {
    if accounts.Some? {
      SumAtLeast(Caps(w, accounts.value, f), 0);
    }
  }

  /** Later sources come after the legs drawn so far, and the first source alone is the wallet. */
  lemma {:induction false} LegsExtend(accounts: seq<Account>, caps: seq<int>, amount: int, k: nat, n: nat)
    requires 1 <= k <= n <= |caps| == |accounts| + 1
    ensures var a, b := LegsUpTo(accounts, caps, amount, k), LegsUpTo(accounts, caps, amount, n);
            |a| <= |b| && b[..|a|] == a && (a == [] && b != [] ==> b[0].source.Bank?)
    decreases n
  {
    if k < n {
      LegsExtend(accounts, caps, amount, k, n - 1);
    }
  }

  /** A plan has a wallet leg if and only if the wallet has something available: the smaller of that and the amount. */
  lemma WalletLegExactly(w: WalletRead, amount: int, accounts: Option<seq<Account>>, f: Fetches)
    requires PlanFor(w, amount, accounts, f).Planned?
    ensures var legs := PlanFor(w, amount, accounts, f).plan.legs;
            && (|legs| > 0 && legs[0].source.Wallet? <==> w.Found? && w.row.ledger > 0)
            && (|legs| > 0 && legs[0].source.Wallet? ==>
                  legs[0] == Leg(Wallet, if amount < w.row.ledger then amount else w.row.ledger, 0))
  {
    if amount > 0 && amount > WalletCap(w) {
      var caps := WalletFirst(w, amount, accounts.value, f);
      LegsExtend(accounts.value, caps, amount, 1, |caps|);
      var first := LegsUpTo(accounts.value, caps, amount, 1);
      assert first != [] ==> GreedyLegs(accounts.value, caps, amount)[..1] == first;
    }
  }
}
