/**
 The sourcing engine: the order in which accounts are listed, the parallel refresh of their
 balances, and the debit plan drawn greedily over wallet and banks.
 */
module Sourcing {
  import opened Sums
  import opened Ledger

  type BankId = string

  const BANK_FEE := 3500
  const LIST_LIMIT := 100

  datatype Account = Account(
    id: BankId, owner: User, provider: Provider, token: string, priority: int, createdAt: int,
    minBalance: int, lastBalance: int, isActive: bool, isVerified: bool)

  ghost predicate Distinct(accounts: seq<Account>) {
    forall i, j :: 0 <= i < j < |accounts| ==> accounts[i].id != accounts[j].id
  }

  // ---------------------------------------------------------------------------------------------
  // Listing: internal/repository/bank_account_repo.go

  /** ORDER BY priority ASC, created_at ASC; the database is free to order ties as it likes. */
  predicate Before(a: Account, b: Account) {
    a.priority < b.priority || (a.priority == b.priority && a.createdAt <= b.createdAt)
  }

  /** `rows` is a possible answer of the listing query with this limit and offset zero. */
  ghost predicate QueryAnswer(table: seq<Account>, u: User, limit: nat, rows: seq<Account>) {
    && |rows| <= limit
    && Distinct(rows)
    && (forall i, j :: 0 <= i < j < |rows| ==> Before(rows[i], rows[j]))
    && (forall a :: a in rows ==> a in table && a.owner == u)
    && (forall a :: a in table && a.owner == u && a !in rows ==>
          |rows| == limit && forall b :: b in rows ==> Before(b, a))
  }

  /** The columns of the listing query: provider_token is not among them. */
  function Scanned(rows: seq<Account>): seq<Account> {
    seq(|rows|, i requires 0 <= i < |rows| => rows[i].(token := []))
  }

  lemma ScannedHas(rows: seq<Account>, a: Account)
    ensures a in Scanned(rows) <==> exists i :: 0 <= i < |rows| && a == rows[i].(token := [])
  {
    forall i | 0 <= i < |rows|
      ensures rows[i].(token := []) in Scanned(rows)
    {
      assert Scanned(rows)[i] == rows[i].(token := []);
    }
  }

  /** Leaving the token out of rows and table alike changes nothing about order, limit and choice. */
  lemma ScannedAnswers(table: seq<Account>, u: User, limit: nat, rows: seq<Account>)
    requires QueryAnswer(table, u, limit, rows)
    ensures QueryAnswer(Scanned(table), u, limit, Scanned(rows))
  {
    var t', r' := Scanned(table), Scanned(rows);
    forall a | a in r'
      ensures a in t' && a.owner == u
    {
      ScannedHas(rows, a);
      ScannedHas(table, a);
      var i :| 0 <= i < |rows| && a == rows[i].(token := []);
      assert rows[i] in table;
      var j :| 0 <= j < |table| && table[j] == rows[i];
    }
    forall a | a in t' && a.owner == u && a !in r'
      ensures |r'| == limit && forall b :: b in r' ==> Before(b, a)
    {
      ScannedHas(table, a);
      var j :| 0 <= j < |table| && a == table[j].(token := []);
      ScannedHas(rows, a);
      assert table[j] !in rows;
      forall b | b in r'
        ensures Before(b, a)
      {
        var i :| 0 <= i < |rows| && r'[i] == b;
        assert Before(rows[i], table[j]);
      }
    }
  }

  /**
   The accounts of u in the order of the query, at most `limit`, none left out that sorts earlier, and
   without their tokens.  `rows` is what the database answers, which only the query restricts.
   */
  method GetByUserID(ghost table: seq<Account>, ghost u: User, ghost limit: nat, rows: seq<Account>)
    returns (accounts: seq<Account>)
    requires QueryAnswer(table, u, limit, rows)
    ensures accounts == Scanned(rows)
    ensures QueryAnswer(Scanned(table), u, limit, accounts)
  {
    accounts := [];
    for i := 0 to |rows|
      invariant accounts == Scanned(rows)[..i]
    {
      accounts := accounts + [rows[i].(token := [])];
    }
    ScannedAnswers(table, u, limit, rows);
  }

  // ---------------------------------------------------------------------------------------------
  // Refreshing balances

  /** Whether the provider client is configured, and the balances it would answer with. */
  datatype Fetches = Fetches(mono: bool, answers: map<BankId, int>)

  /** The account is read by a task of its own. */
  predicate Spawned(a: Account, f: Fetches) {
    f.mono && a.provider == Mono && a.token != []
  }

  /** The balance planning uses: fresh when it was fetched, stored otherwise. */
  function BalanceOf(a: Account, f: Fetches): int {
    if Spawned(a, f) && a.id in f.answers then f.answers[a.id] else a.lastBalance
  }

  /** Exactly the given accounts, each with the balance planning uses. */
  ghost predicate IsRefresh(m: map<BankId, int>, accounts: seq<Account>, f: Fetches) {
    Written(m, accounts, f, |accounts|, {})
  }

  /** The first n accounts, but for those still being fetched, have the balance planning uses. */
  ghost predicate Written(m: map<BankId, int>, accounts: seq<Account>, f: Fetches, n: nat, running: set<nat>) {
    && n <= |accounts|
    && (forall i :: 0 <= i < n && i !in running ==>
          accounts[i].id in m && m[accounts[i].id] == BalanceOf(accounts[i], f))
    && (forall id :: id in m ==> exists i :: 0 <= i < n && accounts[i].id == id)
    && (forall i :: i in running ==> i < n && Spawned(accounts[i], f))
  }

  /** A task that ends: it writes the fetched balance, or the stored one if the fetch failed. */
  function TaskResult(a: Account, f: Fetches): int {
    if a.id in f.answers then f.answers[a.id] else a.lastBalance
  }

  lemma TaskEnds(m: map<BankId, int>, accounts: seq<Account>, f: Fetches, n: nat, running: set<nat>, i: nat)
    requires Distinct(accounts) && Written(m, accounts, f, n, running) && i in running
    ensures i < n && Written(m[accounts[i].id := TaskResult(accounts[i], f)], accounts, f, n, running - {i})
  {
  }

  lemma MainAdvances(m: map<BankId, int>, accounts: seq<Account>, f: Fetches, n: nat, running: set<nat>)
    requires Distinct(accounts) && Written(m, accounts, f, n, running) && n < |accounts|
    ensures Spawned(accounts[n], f) ==> Written(m, accounts, f, n + 1, running + {n})
    ensures !Spawned(accounts[n], f)
            ==> Written(m[accounts[n].id := accounts[n].lastBalance], accounts, f, n + 1, running)
  {
    forall id | id in m
      ensures exists i :: 0 <= i < n + 1 && accounts[i].id == id
    {
      var i :| 0 <= i < n && accounts[i].id == id;
    }
  }

  /**
   The refresh, for every schedule: at each turn either the main goroutine looks at its next account
   or some running task finishes.  Whatever the choices, the map is the same.
   */
  method RefreshBankBalances(accounts: seq<Account>, f: Fetches) returns (result: map<BankId, int>)
    requires Distinct(accounts)
    ensures IsRefresh(result, accounts, f)
  {
    result := map[];
    var next: nat := 0;
    var running: set<nat> := {};
    while next < |accounts| || running != {}
      invariant next <= |accounts|
      invariant Written(result, accounts, f, next, running)
      decreases |accounts| - next, running
    {
      var finish := *;
      if next == |accounts| || (finish && running != {}) {
        var i :| i in running;
        TaskEnds(result, accounts, f, next, running, i);
        result := result[accounts[i].id := TaskResult(accounts[i], f)];
        running := running - {i};
      } else {
        var a := accounts[next];
        MainAdvances(result, accounts, f, next, running);
        if Spawned(a, f) {
          running := running + {next};
        } else {
          result := result[a.id := a.lastBalance];
        }
        next := next + 1;
      }
    }
  }

  /** Two schedules cannot disagree. */
  lemma RefreshIsUnique(m: map<BankId, int>, m': map<BankId, int>, accounts: seq<Account>, f: Fetches)
    requires IsRefresh(m, accounts, f) && IsRefresh(m', accounts, f)
    ensures m == m'
  {
    forall id | id in m
      ensures id in m' && m[id] == m'[id]
    {
      var i :| 0 <= i < |accounts| && accounts[i].id == id;
    }
    forall id | id in m'
      ensures id in m
    {
      var i :| 0 <= i < |accounts| && accounts[i].id == id;
    }
    assert m.Keys == m'.Keys;
  }

  /** As wired, planning never sees a fetched balance: listed accounts carry no token to fetch with. */
  lemma ListedAccountsAreNeverFetched(rows: seq<Account>, f: Fetches, i: nat)
    requires i < |rows|
    ensures !Spawned(Scanned(rows)[i], f)
    ensures BalanceOf(Scanned(rows)[i], f) == rows[i].lastBalance
  {
    assert Scanned(rows)[i] == rows[i].(token := []);
  }

  // ---------------------------------------------------------------------------------------------
  // The plan, in closed form

  datatype Source = Wallet | Bank(id: BankId)

  datatype Leg = Leg(source: Source, amount: int, fee: int)

  datatype Plan = Plan(legs: seq<Leg>, total: int, fees: int)

  datatype WalletRead = ReadFailed | NoWallet | Found(row: Row)

  datatype PlanResult =
    | Planned(plan: Plan)
    | Insufficient(shortfall: int)
    | WalletReadFailed
    | AccountsReadFailed

  function WalletCap(w: WalletRead): int {
    if w.Found? then Max(0, w.row.ledger) else 0
  }

  /** What an account can give without touching its cushion. */
  function BankCap(a: Account, f: Fetches): int {
    if a.isActive && a.isVerified then Max(0, BalanceOf(a, f) - a.minBalance) else 0
  }

  /** Capacities in drawing order: the wallet, then the accounts as listed. */
  function Caps(w: WalletRead, accounts: seq<Account>, f: Fetches): (caps: seq<int>)
    ensures |caps| == |accounts| + 1
    ensures NonNegative(caps)
  {
    [WalletCap(w)] + seq(|accounts|, i requires 0 <= i < |accounts| => BankCap(accounts[i], f))
  }

  /** What the first k sources supply together. */
  function Reach(caps: seq<int>, amount: int, k: nat): int
    requires k <= |caps|
  {
    Min(amount, SumTo(caps, k))
  }

  function Share(caps: seq<int>, amount: int, k: nat): int
    requires k < |caps|
  {
    Reach(caps, amount, k + 1) - Reach(caps, amount, k)
  }

  function SourceAt(accounts: seq<Account>, s: nat): Source
    requires s <= |accounts|
  {
    if s == 0 then Wallet else Bank(accounts[s - 1].id)
  }

  function LegAt(accounts: seq<Account>, caps: seq<int>, amount: int, s: nat): Leg
    requires s < |caps| == |accounts| + 1
  {
    Leg(SourceAt(accounts, s), Share(caps, amount, s), if s == 0 then 0 else BANK_FEE)
  }

  /** The greedy plan over the first k sources as a formula: source s gives the growth of Reach at s. */
  function LegsUpTo(accounts: seq<Account>, caps: seq<int>, amount: int, k: nat): seq<Leg>
    requires k <= |caps| == |accounts| + 1
  {
    if k == 0 then []
    else if Share(caps, amount, k - 1) > 0 then
      LegsUpTo(accounts, caps, amount, k - 1) + [LegAt(accounts, caps, amount, k - 1)]
    else LegsUpTo(accounts, caps, amount, k - 1)
  }

  function GreedyLegs(accounts: seq<Account>, caps: seq<int>, amount: int): seq<Leg>
    requires |caps| == |accounts| + 1
  {
    LegsUpTo(accounts, caps, amount, |caps|)
  }

  function TotalAmount(legs: seq<Leg>): int {
    if legs == [] then 0 else TotalAmount(legs[..|legs| - 1]) + legs[|legs| - 1].amount
  }

  function TotalFees(legs: seq<Leg>): int {
    if legs == [] then 0 else TotalFees(legs[..|legs| - 1]) + legs[|legs| - 1].fee
  }

  /** The answer of BuildDebitPlan; `accounts` is None when listing them fails. */
  function PlanFor(w: WalletRead, amount: int, accounts: Option<seq<Account>>, f: Fetches): PlanResult {
    if w.ReadFailed? then WalletReadFailed
    else if amount <= 0 then
      Planned(Plan(if WalletCap(w) > 0 then [Leg(Wallet, amount, 0)] else [], amount, 0))
    else if amount <= WalletCap(w) then Planned(Plan([Leg(Wallet, amount, 0)], amount, 0))
    else if accounts.None? then AccountsReadFailed
    else GreedyPlan(accounts.value, Caps(w, accounts.value, f), amount)
  }

  function GreedyPlan(accounts: seq<Account>, caps: seq<int>, amount: int): PlanResult
    requires |caps| == |accounts| + 1
  {
    if amount <= Sum(caps) then
      var legs := GreedyLegs(accounts, caps, amount);
      Planned(Plan(legs, amount, TotalFees(legs)))
    else Insufficient(amount - Sum(caps))
  }

  // ---------------------------------------------------------------------------------------------
  // The loop computes the closed form

  method BuildDebitPlan(w: WalletRead, amount: int, accounts: Option<seq<Account>>, f: Fetches)
    returns (r: PlanResult)
    requires accounts.Some? ==> Distinct(accounts.value)
    ensures r == PlanFor(w, amount, accounts, f)
  {
    if w.ReadFailed? {
      return WalletReadFailed;
    }
    var legs, remaining := DrawOnWallet(w, amount);
    if remaining <= 0 {
      return Planned(Plan(legs, amount, 0));
    }
    if accounts.None? {
      return AccountsReadFailed;
    }
    var live := RefreshBankBalances(accounts.value, f);
    ghost var caps := WalletFirst(w, amount, accounts.value, f);
    r := DrawOnBanks(accounts.value, live, f, caps, amount, legs, remaining);
  }

  /** The first step of BuildDebitPlan: the wallet has the highest priority. */
  method DrawOnWallet(w: WalletRead, amount: int) returns (legs: seq<Leg>, remaining: int)
    ensures WalletCap(w) > 0 ==>
              legs == [Leg(Wallet, Min(WalletCap(w), amount), 0)] && remaining == amount - Min(WalletCap(w), amount)
    ensures WalletCap(w) == 0 ==> legs == [] && remaining == amount
  {
    legs, remaining := [], amount;
    if w.Found? && w.row.ledger > 0 {
      var fromWallet := w.row.ledger;
      if fromWallet > remaining {
        fromWallet := remaining;
      }
      legs := legs + [Leg(Wallet, fromWallet, 0)];
      remaining := remaining - fromWallet;
    }
  }

  /** The wallet's capacity comes first; then those of the accounts. */
  ghost predicate AreBankCaps(caps: seq<int>, accounts: seq<Account>, f: Fetches) {
    && |caps| == |accounts| + 1
    && NonNegative(caps)
    && forall i :: 0 <= i < |accounts| ==> caps[i + 1] == BankCap(accounts[i], f)
  }

  /** The loop of BuildDebitPlan over the listed accounts. */
  method DrawOnBanks(accounts: seq<Account>, live: map<BankId, int>, ghost f: Fetches, ghost caps: seq<int>,
                     amount: int, legs0: seq<Leg>, remaining0: int)
    returns (r: PlanResult)
    requires forall i :: 0 <= i < |accounts| ==> accounts[i].id in live && live[accounts[i].id] == BalanceOf(accounts[i], f)
    requires AreBankCaps(caps, accounts, f)
    requires 0 < remaining0 == amount - Reach(caps, amount, 1)
    requires legs0 == LegsUpTo(accounts, caps, amount, 1) && TotalFees(legs0) == 0
    ensures r == GreedyPlan(accounts, caps, amount)
  {
    var legs, fees, remaining := legs0, 0, remaining0;
    var i := 0;
    while i < |accounts|
      invariant 0 <= i <= |accounts|
      invariant 0 < remaining == amount - Reach(caps, amount, i + 1)
      invariant legs == LegsUpTo(accounts, caps, amount, i + 1)
      invariant fees == TotalFees(legs)
    {
      var acct := accounts[i];
      OneMoreBank(accounts, f, caps, amount, i, legs);
      i := i + 1;
      if !acct.isActive || !acct.isVerified {
        continue;
      }
      var available := live[acct.id] - acct.minBalance;
      if available <= 0 {
        continue;
      }
      var fromAcct := available;
      if fromAcct > remaining {
        fromAcct := remaining;
      }
      var leg := Leg(Bank(acct.id), fromAcct, BANK_FEE);
      legs := legs + [leg];
      remaining := remaining - fromAcct;
      fees := fees + BANK_FEE;
      if remaining <= 0 {
        PlanIsFinal(accounts, caps, amount, i + 1, |caps|);
        return Planned(Plan(legs, amount, fees));
      }
    }
    assert i + 1 == |caps|;
    return Insufficient(remaining);
  }

  lemma TotalsSnoc(legs: seq<Leg>, leg: Leg)
    ensures TotalAmount(legs + [leg]) == TotalAmount(legs) + leg.amount
    ensures TotalFees(legs + [leg]) == TotalFees(legs) + leg.fee
  {
    assert (legs + [leg])[..|legs|] == legs;
  }

  /** The wallet is the first source, and free of charge. */
  lemma WalletFirst(w: WalletRead, amount: int, accounts: seq<Account>, f: Fetches) returns (caps: seq<int>)
    requires WalletCap(w) < amount && 0 < amount
    ensures caps == Caps(w, accounts, f) && AreBankCaps(caps, accounts, f)
    ensures Reach(caps, amount, 1) == WalletCap(w)
    ensures LegsUpTo(accounts, caps, amount, 1) == if WalletCap(w) > 0 then [Leg(Wallet, WalletCap(w), 0)] else []
    ensures TotalFees(LegsUpTo(accounts, caps, amount, 1)) == 0
  {
    caps := Caps(w, accounts, f);
    OneMoreSource(accounts, caps, amount, 0);
    TotalsSnoc([], Leg(Wallet, WalletCap(w), 0));
    assert [] + [Leg(Wallet, WalletCap(w), 0)] == [Leg(Wallet, WalletCap(w), 0)];
  }

  /** While the amount is not reached, the next source gives what it has or what is missing. */
  lemma OneMoreSource(accounts: seq<Account>, caps: seq<int>, amount: int, s: nat)
    requires s < |caps| == |accounts| + 1
    requires NonNegative(caps)
    requires Reach(caps, amount, s) < amount
    ensures Share(caps, amount, s) == Min(amount - Reach(caps, amount, s), caps[s])
    ensures LegsUpTo(accounts, caps, amount, s + 1)
            == if Share(caps, amount, s) > 0
               then LegsUpTo(accounts, caps, amount, s) + [LegAt(accounts, caps, amount, s)]
               else LegsUpTo(accounts, caps, amount, s)
  {
  }

  lemma OneMoreBank(accounts: seq<Account>, f: Fetches, caps: seq<int>, amount: int, i: nat, legs: seq<Leg>)
    requires i < |accounts| && AreBankCaps(caps, accounts, f)
    requires Reach(caps, amount, i + 1) < amount && legs == LegsUpTo(accounts, caps, amount, i + 1)
    ensures var give := Min(amount - Reach(caps, amount, i + 1), BankCap(accounts[i], f));
            var leg := Leg(Bank(accounts[i].id), give, BANK_FEE);
            && Reach(caps, amount, i + 2) == Reach(caps, amount, i + 1) + give
            && LegsUpTo(accounts, caps, amount, i + 2) == (if give > 0 then legs + [leg] else legs)
            && TotalFees(legs + [leg]) == TotalFees(legs) + BANK_FEE
  {
    OneMoreSource(accounts, caps, amount, i + 1);
    TotalsSnoc(legs, Leg(Bank(accounts[i].id), Min(amount - Reach(caps, amount, i + 1), BankCap(accounts[i], f)), BANK_FEE));
  }

  /** Once the amount is reached the plan is complete. */
  lemma {:induction false} PlanIsFinal(accounts: seq<Account>, caps: seq<int>, amount: int, k: nat, n: nat)
    requires k <= n <= |caps| == |accounts| + 1
    requires NonNegative(caps)
    requires Reach(caps, amount, k) == amount
    ensures Reach(caps, amount, n) == amount
    ensures LegsUpTo(accounts, caps, amount, n) == LegsUpTo(accounts, caps, amount, k)
    decreases n
  {
    PrefixMonotone(caps, k, n);
    if k < n {
      PlanIsFinal(accounts, caps, amount, k, n - 1);
    }
  }
}
