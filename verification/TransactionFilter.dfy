/** The filter-to-SQL builder and the paginated listing it feeds. */
module TransactionFilter {
  import opened Sums
  import opened Ledger
  import opened Transactions

  /** A value bound to a placeholder.  A status or type that no row can have is OtherText. */
  datatype Arg =
    | StatusText(status: Status)
    | KindText(kind: Kind)
    | OtherText(text: string)
    | Time(time: int)
    | UserArg(user: User)
    | Number(n: int)

  datatype Filter = Filter(statuses: seq<Arg>, types: seq<Arg>, from: Option<int>, to: Option<int>)

  /** Clauses mention arguments by number; $1 is the first. */
  datatype Clause = StatusIn(holes: seq<nat>) | TypeIn(holes: seq<nat>) | CreatedFrom(hole: nat) | CreatedTo(hole: nat)

  datatype Where = Where(clauses: seq<Clause>, args: seq<Arg>)

  // ---------------------------------------------------------------------------------------------
  // What a filter means, and what a compiled condition means

  /** The rows a filter asks for. */
  predicate Matches(f: Filter, t: Txn) {
    && (f.statuses == [] || StatusText(t.status) in f.statuses)
    && (f.types == [] || KindText(t.kind) in f.types)
    && (f.from.Some? ==> t.createdAt >= f.from.value)
    && (f.to.Some? ==> t.createdAt <= f.to.value)
  }

  /** The argument that is bound to a placeholder. */
  function Bound(args: seq<Arg>, hole: nat): Option<Arg> {
    if 1 <= hole <= |args| then Some(args[hole - 1]) else None
  }

  /** One of the first n placeholders of the list is bound to a. */
  predicate AmongBound(args: seq<Arg>, holes: seq<nat>, a: Arg, n: nat)
    requires n <= |holes|
  {
    n > 0 && (AmongBound(args, holes, a, n - 1) || Bound(args, holes[n - 1]) == Some(a))
  }

  predicate Holds(c: Clause, args: seq<Arg>, t: Txn) {
    match c
    case StatusIn(holes) => AmongBound(args, holes, StatusText(t.status), |holes|)
    case TypeIn(holes) => AmongBound(args, holes, KindText(t.kind), |holes|)
    case CreatedFrom(hole) =>
      var a := Bound(args, hole);
      a.Some? && a.value.Time? && t.createdAt >= a.value.time
    case CreatedTo(hole) =>
      var a := Bound(args, hole);
      a.Some? && a.value.Time? && t.createdAt <= a.value.time
  }

  /** The first n clauses hold. */
  predicate AllHold(cs: seq<Clause>, args: seq<Arg>, t: Txn, n: nat)
    requires n <= |cs|
  {
    n == 0 || (AllHold(cs, args, t, n - 1) && Holds(cs[n - 1], args, t))
  }

  /** The placeholders of a condition, in the order they are written. */
  function HolesOf(c: Clause): seq<nat> {
    match c
    case StatusIn(holes) => holes
    case TypeIn(holes) => holes
    case CreatedFrom(hole) => [hole]
    case CreatedTo(hole) => [hole]
  }

  function HolesTo(cs: seq<Clause>, n: nat): seq<nat>
    requires n <= |cs|
  {
    if n == 0 then [] else HolesTo(cs, n - 1) + HolesOf(cs[n - 1])
  }

  function Holes(cs: seq<Clause>): seq<nat> {
    HolesTo(cs, |cs|)
  }

  /** $from, $from+1, ..., n of them. */
  function Run(from: nat, n: nat): (r: seq<nat>)
    ensures |r| == n
  {
    if n == 0 then [] else Run(from, n - 1) + [from + n - 1]
  }

  // ---------------------------------------------------------------------------------------------
  // The builder

  function AddStatuses(w: Where, ss: seq<Arg>): Where {
    if ss == [] then w else Where(w.clauses + [StatusIn(Run(|w.args| + 1, |ss|))], w.args + ss)
  }

  function AddTypes(w: Where, ss: seq<Arg>): Where {
    if ss == [] then w else Where(w.clauses + [TypeIn(Run(|w.args| + 1, |ss|))], w.args + ss)
  }

  function AddFrom(w: Where, t: Option<int>): Where {
    if t.None? then w else Where(w.clauses + [CreatedFrom(|w.args| + 1)], w.args + [Time(t.value)])
  }

  function AddTo(w: Where, t: Option<int>): Where {
    if t.None? then w else Where(w.clauses + [CreatedTo(|w.args| + 1)], w.args + [Time(t.value)])
  }

  function Compile(f: Filter): Where {
    AddTo(AddFrom(AddTypes(AddStatuses(Where([], []), f.statuses), f.types), f.from), f.to)
  }

  method BuildFilterWhere(f: Filter) returns (clauses: seq<Clause>, args: seq<Arg>)
    ensures Where(clauses, args) == Compile(f)
  {
    clauses, args := [], [];
    var n := 1;
    if |f.statuses| > 0 {
      var holes;
      holes, args, n := Placeholders(f.statuses, args, n);
      clauses := clauses + [StatusIn(holes)];
    }
    if |f.types| > 0 {
      var holes;
      holes, args, n := Placeholders(f.types, args, n);
      clauses := clauses + [TypeIn(holes)];
    }
    if f.from.Some? {
      clauses := clauses + [CreatedFrom(n)];
      args := args + [Time(f.from.value)];
      n := n + 1;
    }
    if f.to.Some? {
      clauses := clauses + [CreatedTo(n)];
      args := args + [Time(f.to.value)];
      n := n + 1;
    }
  }

  /** The loop that numbers the values of an IN list. */
  method Placeholders(ss: seq<Arg>, args0: seq<Arg>, n0: nat) returns (holes: seq<nat>, args: seq<Arg>, n: nat)
    requires n0 == |args0| + 1
    ensures holes == Run(n0, |ss|) && args == args0 + ss && n == |args| + 1
  {
    holes, args, n := [], args0, n0;
    for i := 0 to |ss|
      invariant holes == Run(n0, i) && args == args0 + ss[..i] && n == n0 + i == |args| + 1
    {
      assert ss[..i + 1][..i] == ss[..i];
      holes := holes + [n];
      args := args + [ss[i]];
      n := n + 1;
    }
    assert ss[..|ss|] == ss;
  }

  // ---------------------------------------------------------------------------------------------
  // Compilation preserves meaning

  predicate Condition(w: Where, t: Txn) {
    AllHold(w.clauses, w.args, t, |w.clauses|)
  }

  /** Every placeholder of w is bound, they are numbered in order, and w means `meaning` on t. */
  ghost predicate Sound(w: Where, t: Txn, meaning: bool) {
    && Holes(w.clauses) == Run(1, |w.args|)
    && Condition(w, t) == meaning
  }

  lemma {:induction false} HolesPrefix(cs: seq<Clause>, c: Clause, n: nat)
    requires n <= |cs|
    ensures HolesTo(cs + [c], n) == HolesTo(cs, n)
  {
    if n > 0 {
      HolesPrefix(cs, c, n - 1);
    }
  }

  lemma {:induction false} RunSplit(from: nat, m: nat, n: nat)
    ensures Run(from, m + n) == Run(from, m) + Run(from + m, n)
  {
    if n > 0 {
      RunSplit(from, m, n - 1);
    }
  }

  lemma {:induction false} RunAt(from: nat, n: nat, i: nat)
    requires i < n
    ensures Run(from, n)[i] == from + i
  {
    if i < n - 1 {
      RunAt(from, n - 1, i);
    }
  }

  ghost predicate AllAtMost(holes: seq<nat>, n: nat) {
    forall i :: 0 <= i < |holes| ==> holes[i] <= n
  }

  lemma {:induction false} MoreArgsForList(holes: seq<nat>, args: seq<Arg>, more: seq<Arg>, a: Arg, n: nat)
    requires AllAtMost(holes, |args|) && n <= |holes|
    ensures AmongBound(args + more, holes, a, n) == AmongBound(args, holes, a, n)
  {
    if n > 0 {
      MoreArgsForList(holes, args, more, a, n - 1);
    }
  }

  lemma MoreArgsForClause(c: Clause, args: seq<Arg>, more: seq<Arg>, t: Txn)
    requires AllAtMost(HolesOf(c), |args|)
    ensures Holds(c, args + more, t) == Holds(c, args, t)
  {
    match c
    case StatusIn(holes) => MoreArgsForList(holes, args, more, StatusText(t.status), |holes|);
    case TypeIn(holes) => MoreArgsForList(holes, args, more, KindText(t.kind), |holes|);
    case CreatedFrom(hole) => assert HolesOf(c)[0] == hole;
    case CreatedTo(hole) => assert HolesOf(c)[0] == hole;
  }

  lemma AtMostSplit(s: seq<nat>, r: seq<nat>, n: nat)
    requires AllAtMost(s + r, n)
    ensures AllAtMost(s, n) && AllAtMost(r, n)
  {
    assert forall i :: 0 <= i < |s| ==> s[i] == (s + r)[i];
    assert forall i :: 0 <= i < |r| ==> r[i] == (s + r)[|s| + i];
  }

  lemma {:induction false} MoreArgsForAll(cs: seq<Clause>, args: seq<Arg>, more: seq<Arg>, t: Txn, n: nat)
    requires n <= |cs| && AllAtMost(HolesTo(cs, n), |args|)
    ensures AllHold(cs, args + more, t, n) == AllHold(cs, args, t, n)
  {
    if n > 0 {
      AtMostSplit(HolesTo(cs, n - 1), HolesOf(cs[n - 1]), |args|);
      MoreArgsForAll(cs, args, more, t, n - 1);
      MoreArgsForClause(cs[n - 1], args, more, t);
    }
  }

  /** Arguments added later do not disturb a condition whose placeholders are all bound. */
  lemma MoreArgs(w: Where, more: seq<Arg>, t: Txn)
    requires Holes(w.clauses) == Run(1, |w.args|)
    ensures Condition(Where(w.clauses, w.args + more), t) == Condition(w, t)
  {
    forall i | 0 <= i < |w.args|
      ensures Holes(w.clauses)[i] <= |w.args|
    {
      RunAt(1, |w.args|, i);
    }
    MoreArgsForAll(w.clauses, w.args, more, t, |w.clauses|);
  }

  lemma {:induction false} AllHoldPrefix(cs: seq<Clause>, c: Clause, args: seq<Arg>, t: Txn, n: nat)
    requires n <= |cs|
    ensures AllHold(cs + [c], args, t, n) == AllHold(cs, args, t, n)
  {
    if n > 0 {
      AllHoldPrefix(cs, c, args, t, n - 1);
    }
  }

  lemma AddClauseNumbers(w: Where, c: Clause, more: seq<Arg>)
    requires Holes(w.clauses) == Run(1, |w.args|)
    requires HolesOf(c) == Run(|w.args| + 1, |more|)
    ensures Holes(w.clauses + [c]) == Run(1, |w.args + more|)
  {
    HolesPrefix(w.clauses, c, |w.clauses|);
    RunSplit(1, |w.args|, |more|);
  }

  lemma AddClauseMeaning(w: Where, c: Clause, more: seq<Arg>, t: Txn)
    requires Holes(w.clauses) == Run(1, |w.args|)
    ensures Condition(Where(w.clauses + [c], w.args + more), t) == (Condition(w, t) && Holds(c, w.args + more, t))
  {
    MoreArgs(w, more, t);
    AllHoldPrefix(w.clauses, c, w.args + more, t, |w.clauses|);
  }

  /** Appending one clause, numbered after the others, conjoins its meaning. */
  lemma AddClause(w: Where, c: Clause, more: seq<Arg>, t: Txn, meaning: bool, added: bool)
    requires Sound(w, t, meaning)
    requires HolesOf(c) == Run(|w.args| + 1, |more|)
    requires Holds(c, w.args + more, t) == added
    ensures Sound(Where(w.clauses + [c], w.args + more), t, meaning && added)
  {
    AddClauseNumbers(w, c, more);
    AddClauseMeaning(w, c, more, t);
  }

  /** The first n placeholders of an IN list are bound to the first n values. */
  lemma {:induction false} InListTo(args: seq<Arg>, ss: seq<Arg>, a: Arg, n: nat)
    requires n <= |ss|
    ensures AmongBound(args + ss, Run(|args| + 1, |ss|), a, n) <==> a in ss[..n]
  {
    if n > 0 {
      InListTo(args, ss, a, n - 1);
      RunAt(|args| + 1, |ss|, n - 1);
      assert ss[..n] == ss[..n - 1] + [ss[n - 1]];
    }
  }

  /** An IN list over the bound values is membership. */
  lemma InList(args: seq<Arg>, ss: seq<Arg>, a: Arg)
    ensures AmongBound(args + ss, Run(|args| + 1, |ss|), a, |ss|) <==> a in ss
  {
    InListTo(args, ss, a, |ss|);
    assert ss[..|ss|] == ss;
  }

  lemma AddStatusesIsSound(w: Where, ss: seq<Arg>, t: Txn, meaning: bool)
    requires Sound(w, t, meaning)
    ensures Sound(AddStatuses(w, ss), t, meaning && (ss == [] || StatusText(t.status) in ss))
  {
    if ss != [] {
      var c := StatusIn(Run(|w.args| + 1, |ss|));
      InList(w.args, ss, StatusText(t.status));
      AddClause(w, c, ss, t, meaning, StatusText(t.status) in ss);
    }
  }

  lemma AddTypesIsSound(w: Where, ss: seq<Arg>, t: Txn, meaning: bool)
    requires Sound(w, t, meaning)
    ensures Sound(AddTypes(w, ss), t, meaning && (ss == [] || KindText(t.kind) in ss))
  {
    if ss != [] {
      var c := TypeIn(Run(|w.args| + 1, |ss|));
      InList(w.args, ss, KindText(t.kind));
      AddClause(w, c, ss, t, meaning, KindText(t.kind) in ss);
    }
  }

  lemma BoundLast(args: seq<Arg>, a: Arg)
    ensures Bound(args + [a], |args| + 1) == Some(a)
    ensures [|args| + 1] == Run(|args| + 1, 1)
  {
    var all := args + [a];
    assert all[|args|] == a;
    RunAt(|args| + 1, 1, 0);
  }

  lemma AddFromIsSound(w: Where, from: Option<int>, t: Txn, meaning: bool)
    requires Sound(w, t, meaning)
    ensures Sound(AddFrom(w, from), t, meaning && (from.Some? ==> t.createdAt >= from.value))
  {
    if from.Some? {
      BoundLast(w.args, Time(from.value));
      AddClause(w, CreatedFrom(|w.args| + 1), [Time(from.value)], t, meaning, t.createdAt >= from.value);
    }
  }

  lemma AddToIsSound(w: Where, to: Option<int>, t: Txn, meaning: bool)
    requires Sound(w, t, meaning)
    ensures Sound(AddTo(w, to), t, meaning && (to.Some? ==> t.createdAt <= to.value))
  {
    if to.Some? {
      BoundLast(w.args, Time(to.value));
      AddClause(w, CreatedTo(|w.args| + 1), [Time(to.value)], t, meaning, t.createdAt <= to.value);
    }
  }

  /** The compiled condition uses $1..$n once each, in order, and holds of exactly the matching rows. */
  lemma CompileIsSound(f: Filter, t: Txn)
    ensures Sound(Compile(f), t, Matches(f, t))
  {
    var w0 := Where([], []);
    assert Sound(w0, t, true);
    AddStatusesIsSound(w0, f.statuses, t, true);
    var w1 := AddStatuses(w0, f.statuses);
    var m1 := f.statuses == [] || StatusText(t.status) in f.statuses;
    AddTypesIsSound(w1, f.types, t, m1);
    var w2 := AddTypes(w1, f.types);
    var m2 := m1 && (f.types == [] || KindText(t.kind) in f.types);
    AddFromIsSound(w2, f.from, t, m2);
    AddToIsSound(AddFrom(w2, f.from), f.to, t, m2 && (f.from.Some? ==> t.createdAt >= f.from.value));
  }

  // ---------------------------------------------------------------------------------------------
  // The listing query

  /** WHERE user_id = $userHole AND clauses ... LIMIT $limitHole OFFSET $offsetHole */
  datatype Query = Query(userHole: nat, clauses: seq<Clause>, limitHole: nat, offsetHole: nat, args: seq<Arg>)

  function ListQuery(u: User, f: Filter, limit: int, offset: int): Query {
    var w := Compile(f);
    var n := |w.args|;
    Query(n + 1, w.clauses, n + 2, n + 3, w.args + [UserArg(u), Number(limit), Number(offset)])
  }

  predicate Selects(q: Query, t: Txn) {
    Bound(q.args, q.userHole) == Some(UserArg(t.user)) && Condition(Where(q.clauses, q.args), t)
  }

  /** The rows among the first n that the condition selects, in table order. */
  function SelectedTo(q: Query, rows: seq<Txn>, n: nat): seq<Txn>
    requires n <= |rows|
  {
    if n == 0 then []
    else if Selects(q, rows[n - 1]) then SelectedTo(q, rows, n - 1) + [rows[n - 1]]
    else SelectedTo(q, rows, n - 1)
  }

  /** The rows among the first n that a user should see for a filter. */
  function WantedTo(u: User, f: Filter, rows: seq<Txn>, n: nat): seq<Txn>
    requires n <= |rows|
  {
    if n == 0 then []
    else if rows[n - 1].user == u && Matches(f, rows[n - 1]) then WantedTo(u, f, rows, n - 1) + [rows[n - 1]]
    else WantedTo(u, f, rows, n - 1)
  }

  function Wanted(u: User, f: Filter, rows: seq<Txn>): seq<Txn> {
    WantedTo(u, f, rows, |rows|)
  }

  function Window(rows: seq<Txn>, limit: int, offset: int): seq<Txn>
    requires 0 <= limit && 0 <= offset
  {
    rows[Min(offset, |rows|)..Min(offset + limit, |rows|)]
  }

  const ANY_ROW := Txn([], None, DebitLeg, 0, 0, Pending, OtherProvider, Payee([], [], []), Ref([], Root), [], 0, None)

  lemma RunOfThree(k: nat)
    ensures Run(k, 3) == [k, k + 1, k + 2]
  {
    RunAt(k, 3, 0);
    RunAt(k, 3, 1);
    RunAt(k, 3, 2);
  }

  lemma ExtraArgs(w: Where, u: User, limit: int, offset: int)
    requires Holes(w.clauses) == Run(1, |w.args|)
    ensures var n, all := |w.args|, w.args + [UserArg(u), Number(limit), Number(offset)];
            && Holes(w.clauses) + [n + 1, n + 2, n + 3] == Run(1, |all|)
            && Bound(all, n + 1) == Some(UserArg(u))
            && Bound(all, n + 2) == Some(Number(limit))
            && Bound(all, n + 3) == Some(Number(offset))
  {
    RunSplit(1, |w.args|, 3);
    RunOfThree(|w.args| + 1);
  }

  /** The user, the limit and the offset take the three numbers after the filter's. */
  lemma ExtraHoles(u: User, f: Filter, limit: int, offset: int)
    ensures var q := ListQuery(u, f, limit, offset);
            && Holes(q.clauses) + [q.userHole, q.limitHole, q.offsetHole] == Run(1, |q.args|)
            && Bound(q.args, q.userHole) == Some(UserArg(u))
            && Bound(q.args, q.limitHole) == Some(Number(limit))
            && Bound(q.args, q.offsetHole) == Some(Number(offset))
  {
    CompileIsSound(f, ANY_ROW);
    ExtraArgs(Compile(f), u, limit, offset);
  }

  /** A condition extended by more arguments, the first of them the user, selects exactly the wanted rows. */
  lemma {:induction false} SelectsWanted(u: User, f: Filter, more: seq<Arg>, q: Query, rows: seq<Txn>, n: nat)
    requires n <= |rows| && |more| > 0 && more[0] == UserArg(u)
    requires q.args == Compile(f).args + more && q.clauses == Compile(f).clauses && q.userHole == |Compile(f).args| + 1
    ensures SelectedTo(q, rows, n) == WantedTo(u, f, rows, n)
  {
    if n > 0 {
      var t := rows[n - 1];
      SelectsWanted(u, f, more, q, rows, n - 1);
      CompileIsSound(f, t);
      MoreArgs(Compile(f), more, t);
      assert Bound(q.args, q.userHole) == Some(UserArg(u));
    }
  }

  /** The query selects exactly the user's rows that match the filter, in the table's order. */
  lemma QuerySelectsWanted(u: User, f: Filter, limit: int, offset: int, rows: seq<Txn>)
    ensures SelectedTo(ListQuery(u, f, limit, offset), rows, |rows|) == Wanted(u, f, rows)
  {
    SelectsWanted(u, f, [UserArg(u), Number(limit), Number(offset)], ListQuery(u, f, limit, offset), rows, |rows|);
  }

  /** ListByUserID over a table whose rows are given in the order of the query. */
  function ListByUserID(u: User, f: Filter, limit: int, offset: int, rows: seq<Txn>): seq<Txn>
    requires 0 <= limit && 0 <= offset
  {
    Window(SelectedTo(ListQuery(u, f, limit, offset), rows, |rows|), limit, offset)
  }

  /** SELECT COUNT(*): the same condition, with the user as last argument and no window. */
  function CountQuery(u: User, f: Filter): Query {
    var w := Compile(f);
    Query(|w.args| + 1, w.clauses, 0, 0, w.args + [UserArg(u)])
  }

  function CountByUserID(u: User, f: Filter, rows: seq<Txn>): nat {
    |SelectedTo(CountQuery(u, f), rows, |rows|)|
  }

  lemma CountIsLength(u: User, f: Filter, rows: seq<Txn>)
    ensures CountByUserID(u, f, rows) == |Wanted(u, f, rows)|
  {
    SelectsWanted(u, f, [UserArg(u)], CountQuery(u, f), rows, |rows|);
  }

  // ---------------------------------------------------------------------------------------------
  // Pages

  /** parsePagination with defaults 1 and 20; None stands for a missing or malformed number. */
  function PageOf(page: Option<int>): (p: int)
    ensures 1 <= p
    ensures page == Some(p) || (p == 1 && forall v :: page == Some(v) ==> v <= 0)
  {
    if page.Some? && page.value > 0 then page.value else 1
  }

  function PerPageOf(perPage: Option<int>): (n: int)
    ensures 1 <= n <= 100
    ensures forall v :: perPage == Some(v) && 1 <= v <= 100 ==> n == v
    ensures forall v :: perPage == Some(v) && 100 < v ==> n == 100
    ensures (perPage.None? || perPage.value <= 0) ==> n == 20
  {
    Min(if perPage.Some? && perPage.value > 0 then perPage.value else 20, 100)
  }

  function Page(u: User, f: Filter, page: int, perPage: int, rows: seq<Txn>): seq<Txn>
    requires 1 <= page && 1 <= perPage
  {
    assert 0 <= (page - 1) * perPage;
    ListByUserID(u, f, perPage, (page - 1) * perPage, rows)
  }

  function FirstPages(u: User, f: Filter, pages: nat, perPage: int, rows: seq<Txn>): seq<Txn>
    requires 1 <= perPage
  {
    if pages == 0 then []
    else FirstPages(u, f, pages - 1, perPage, rows) + Page(u, f, pages, perPage, rows)
  }

  lemma WindowExtends(rows: seq<Txn>, limit: int, offset: int)
    requires 0 <= limit && 0 <= offset
    ensures rows[..Min(offset, |rows|)] + Window(rows, limit, offset) == rows[..Min(offset + limit, |rows|)]
  {
  }

  lemma PageIsWindow(u: User, f: Filter, page: int, perPage: int, rows: seq<Txn>)
    requires 1 <= page && 1 <= perPage
    ensures 0 <= (page - 1) * perPage
    ensures Page(u, f, page, perPage, rows) == Window(Wanted(u, f, rows), perPage, (page - 1) * perPage)
  {
    QuerySelectsWanted(u, f, perPage, (page - 1) * perPage, rows);
  }

  /** The first pages, one after the other, are a prefix of what the user should see. */
  lemma {:induction false} PagesArePrefixes(u: User, f: Filter, pages: nat, perPage: int, rows: seq<Txn>)
    requires 1 <= perPage
    ensures FirstPages(u, f, pages, perPage, rows) == Wanted(u, f, rows)[..Min(pages * perPage, |Wanted(u, f, rows)|)]
  {
    if pages > 0 {
      PagesArePrefixes(u, f, pages - 1, perPage, rows);
      PageIsWindow(u, f, pages, perPage, rows);
      WindowExtends(Wanted(u, f, rows), perPage, (pages - 1) * perPage);
      assert pages * perPage == (pages - 1) * perPage + perPage;
    }
  }

  /** Pages tile the list: as many as the count needs give all of it, and one more gives nothing. */
  lemma PagesTile(u: User, f: Filter, pages: nat, perPage: int, rows: seq<Txn>)
    requires 1 <= perPage && CountByUserID(u, f, rows) <= pages * perPage
    ensures FirstPages(u, f, pages, perPage, rows) == Wanted(u, f, rows)
    ensures Page(u, f, pages + 1, perPage, rows) == []
  {
    CountIsLength(u, f, rows);
    PagesArePrefixes(u, f, pages, perPage, rows);
    PageIsWindow(u, f, pages + 1, perPage, rows);
  }

  // ---------------------------------------------------------------------------------------------
  // Pages and ties
  //
  // The query orders by created_at alone, and each page is a query of its own, so the database may put
  // rows of the same time in another order for each page.

  /** An order in which the database may give the wanted rows: newest first, each row once. */
  ghost predicate Ordered(wanted: seq<Txn>, rows: seq<Txn>) {
    && |rows| == |wanted|
    && (forall x :: x in rows <==> x in wanted)
    && (forall i, j :: 0 <= i < j < |rows| ==> rows[i] != rows[j] && rows[i].createdAt >= rows[j].createdAt)
  }

  ghost predicate DistinctTimes(rows: seq<Txn>) {
    forall i, j :: 0 <= i < |rows| && 0 <= j < |rows| && rows[i].createdAt == rows[j].createdAt ==> rows[i] == rows[j]
  }

  lemma SameTimeSameRow(wanted: seq<Txn>, x: Txn, y: Txn)
    requires DistinctTimes(wanted) && x in wanted && y in wanted && x.createdAt == y.createdAt
    ensures x == y
  {
    var i :| 0 <= i < |wanted| && wanted[i] == x;
    var j :| 0 <= j < |wanted| && wanted[j] == y;
  }

  /** What comes k-th in b comes at k or later in a, so it is no newer than what a has there. */
  lemma NoNewer(wanted: seq<Txn>, a: seq<Txn>, b: seq<Txn>, k: nat)
    requires Ordered(wanted, a) && Ordered(wanted, b) && k < |a|
    requires forall i :: 0 <= i < k ==> a[i] == b[i]
    ensures b[k].createdAt <= a[k].createdAt && b[k] in wanted
  {
    assert b[k] in b;
    var y :| 0 <= y < |a| && a[y] == b[k];
    assert k <= y;
  }

  /** Without ties there is only one order: if two agree up to k, they agree at k. */
  lemma SameNext(wanted: seq<Txn>, a: seq<Txn>, b: seq<Txn>, k: nat)
    requires DistinctTimes(wanted) && Ordered(wanted, a) && Ordered(wanted, b) && k < |a|
    requires forall i :: 0 <= i < k ==> a[i] == b[i]
    ensures a[k] == b[k]
  {
    NoNewer(wanted, a, b, k);
    NoNewer(wanted, b, a, k);
    SameTimeSameRow(wanted, a[k], b[k]);
  }

  lemma OneOrder(wanted: seq<Txn>, a: seq<Txn>, b: seq<Txn>)
    requires DistinctTimes(wanted) && Ordered(wanted, a) && Ordered(wanted, b)
    ensures a == b
  {
    for k := 0 to |a|
      invariant forall i :: 0 <= i < k ==> a[i] == b[i]
    {
      SameNext(wanted, a, b, k);
    }
  }

  function PageStart(page: nat, perPage: nat): nat {
    page * perPage
  }

  /** Page by page, each cut from an answer of its own. */
  function PagesOf(answers: seq<seq<Txn>>, perPage: nat, pages: nat): seq<Txn>
    requires pages <= |answers|
  {
    if pages == 0 then []
    else PagesOf(answers, perPage, pages - 1) + Window(answers[pages - 1], perPage, PageStart(pages - 1, perPage))
  }

  ghost predicate AllOrdered(wanted: seq<Txn>, answers: seq<seq<Txn>>) {
    forall p :: 0 <= p < |answers| ==> Ordered(wanted, answers[p])
  }

  /** If no two wanted rows share their time, pages cut from separate answers are prefixes of each of them. */
  lemma {:induction false} SeparatePagesArePrefixes(wanted: seq<Txn>, answers: seq<seq<Txn>>, rows: seq<Txn>,
                                                    perPage: nat, pages: nat)
    requires pages <= |answers| && DistinctTimes(wanted) && AllOrdered(wanted, answers) && Ordered(wanted, rows)
    ensures PagesOf(answers, perPage, pages) == rows[..Min(PageStart(pages, perPage), |rows|)]
  {
    if pages > 0 {
      SeparatePagesArePrefixes(wanted, answers, rows, perPage, pages - 1);
      OneOrder(wanted, answers[pages - 1], rows);
      WindowExtends(rows, perPage, PageStart(pages - 1, perPage));
      assert PageStart(pages, perPage) == PageStart(pages - 1, perPage) + perPage;
    }
  }

  /** So enough of them make up the list, whichever answers the database gave. */
  lemma SeparatePagesTile(wanted: seq<Txn>, answers: seq<seq<Txn>>, rows: seq<Txn>, perPage: nat)
    requires DistinctTimes(wanted) && AllOrdered(wanted, answers) && Ordered(wanted, rows)
    requires |wanted| <= PageStart(|answers|, perPage)
    ensures PagesOf(answers, perPage, |answers|) == rows
  {
    SeparatePagesArePrefixes(wanted, answers, rows, perPage, |answers|);
  }

  /** Two rows of the same time: on pages of one row, one of them can come twice and the other never. */
  lemma TiesCanHideRows(x: Txn, y: Txn)
    requires x != y && x.createdAt == y.createdAt
    ensures Ordered([x, y], [x, y]) && Ordered([x, y], [y, x])
    ensures PagesOf([[x, y], [y, x]], 1, 2) == [x, x]
  {
    assert Window([x, y], 1, 0) == [x] && Window([y, x], 1, 1) == [x];
    assert PagesOf([[x, y], [y, x]], 1, 1) == [] + [x];
  }
}
