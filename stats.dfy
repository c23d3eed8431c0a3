/** The statistics screen: all sessions grouped and summed by calendar month, by expense
    type and by player. Each reducer fills a dictionary in a loop; the dictionary's entries
    are then listed and sorted. */
module Stats {
  import opened Types
  import opened Text
  import opened Sorting
  import ExpenseUtils
  import opened Wrappers

  // ---------------------------------------------------------------------------
  // Loading

  /** The screen shows sessions newest first: a stable sort by date, descending. */
  function LoadOrder(sessions: seq<Session>): (r: seq<Session>)
    ensures multiset(r) == multiset(sessions)
    ensures forall i, j :: 0 <= i < j < |r| ==> r[i].date >= r[j].date
  {
    var r := SortDesc(sessions, DateKey);
    SortDescSorted(sessions, DateKey);
    r
  }

  /** The sum of every expense of every session. */
  function GrandTotal(sessions: seq<Session>): real {
    if sessions == [] then 0.0
    else GrandTotal(sessions[..|sessions| - 1]) + FlatTotal(sessions[|sessions| - 1].expenses)
  }

  // ---------------------------------------------------------------------------
  // Month keys

  type Month = m: int | 1 <= m <= 12 witness 1

  /** A calendar month as `getMonth() + 1` and `getFullYear()` read it from a local date. */
  datatype MonthYear = MonthYear(month: Month, year: nat)

  /** `getMonthYearKey`: `${month}/${year}`. */
  function MonthYearKey(p: MonthYear): string {
    ShowNat(p.month) + "/" + ShowNat(p.year)
  }

  /** A key whose first two `/`-separated parts are numbers, the first a month. */
  predicate IsMonthKey(key: string) {
    var parts := Split(key, '/');
    |parts| >= 2 && IsDigits(parts[0]) && IsDigits(parts[1]) && 1 <= DigitsValue(parts[0]) <= 12
  }

  /** `const [month, year] = key.split("/").map(Number)`. */
  function PeriodOf(key: string): MonthYear
    requires IsMonthKey(key)
  {
    var parts := Split(key, '/');
    MonthYear(DigitsValue(parts[0]), DigitsValue(parts[1]))
  }

  /** A key splits back into its month and year, which read back as numbers. */
  lemma KeyRoundTrip(p: MonthYear)
    ensures Split(MonthYearKey(p), '/') == [ShowNat(p.month), ShowNat(p.year)]
    ensures IsMonthKey(MonthYearKey(p)) && PeriodOf(MonthYearKey(p)) == p
  {
    var m, y := ShowNat(p.month), ShowNat(p.year);
    assert '/' !in m && '/' !in y by {
      assert !IsDigit('/');
    }
    assert MonthYearKey(p) == m + ['/'] + y;
    SplitAt(m, '/', y);
    SplitNone(y, '/');
    ShowNatValue(p.month);
    ShowNatValue(p.year);
  }

  /** Different months have different keys. */
  lemma KeyInjective(p: MonthYear, q: MonthYear)
    ensures MonthYearKey(p) == MonthYearKey(q) ==> p == q
  {
    KeyRoundTrip(p);
    KeyRoundTrip(q);
  }

  /** `getMonthYearDisplay`: "Tháng " and the key's first two parts (`undefined` for a
      missing part). */
  function MonthLabel(key: string): string {
    var parts := Split(key, '/');
    "Tháng " + parts[0] + "/" + (if |parts| >= 2 then parts[1] else "undefined")
  }

  lemma MonthLabelOfKey(p: MonthYear)
    ensures MonthLabel(MonthYearKey(p)) == "Tháng " + MonthYearKey(p)
  {
    KeyRoundTrip(p);
  }

  /** The comparator of the month keys: later year first, then later month. */
  function KeyCompare(a: string, b: string): int
    requires IsMonthKey(a) && IsMonthKey(b)
  {
    var pa, pb := PeriodOf(a), PeriodOf(b);
    if pa.year != pb.year then pb.year - pa.year else pb.month - pa.month
  }

  /** The months in one number, later months larger. */
  function Rank(p: MonthYear): real {
    (p.year * 12 + p.month) as real
  }

  /** The comparator puts `p` first exactly when `p` is the later month, and calls two keys
      equal only when they are the same month. */
  lemma CompareIsRank(p: MonthYear, q: MonthYear)
    ensures IsMonthKey(MonthYearKey(p)) && IsMonthKey(MonthYearKey(q))
    ensures KeyCompare(MonthYearKey(p), MonthYearKey(q)) < 0 <==> Rank(p) > Rank(q)
    ensures KeyCompare(MonthYearKey(p), MonthYearKey(q)) == 0 <==> p == q
    ensures Rank(p) == Rank(q) ==> p == q
  {
    KeyRoundTrip(p);
    KeyRoundTrip(q);
  }

  /** The sort key of a month key (the rank of the month it spells). */
  function KeyRank(key: string): real {
    if IsMonthKey(key) then Rank(PeriodOf(key)) else 0.0
  }

  // ---------------------------------------------------------------------------
  // By month: specification

  /** The key of the month a session is dated in. */
  function SessionKey(calendar: Timestamp -> MonthYear, s: Session): string {
    MonthYearKey(calendar(s.date))
  }

  /** The number of sessions dated in the month of `key`. */
  function MonthCount(sessions: seq<Session>, calendar: Timestamp -> MonthYear, key: string): nat {
    if sessions == [] then 0
    else MonthCount(sessions[..|sessions| - 1], calendar, key)
         + (if SessionKey(calendar, sessions[|sessions| - 1]) == key then 1 else 0)
  }

  /** The flat sum of the expenses of the sessions dated in the month of `key`. */
  function MonthTotal(sessions: seq<Session>, calendar: Timestamp -> MonthYear, key: string): real {
    if sessions == [] then 0.0
    else MonthTotal(sessions[..|sessions| - 1], calendar, key)
         + (if SessionKey(calendar, sessions[|sessions| - 1]) == key
            then FlatTotal(sessions[|sessions| - 1].expenses) else 0.0)
  }

  /** The month keys of the sessions in order of first appearance (the dictionary's key
      order: these keys are never array indices, so they keep insertion order). */
  function SeenKeys(sessions: seq<Session>, calendar: Timestamp -> MonthYear): (ks: seq<string>)
    ensures Distinct(ks)
  {
    if sessions == [] then []
    else
      var ks := SeenKeys(sessions[..|sessions| - 1], calendar);
      var key := SessionKey(calendar, sessions[|sessions| - 1]);
      if key in ks then ks else ks + [key]
  }

  /** A key is listed exactly when some session is dated in its month, and then it is a
      well-formed month key. */
  lemma {:induction false} SeenKeysAre(sessions: seq<Session>, calendar: Timestamp -> MonthYear, k: string)
    ensures k in SeenKeys(sessions, calendar) <==> MonthCount(sessions, calendar, k) >= 1
    ensures k in SeenKeys(sessions, calendar) ==> IsMonthKey(k) && MonthYearKey(PeriodOf(k)) == k
    ensures k !in SeenKeys(sessions, calendar) ==> MonthTotal(sessions, calendar, k) == 0.0
  {
    if sessions != [] {
      var last := sessions[|sessions| - 1];
      SeenKeysAre(sessions[..|sessions| - 1], calendar, k);
      KeyRoundTrip(calendar(last.date));
    }
  }

  /** The rows the view lists: the key of the month, its label, its total and its count. */
  datatype MonthRow = MonthRow(key: string, display: string, total: real, sessions: nat)

  datatype MonthStat = MonthStat(total: real, sessions: nat)

  lemma MonthSnoc(sessions: seq<Session>, i: nat, calendar: Timestamp -> MonthYear, k: string)
    requires i < |sessions|
    ensures var s := sessions[i];
      && MonthCount(sessions[..i + 1], calendar, k)
         == MonthCount(sessions[..i], calendar, k) + (if SessionKey(calendar, s) == k then 1 else 0)
      && MonthTotal(sessions[..i + 1], calendar, k)
         == MonthTotal(sessions[..i], calendar, k) + (if SessionKey(calendar, s) == k then FlatTotal(s.expenses) else 0.0)
  {
    assert sessions[..i + 1][..i] == sessions[..i];
  }

  lemma SeenKeysSnoc(sessions: seq<Session>, i: nat, calendar: Timestamp -> MonthYear)
    requires i < |sessions|
    ensures var ks, key := SeenKeys(sessions[..i], calendar), SessionKey(calendar, sessions[i]);
      SeenKeys(sessions[..i + 1], calendar) == if key in ks then ks else ks + [key]
  {
    assert sessions[..i + 1][..i] == sessions[..i];
  }

  lemma FlatTotalSnoc(expenses: seq<Expense>, j: nat)
    requires j < |expenses|
    ensures FlatTotal(expenses[..j + 1]) == FlatTotal(expenses[..j]) + expenses[j].amount
  {
    assert expenses[..j + 1][..j] == expenses[..j];
  }

  /** The dictionary of the by-month reducer describes `sessions`. */
  ghost predicate MonthTable(stats: map<string, MonthStat>, order: seq<string>, sessions: seq<Session>,
                             calendar: Timestamp -> MonthYear)
  {
    && order == SeenKeys(sessions, calendar)
    && (forall k :: k in stats <==> k in order)
    && (forall k :: k in stats ==>
          stats[k] == MonthStat(MonthTotal(sessions, calendar, k), MonthCount(sessions, calendar, k)))
  }

  /** The loop of `getStatsByMonth`: for each session, its month's entry is created at 0 if
      missing, each expense amount is added to its total and its count goes up by one. */
  method MonthTableOf(sessions: seq<Session>, calendar: Timestamp -> MonthYear)
    returns (stats: map<string, MonthStat>, order: seq<string>)
    ensures MonthTable(stats, order, sessions, calendar)
  {
    stats, order := map[], [];
    var i := 0;
    while i < |sessions|
      invariant 0 <= i <= |sessions|
      invariant MonthTable(stats, order, sessions[..i], calendar)
    {
      stats, order := CountSession(stats, order, sessions, i, calendar);
      i := i + 1;
    }
    assert sessions[..i] == sessions;
  }

  /** The body of the by-month loop for the `i`-th session. */
  method CountSession(stats: map<string, MonthStat>, order: seq<string>, sessions: seq<Session>, i: nat,
                      calendar: Timestamp -> MonthYear)
    returns (stats': map<string, MonthStat>, order': seq<string>)
    requires i < |sessions| && MonthTable(stats, order, sessions[..i], calendar)
    ensures MonthTable(stats', order', sessions[..i + 1], calendar)
  {
    var s := sessions[i];
    var key := SessionKey(calendar, s);
    SeenKeysSnoc(sessions, i, calendar);
    stats', order' := stats, order;
    if key !in stats' {
      SeenKeysAre(sessions[..i], calendar, key);
      stats' := stats'[key := MonthStat(0.0, 0)];
      order' := order' + [key];
    }
    ghost var before := stats';
    stats' := AddAmounts(stats', key, s.expenses);
    stats' := stats'[key := stats'[key].(sessions := stats'[key].sessions + 1)];
    MonthTableStep(before, stats', order', sessions, i, calendar);
  }

  /** `session.expenses.forEach(e => monthStats[key].total += e.amount)`. */
  method AddAmounts(stats: map<string, MonthStat>, key: string, expenses: seq<Expense>)
    returns (r: map<string, MonthStat>)
    requires key in stats
    ensures r.Keys == stats.Keys
    ensures forall k :: k in stats && k != key ==> r[k] == stats[k]
    ensures r[key] == stats[key].(total := stats[key].total + FlatTotal(expenses))
  {
    r := stats;
    var j := 0;
    while j < |expenses|
      invariant 0 <= j <= |expenses|
      invariant r.Keys == stats.Keys
      invariant forall k :: k in stats && k != key ==> r[k] == stats[k]
      invariant r[key] == stats[key].(total := stats[key].total + FlatTotal(expenses[..j]))
    {
      FlatTotalSnoc(expenses, j);
      r := r[key := r[key].(total := r[key].total + expenses[j].amount)];
      j := j + 1;
    }
    assert expenses[..j] == expenses;
  }

  lemma MonthTableStep(before: map<string, MonthStat>, after: map<string, MonthStat>, order: seq<string>,
                       sessions: seq<Session>, i: nat, calendar: Timestamp -> MonthYear)
    requires i < |sessions|
    requires var key := SessionKey(calendar, sessions[i]);
      && order == SeenKeys(sessions[..i + 1], calendar)
      && (forall k :: k in before <==> k in order)
      && (forall k :: k in before && k != key ==>
            before[k] == MonthStat(MonthTotal(sessions[..i], calendar, k), MonthCount(sessions[..i], calendar, k)))
      && key in before
      && before[key] == (if key in SeenKeys(sessions[..i], calendar)
                         then MonthStat(MonthTotal(sessions[..i], calendar, key), MonthCount(sessions[..i], calendar, key))
                         else MonthStat(0.0, 0))
      && after.Keys == before.Keys
      && (forall k :: k in before && k != key ==> after[k] == before[k])
      && after[key] == MonthStat(before[key].total + FlatTotal(sessions[i].expenses), before[key].sessions + 1)
    ensures MonthTable(after, order, sessions[..i + 1], calendar)
  {
    forall k | k in after
      ensures after[k] == MonthStat(MonthTotal(sessions[..i + 1], calendar, k), MonthCount(sessions[..i + 1], calendar, k))
    {
      MonthSnoc(sessions, i, calendar, k);
      SeenKeysAre(sessions[..i], calendar, k);
    }
  }

  function RowKeys(rows: seq<MonthRow>): (ks: seq<string>)
    ensures |ks| == |rows| && forall i :: 0 <= i < |rows| ==> ks[i] == rows[i].key
  {
    seq(|rows|, i requires 0 <= i < |rows| => rows[i].key)
  }

  /** `getStatsByMonth`: one row per month that has a session, later months first, each
      with its label, the flat sum of its sessions' expenses and its number of sessions. */
  method StatsByMonth(sessions: seq<Session>, calendar: Timestamp -> MonthYear) returns (rows: seq<MonthRow>)
    ensures multiset(RowKeys(rows)) == multiset(SeenKeys(sessions, calendar))
    ensures forall i :: 0 <= i < |rows| ==>
      && IsMonthKey(rows[i].key)
      && rows[i].display == MonthLabel(rows[i].key)
      && rows[i].total == MonthTotal(sessions, calendar, rows[i].key)
      && rows[i].sessions == MonthCount(sessions, calendar, rows[i].key)
      && rows[i].sessions >= 1
    ensures forall i, j :: 0 <= i < j < |rows| ==> KeyCompare(rows[i].key, rows[j].key) < 0
  {
    var stats, order := MonthTableOf(sessions, calendar);
    var sorted := SortDesc(order, KeyRank);
    SortDescSorted(order, KeyRank);
    DistinctPermutation(order, sorted);
    forall k | k in sorted ensures k in stats && IsMonthKey(k) && MonthYearKey(PeriodOf(k)) == k
      && MonthCount(sessions, calendar, k) >= 1
    {
      assert k in multiset(order);
      SeenKeysAre(sessions, calendar, k);
    }
    SortedKeysStrict(sorted);
    rows := seq(|sorted|, n requires 0 <= n < |sorted| =>
                MonthRow(sorted[n], MonthLabel(sorted[n]), stats[sorted[n]].total, stats[sorted[n]].sessions));
    assert RowKeys(rows) == sorted;
  }

  /** Month keys of distinct months sorted by rank are in strict comparator order. */
  lemma SortedKeysStrict(sorted: seq<string>)
    requires SortedDesc(sorted, KeyRank) && Distinct(sorted)
    requires forall k :: k in sorted ==> IsMonthKey(k) && MonthYearKey(PeriodOf(k)) == k
    ensures forall i, j :: 0 <= i < j < |sorted| ==> KeyCompare(sorted[i], sorted[j]) < 0
  {
    forall i, j | 0 <= i < j < |sorted| ensures KeyCompare(sorted[i], sorted[j]) < 0 {
      var p, q := PeriodOf(sorted[i]), PeriodOf(sorted[j]);
      assert sorted[i] in sorted && sorted[j] in sorted;
      CompareIsRank(p, q);
    }
  }

  // ---------------------------------------------------------------------------
  // By month: the rows partition the sessions

  /** The session counts of the months of `keys`, added up. */
  function CountOver(keys: seq<string>, sessions: seq<Session>, calendar: Timestamp -> MonthYear): nat {
    if keys == [] then 0 else MonthCount(sessions, calendar, keys[0]) + CountOver(keys[1..], sessions, calendar)
  }

  /** The totals of the months of `keys`, added up. */
  function TotalOver(keys: seq<string>, sessions: seq<Session>, calendar: Timestamp -> MonthYear): real {
    if keys == [] then 0.0 else MonthTotal(sessions, calendar, keys[0]) + TotalOver(keys[1..], sessions, calendar)
  }

  lemma {:induction false} OverSnoc(keys: seq<string>, sessions: seq<Session>, x: Session, calendar: Timestamp -> MonthYear)
    ensures var n := multiset(keys)[SessionKey(calendar, x)];
      && CountOver(keys, sessions + [x], calendar) == CountOver(keys, sessions, calendar) + n
      && TotalOver(keys, sessions + [x], calendar)
         == TotalOver(keys, sessions, calendar) + ExpenseUtils.Times(n, FlatTotal(x.expenses))
  {
    var kx := SessionKey(calendar, x);
    if keys == [] {
      assert multiset(keys)[kx] == 0;
    } else {
      OverSnoc(keys[1..], sessions, x, calendar);
      Cons(keys);
      assert multiset(keys) == multiset{keys[0]} + multiset(keys[1..]);
      assert (sessions + [x])[..|sessions|] == sessions;
      var m := multiset(keys[1..])[kx];
      if keys[0] == kx {
        assert ExpenseUtils.Times(m + 1, FlatTotal(x.expenses)) == ExpenseUtils.Times(m, FlatTotal(x.expenses)) + FlatTotal(x.expenses);
      }
    }
  }

  lemma {:induction false} OverNone(keys: seq<string>, calendar: Timestamp -> MonthYear)
    ensures CountOver(keys, [], calendar) == 0 && TotalOver(keys, [], calendar) == 0.0
  {
    if keys != [] {
      OverNone(keys[1..], calendar);
    }
  }

  /** Over a list of distinct keys that includes every session's month, the counts add up
      to the number of sessions and the totals to the grand total. */
  lemma {:induction false} MonthsCover(keys: seq<string>, sessions: seq<Session>, calendar: Timestamp -> MonthYear)
    requires Distinct(keys)
    requires forall i :: 0 <= i < |sessions| ==> SessionKey(calendar, sessions[i]) in keys
    ensures CountOver(keys, sessions, calendar) == |sessions|
    ensures TotalOver(keys, sessions, calendar) == GrandTotal(sessions)
  {
    if sessions == [] {
      OverNone(keys, calendar);
    } else {
      var init, x := sessions[..|sessions| - 1], sessions[|sessions| - 1];
      Snoc(sessions);
      MonthsCover(keys, init, calendar);
      OverSnoc(keys, init, x, calendar);
      DistinctOnce(keys, SessionKey(calendar, x));
      ExpenseUtils.TimesOne(FlatTotal(x.expenses));
    }
  }

  function SumSessions(rows: seq<MonthRow>): nat {
    if rows == [] then 0 else rows[0].sessions + SumSessions(rows[1..])
  }

  function SumTotals(rows: seq<MonthRow>): real {
    if rows == [] then 0.0 else rows[0].total + SumTotals(rows[1..])
  }

  lemma {:induction false} RowSums(rows: seq<MonthRow>, sessions: seq<Session>, calendar: Timestamp -> MonthYear)
    requires forall i :: 0 <= i < |rows| ==>
      rows[i].total == MonthTotal(sessions, calendar, rows[i].key)
      && rows[i].sessions == MonthCount(sessions, calendar, rows[i].key)
    ensures SumSessions(rows) == CountOver(RowKeys(rows), sessions, calendar)
    ensures SumTotals(rows) == TotalOver(RowKeys(rows), sessions, calendar)
  {
    if rows != [] {
      assert RowKeys(rows)[1..] == RowKeys(rows[1..]);
      RowSums(rows[1..], sessions, calendar);
    }
  }

  /** The by-month rows partition the sessions: their counts add up to the number of
      sessions and their totals to the sum of all expenses. */
  lemma MonthRowsPartition(rows: seq<MonthRow>, sessions: seq<Session>, calendar: Timestamp -> MonthYear)
    requires multiset(RowKeys(rows)) == multiset(SeenKeys(sessions, calendar))
    requires forall i :: 0 <= i < |rows| ==>
      rows[i].total == MonthTotal(sessions, calendar, rows[i].key)
      && rows[i].sessions == MonthCount(sessions, calendar, rows[i].key)
    ensures SumSessions(rows) == |sessions|
    ensures SumTotals(rows) == GrandTotal(sessions)
  {
    var keys := RowKeys(rows);
    DistinctPermutation(SeenKeys(sessions, calendar), keys);
    forall i | 0 <= i < |sessions| ensures SessionKey(calendar, sessions[i]) in keys {
      var k := SessionKey(calendar, sessions[i]);
      MonthCountPositive(sessions, calendar, i);
      SeenKeysAre(sessions, calendar, k);
      assert k in multiset(keys);
    }
    MonthsCover(keys, sessions, calendar);
    RowSums(rows, sessions, calendar);
  }

  lemma {:induction false} MonthCountPositive(sessions: seq<Session>, calendar: Timestamp -> MonthYear, i: nat)
    requires i < |sessions|
    ensures MonthCount(sessions, calendar, SessionKey(calendar, sessions[i])) >= 1
  {
    if i < |sessions| - 1 {
      MonthCountPositive(sessions[..|sessions| - 1], calendar, i);
      assert sessions[..|sessions| - 1][i] == sessions[i];
    }
  }

  // ---------------------------------------------------------------------------
  // By type

  datatype TypeRow = TypeRow(kind: ExpenseType, amount: real)

  function AmountOf(r: TypeRow): real {
    r.amount
  }

  /** The amounts of the expenses of type `t`, added up. */
  function TypeSum(expenses: seq<Expense>, t: ExpenseType): real {
    if expenses == [] then 0.0
    else TypeSum(expenses[..|expenses| - 1], t)
         + (if expenses[|expenses| - 1].kind == t then expenses[|expenses| - 1].amount else 0.0)
  }

  /** The amounts of all expenses of type `t` in all sessions. */
  function TypeTotal(sessions: seq<Session>, t: ExpenseType): real {
    if sessions == [] then 0.0
    else TypeTotal(sessions[..|sessions| - 1], t) + TypeSum(sessions[|sessions| - 1].expenses, t)
  }

  /** The dictionary's entries in its key order, which is the declaration order. */
  function TypeEntries(sessions: seq<Session>): (rows: seq<TypeRow>)
    ensures |rows| == 5
    ensures forall i :: 0 <= i < 5 ==> rows[i] == TypeRow(AllTypes[i], TypeTotal(sessions, AllTypes[i]))
  {
    seq(5, i requires 0 <= i < 5 => TypeRow(AllTypes[i], TypeTotal(sessions, AllTypes[i])))
  }

  /** `typeStats[expense.type] += expense.amount` for each expense of one session. */
  method AddByType(table: map<ExpenseType, real>, expenses: seq<Expense>) returns (r: map<ExpenseType, real>)
    requires forall t :: t in table
    ensures forall t :: t in r && r[t] == table[t] + TypeSum(expenses, t)
  {
    r := table;
    var j := 0;
    while j < |expenses|
      invariant 0 <= j <= |expenses|
      invariant forall t :: t in r && r[t] == table[t] + TypeSum(expenses[..j], t)
    {
      assert expenses[..j + 1][..j] == expenses[..j];
      var e := expenses[j];
      r := r[e.kind := r[e.kind] + e.amount];
      j := j + 1;
    }
    assert expenses[..j] == expenses;
  }

  /** `getStatsByType`: the five types start at 0 and every expense of every session is
      added to its type's entry; the entries are then sorted by amount, largest first. */
  method StatsByType(sessions: seq<Session>) returns (rows: seq<TypeRow>)
    ensures rows == SortDesc(TypeEntries(sessions), AmountOf)
    ensures |rows| == 5 && multiset(rows) == multiset(TypeEntries(sessions))
    ensures SortedDesc(rows, AmountOf)
  {
    var table := map[CourtFee := 0.0, Shuttle := 0.0, Drink := 0.0, Equipment := 0.0, Other := 0.0];
    var i := 0;
    forall t: ExpenseType ensures t in table && table[t] == TypeTotal(sessions[..0], t) {
      assert sessions[..0] == [];
      assert t.CourtFee? || t.Shuttle? || t.Drink? || t.Equipment? || t.Other?;
    }
    while i < |sessions|
      invariant 0 <= i <= |sessions|
      invariant forall t :: t in table && table[t] == TypeTotal(sessions[..i], t)
    {
      assert sessions[..i + 1][..i] == sessions[..i];
      table := AddByType(table, sessions[i].expenses);
      i := i + 1;
    }
    assert sessions[..i] == sessions;
    var entries := seq(5, k requires 0 <= k < 5 => TypeRow(AllTypes[k], table[AllTypes[k]]));
    assert entries == TypeEntries(sessions);
    rows := SortDesc(entries, AmountOf);
    SortDescSorted(entries, AmountOf);
  }

  /** Each type's entry follows the types that tie with it in declaration order. */
  lemma StatsByTypeStable(sessions: seq<Session>, v: real)
    ensures WithKey(SortDesc(TypeEntries(sessions), AmountOf), AmountOf, v) == WithKey(TypeEntries(sessions), AmountOf, v)
  {
    SortDescStable(TypeEntries(sessions), AmountOf, v);
  }

  /** Every expense is counted under exactly one type. */
  lemma {:induction false} TypeSumsPartition(expenses: seq<Expense>)
    ensures TypeSum(expenses, CourtFee) + TypeSum(expenses, Shuttle) + TypeSum(expenses, Drink)
            + TypeSum(expenses, Equipment) + TypeSum(expenses, Other) == FlatTotal(expenses)
  {
    if expenses != [] {
      TypeSumsPartition(expenses[..|expenses| - 1]);
    }
  }

  lemma {:induction false} TypeTotalsPartition(sessions: seq<Session>)
    ensures TypeTotal(sessions, CourtFee) + TypeTotal(sessions, Shuttle) + TypeTotal(sessions, Drink)
            + TypeTotal(sessions, Equipment) + TypeTotal(sessions, Other) == GrandTotal(sessions)
  {
    if sessions != [] {
      TypeTotalsPartition(sessions[..|sessions| - 1]);
      TypeSumsPartition(sessions[|sessions| - 1].expenses);
    }
  }

  /** `typeStats.reduce((sum, item) => sum + item.amount, 0)` is the sum of all expenses. */
  lemma ByTypeTotal(sessions: seq<Session>)
    ensures SumBy(SortDesc(TypeEntries(sessions), AmountOf), AmountOf) == GrandTotal(sessions)
  {
    var entries := TypeEntries(sessions);
    SumByPermutation(SortDesc(entries, AmountOf), entries, AmountOf);
    TypeTotalsPartition(sessions);
    var e1 := entries[1..];
    var e2 := e1[1..];
    var e3 := e2[1..];
    var e4 := e3[1..];
    assert e4[1..] == [];
    assert SumBy(e4, AmountOf) == TypeTotal(sessions, Other);
    assert SumBy(e3, AmountOf) == TypeTotal(sessions, Equipment) + SumBy(e4, AmountOf);
    assert SumBy(e2, AmountOf) == TypeTotal(sessions, Drink) + SumBy(e3, AmountOf);
    assert SumBy(e1, AmountOf) == TypeTotal(sessions, Shuttle) + SumBy(e2, AmountOf);
  }

  /** No expense amount is negative. */
  predicate NonNegativeAmounts(sessions: seq<Session>) {
    forall i, j :: 0 <= i < |sessions| && 0 <= j < |sessions[i].expenses| ==> sessions[i].expenses[j].amount >= 0.0
  }

  lemma {:induction false} FlatTotalZero(expenses: seq<Expense>)
    requires forall j :: 0 <= j < |expenses| ==> expenses[j].amount >= 0.0
    ensures FlatTotal(expenses) == 0.0 <==> forall j :: 0 <= j < |expenses| ==> expenses[j].amount == 0.0
  {
    if expenses != [] {
      var init := expenses[..|expenses| - 1];
      FlatTotalZero(init);
      FlatTotalNonNegative(init);
    }
  }

  lemma {:induction false} GrandTotalZero(sessions: seq<Session>)
    requires NonNegativeAmounts(sessions)
    ensures GrandTotal(sessions) >= 0.0
    ensures GrandTotal(sessions) == 0.0 <==>
            forall i, j :: 0 <= i < |sessions| && 0 <= j < |sessions[i].expenses| ==> sessions[i].expenses[j].amount == 0.0
  {
    if sessions != [] {
      var init, last := sessions[..|sessions| - 1], sessions[|sessions| - 1];
      assert NonNegativeAmounts(init) by {
        forall i, j | 0 <= i < |init| && 0 <= j < |init[i].expenses| ensures init[i].expenses[j].amount >= 0.0 {
          assert init[i] == sessions[i];
        }
      }
      GrandTotalZero(init);
      FlatTotalZero(last.expenses);
      FlatTotalNonNegative(last.expenses);
      forall i | 0 <= i < |init| ensures init[i] == sessions[i] { }
    }
  }

  /** With no negative amounts the by-type view shows "no data" exactly when every
      expense amount is zero (sessions without expenses included). */
  lemma ByTypeEmpty(sessions: seq<Session>)
    requires NonNegativeAmounts(sessions)
    ensures SumBy(SortDesc(TypeEntries(sessions), AmountOf), AmountOf) == 0.0 <==>
            forall i, j :: 0 <= i < |sessions| && 0 <= j < |sessions[i].expenses| ==> sessions[i].expenses[j].amount == 0.0
  {
    ByTypeTotal(sessions);
    GrandTotalZero(sessions);
  }

  /** `Math.round((amount / total) * 100)`, the share of a type in percent. */
  function Percent(amount: real, total: real): int
    requires total != 0.0
  {
    Round(amount / total * 100.0)
  }

  /** A part of a positive total is between 0 and 100 percent of it. */
  lemma PercentBounds(amount: real, total: real)
    requires 0.0 <= amount <= total && total > 0.0
    ensures 0 <= Percent(amount, total) <= 100
  {
    assert 0.0 <= amount / total <= 1.0;
  }

  // ---------------------------------------------------------------------------
  // By player

  /** An entry of the by-player view: the player's name, the number of times they were in
      a session and what they paid in all. */
  datatype PlayerRow = PlayerRow(name: string, sessions: nat, totalPaid: real)

  function PaidOf(r: PlayerRow): real {
    r.totalPaid
  }

  /** What the reducer credits one listed player with for one session. */
  datatype Credit = Credit(player: Player, amount: real)

  /** `sessionTotal / playerCount`: the session's flat total over its number of players,
      whatever `divideAmong` says. */
  function PerHead(s: Session): real
    requires |s.players| > 0
  {
    FlatTotal(s.expenses) / |s.players| as real
  }

  /** The credits for one session: one per listed player, none for a session without players. */
  function SessionCredits(s: Session): (cs: seq<Credit>)
    ensures |cs| == |s.players|
    ensures forall j :: 0 <= j < |cs| ==> cs[j] == Credit(s.players[j], PerHead(s))
  {
    if |s.players| == 0 then []
    else seq(|s.players|, j requires 0 <= j < |s.players| => Credit(s.players[j], PerHead(s)))
  }

  /** All credits, session by session. */
  function Credits(sessions: seq<Session>): seq<Credit> {
    if sessions == [] then []
    else Credits(sessions[..|sessions| - 1]) + SessionCredits(sessions[|sessions| - 1])
  }

  /** How many credits went to the id `id`. */
  function CreditCount(cs: seq<Credit>, id: Id): nat {
    if cs == [] then 0
    else CreditCount(cs[..|cs| - 1], id) + (if cs[|cs| - 1].player.id == id then 1 else 0)
  }

  /** What the credits to the id `id` add up to. */
  function CreditSum(cs: seq<Credit>, id: Id): real {
    if cs == [] then 0.0
    else CreditSum(cs[..|cs| - 1], id) + (if cs[|cs| - 1].player.id == id then cs[|cs| - 1].amount else 0.0)
  }

  /** The credited players in order of first appearance of their id, each as it first
      appeared (so with the name it had there). */
  function FirstSeen(cs: seq<Credit>): (ps: seq<Player>)
    ensures UniqueIds(ps)
  {
    if cs == [] then []
    else
      var ps := FirstSeen(cs[..|cs| - 1]);
      var p := cs[|cs| - 1].player;
      if p.id in PlayerIds(ps) then ps
      else
        ExpenseUtils.PlayerIdsSnoc(ps, p);
        ps + [p]
  }

  /** Object.values of the finished dictionary, in its key order. */
  function PlayerEntries(sessions: seq<Session>): (rows: seq<PlayerRow>)
    ensures var cs, seen := Credits(sessions), FirstSeen(Credits(sessions));
      |rows| == |seen| &&
      forall n :: 0 <= n < |rows| ==>
        rows[n] == PlayerRow(seen[n].name, CreditCount(cs, seen[n].id), CreditSum(cs, seen[n].id))
  {
    var cs := Credits(sessions);
    var seen := FirstSeen(cs);
    seq(|seen|, n requires 0 <= n < |seen| => PlayerRow(seen[n].name, CreditCount(cs, seen[n].id), CreditSum(cs, seen[n].id)))
  }

  lemma CreditSnoc(cs: seq<Credit>, c: Credit, id: Id)
    ensures CreditCount(cs + [c], id) == CreditCount(cs, id) + (if c.player.id == id then 1 else 0)
    ensures CreditSum(cs + [c], id) == CreditSum(cs, id) + (if c.player.id == id then c.amount else 0.0)
    ensures FirstSeen(cs + [c]) == if c.player.id in PlayerIds(FirstSeen(cs)) then FirstSeen(cs) else FirstSeen(cs) + [c.player]
  {
    CreditAdd(cs, c, id);
    FirstSeenSnoc(cs, c);
  }

  lemma FirstSeenSnoc(cs: seq<Credit>, c: Credit)
    ensures FirstSeen(cs + [c]) == if c.player.id in PlayerIds(FirstSeen(cs)) then FirstSeen(cs) else FirstSeen(cs) + [c.player]
  {
    assert (cs + [c])[..|cs|] == cs;
  }

  lemma CreditAdd(cs: seq<Credit>, c: Credit, id: Id)
    ensures CreditCount(cs + [c], id) == CreditCount(cs, id) + (if c.player.id == id then 1 else 0)
    ensures CreditSum(cs + [c], id) == CreditSum(cs, id) + (if c.player.id == id then c.amount else 0.0)
    ensures (cs + [c])[..|cs|] == cs
  {
    assert (cs + [c])[..|cs|] == cs;
  }

  /** An id nobody has been credited with has no credits. */
  lemma {:induction false} FirstSeenCovers(cs: seq<Credit>, id: Id)
    ensures id in PlayerIds(FirstSeen(cs)) <==> CreditCount(cs, id) >= 1
    ensures id !in PlayerIds(FirstSeen(cs)) ==> CreditSum(cs, id) == 0.0
  {
    if cs != [] {
      var init, c := cs[..|cs| - 1], cs[|cs| - 1];
      FirstSeenCovers(init, id);
      ExpenseUtils.PlayerIdsSnoc(FirstSeen(init), c.player);
    }
  }

  /** The dictionary of the by-player reducer after the credits `cs`. */
  ghost predicate PlayerTable(stats: map<Id, PlayerRow>, order: seq<Id>, cs: seq<Credit>) {
    var seen := FirstSeen(cs);
    && order == PlayerIds(seen)
    && (forall id :: id in stats <==> id in order)
    && (forall n :: 0 <= n < |seen| ==>
          && seen[n].id in stats
          && stats[seen[n].id] == PlayerRow(seen[n].name, CreditCount(cs, seen[n].id), CreditSum(cs, seen[n].id)))
  }

  /** Crediting an id already in the dictionary. */
  lemma CreditKnown(before: map<Id, PlayerRow>, after: map<Id, PlayerRow>, order: seq<Id>, cs: seq<Credit>, c: Credit)
    requires PlayerTable(before, order, cs)
    requires var id := c.player.id;
      && id in before
      && after.Keys == before.Keys
      && (forall k :: k in before && k != id ==> after[k] == before[k])
      && after[id] == PlayerRow(before[id].name, before[id].sessions + 1, before[id].totalPaid + c.amount)
    ensures PlayerTable(after, order, cs + [c])
  {
    var seen := FirstSeen(cs);
    FirstSeenSnoc(cs, c);
    CreditAdd(cs, c, c.player.id);
    forall n | 0 <= n < |seen|
      ensures seen[n].id in after &&
        after[seen[n].id] == PlayerRow(seen[n].name, CreditCount(cs + [c], seen[n].id), CreditSum(cs + [c], seen[n].id))
    {
      CreditAdd(cs, c, seen[n].id);
    }
  }

  /** Crediting an id met for the first time: its entry starts with this player's name. */
  lemma CreditNew(before: map<Id, PlayerRow>, after: map<Id, PlayerRow>, order: seq<Id>, cs: seq<Credit>, c: Credit)
    requires PlayerTable(before, order, cs)
    requires var id := c.player.id;
      && id !in before
      && after.Keys == before.Keys + {id}
      && (forall k :: k in before ==> after[k] == before[k])
      && after[id] == PlayerRow(c.player.name, 1, 0.0 + c.amount)
    ensures PlayerTable(after, order + [c.player.id], cs + [c])
  {
    var id := c.player.id;
    var seen := FirstSeen(cs);
    CreditSnoc(cs, c, id);
    FirstSeenCovers(cs, id);
    ExpenseUtils.PlayerIdsSnoc(seen, c.player);
    var seen' := seen + [c.player];
    forall n | 0 <= n < |seen'|
      ensures seen'[n].id in after &&
        after[seen'[n].id] == PlayerRow(seen'[n].name, CreditCount(cs + [c], seen'[n].id), CreditSum(cs + [c], seen'[n].id))
    {
      CreditAdd(cs, c, seen'[n].id);
      if n < |seen| {
        assert seen'[n] == seen[n];
        assert PlayerIds(seen)[n] == seen[n].id;
      }
    }
  }

  /** `let sessionTotal = 0; session.expenses.forEach(e => sessionTotal += e.amount)`. */
  method SessionTotal(expenses: seq<Expense>) returns (total: real)
    ensures total == FlatTotal(expenses)
  {
    total := 0.0;
    var j := 0;
    while j < |expenses|
      invariant 0 <= j <= |expenses|
      invariant total == FlatTotal(expenses[..j])
    {
      FlatTotalSnoc(expenses, j);
      total := total + expenses[j].amount;
      j := j + 1;
    }
    assert expenses[..j] == expenses;
  }

  /** One session of `getStatsByPlayer`: skipped without players, otherwise each listed
      player's entry is created if missing and gets one more session and the per-head cost. */
  method CreditSession(stats: map<Id, PlayerRow>, order: seq<Id>, s: Session, ghost cs: seq<Credit>)
    returns (stats': map<Id, PlayerRow>, order': seq<Id>)
    requires PlayerTable(stats, order, cs)
    ensures PlayerTable(stats', order', cs + SessionCredits(s))
  {
    var sessionTotal := SessionTotal(s.expenses);
    var playerCount := |s.players|;
    if playerCount == 0 {
      assert cs + SessionCredits(s) == cs;
      return stats, order;
    }
    var perPlayerCost := sessionTotal / playerCount as real;
    stats', order' := stats, order;
    var j := 0;
    ghost var credits := SessionCredits(s);
    assert cs + credits[..0] == cs;
    while j < playerCount
      invariant 0 <= j <= playerCount
      invariant PlayerTable(stats', order', cs + credits[..j])
    {
      assert credits[j] == Credit(s.players[j], perPlayerCost);
      stats', order' := CreditPlayer(stats', order', s.players[j], perPlayerCost, cs + credits[..j]);
      AppendSlice(cs, credits, j);
      j := j + 1;
    }
    assert credits[..j] == credits;
  }

  /** The body of `session.players.forEach`: the player's entry is created with their name
      if their id is new, then gets one more session and `perPlayerCost` more paid. */
  method CreditPlayer(stats: map<Id, PlayerRow>, order: seq<Id>, player: Player, perPlayerCost: real,
                      ghost cs: seq<Credit>)
    returns (stats': map<Id, PlayerRow>, order': seq<Id>)
    requires PlayerTable(stats, order, cs)
    ensures PlayerTable(stats', order', cs + [Credit(player, perPlayerCost)])
  {
    stats', order' := stats, order;
    var known := player.id in stats';
    if !known {
      stats' := stats'[player.id := PlayerRow(player.name, 0, 0.0)];
      order' := order' + [player.id];
    }
    var row := stats'[player.id];
    stats' := stats'[player.id := PlayerRow(row.name, row.sessions + 1, row.totalPaid + perPlayerCost)];
    if known {
      CreditKnown(stats, stats', order, cs, Credit(player, perPlayerCost));
    } else {
      CreditNew(stats, stats', order, cs, Credit(player, perPlayerCost));
    }
  }

  /** `getStatsByPlayer`: an entry per player id met in the sessions, in order of first
      appearance, sorted by what they paid, largest first. */
  method StatsByPlayer(sessions: seq<Session>) returns (rows: seq<PlayerRow>)
    ensures rows == SortDesc(PlayerEntries(sessions), PaidOf)
    ensures multiset(rows) == multiset(PlayerEntries(sessions))
    ensures SortedDesc(rows, PaidOf)
  {
    var stats: map<Id, PlayerRow>, order: seq<Id> := map[], [];
    var i := 0;
    while i < |sessions|
      invariant 0 <= i <= |sessions|
      invariant PlayerTable(stats, order, Credits(sessions[..i]))
    {
      assert sessions[..i + 1][..i] == sessions[..i];
      stats, order := CreditSession(stats, order, sessions[i], Credits(sessions[..i]));
      i := i + 1;
    }
    assert sessions[..i] == sessions;
    var values := seq(|order|, n requires 0 <= n < |order| => stats[order[n]]);
    assert values == PlayerEntries(sessions);
    rows := SortDesc(values, PaidOf);
    SortDescSorted(values, PaidOf);
  }

  // ---------------------------------------------------------------------------
  // By player: what one session does, and how the view relates to the splitter

  lemma {:induction false} SessionCountPrefix(cs: seq<Credit>, s: Session, id: Id, j: nat)
    requires 0 < |s.players| && j <= |s.players|
    ensures CreditCount(cs + SessionCredits(s)[..j], id) == CreditCount(cs, id) + ExpenseUtils.CountId(s.players[..j], id)
  {
    var credits := SessionCredits(s);
    if j == 0 {
      assert cs + credits[..0] == cs;
      assert s.players[..0] == [];
    } else {
      SessionCountPrefix(cs, s, id, j - 1);
      var pre, c := cs + credits[..j - 1], credits[j - 1];
      AppendSlice(cs, credits, j - 1);
      CreditAdd(pre, c, id);
      ExpenseUtils.CountIdSnoc(s.players, j - 1, id);
    }
  }

  lemma {:induction false} SessionSumPrefix(cs: seq<Credit>, s: Session, id: Id, j: nat)
    requires 0 < |s.players| && j <= |s.players|
    ensures CreditSum(cs + SessionCredits(s)[..j], id)
            == CreditSum(cs, id) + ExpenseUtils.Times(ExpenseUtils.CountId(s.players[..j], id), PerHead(s))
  {
    var credits := SessionCredits(s);
    if j == 0 {
      assert cs + credits[..0] == cs;
      assert s.players[..0] == [];
    } else {
      SessionSumPrefix(cs, s, id, j - 1);
      var pre, c := cs + credits[..j - 1], credits[j - 1];
      assert c == Credit(s.players[j - 1], PerHead(s));
      AppendSlice(cs, credits, j - 1);
      CreditAdd(pre, c, id);
      var n := ExpenseUtils.CountId(s.players[..j - 1], id);
      ExpenseUtils.CountIdSnoc(s.players, j - 1, id);
      ExpenseUtils.AddOneMore(n, PerHead(s));
    }
  }

  /** One session adds, for every id, one session per time the id is listed and the
      session's flat total over its number of players each time; a session without players
      adds nothing. `divideAmong` plays no part. */
  lemma SessionCreditsRule(cs: seq<Credit>, s: Session, id: Id)
    ensures CreditCount(cs + SessionCredits(s), id) == CreditCount(cs, id) + ExpenseUtils.CountId(s.players, id)
    ensures CreditSum(cs + SessionCredits(s), id)
            == CreditSum(cs, id) + if |s.players| == 0 then 0.0
                                   else ExpenseUtils.Times(ExpenseUtils.CountId(s.players, id), PerHead(s))
  {
    if |s.players| == 0 {
      assert cs + SessionCredits(s) == cs;
    } else {
      SessionCountPrefix(cs, s, id, |s.players|);
      SessionSumPrefix(cs, s, id, |s.players|);
      assert SessionCredits(s)[..|s.players|] == SessionCredits(s);
      assert s.players[..|s.players|] == s.players;
    }
  }

  /** Every entry of the by-player view has at least one session, so its average is defined. */
  lemma PlayerEntriesCounted(sessions: seq<Session>, n: nat)
    requires n < |PlayerEntries(sessions)|
    ensures PlayerEntries(sessions)[n].sessions >= 1
  {
    var seen := FirstSeen(Credits(sessions));
    assert PlayerIds(seen)[n] == seen[n].id;
    FirstSeenCovers(Credits(sessions), seen[n].id);
  }

  /** The average a month or player row shows: the amount which, added once per session,
      gives the row's total. */
  function Average(total: real, count: nat): (r: real)
    requires count >= 1
    ensures ExpenseUtils.Times(count, r) == total
  {
    ExpenseUtils.TimesPerHead(count, total);
    total / count as real
  }

  /** When no expense of a session has `divideAmong` and its players have distinct ids, the
      by-player rule and the splitter agree on every player of the session. */
  lemma {:induction false} FlatSplitAgrees(s: Session, p: Player)
    requires UniqueIds(s.players) && p in s.players
    requires forall e :: e in s.expenses ==> e.divideAmong.None?
    ensures ExpenseUtils.Share(s.players, s.expenses, p.id) == PerHead(s)
    decreases |s.expenses|
  {
    if s.expenses != [] {
      var init, e := s.expenses[..|s.expenses| - 1], s.expenses[|s.expenses| - 1];
      FlatSplitAgrees(s.(expenses := init), p);
      ExpenseUtils.ContributionUndivided(s.players, e, p);
      DivideSum(FlatTotal(init), e.amount, |s.players| as real);
    }
  }

  lemma DivideSum(a: real, b: real, n: real)
    requires n > 0.0
    ensures (a + b) / n == a / n + b / n
  {
  }

  /** Where an expense is divided among some players only, the two disagree: in the worked
      session of the splitter the by-player view charges the third player 130000 while the
      splitter charges 100000. */
  lemma FlatSplitDiverges(s: Session, a: Player, b: Player, c: Player, e1: Expense, e2: Expense)
    requires s.players == [a, b, c] && s.expenses == [e1, e2]
    requires a.id != b.id && b.id != c.id && a.id != c.id
    requires e1.amount == 300000.0 && e1.divideAmong.None?
    requires e2.amount == 90000.0 && e2.divideAmong == Some([a.id, b.id])
    ensures CreditSum(Credits([s]), c.id) == 130000.0
    ensures ExpenseUtils.Share(s.players, s.expenses, c.id) == 100000.0
  {
    assert [s][..0] == [];
    assert Credits([s]) == [] + SessionCredits(s);
    SessionCreditsRule([], s, c.id);
    ExpenseUtils.Scenario(a, b, c, e1, e2);
    var players := s.players;
    assert UniqueIds(players);
    assert PlayerIds(players)[2] == c.id;
    ExpenseUtils.CountIdUnique(players, c.id);
    ExpenseUtils.TimesOne(PerHead(s));
  }

  // ---------------------------------------------------------------------------
  // By player: conservation

  /** The flat totals of the sessions that have players; a session without players is
      credited to nobody. */
  function PlayedTotal(sessions: seq<Session>): real {
    if sessions == [] then 0.0
    else
      var s := sessions[|sessions| - 1];
      PlayedTotal(sessions[..|sessions| - 1]) + if |s.players| == 0 then 0.0 else FlatTotal(s.expenses)
  }

  /** What all the credits add up to. */
  function CreditTotal(cs: seq<Credit>): real {
    if cs == [] then 0.0 else CreditTotal(cs[..|cs| - 1]) + cs[|cs| - 1].amount
  }

  /** What the players of `ps` were credited in all. */
  function PaidBy(ps: seq<Player>, cs: seq<Credit>): real {
    if ps == [] then 0.0 else CreditSum(cs, ps[0].id) + PaidBy(ps[1..], cs)
  }

  lemma {:induction false} CreditTotalAppend(a: seq<Credit>, b: seq<Credit>)
    ensures CreditTotal(a + b) == CreditTotal(a) + CreditTotal(b)
    decreases |b|
  {
    if b == [] {
      assert a + b == a;
    } else {
      var init := b[..|b| - 1];
      assert (a + b)[..|a + b| - 1] == a + init;
      CreditTotalAppend(a, init);
    }
  }

  lemma {:induction false} SessionCreditsTotalPrefix(s: Session, j: nat)
    requires 0 < |s.players| && j <= |s.players|
    ensures CreditTotal(SessionCredits(s)[..j]) == ExpenseUtils.Times(j, PerHead(s))
  {
    if j > 0 {
      var credits := SessionCredits(s);
      assert credits[..j][..j - 1] == credits[..j - 1];
      SessionCreditsTotalPrefix(s, j - 1);
    }
  }

  /** A session with players hands out exactly its flat total. */
  lemma SessionCreditsTotal(s: Session)
    ensures CreditTotal(SessionCredits(s)) == if |s.players| == 0 then 0.0 else FlatTotal(s.expenses)
  {
    if |s.players| > 0 {
      SessionCreditsTotalPrefix(s, |s.players|);
      assert SessionCredits(s)[..|s.players|] == SessionCredits(s);
      ExpenseUtils.TimesPerHead(|s.players|, FlatTotal(s.expenses));
    }
  }

  lemma {:induction false} CreditsTotal(sessions: seq<Session>)
    ensures CreditTotal(Credits(sessions)) == PlayedTotal(sessions)
  {
    if sessions != [] {
      var init := sessions[..|sessions| - 1];
      CreditsTotal(init);
      CreditTotalAppend(Credits(init), SessionCredits(sessions[|sessions| - 1]));
      SessionCreditsTotal(sessions[|sessions| - 1]);
    }
  }

  lemma {:induction false} PaidByAppend(ps: seq<Player>, p: Player, cs: seq<Credit>)
    ensures PaidBy(ps + [p], cs) == PaidBy(ps, cs) + CreditSum(cs, p.id)
  {
    if ps != [] {
      assert (ps + [p])[1..] == ps[1..] + [p];
      PaidByAppend(ps[1..], p, cs);
    } else {
      assert (ps + [p])[1..] == [];
    }
  }

  /** One more credit raises the total of players with distinct ids by its amount when its
      id is among theirs. */
  lemma {:induction false} PaidBySnoc(ps: seq<Player>, cs: seq<Credit>, c: Credit)
    requires UniqueIds(ps)
    ensures PaidBy(ps, cs + [c]) == PaidBy(ps, cs) + if c.player.id in PlayerIds(ps) then c.amount else 0.0
  {
    if ps != [] {
      assert UniqueIds(ps[1..]);
      assert PlayerIds(ps) == [ps[0].id] + PlayerIds(ps[1..]);
      if ps[0].id == c.player.id {
        forall j | 0 <= j < |ps[1..]| ensures PlayerIds(ps[1..])[j] != c.player.id {
          assert ps[1..][j] == ps[j + 1];
        }
      }
      PaidBySnoc(ps[1..], cs, c);
      CreditSnoc(cs, c, ps[0].id);
    }
  }

  /** The players first seen in the credits were credited with every credit. */
  lemma {:induction false} PaidByFirstSeen(cs: seq<Credit>)
    ensures PaidBy(FirstSeen(cs), cs) == CreditTotal(cs)
  {
    if cs != [] {
      var init, c := cs[..|cs| - 1], cs[|cs| - 1];
      assert cs == init + [c];
      var seen := FirstSeen(init);
      PaidByFirstSeen(init);
      CreditSnoc(init, c, c.player.id);
      PaidBySnoc(seen, init, c);
      if c.player.id !in PlayerIds(seen) {
        PaidByAppend(seen, c.player, cs);
        FirstSeenCovers(init, c.player.id);
      }
    }
  }

  lemma {:induction false} EntriesPaid(rows: seq<PlayerRow>, ps: seq<Player>, cs: seq<Credit>)
    requires |rows| == |ps|
    requires forall n :: 0 <= n < |rows| ==> rows[n].totalPaid == CreditSum(cs, ps[n].id)
    ensures SumBy(rows, PaidOf) == PaidBy(ps, cs)
  {
    if rows != [] {
      EntriesPaid(rows[1..], ps[1..], cs);
    }
  }

  /** The by-player view hands out exactly the flat totals of the sessions with players. */
  lemma PlayerRowsConserve(sessions: seq<Session>, rows: seq<PlayerRow>)
    requires multiset(rows) == multiset(PlayerEntries(sessions))
    ensures SumBy(rows, PaidOf) == PlayedTotal(sessions)
  {
    var cs := Credits(sessions);
    SumByPermutation(rows, PlayerEntries(sessions), PaidOf);
    EntriesPaid(PlayerEntries(sessions), FirstSeen(cs), cs);
    PaidByFirstSeen(cs);
    CreditsTotal(sessions);
  }
}
