/** The expense splitter: one session becomes a grand total and a share per player.
    Each expense is added to the total; it is then divided equally among its divide-set,
    which is every session player when `divideAmong` is absent and otherwise the session
    players whose id is listed (a present but empty list therefore selects nobody). An
    expense whose divide-set is empty is charged to nobody. */
module ExpenseUtils {
  import opened Wrappers
  import opened Types

  // ---------------------------------------------------------------------------
  // Specification

  /** `players.filter(p => ids.includes(p.id))`. */
  function Listed(players: seq<Player>, ids: seq<Id>): (d: seq<Player>)
    ensures |d| <= |players|
    ensures forall p :: p in d <==> p in players && p.id in ids
  {
    if players == [] then []
    else (if players[0].id in ids then [players[0]] else []) + Listed(players[1..], ids)
  }

  /** The players an expense is divided among (`playersToSplit`). */
  function DivideSet(players: seq<Player>, e: Expense): (d: seq<Player>)
    ensures e.divideAmong.None? ==> d == players
    ensures e.divideAmong.Some? ==> d == Listed(players, e.divideAmong.value)
    ensures forall p :: p in d ==> p in players
  {
    match e.divideAmong
    case None => players
    case Some(ids) => Listed(players, ids)
  }

  /** How many entries of `d` carry the id `id`. */
  function CountId(d: seq<Player>, id: Id): nat {
    if d == [] then 0
    else CountId(d[..|d| - 1], id) + (if d[|d| - 1].id == id then 1 else 0)
  }

  /** `x` added `n` times, the way the per-head amount is added once per occurrence. */
  function Times(n: nat, x: real): real {
    if n == 0 then 0.0 else Times(n - 1, x) + x
  }

  lemma {:induction false} TimesIsProduct(n: nat, x: real)
    ensures Times(n, x) == n as real * x
  {
    if n > 0 {
      TimesIsProduct(n - 1, x);
    }
  }

  /** What one expense adds to the share kept under `id`: its per-head amount once for
      every entry of the divide-set with that id, nothing when the divide-set is empty. */
  function Contribution(players: seq<Player>, e: Expense, id: Id): real {
    var d := DivideSet(players, e);
    if |d| == 0 then 0.0 else Times(CountId(d, id), e.amount / |d| as real)
  }

  /** The share kept under `id` after the expenses, in order. */
  function Share(players: seq<Player>, expenses: seq<Expense>, id: Id): real {
    if expenses == [] then 0.0
    else Share(players, expenses[..|expenses| - 1], id)
         + Contribution(players, expenses[|expenses| - 1], id)
  }

  /** The ids of the session's players. */
  function IdSet(players: seq<Player>): set<Id> {
    set p | p in players :: p.id
  }

  // ---------------------------------------------------------------------------
  // The splitter

  /** `calculateExpenses`: every session player's share starts at 0; each expense is added
      to the total and its per-head amount to the share of each player it is divided among. */
  method CalculateExpenses(session: Session) returns (result: ExpenseCalculation)
    ensures result.totalAmount == FlatTotal(session.expenses)
    ensures result.splitByPlayer.Keys == IdSet(session.players)
    ensures forall id :: id in result.splitByPlayer ==>
              result.splitByPlayer[id] == Share(session.players, session.expenses, id)
    ensures session.players == [] ==> result.splitByPlayer == map[]
    ensures session.expenses == [] ==> result.totalAmount == 0.0
  {
    var players, expenses := session.players, session.expenses;
    var split := ZeroSplit(players);
    var total := 0.0;
    var k := 0;
    while k < |expenses|
      invariant 0 <= k <= |expenses|
      invariant total == FlatTotal(expenses[..k])
      invariant split.Keys == IdSet(players)
      invariant forall id :: id in split ==> split[id] == Share(players, expenses[..k], id)
    {
      var e := expenses[k];
      var done := expenses[..k];
      assert expenses[..k + 1] == done + [e];
      FlatTotalSnoc(done, e);
      total := total + e.amount;
      split := SplitExpense(split, players, done, e);
      k := k + 1;
    }
    assert expenses[..k] == expenses;
    result := ExpenseCalculation(total, split);
  }

  /** The body of the expenses loop after the total: the expense's per-head amount added
      to the share of every player it is divided among, so each share becomes the share
      after one more expense. */
  method SplitExpense(split: map<Id, real>, players: seq<Player>, done: seq<Expense>, e: Expense)
    returns (next: map<Id, real>)
    requires split.Keys == IdSet(players)
    requires forall id :: id in split ==> split[id] == Share(players, done, id)
    ensures next.Keys == split.Keys
    ensures forall id :: id in next ==> next[id] == Share(players, done + [e], id)
  {
    var toSplit := DivideSet(players, e);
    if |toSplit| != 0 {
      var per := e.amount / |toSplit| as real;
      assert forall p :: p in toSplit ==> p.id in split by {
        forall p | p in toSplit ensures p.id in split {
          assert p in players;
        }
      }
      next := AddToEach(split, toSplit, per);
    } else {
      next := split;
    }
    forall id | id in next ensures next[id] == Share(players, done + [e], id) {
      ShareSnoc(players, done, e, id);
    }
  }

  /** The first `forEach`: every session player's share set to 0. */
  method ZeroSplit(players: seq<Player>) returns (split: map<Id, real>)
    ensures split.Keys == IdSet(players)
    ensures forall id :: id in split ==> split[id] == 0.0
  {
    split := map[];
    var i := 0;
    while i < |players|
      invariant 0 <= i <= |players|
      invariant split.Keys == IdSet(players[..i])
      invariant forall id :: id in split ==> split[id] == 0.0
    {
      assert players[..i + 1] == players[..i] + [players[i]];
      split := split[players[i].id := 0.0];
      i := i + 1;
    }
    assert players[..i] == players;
  }

  lemma FlatTotalSnoc(done: seq<Expense>, e: Expense)
    ensures FlatTotal(done + [e]) == FlatTotal(done) + e.amount
  {
    assert (done + [e])[..|done|] == done;
  }

  /** One more expense adds its contribution to every share. */
  lemma ShareSnoc(players: seq<Player>, done: seq<Expense>, e: Expense, id: Id)
    ensures Share(players, done + [e], id) == Share(players, done, id) + Contribution(players, e, id)
  {
    assert (done + [e])[..|done|] == done;
  }

  /** The inner `forEach`: `per` is added to the entry of every player of `toSplit`, once
      per occurrence. */
  method AddToEach(split: map<Id, real>, toSplit: seq<Player>, per: real) returns (r: map<Id, real>)
    requires forall p :: p in toSplit ==> p.id in split
    ensures r.Keys == split.Keys
    ensures forall id :: id in r ==> r[id] == split[id] + Times(CountId(toSplit, id), per)
  {
    r := split;
    var j := 0;
    assert toSplit[..0] == [];
    while j < |toSplit|
      invariant 0 <= j <= |toSplit|
      invariant r.Keys == split.Keys
      invariant forall id :: id in r ==> r[id] == split[id] + Times(CountId(toSplit[..j], id), per)
    {
      var id := toSplit[j].id;
      assert toSplit[j] in toSplit;
      var r' := r[id := r[id] + per];
      forall k | k in r' ensures r'[k] == split[k] + Times(CountId(toSplit[..j + 1], k), per) {
        var c := CountId(toSplit[..j], k);
        assert r[k] == split[k] + Times(c, per);
        CountIdSnoc(toSplit, j, k);
        if k == id {
          AddOneMore(c, per);
          assert r'[k] == r[k] + per;
        } else {
          assert r'[k] == r[k];
        }
      }
      r := r';
      j := j + 1;
    }
    assert toSplit[..j] == toSplit;
  }

  lemma CountIdSnoc(d: seq<Player>, j: nat, id: Id)
    requires j < |d|
    ensures CountId(d[..j + 1], id) == CountId(d[..j], id) + if d[j].id == id then 1 else 0
  {
    assert d[..j + 1][..j] == d[..j];
  }

  lemma AddOneMore(c: nat, per: real)
    ensures Times(c + 1, per) == Times(c, per) + per
  {
  }

  // ---------------------------------------------------------------------------
  // What one expense contributes

  lemma PlayerIdsSnoc(init: seq<Player>, x: Player)
    ensures PlayerIds(init + [x]) == PlayerIds(init) + [x.id]
  {
  }

  lemma PlayerIdsOf(d: seq<Player>, p: Player)
    requires p in d
    ensures p.id in PlayerIds(d)
  {
    var i :| 0 <= i < |d| && d[i] == p;
    assert PlayerIds(d)[i] == p.id;
  }

  /** With unique ids, an id occurs once in a list of players holding it, and not at all in
      one without. */
  lemma {:induction false} CountIdUnique(d: seq<Player>, id: Id)
    requires UniqueIds(d)
    ensures CountId(d, id) == if id in PlayerIds(d) then 1 else 0
  {
    if d != [] {
      var init, x := d[..|d| - 1], d[|d| - 1];
      assert d == init + [x];
      PlayerIdsSnoc(init, x);
      assert UniqueIds(init) by {
        forall i, j | 0 <= i < j < |init| ensures init[i].id != init[j].id {
          assert init[i] == d[i] && init[j] == d[j];
        }
      }
      CountIdUnique(init, id);
      assert CountId(d, id) == CountId(init, id) + (if x.id == id then 1 else 0);
      if x.id == id {
        forall i | 0 <= i < |init| ensures PlayerIds(init)[i] != id {
          assert init[i] == d[i];
        }
      }
    }
  }

  lemma {:induction false} ListedUnique(players: seq<Player>, ids: seq<Id>)
    requires UniqueIds(players)
    ensures UniqueIds(Listed(players, ids))
  {
    if players != [] {
      ListedUnique(players[1..], ids);
      var rest := Listed(players[1..], ids);
      if players[0].id in ids {
        forall j | 0 <= j < |rest| ensures rest[j].id != players[0].id {
          assert rest[j] in players[1..];
        }
      }
    }
  }

  /** An expense without `divideAmong` adds amount / |players| to every session player. */
  lemma ContributionUndivided(players: seq<Player>, e: Expense, p: Player)
    requires e.divideAmong.None? && UniqueIds(players) && p in players
    ensures Contribution(players, e, p.id) == e.amount / |players| as real
  {
    PlayerIdsOf(players, p);
    CountIdUnique(players, p.id);
    TimesOne(e.amount / |players| as real);
  }

  /** An expense with `divideAmong` adds amount / k to each session player whose id is
      listed and nothing to the others, where k counts the listed session players: unknown
      ids are ignored and an id listed twice is counted once. */
  lemma ContributionDivided(players: seq<Player>, e: Expense, p: Player)
    requires e.divideAmong.Some? && UniqueIds(players) && p in players
    ensures var k := |Listed(players, e.divideAmong.value)|;
      Contribution(players, e, p.id) == if p.id in e.divideAmong.value then e.amount / k as real else 0.0
  {
    var d := Listed(players, e.divideAmong.value);
    ListedUnique(players, e.divideAmong.value);
    CountIdUnique(d, p.id);
    if p.id in e.divideAmong.value {
      PlayerIdsOf(d, p);
      TimesOne(e.amount / |d| as real);
    } else {
      assert p.id !in PlayerIds(d);
    }
  }

  /** The divide-set is empty exactly when the session has no players or `divideAmong` is
      present and lists no session player (an empty list included). */
  lemma DivideSetEmptyIff(players: seq<Player>, e: Expense)
    ensures |DivideSet(players, e)| == 0 <==>
            players == [] || (e.divideAmong.Some? && forall p :: p in players ==> p.id !in e.divideAmong.value)
  {
    var d := DivideSet(players, e);
    if |d| != 0 {
      assert d[0] in d;
    }
    if e.divideAmong.Some? && players != [] && !(forall p :: p in players ==> p.id !in e.divideAmong.value) {
      var p :| p in players && p.id in e.divideAmong.value;
      assert p in d;
    }
  }

  /** An expense with an empty divide-set adds to the total but to no share. */
  lemma EmptyDivideSetChargesNobody(players: seq<Player>, e: Expense, id: Id)
    requires |DivideSet(players, e)| == 0
    ensures Contribution(players, e, id) == 0.0
  {
  }

  /** A present but empty `divideAmong` selects nobody, whatever the session's players. */
  lemma EmptyListSelectsNobody(players: seq<Player>, e: Expense)
    requires e.divideAmong == Some([])
    ensures DivideSet(players, e) == []
  {
    ListedNone(players);
  }

  lemma {:induction false} ListedNone(players: seq<Player>)
    ensures Listed(players, []) == []
  {
    if players != [] {
      ListedNone(players[1..]);
    }
  }

  // ---------------------------------------------------------------------------
  // Conservation

  /** The sum of the shares kept under the ids of `l`. */
  function SumShares(l: seq<Player>, players: seq<Player>, expenses: seq<Expense>): real {
    if l == [] then 0.0 else SumShares(l[..|l| - 1], players, expenses) + Share(players, expenses, l[|l| - 1].id)
  }

  /** The sum of one expense's contributions to the ids of `l`. */
  function SumContributions(l: seq<Player>, players: seq<Player>, e: Expense): real {
    if l == [] then 0.0 else SumContributions(l[..|l| - 1], players, e) + Contribution(players, e, l[|l| - 1].id)
  }

  /** The number of pairs of an entry of `l` and an entry of `d` with the same id. */
  function SumCounts(l: seq<Player>, d: seq<Player>): nat {
    if l == [] then 0 else SumCounts(l[..|l| - 1], d) + CountId(d, l[|l| - 1].id)
  }

  lemma TimesOne(x: real)
    ensures Times(1, x) == x
  {
    assert Times(1, x) == Times(0, x) + x;
  }

  lemma {:induction false} TimesAdd(a: nat, b: nat, x: real)
    ensures Times(a + b, x) == Times(a, x) + Times(b, x)
  {
    if b > 0 {
      TimesAdd(a, b - 1, x);
      assert Times(a + b, x) == Times(a + b - 1, x) + x;
    }
  }

  lemma TimesPerHead(n: nat, a: real)
    requires n > 0
    ensures Times(n, a / n as real) == a
  {
    TimesIsProduct(n, a / n as real);
  }

  lemma CountIdSingle(x: Player, id: Id)
    ensures CountId([x], id) == if x.id == id then 1 else 0
  {
    assert [x][..0] == [];
  }

  lemma CountIdAppend(d: seq<Player>, x: Player, id: Id)
    ensures CountId(d + [x], id) == CountId(d, id) + if x.id == id then 1 else 0
  {
    assert (d + [x])[..|d|] == d;
  }

  /** Pairing `l` with one entry counts the entries of `l` with its id. */
  lemma {:induction false} SumCountsSingle(l: seq<Player>, x: Player)
    ensures SumCounts(l, [x]) == CountId(l, x.id)
  {
    if l != [] {
      SumCountsSingle(l[..|l| - 1], x);
      CountIdSingle(x, l[|l| - 1].id);
    }
  }

  /** Counting an extra entry of `d` adds one per entry of `l` with that id. */
  lemma {:induction false} SumCountsSnoc(l: seq<Player>, d: seq<Player>, x: Player)
    ensures SumCounts(l, d + [x]) == SumCounts(l, d) + SumCounts(l, [x])
  {
    if l != [] {
      SumCountsSnoc(l[..|l| - 1], d, x);
      CountIdAppend(d, x, l[|l| - 1].id);
      CountIdSingle(x, l[|l| - 1].id);
    }
  }

  lemma {:induction false} SumCountsEmpty(l: seq<Player>)
    ensures SumCounts(l, []) == 0
  {
    if l != [] {
      SumCountsEmpty(l[..|l| - 1]);
    }
  }

  /** With unique ids in `l`, and every entry of `d` carrying one of them, the counts sum to |d|. */
  lemma {:induction false} SumCountsAll(l: seq<Player>, d: seq<Player>)
    requires UniqueIds(l)
    requires forall q :: q in d ==> q.id in PlayerIds(l)
    ensures SumCounts(l, d) == |d|
  {
    if d == [] {
      SumCountsEmpty(l);
    } else {
      var init, x := d[..|d| - 1], d[|d| - 1];
      assert d == init + [x];
      assert forall q :: q in init ==> q in d;
      SumCountsAll(l, init);
      SumCountsSnoc(l, init, x);
      SumCountsSingle(l, x);
      CountIdUnique(l, x.id);
    }
  }

  /** Summing contributions over `l` is adding the per-head amount once per counted pair. */
  lemma {:induction false} SumContributionsCounts(l: seq<Player>, players: seq<Player>, e: Expense)
    requires |DivideSet(players, e)| != 0
    ensures var d := DivideSet(players, e);
      SumContributions(l, players, e) == Times(SumCounts(l, d), e.amount / |d| as real)
  {
    if l != [] {
      var d := DivideSet(players, e);
      SumContributionsCounts(l[..|l| - 1], players, e);
      TimesAdd(SumCounts(l[..|l| - 1], d), CountId(d, l[|l| - 1].id), e.amount / |d| as real);
    }
  }

  /** One expense's contributions to all session players add up to its amount. */
  lemma OneExpenseConserved(players: seq<Player>, e: Expense)
    requires UniqueIds(players) && |DivideSet(players, e)| != 0
    ensures SumContributions(players, players, e) == e.amount
  {
    var d := DivideSet(players, e);
    SumContributionsCounts(players, players, e);
    forall q | q in d ensures q.id in PlayerIds(players) {
      PlayerIdsOf(players, q);
    }
    SumCountsAll(players, d);
    TimesPerHead(|d|, e.amount);
  }

  /** Adding an expense adds its contributions to the sum of shares. */
  lemma {:induction false} SumSharesSnoc(l: seq<Player>, players: seq<Player>, expenses: seq<Expense>, e: Expense)
    ensures SumShares(l, players, expenses + [e]) == SumShares(l, players, expenses) + SumContributions(l, players, e)
  {
    assert (expenses + [e])[..|expenses + [e]| - 1] == expenses;
    if l != [] {
      SumSharesSnoc(l[..|l| - 1], players, expenses, e);
    }
  }

  lemma {:induction false} SumSharesNone(l: seq<Player>, players: seq<Player>)
    ensures SumShares(l, players, []) == 0.0
  {
    if l != [] {
      SumSharesNone(l[..|l| - 1], players);
    }
  }

  /** Conservation: when player ids are unique and no expense has an empty divide-set, the
      shares of the session players add up to the grand total. */
  lemma {:induction false} Conservation(players: seq<Player>, expenses: seq<Expense>)
    requires UniqueIds(players)
    requires forall e :: e in expenses ==> |DivideSet(players, e)| != 0
    ensures SumShares(players, players, expenses) == FlatTotal(expenses)
  {
    if expenses == [] {
      SumSharesNone(players, players);
    } else {
      var init := expenses[..|expenses| - 1];
      var e := expenses[|expenses| - 1];
      assert expenses == init + [e];
      Conservation(players, init);
      SumSharesSnoc(players, players, init, e);
      OneExpenseConserved(players, e);
    }
  }

  // ---------------------------------------------------------------------------
  // A worked session

  /** Three players with distinct ids; a 300000 expense for everybody and a 90000 one
      divided among the first two: the total is 390000, the first two owe 145000 each and
      the third owes 100000. */
  lemma Scenario(a: Player, b: Player, c: Player, e1: Expense, e2: Expense)
    requires a.id != b.id && b.id != c.id && a.id != c.id
    requires e1.amount == 300000.0 && e1.divideAmong.None?
    requires e2.amount == 90000.0 && e2.divideAmong == Some([a.id, b.id])
    ensures var players, expenses := [a, b, c], [e1, e2];
      && FlatTotal(expenses) == 390000.0
      && Share(players, expenses, a.id) == 145000.0
      && Share(players, expenses, b.id) == 145000.0
      && Share(players, expenses, c.id) == 100000.0
  {
    var players, expenses := [a, b, c], [e1, e2];
    assert UniqueIds(players);
    assert expenses == [e1] + [e2] && [e1] == [] + [e1];
    FlatTotalSnoc([], e1);
    FlatTotalSnoc([e1], e2);
    var ids := [a.id, b.id];
    assert Listed([c], ids) == [] by {
      assert Listed([c][1..], ids) == [];
    }
    assert Listed([b, c], ids) == [b] by {
      assert [b, c][1..] == [c];
    }
    assert Listed(players, ids) == [a, b] by {
      assert players[1..] == [b, c];
    }
    forall p | p in players
      ensures Share(players, expenses, p.id) == Contribution(players, e1, p.id) + Contribution(players, e2, p.id)
    {
      ShareSnoc(players, [], e1, p.id);
      ShareSnoc(players, [e1], e2, p.id);
    }
    ContributionUndivided(players, e1, a);
    ContributionUndivided(players, e1, b);
    ContributionUndivided(players, e1, c);
    ContributionDivided(players, e2, a);
    ContributionDivided(players, e2, b);
    ContributionDivided(players, e2, c);
  }
}
