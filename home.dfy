/** The session list of the home screen: the stored sessions newest first, narrowed by a
    search text, a time range and a location, then ordered by one of six sort options. The
    device's `toLowerCase` is the parameter `lower`, and the current time is `now`. */
module Home {
  import opened Wrappers
  import opened Types
  import opened Text
  import opened Sorting
  import opened Clock
  import Storage
  import Stats

  // ---------------------------------------------------------------------------
  // Filters

  /** One of the three filters, with the lower-cased text it looks for. */
  datatype Criterion =
    | Search(needle: string, lower: string -> string)
    | Within(start: Timestamp, end: Timestamp)
    | AtLocation(needle: string, lower: string -> string)

  /** Whether a session passes a filter: the search looks in the location and in notes that
      are not empty, the time range keeps the dates of the closed interval, the location
      filter looks in the location only. */
  predicate Meets(c: Criterion, s: Session) {
    match c
    case Search(needle, lower) =>
      Contains(lower(s.location), needle) || (s.notes.Some? && s.notes.value != "" && Contains(lower(s.notes.value), needle))
    case Within(start, end) => start <= s.date <= end
    case AtLocation(needle, lower) => Contains(lower(s.location), needle)
  }

  /** `list.filter(...)`: the sessions that pass, in their order. */
  function Keep(list: seq<Session>, c: Criterion): (r: seq<Session>)
    ensures forall x :: x in r <==> x in list && Meets(c, x)
    ensures multiset(r) <= multiset(list)
    ensures (forall i :: 0 <= i < |list| ==> Meets(c, list[i])) ==> r == list
  {
    if list == [] then []
    else
      var rest := Keep(list[1..], c);
      assert list == [list[0]] + list[1..];
      assert forall i :: 1 <= i < |list| ==> list[i] == list[1..][i - 1];
      (if Meets(c, list[0]) then [list[0]] else []) + rest
  }

  /** The filter keeps the relative order: filtering a concatenation filters each part. */
  lemma {:induction false} KeepAppend(a: seq<Session>, b: seq<Session>, c: Criterion)
    ensures Keep(a + b, c) == Keep(a, c) + Keep(b, c)
  {
    if a == [] {
      assert a + b == b;
    } else {
      assert (a + b)[1..] == a[1..] + b;
      KeepAppend(a[1..], b, c);
    }
  }

  /** `subDays(today, 7)` for "week", `subDays(today, 30)` for any other range. */
  function WindowStart(timeRange: string, now: Timestamp): (start: Timestamp)
    ensures start < now
    ensures start == now - (if timeRange == "week" then 7 else 30) * DayMs
  {
    now - (if timeRange == "week" then 7 else 30) * DayMs
  }

  /** The three filters of `applyFilters`, each applied only when it is set. */
  function Filtered(sessions: seq<Session>, searchText: string, timeRange: string, locationText: string,
                    now: Timestamp, lower: string -> string): seq<Session>
  {
    var afterSearch := if searchText != "" then Keep(sessions, Search(lower(searchText), lower)) else sessions;
    var afterRange := if timeRange != "all" then Keep(afterSearch, Within(WindowStart(timeRange, now), now)) else afterSearch;
    if locationText != "" then Keep(afterRange, AtLocation(lower(locationText), lower)) else afterRange
  }

  /** Whether a session is shown: it passes every filter that is set. */
  predicate Shown(s: Session, searchText: string, timeRange: string, locationText: string,
                  now: Timestamp, lower: string -> string)
  {
    && (searchText != "" ==> Meets(Search(lower(searchText), lower), s))
    && (timeRange != "all" ==> WindowStart(timeRange, now) <= s.date <= now)
    && (locationText != "" ==> Meets(AtLocation(lower(locationText), lower), s))
  }

  /** The filters only remove sessions, and a session stays exactly when it passes all of
      the filters that are set; with none set, the list is unchanged. */
  lemma FilteredMeaning(sessions: seq<Session>, searchText: string, timeRange: string, locationText: string,
                        now: Timestamp, lower: string -> string)
    ensures var r := Filtered(sessions, searchText, timeRange, locationText, now, lower);
      && multiset(r) <= multiset(sessions)
      && (forall x :: x in r <==> x in sessions && Shown(x, searchText, timeRange, locationText, now, lower))
      && (searchText == "" && timeRange == "all" && locationText == "" ==> r == sessions)
  {
    var a := if searchText != "" then Keep(sessions, Search(lower(searchText), lower)) else sessions;
    var b := if timeRange != "all" then Keep(a, Within(WindowStart(timeRange, now), now)) else a;
    var r := if locationText != "" then Keep(b, AtLocation(lower(locationText), lower)) else b;
    assert r == Filtered(sessions, searchText, timeRange, locationText, now, lower);
    assert multiset(a) <= multiset(sessions);
    assert multiset(b) <= multiset(a);
    assert multiset(r) <= multiset(b);
    forall x ensures x in r <==> x in sessions && Shown(x, searchText, timeRange, locationText, now, lower) {
      assert x in a <==> x in sessions && (searchText != "" ==> Meets(Search(lower(searchText), lower), x));
      assert x in b <==> x in a && (timeRange != "all" ==> Meets(Within(WindowStart(timeRange, now), now), x));
      assert x in r <==> x in b && (locationText != "" ==> Meets(AtLocation(lower(locationText), lower), x));
    }
  }

  // ---------------------------------------------------------------------------
  // Sorting

  /** `b.duration || 0`: a missing duration sorts as 0. */
  function DurationKey(s: Session): real {
    (if s.duration.Some? then s.duration.value else 0) as real
  }

  /** The flat sum of a session's expenses: the total the list shows on each row and the
      key of the cost options. */
  function CostKey(s: Session): (r: real)
    ensures (forall i :: 0 <= i < |s.expenses| ==> s.expenses[i].amount >= 0.0) ==> r >= 0.0
    ensures s.expenses == [] ==> r == 0.0
  {
    assert (forall i :: 0 <= i < |s.expenses| ==> s.expenses[i].amount >= 0.0) ==> FlatTotal(s.expenses) >= 0.0 by {
      if forall i :: 0 <= i < |s.expenses| ==> s.expenses[i].amount >= 0.0 {
        FlatTotalNonNegative(s.expenses);
      }
    }
    FlatTotal(s.expenses)
  }

  function EarliestFirst(s: Session): real {
    -DateKey(s)
  }

  function ShortestFirst(s: Session): real {
    -DurationKey(s)
  }

  function CheapestFirst(s: Session): real {
    -CostKey(s)
  }

  /** The comparator of an unknown option returns 0 for every pair. */
  function NoKey(s: Session): real {
    0.0
  }

  /** The comparator of each option as the key the stable sort orders by, largest first;
      an ascending comparator is the descending one on the negated key. */
  function SortKey(option: string): Session -> real {
    if option == "dateDesc" then DateKey
    else if option == "dateAsc" then EarliestFirst
    else if option == "durationDesc" then DurationKey
    else if option == "durationAsc" then ShortestFirst
    else if option == "costDesc" then CostKey
    else if option == "costAsc" then CheapestFirst
    else NoKey
  }

  predicate KnownOption(option: string) {
    || option == "dateDesc" || option == "dateAsc" || option == "durationDesc"
    || option == "durationAsc" || option == "costDesc" || option == "costAsc"
  }

  /** What each option promises about the order of the list. */
  predicate Ordered(s: seq<Session>, option: string) {
    && (option == "dateDesc" ==> forall i, j :: 0 <= i < j < |s| ==> s[i].date >= s[j].date)
    && (option == "dateAsc" ==> forall i, j :: 0 <= i < j < |s| ==> s[i].date <= s[j].date)
    && (option == "durationDesc" ==> forall i, j :: 0 <= i < j < |s| ==> s[i].duration.GetOr(0) >= s[j].duration.GetOr(0))
    && (option == "durationAsc" ==> forall i, j :: 0 <= i < j < |s| ==> s[i].duration.GetOr(0) <= s[j].duration.GetOr(0))
    && (option == "costDesc" ==> forall i, j :: 0 <= i < j < |s| ==> FlatTotal(s[i].expenses) >= FlatTotal(s[j].expenses))
    && (option == "costAsc" ==> forall i, j :: 0 <= i < j < |s| ==> FlatTotal(s[i].expenses) <= FlatTotal(s[j].expenses))
  }

  /** A list sorted by an option's key is in the order the option promises. */
  lemma SortedOrdered(s: seq<Session>, option: string)
    requires SortedDesc(s, SortKey(option))
    ensures Ordered(s, option)
  {
    forall i, j | 0 <= i < j < |s| ensures SortKey(option)(s[i]) >= SortKey(option)(s[j]) {
    }
  }

  /** Every session compares equal under an unknown option, so the stable sort keeps the
      filtered order. */
  lemma {:induction false} UnknownOptionKeepsOrder(s: seq<Session>, option: string)
    requires !KnownOption(option)
    ensures SortDesc(s, SortKey(option)) == s
  {
    assert SortKey(option) == NoKey;
    SortDescOfSorted(s, NoKey);
  }

  // ---------------------------------------------------------------------------
  // The screen's operations

  /** `loadSessions`: the stored sessions, newest first. */
  method LoadSessions(store: Storage.Store, readFails: bool) returns (r: seq<Session>)
    ensures r == Stats.LoadOrder(Storage.Read(store.sessions, readFails))
    ensures multiset(r) == multiset(Storage.Read(store.sessions, readFails))
    ensures Ordered(r, "dateDesc")
  {
    var data := store.GetSessions(readFails);
    r := SortDesc(data, DateKey);
    SortDescSorted(data, DateKey);
    SortedOrdered(r, "dateDesc");
  }

  /** `applyFilters`: the shown sessions are the ones that pass every filter that is set,
      each once for every time it is stored, in the order the sort option promises; among
      sessions the option ranks equal, and under an unknown option for all of them, the
      filtered order is kept. */
  method ApplyFilters(sessions: seq<Session>, searchText: string, timeRange: string, locationText: string,
                      sortOption: string, now: Timestamp, lower: string -> string)
    returns (result: seq<Session>)
    ensures multiset(result) == multiset(Filtered(sessions, searchText, timeRange, locationText, now, lower))
    ensures multiset(result) <= multiset(sessions)
    ensures forall x :: x in result <==> x in sessions && Shown(x, searchText, timeRange, locationText, now, lower)
    ensures Ordered(result, sortOption)
    ensures forall v :: (WithKey(result, SortKey(sortOption), v) ==
      WithKey(Filtered(sessions, searchText, timeRange, locationText, now, lower), SortKey(sortOption), v))
    ensures !KnownOption(sortOption) ==> result == Filtered(sessions, searchText, timeRange, locationText, now, lower)
  {
    result := sessions;
    if searchText != "" {
      var lowerSearchText := lower(searchText);
      result := Keep(result, Search(lowerSearchText, lower));
    }
    if timeRange != "all" {
      var startDate := WindowStart(timeRange, now);
      result := Keep(result, Within(startDate, now));
    }
    if locationText != "" {
      result := Keep(result, AtLocation(lower(locationText), lower));
    }
    var filtered := result;
    assert filtered == Filtered(sessions, searchText, timeRange, locationText, now, lower);
    FilteredMeaning(sessions, searchText, timeRange, locationText, now, lower);
    var key := SortKey(sortOption);
    result := SortDesc(result, key);
    SortDescSorted(filtered, key);
    SortedOrdered(result, sortOption);
    forall v ensures WithKey(result, key, v) == WithKey(filtered, key, v) {
      SortDescStable(filtered, key, v);
    }
    if !KnownOption(sortOption) {
      UnknownOptionKeepsOrder(filtered, sortOption);
    }
    assert forall x :: x in result <==> x in filtered by {
      forall x ensures x in result <==> x in filtered {
        assert x in result <==> x in multiset(result);
        assert x in filtered <==> x in multiset(filtered);
      }
    }
  }
}
