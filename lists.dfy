/** List operations the screens and the store share: `findIndex` and `filter` by id, and
    the add-or-remove toggle of an id in a selection. */
module Lists {
  import opened Wrappers
  import opened Types

  /** The key of a plain id list: the id itself. */
  function Identity(id: Id): Id {
    id
  }

  /** `findIndex(x => idOf(x) === id)`, with `None` for -1. */
  function FirstIndex<T>(s: seq<T>, idOf: T -> Id, id: Id): (r: Option<nat>)
    ensures r.None? <==> forall j :: 0 <= j < |s| ==> idOf(s[j]) != id
    ensures r.Some? ==> r.value < |s| && idOf(s[r.value]) == id
    ensures r.Some? ==> forall j :: 0 <= j < r.value ==> idOf(s[j]) != id
  {
    if s == [] then None
    else if idOf(s[0]) == id then Some(0)
    else match FirstIndex(s[1..], idOf, id)
      case None => None
      case Some(i) => Some(i + 1)
  }

  /** `filter(x => idOf(x) !== id)`. */
  function Without<T>(s: seq<T>, idOf: T -> Id, id: Id): (r: seq<T>)
    ensures |r| <= |s|
  {
    if s == [] then []
    else (if idOf(s[0]) == id then [] else [s[0]]) + Without(s[1..], idOf, id)
  }

  /** The filter keeps exactly the entries with another id. */
  lemma {:induction false} WithoutMembers<T>(s: seq<T>, idOf: T -> Id, id: Id, x: T)
    ensures x in Without(s, idOf, id) <==> x in s && idOf(x) != id
  {
    if s != [] {
      WithoutMembers(s[1..], idOf, id, x);
      assert s == [s[0]] + s[1..];
    }
  }

  /** The filter keeps the order: filtering a concatenation filters each part. */
  lemma {:induction false} WithoutAppend<T>(a: seq<T>, b: seq<T>, idOf: T -> Id, id: Id)
    ensures Without(a + b, idOf, id) == Without(a, idOf, id) + Without(b, idOf, id)
  {
    if a == [] {
      assert a + b == b;
    } else {
      assert (a + b)[1..] == a[1..] + b;
      WithoutAppend(a[1..], b, idOf, id);
    }
  }

  /** Deleting an id nobody has changes nothing. */
  lemma {:induction false} WithoutAbsent<T>(s: seq<T>, idOf: T -> Id, id: Id)
    requires forall j :: 0 <= j < |s| ==> idOf(s[j]) != id
    ensures Without(s, idOf, id) == s
  {
    if s != [] {
      WithoutAbsent(s[1..], idOf, id);
    }
  }

  /** After a delete the id is gone, so deleting again changes nothing. */
  lemma WithoutIdempotent<T>(s: seq<T>, idOf: T -> Id, id: Id)
    ensures Without(Without(s, idOf, id), idOf, id) == Without(s, idOf, id)
  {
    var r := Without(s, idOf, id);
    forall j | 0 <= j < |r| ensures idOf(r[j]) != id {
      WithoutMembers(s, idOf, id, r[j]);
    }
    WithoutAbsent(r, idOf, id);
  }

  lemma {:induction false} FirstIndexAt<T>(s: seq<T>, idOf: T -> Id, id: Id, i: nat)
    requires i < |s| && idOf(s[i]) == id
    requires forall j :: 0 <= j < i ==> idOf(s[j]) != id
    ensures FirstIndex(s, idOf, id) == Some(i)
  {
    if i > 0 {
      FirstIndexAt(s[1..], idOf, id, i - 1);
    }
  }

  // ---------------------------------------------------------------------------
  // Toggling an id in a selection

  /** `list.includes(id) ? list.filter(x => x !== id) : [...list, id]`. */
  function ToggleId(list: seq<Id>, id: Id): seq<Id> {
    if id in list then Without(list, Identity, id) else list + [id]
  }

  /** After a toggle `id` is selected exactly when it was not, and every other id is
      selected exactly as before. */
  lemma ToggleMembers(list: seq<Id>, id: Id, x: Id)
    ensures x in ToggleId(list, id) <==> if x == id then id !in list else x in list
  {
    if id in list {
      WithoutMembers(list, Identity, id, x);
    }
  }

  /** An unselected id toggled twice leaves the selection as it was; a selected one is
      moved to the end (and every copy of it but that one is gone). */
  lemma ToggleTwice(list: seq<Id>, id: Id)
    ensures id !in list ==> ToggleId(ToggleId(list, id), id) == list
    ensures id in list ==> ToggleId(ToggleId(list, id), id) == Without(list, Identity, id) + [id]
  {
    if id !in list {
      assert id in list + [id];
      WithoutAppend(list, [id], Identity, id);
      WithoutAbsent(list, Identity, id);
      assert Without([id], Identity, id) == [];
    } else {
      WithoutMembers(list, Identity, id, id);
    }
  }

  /** A selection without repeats stays without repeats. */
  lemma ToggleDistinct(list: seq<Id>, id: Id)
    requires forall i, j :: 0 <= i < j < |list| ==> list[i] != list[j]
    ensures var r := ToggleId(list, id); forall i, j :: 0 <= i < j < |r| ==> r[i] != r[j]
  {
    var r := ToggleId(list, id);
    if id in list {
      WithoutDistinct(list, Identity, id);
      assert r == Without(list, Identity, id);
    } else {
      assert r == list + [id];
      assert forall i :: 0 <= i < |list| ==> r[i] == list[i];
    }
  }

  lemma {:induction false} WithoutDistinct<T>(s: seq<T>, idOf: T -> Id, id: Id)
    requires forall i, j :: 0 <= i < j < |s| ==> s[i] != s[j]
    ensures var r := Without(s, idOf, id); forall i, j :: 0 <= i < j < |r| ==> r[i] != r[j]
  {
    if s != [] {
      WithoutDistinct(s[1..], idOf, id);
      var rest := Without(s[1..], idOf, id);
      assert forall k :: 0 <= k < |s[1..]| ==> s[1..][k] != s[0] by {
        forall k | 0 <= k < |s[1..]| ensures s[1..][k] != s[0] {
          assert s[1..][k] == s[k + 1];
        }
      }
      forall j | 0 <= j < |rest| ensures rest[j] != s[0] {
        WithoutMembers(s[1..], idOf, id, rest[j]);
      }
      var r := Without(s, idOf, id);
      if idOf(s[0]) != id {
        assert r == [s[0]] + rest;
        forall i, j | 0 <= i < j < |r| ensures r[i] != r[j] {
          assert r[j] == rest[j - 1];
          if i > 0 {
            assert r[i] == rest[i - 1];
          }
        }
      } else {
        assert r == rest;
      }
    }
  }
}
