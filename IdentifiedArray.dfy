/**
 * The ordered, id-keyed collection of standups (`IdentifiedArrayOf<Standup>`):
 * a sequence in which no two standups share an id, with lookup, removal and
 * replace-or-append by id.
 */
module IdentifiedArray {
  import opened Wrappers
  import opened Models

  /** The collection's invariant: ids are unique. */
  ghost predicate UniqueIds(xs: seq<Standup>) {
    forall i, j :: 0 <= i < j < |xs| ==> xs[i].id != xs[j].id
  }

  /** The set of ids present. */
  ghost function Ids(xs: seq<Standup>): set<Uuid> {
    set i | 0 <= i < |xs| :: xs[i].id
  }

  /** The position of the first standup with the given id, if any. */
  function IndexOf(xs: seq<Standup>, id: Uuid): (r: Option<nat>)
    ensures r.Some? ==> r.value < |xs| && xs[r.value].id == id
    ensures r.Some? ==> forall j :: 0 <= j < r.value ==> xs[j].id != id
    ensures r.None? ==> forall j :: 0 <= j < |xs| ==> xs[j].id != id
  {
    if xs == [] then None
    else if xs[0].id == id then Some(0)
    else match IndexOf(xs[1..], id)
      case None => None
      case Some(k) => Some(k + 1)
  }

  /** `standups[id: id]` read: the standup with that id, if any. */
  function Lookup(xs: seq<Standup>, id: Uuid): (r: Option<Standup>)
    ensures r.Some? <==> id in Ids(xs)
    ensures r.Some? ==> r.value in xs && r.value.id == id
  {
    match IndexOf(xs, id)
    case None => None
    case Some(i) => Some(xs[i])
  }

  /** `remove(id:)`: drop the standup with that id; no change when it is absent. */
  function Remove(xs: seq<Standup>, id: Uuid): (r: seq<Standup>)
    requires UniqueIds(xs)
    ensures UniqueIds(r)
    ensures Ids(r) == Ids(xs) - {id}
    ensures forall s :: s in r <==> s in xs && s.id != id
    ensures |r| == if id in Ids(xs) then |xs| - 1 else |xs|
  {
    match IndexOf(xs, id)
    case None => xs
    case Some(i) =>
      RemoveAt(xs, i);
      xs[..i] + xs[i + 1..]
  }

  /** Cutting out position `i` drops exactly the standup with that position's id. */
  lemma RemoveAt(xs: seq<Standup>, i: nat)
    requires UniqueIds(xs) && i < |xs|
    ensures var r := xs[..i] + xs[i + 1..];
      && UniqueIds(r)
      && Ids(r) == Ids(xs) - {xs[i].id}
      && (forall s :: s in r <==> s in xs && s.id != xs[i].id)
  {
    var r := xs[..i] + xs[i + 1..];
    assert |r| == |xs| - 1;
    assert forall j :: 0 <= j < i ==> r[j] == xs[j];
    assert forall j :: i <= j < |r| ==> r[j] == xs[j + 1];
    CutFacts(xs, i, r);
  }

  /** The same facts, about any `r` that is `xs` with position `i` cut out. */
  lemma CutFacts(xs: seq<Standup>, i: nat, r: seq<Standup>)
    requires UniqueIds(xs) && i < |xs| && |r| == |xs| - 1
    requires forall j :: 0 <= j < i ==> r[j] == xs[j]
    requires forall j :: i <= j < |r| ==> r[j] == xs[j + 1]
    ensures UniqueIds(r)
    ensures Ids(r) == Ids(xs) - {xs[i].id}
    ensures forall s :: s in r <==> s in xs && s.id != xs[i].id
  {
    forall s | s in xs && s.id != xs[i].id ensures s in r {
      var j :| 0 <= j < |xs| && xs[j] == s;
      if j < i { assert r[j] == s; } else { assert r[j - 1] == s; }
    }
    forall k | k in Ids(xs) - {xs[i].id} ensures k in Ids(r) {
      var j :| 0 <= j < |xs| && xs[j].id == k;
      if j < i { assert r[j].id == k; } else { assert r[j - 1].id == k; }
    }
    forall k | k in Ids(r) ensures k in Ids(xs) - {xs[i].id} {
      var j :| 0 <= j < |r| && r[j].id == k;
      if j < i { assert xs[j].id == k; } else { assert xs[j + 1].id == k; }
    }
  }

  /**
   * `standups[id: s.id] = s`: replace the standup with that id where it
   * stands, or append `s` when the id is absent.
   */
  function Upsert(xs: seq<Standup>, s: Standup): (r: seq<Standup>)
    requires UniqueIds(xs)
    ensures UniqueIds(r)
    ensures Ids(r) == Ids(xs) + {s.id}
    ensures Lookup(r, s.id) == Some(s)
    ensures forall k :: k != s.id ==> Lookup(r, k) == Lookup(xs, k)
    ensures s.id in Ids(xs) ==>
      |r| == |xs| && forall j :: 0 <= j < |xs| && xs[j].id != s.id ==> r[j] == xs[j]
    ensures s.id !in Ids(xs) ==> r == xs + [s]
  {
    match IndexOf(xs, s.id)
    case None =>
      var r := xs + [s];
      assert Ids(r) == Ids(xs) + {s.id} by {
        assert r[|xs|].id == s.id;
        forall k | k in Ids(xs) ensures k in Ids(r) {
          var j :| 0 <= j < |xs| && xs[j].id == k;
          assert r[j].id == k;
        }
      }
      assert IndexOf(r, s.id) == Some(|xs|);
      forall k | k != s.id ensures Lookup(r, k) == Lookup(xs, k) {
        SamePrefixIndex(xs, r, k);
      }
      r
    case Some(i) =>
      var r := xs[i := s];
      assert Ids(r) == Ids(xs) by {
        forall k | k in Ids(xs) ensures k in Ids(r) {
          var j :| 0 <= j < |xs| && xs[j].id == k;
          assert r[j].id == k;
        }
      }
      forall k | k != s.id ensures Lookup(r, k) == Lookup(xs, k) {
        SamePrefixIndex(xs, r, k);
      }
      r
  }

  /**
   * Two collections that agree position by position on the shorter one, as
   * far as id `k` is concerned, give the same answer to a lookup of `k` as
   * long as `k` does not occur in the longer one's tail.
   */
  lemma SamePrefixIndex(xs: seq<Standup>, ys: seq<Standup>, k: Uuid)
    requires |xs| <= |ys|
    requires forall j :: 0 <= j < |xs| ==> (xs[j].id == k <==> ys[j].id == k)
    requires forall j :: 0 <= j < |xs| && xs[j].id == k ==> ys[j] == xs[j]
    requires forall j :: |xs| <= j < |ys| ==> ys[j].id != k
    ensures Lookup(ys, k) == Lookup(xs, k)
  {
  }

  /**
   * Reference definition of removal: keep, in order, every standup whose id
   * differs from `id`.
   */
  function Without(xs: seq<Standup>, id: Uuid): (r: seq<Standup>)
    ensures |r| <= |xs|
  {
    if xs == [] then []
    else (if xs[0].id == id then [] else [xs[0]]) + Without(xs[1..], id)
  }

  /** Filtering out an id that does not occur changes nothing. */
  lemma {:induction false} WithoutAbsent(xs: seq<Standup>, id: Uuid)
    requires forall j :: 0 <= j < |xs| ==> xs[j].id != id
    ensures Without(xs, id) == xs
  {
    if xs != [] {
      WithoutAbsent(xs[1..], id);
    }
  }

  /**
   * `remove(id:)` removes exactly the standup with that id: every other
   * standup stays, with its contents and in its order.
   */
  lemma {:induction false} RemoveIsWithout(xs: seq<Standup>, id: Uuid)
    requires UniqueIds(xs)
    ensures Remove(xs, id) == Without(xs, id)
  {
    if xs == [] {
    } else if xs[0].id == id {
      assert IndexOf(xs, id) == Some(0);
      assert xs[..0] + xs[1..] == xs[1..];
      WithoutAbsent(xs[1..], id);
    } else {
      assert UniqueIds(xs[1..]);
      RemoveIsWithout(xs[1..], id);
      RemoveCons(xs, id);
    }
  }

  /** Removing an id other than the first standup's keeps that standup in front. */
  lemma RemoveCons(xs: seq<Standup>, id: Uuid)
    requires UniqueIds(xs) && xs != [] && xs[0].id != id
    ensures UniqueIds(xs[1..])
    ensures Remove(xs, id) == [xs[0]] + Remove(xs[1..], id)
  {
    var tail := xs[1..];
    assert UniqueIds(tail);
    match IndexOf(tail, id)
    case None =>
      assert IndexOf(xs, id) == None;
    case Some(k) =>
      assert IndexOf(xs, id) == Some(k + 1);
      assert xs[..k + 1] == [xs[0]] + tail[..k];
      assert xs[k + 2..] == tail[k + 1..];
  }
}
