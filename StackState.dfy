/**
 * The navigation stack (`StackState<Element>`): an ordered sequence of
 * elements, each under a key handed out when it was pushed. Keys are unique
 * while the element is on the stack.
 */
module StackState {
  import opened Wrappers

  /** A stack element key (`StackElementID`). */
  type ElementId = nat

  datatype Entry<E> = Entry(id: ElementId, element: E)

  /** The stack's invariant: keys are unique. */
  ghost predicate UniqueKeys<E>(path: seq<Entry<E>>) {
    forall i, j :: 0 <= i < j < |path| ==> path[i].id != path[j].id
  }

  /** `path.ids`, as a set. */
  ghost function Keys<E>(path: seq<Entry<E>>): set<ElementId> {
    set i | 0 <= i < |path| :: path[i].id
  }

  /** `path.ids`, in stack order (bottom first). */
  function ElementIds<E>(path: seq<Entry<E>>): (r: seq<ElementId>)
    ensures |r| == |path| && forall i :: 0 <= i < |path| ==> r[i] == path[i].id
  {
    if path == [] then [] else [path[0].id] + ElementIds(path[1..])
  }

  /** The position of the element with key `id`, if any. */
  function IndexOfKey<E>(path: seq<Entry<E>>, id: ElementId): (r: Option<nat>)
    ensures r.Some? ==> r.value < |path| && path[r.value].id == id
    ensures r.Some? ==> forall j :: 0 <= j < r.value ==> path[j].id != id
    ensures r.None? ==> forall j :: 0 <= j < |path| ==> path[j].id != id
  {
    if path == [] then None
    else if path[0].id == id then Some(0)
    else match IndexOfKey(path[1..], id)
      case None => None
      case Some(k) => Some(k + 1)
  }

  /** `path[id: id]` read: the element under key `id`, if it is on the stack. */
  function Get<E>(path: seq<Entry<E>>, id: ElementId): (r: Option<E>)
    ensures r.Some? <==> id in Keys(path)
    ensures r.Some? ==> exists i :: 0 <= i < |path| && path[i] == Entry(id, r.value)
  {
    match IndexOfKey(path, id)
    case None => None
    case Some(i) => Some(path[i].element)
  }

  /** In a stack with unique keys, the element at position `i` is found under its key. */
  lemma GetAt<E>(path: seq<Entry<E>>, i: nat)
    requires UniqueKeys(path) && i < |path|
    ensures IndexOfKey(path, path[i].id) == Some(i)
    ensures Get(path, path[i].id) == Some(path[i].element)
  {
  }

  /** `Sequence.last`: the last item, if any. */
  function Last<T>(s: seq<T>): (r: Option<T>)
    ensures r.None? <==> s == []
    ensures r.Some? ==> r.value == s[|s| - 1]
  {
    if s == [] then None else Some(s[|s| - 1])
  }

  /** `Sequence.dropLast()`: everything but the last item; empty stays empty. */
  function DropLast<T>(s: seq<T>): (r: seq<T>)
    ensures |r| == if s == [] then 0 else |s| - 1
    ensures forall i :: 0 <= i < |r| ==> r[i] == s[i]
  {
    if s == [] then [] else s[..|s| - 1]
  }

  /**
   * `path.ids.dropLast().last`: the key of the element directly beneath the
   * top, which exists exactly when the stack holds two or more elements.
   */
  function SecondFromTop<E>(path: seq<Entry<E>>): (r: Option<ElementId>)
    ensures r.Some? <==> |path| >= 2
    ensures r.Some? ==> r.value == path[|path| - 2].id
  {
    Last(DropLast(ElementIds(path)))
  }

  /**
   * `path[id: id] = e` for a key already on the stack: the element is
   * replaced where it stands. A key that is absent leaves the stack as it is.
   */
  function Replace<E>(path: seq<Entry<E>>, id: ElementId, e: E): (r: seq<Entry<E>>)
    requires UniqueKeys(path)
    ensures UniqueKeys(r) && Keys(r) == Keys(path) && |r| == |path|
    ensures id in Keys(path) ==> Get(r, id) == Some(e)
    ensures id !in Keys(path) ==> r == path
    ensures forall j :: 0 <= j < |path| && path[j].id != id ==> r[j] == path[j]
  {
    match IndexOfKey(path, id)
    case None => path
    case Some(i) =>
      var r := path[i := Entry(id, e)];
      assert Keys(r) == Keys(path) by {
        forall k | k in Keys(path) ensures k in Keys(r) {
          var j :| 0 <= j < |path| && path[j].id == k;
          assert r[j].id == k;
        }
      }
      GetAt(r, i);
      r
  }

  /**
   * `path.append(e)` under the fresh key `id`: the new element is on top,
   * the elements beneath are untouched and keys stay unique.
   */
  function Append<E>(path: seq<Entry<E>>, id: ElementId, e: E): (r: seq<Entry<E>>)
    requires UniqueKeys(path) && id !in Keys(path)
    ensures UniqueKeys(r) && Keys(r) == Keys(path) + {id}
    ensures |r| == |path| + 1 && r[..|path|] == path && r[|path|] == Entry(id, e)
    ensures Get(r, id) == Some(e)
    ensures forall k :: k != id ==> Get(r, k) == Get(path, k)
  {
    var r := path + [Entry(id, e)];
    assert forall j :: 0 <= j < |path| ==> path[j].id in Keys(path);
    assert Keys(r) == Keys(path) + {id} by {
      assert r[|path|].id == id;
      forall k | k in Keys(path) ensures k in Keys(r) {
        var j :| 0 <= j < |path| && path[j].id == k;
        assert r[j].id == k;
      }
    }
    GetAt(r, |path|);
    forall k | k != id ensures Get(r, k) == Get(path, k) {
      GetExtended(path, r, k);
    }
    r
  }

  /** Putting elements on top does not change what a key already beneath resolves to. */
  lemma GetExtended<E>(path: seq<Entry<E>>, r: seq<Entry<E>>, k: ElementId)
    requires |path| <= |r| && r[..|path|] == path
    requires forall j :: |path| <= j < |r| ==> r[j].id != k
    ensures Get(r, k) == Get(path, k)
  {
  }
}
