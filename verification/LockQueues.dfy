/** ServerCore/LockQueue: a queue whose every operation runs under its lock.  Items are
    shared_ptrs, so an item may be null, and PopAll stops at a null as it does at the end. */
module LockQueues {

  datatype Pointer<T> = Null | To(target: T)

  /** The items in front of the first null. */
  function Leading<T>(items: seq<Pointer<T>>): (front: seq<T>)
    ensures |front| <= |items|
  {
    if items == [] || items[0].Null? then [] else [items[0].target] + Leading(items[1..])
  }

  class LockQueue<T> {
    var items: seq<Pointer<T>>

    constructor ()
      ensures items == []
    {
      items := [];
    }

    method Push(item: Pointer<T>)
      modifies this
      ensures items == old(items) + [item]
    {
      items := items + [item];
    }

    method Pop() returns (item: Pointer<T>, isEmpty: bool)
      modifies this
      ensures isEmpty <==> old(items) == []
      ensures isEmpty ==> item.Null? && items == []
      ensures !isEmpty ==> old(items) == [item] + items
    {
      if items == [] { return Null, true; }
      item, isEmpty := items[0], false;
      items := items[1..];
    }

    /** Takes everything in front of the first null, in order, and that null with it. */
    method PopAll() returns (taken: seq<T>)
      modifies this
      ensures taken == Leading(old(items))
      ensures items == if |taken| == |old(items)| then [] else old(items)[|taken| + 1..]
    {
      taken := [];
      ghost var all := items;
      assert all[0..] == all;
      while true
        invariant |taken| <= |all| && items == all[|taken|..]
        invariant Leading(all) == taken + Leading(items)
        decreases |items|
      {
        ghost var before := items;
        var item, isEmpty := Pop();
        if item.Null? { break; }
        assert before[1..] == items && all[|taken|..][1..] == all[|taken| + 1..];
        taken := taken + [item.target];
      }
    }
  }

  /** Without nulls, as the server uses it, PopAll takes everything. */
  lemma {:induction false} LeadingAll<T>(items: seq<Pointer<T>>)
    requires forall i :: 0 <= i < |items| ==> items[i].To?
    ensures |Leading(items)| == |items|
    ensures forall i :: 0 <= i < |items| ==> items[i] == To(Leading(items)[i])
  {
    if items != [] {
      LeadingAll(items[1..]);
    }
  }
}
