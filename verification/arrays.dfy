/** The growable arrays in place, as loop.c, epoll.c and kqueue.c keep them. */
module Arrays {
  import opened Growable

  /** pd_epoll_data_t / pd_kqueue_data_t: registrations, registration_count, registration_capacity. */
  class RegistrationTable {
    var registrations: array<Record>
    var count: nat

    constructor ()
      ensures Valid() && fresh(registrations) && Records() == [] && registrations.Length == 0
    {
      registrations := new Record[0];
      count := 0;
    }

    ghost predicate Valid()
      reads this
    {
      count <= registrations.Length
    }

    ghost function Records(): seq<Record>
      reads this, registrations
      requires Valid()
    {
      registrations[..count]
    }

    /** registrations[i] = registrations[--count] */
    method RemoveAt(i: nat)
      requires Valid() && i < count
      modifies `count, registrations
      ensures Valid() && Records() == SwapRemove(old(Records()), i)
    {
      registrations[i] := registrations[count - 1];
      count := count - 1;
      assert registrations[..count] == SwapRemove(old(registrations[..count]), i);
    }

    /** Drop the record that gives this ident to another watcher, if there is one. */
    method EvictStale(ident: int, w: nat)
      requires Valid()
      modifies `count, registrations
      ensures Valid() && Records() == Evict(old(Records()), ident, w)
    {
      for i := 0 to count
        invariant Valid() && registrations == old(registrations) && count == old(count) && registrations[..] == old(registrations[..])
        invariant i <= FindStale(Records(), ident, w)
      {
        if registrations[i].ident == ident && registrations[i].watcher != w {
          RemoveAt(i);
          return;
        }
      }
    }

    /** The index of this watcher's record, or count. */
    method Find(w: nat) returns (index: nat)
      requires Valid()
      ensures index == FindWatcher(Records(), w)
    {
      index := count;
      for i := 0 to count
        invariant index == count && i <= FindWatcher(Records(), w)
      {
        if registrations[i].watcher == w {
          index := i;
          break;
        }
      }
    }

    /** Double the capacity (from 8) when the array is full; a failed realloc changes nothing. */
    method Reserve(mem: bool) returns (ok: bool)
      requires Valid()
      modifies `registrations
      ensures Valid() && count == old(count) && Records() == old(Records())
      ensures ok <==> old(count < registrations.Length) || mem
      ensures ok ==> count < registrations.Length
      ensures registrations == old(registrations) || fresh(registrations)
      ensures registrations.Length == Grown(old(registrations.Length), old(count), mem)
    {
      if count < registrations.Length {
        return true;
      }
      if !mem {
        return false;
      }
      var capacity := if registrations.Length == 0 then 8 else registrations.Length * 2;
      var grown := new Record[capacity](_ => Record(0, 0));
      for i := 0 to count
        invariant registrations == old(registrations) && count == old(count) && grown.Length == capacity
        invariant grown[..i] == registrations[..i]
      {
        grown[i] := registrations[i];
      }
      assert grown[..count] == registrations[..count];
      registrations := grown;
      return true;
    }

    method Append(ident: int, w: nat)
      requires Valid() && count < registrations.Length
      modifies `count, registrations
      ensures Valid() && Records() == old(Records()) + [Record(ident, w)]
    {
      registrations[count] := Record(ident, w);
      count := count + 1;
    }
  }

  /** The capacity after a request for one more slot. */
  function Grown(capacity: nat, count: nat, mem: bool): nat
  {
    if count < capacity || !mem then capacity else if capacity == 0 then 8 else capacity * 2
  }

  /** The capacity, starting from `capacity`, after n appends to an empty array, and the elements that were
      copied to larger arrays on the way. */
  function CapacityAfter(capacity: nat, n: nat): nat
  {
    if n == 0 then capacity else Grown(CapacityAfter(capacity, n - 1), n - 1, true)
  }

  function CopiesAfter(capacity: nat, n: nat): nat
  {
    if n == 0 then 0 else CopiesAfter(capacity, n - 1) + if CapacityAfter(capacity, n - 1) > n - 1 then 0 else n - 1
  }

  /** Growing by doubling is cheap: n appends fit, take no more than twice the room that they need beyond
      the first array, and copy no more elements than that. */
  lemma {:induction false} AppendsCostLinear(capacity: nat, n: nat)
    ensures n <= CapacityAfter(capacity, n)
    ensures CapacityAfter(capacity, n) <= capacity || CapacityAfter(capacity, n) <= 8 || CapacityAfter(capacity, n) <= 2 * n
    ensures CopiesAfter(capacity, n) <= CapacityAfter(capacity, n)
  {
    if n > 0 {
      AppendsCostLinear(capacity, n - 1);
    }
  }

  /** pd_loop_t: watchers, watcher_count, watcher_capacity. */
  class WatcherArray {
    var watchers: array<nat>
    var count: nat

    constructor ()
      ensures Valid() && fresh(watchers) && Elements() == [] && watchers.Length == 16
    {
      watchers := new nat[16];
      count := 0;
    }

    ghost predicate Valid()
      reads this
    {
      count <= watchers.Length && watchers.Length > 0
    }

    ghost function Elements(): seq<nat>
      reads this, watchers
      requires Valid()
    {
      watchers[..count]
    }

    /** pd_loop_add_watcher */
    method Add(w: nat, mem: bool) returns (ok: bool)
      requires Valid()
      modifies this, watchers
      ensures Valid() && (watchers == old(watchers) || fresh(watchers))
      ensures ok <==> old(count < watchers.Length) || mem
      ensures Elements() == if ok then old(Elements()) + [w] else old(Elements())
      ensures watchers.Length == Grown(old(watchers.Length), old(count), mem)
    {
      if count >= watchers.Length {
        if !mem {
          return false;
        }
        var grown := new nat[watchers.Length * 2];
        for i := 0 to count
          invariant watchers == old(watchers) && count == old(count) && grown.Length == watchers.Length * 2
          invariant grown[..i] == watchers[..i] && watchers[..] == old(watchers[..])
        {
          grown[i] := watchers[i];
        }
        assert grown[..count] == old(watchers[..count]);
        watchers := grown;
      }
      watchers[count] := w;
      count := count + 1;
      return true;
    }

    /** Shift the watchers behind position i one place to the front. */
    method ShiftOver(i: nat)
      requires Valid() && i < count
      modifies `count, watchers
      ensures Valid() && Elements() == old(Elements()[..i] + Elements()[i + 1..])
    {
      var j := i;
      while j < count - 1
        invariant i <= j < count == old(count) && Valid()
        invariant forall k :: 0 <= k < i ==> watchers[k] == old(watchers[k])
        invariant forall k :: i <= k < j ==> watchers[k] == old(watchers[k + 1])
        invariant forall k :: j <= k < count ==> watchers[k] == old(watchers[k])
      {
        watchers[j] := watchers[j + 1];
        j := j + 1;
      }
      count := count - 1;
    }

    /** pd_loop_remove_watcher */
    method Remove(w: nat) returns (found: bool)
      requires Valid()
      modifies `count, watchers
      ensures Valid()
      ensures found <==> w in old(Elements())
      ensures Elements() == Without(old(Elements()), w)
    {
      ghost var s := Elements();
      for i := 0 to count
        invariant Valid() && watchers == old(watchers) && count == |s| && Elements() == s
        invariant w !in s[..i]
      {
        if watchers[i] == w {
          assert s[i] == w;
          WithoutSplits(s, w, i);
          ShiftOver(i);
          return true;
        }
      }
      assert s[..count] == s;
      WithoutAbsent(s, w);
      return false;
    }
  }
}
