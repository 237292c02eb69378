/** The two growable arrays of the library: a loop's watcher list (append, order-preserving delete)
    and the {ident, watcher} registration records of the epoll and kqueue backends (append,
    swap-remove).  Both double their capacity; a failed allocation leaves them unchanged. */
module Growable {

  datatype Record = Record(ident: int, watcher: nat)

  /* ---------------- registration records ---------------- */

  /** At most one record per ident and per watcher. */
  ghost predicate Unique(rs: seq<Record>)
  {
    forall i, j :: 0 <= i < j < |rs| ==> rs[i].ident != rs[j].ident && rs[i].watcher != rs[j].watcher
  }

  /** The first record naming this watcher, or |rs|. */
  function FindWatcher(rs: seq<Record>, w: nat): (i: nat)
    ensures i <= |rs| && (i < |rs| ==> rs[i].watcher == w) && forall j :: 0 <= j < i ==> rs[j].watcher != w
  {
    if rs == [] then 0 else if rs[0].watcher == w then 0 else 1 + FindWatcher(rs[1..], w)
  }

  /** The first record of this ident that names another watcher, or |rs|. */
  function FindStale(rs: seq<Record>, ident: int, w: nat): (i: nat)
    ensures i <= |rs| && (i < |rs| ==> rs[i].ident == ident && rs[i].watcher != w)
    ensures forall j :: 0 <= j < i ==> !(rs[j].ident == ident && rs[j].watcher != w)
  {
    if rs == [] then 0 else if rs[0].ident == ident && rs[0].watcher != w then 0 else 1 + FindStale(rs[1..], ident, w)
  }

  /** Overwrite position i with the last element and drop the last. */
  function SwapRemove<T>(s: seq<T>, i: nat): seq<T>
    requires i < |s|
  {
    s[i := s[|s| - 1]][..|s| - 1]
  }

  function Evict(rs: seq<Record>, ident: int, w: nat): seq<Record>
  {
    var i := FindStale(rs, ident, w);
    if i < |rs| then SwapRemove(rs, i) else rs
  }

  lemma UniqueMembers(rs: seq<Record>, r: Record, q: Record)
    requires Unique(rs) && r in rs && q in rs
    ensures r.ident == q.ident <==> r == q
    ensures r.watcher == q.watcher <==> r == q
  {
  }

  /** The map from ident to owning watcher that unique records stand for. */
  ghost function AsMap(rs: seq<Record>): (m: map<int, nat>)
    requires Unique(rs)
    ensures forall r :: r in rs <==> r.ident in m && m[r.ident] == r.watcher
  {
    map k | k in (set r <- rs :: r.ident) :: RecordOf(rs, k).watcher
  }

  ghost function RecordOf(rs: seq<Record>, ident: int): (r: Record)
    requires ident in set r <- rs :: r.ident
    ensures r in rs && r.ident == ident
  {
    var r :| r in rs && r.ident == ident;
    r
  }

  lemma SwapRemoveMembers(rs: seq<Record>, i: nat)
    requires Unique(rs) && i < |rs|
    ensures Unique(SwapRemove(rs, i))
    ensures forall r :: r in SwapRemove(rs, i) <==> r in rs && r != rs[i]
  {
    var n := |rs| - 1;
    var ts := SwapRemove(rs, i);
    assert forall j :: 0 <= j < n ==> ts[j] == if j == i then rs[n] else rs[j];
    forall r | r in rs && r != rs[i] ensures r in ts {
      var j :| 0 <= j < |rs| && rs[j] == r;
      assert ts[if j == n then i else j] == r;
    }
  }

  /** Swap-remove on the array is removal of a key from the map. */
  lemma SwapRemoveIsMapRemove(rs: seq<Record>, i: nat)
    requires Unique(rs) && i < |rs|
    ensures Unique(SwapRemove(rs, i)) && AsMap(SwapRemove(rs, i)) == AsMap(rs) - {rs[i].ident}
  {
    SwapRemoveMembers(rs, i);
    var m, m' := AsMap(rs), AsMap(SwapRemove(rs, i));
    forall k ensures k in m' <==> k in m && k != rs[i].ident {
      if k in m {
        assert Record(k, m[k]) in rs;
        UniqueMembers(rs, Record(k, m[k]), rs[i]);
      }
      if k in m' {
        assert Record(k, m'[k]) in SwapRemove(rs, i);
        UniqueMembers(rs, Record(k, m'[k]), rs[i]);
      }
    }
    forall k | k in m' ensures m'[k] == m[k] {
      assert Record(k, m'[k]) in SwapRemove(rs, i);
    }
  }

  /** Appending the record of an unrecorded ident and watcher is insertion into the map. */
  lemma AppendIsMapInsert(rs: seq<Record>, r: Record)
    requires Unique(rs) && forall q <- rs :: q.ident != r.ident && q.watcher != r.watcher
    ensures Unique(rs + [r]) && AsMap(rs + [r]) == AsMap(rs)[r.ident := r.watcher]
  {
    var m, m' := AsMap(rs), AsMap(rs + [r]);
    assert forall q :: q in rs + [r] <==> q in rs || q == r;
    forall k ensures k in m' <==> k in m || k == r.ident {
      assert k in m' ==> Record(k, m'[k]) in rs + [r];
      assert k in m ==> Record(k, m[k]) in rs + [r];
      assert k == r.ident ==> r in rs + [r];
    }
    forall k | k in m' ensures m'[k] == m[r.ident := r.watcher][k] {
      assert Record(k, m'[k]) in rs + [r];
    }
  }

  /** Eviction drops exactly the record that gives the ident to another watcher. */
  lemma EvictMembers(rs: seq<Record>, ident: int, w: nat)
    requires Unique(rs)
    ensures Unique(Evict(rs, ident, w))
    ensures forall r :: r in Evict(rs, ident, w) <==> r in rs && !(r.ident == ident && r.watcher != w)
  {
    var i := FindStale(rs, ident, w);
    if i < |rs| {
      SwapRemoveMembers(rs, i);
    }
  }

  /* ---------------- the watcher list ---------------- */

  ghost predicate NoDuplicates(s: seq<nat>)
  {
    forall i, j :: 0 <= i < j < |s| ==> s[i] != s[j]
  }

  /** The list without the first occurrence of w, the others in their order. */
  function Without(s: seq<nat>, w: nat): seq<nat>
  {
    if s == [] then [] else if s[0] == w then s[1..] else [s[0]] + Without(s[1..], w)
  }

  lemma {:induction false} WithoutSplits(s: seq<nat>, w: nat, i: nat)
    requires i < |s| && s[i] == w && w !in s[..i]
    ensures Without(s, w) == s[..i] + s[i + 1..]
  {
    if s[0] != w {
      assert s[..i] == [s[0]] + s[1..][..i - 1];
      WithoutSplits(s[1..], w, i - 1);
      assert s[1..][i..] == s[i + 1..];
    }
  }

  lemma {:induction false} WithoutAbsent(s: seq<nat>, w: nat)
    requires w !in s
    ensures Without(s, w) == s
  {
    if s != [] {
      WithoutAbsent(s[1..], w);
    }
  }

  /** On a duplicate-free list, removal takes out the watcher and nothing else, keeps the order of the
      rest, and undoes an append wherever in the list's life it comes. */
  lemma WithoutMembers(s: seq<nat>, w: nat)
    requires NoDuplicates(s)
    ensures NoDuplicates(Without(s, w))
    ensures forall v :: v in Without(s, w) <==> v in s && v != w
    ensures w !in s ==> Without(s + [w], w) == s
  {
    if w in s {
      var i :| 0 <= i < |s| && s[i] == w;
      WithoutSplits(s, w, i);
      forall v | v in s && v != w ensures v in Without(s, w) {
        var j :| 0 <= j < |s| && s[j] == v;
        assert Without(s, w)[if j < i then j else j - 1] == v;
      }
    } else {
      WithoutAbsent(s, w);
      WithoutSplits(s + [w], w, |s|);
    }
  }
}
