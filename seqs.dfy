/** The two array queries the store is built from: `findIndex` and `filter`. */
module Seqs {
  import opened Wrappers

  /** Index of the first element satisfying `p`, as `Array.prototype.findIndex`
      (`None` stands for its -1). */
  function IndexWhere<T>(s: seq<T>, p: T -> bool): (r: Option<nat>)
    ensures r.Some? ==> r.value < |s| && p(s[r.value])
    ensures r.Some? ==> forall j :: 0 <= j < r.value ==> !p(s[j])
    ensures r.None? <==> forall j :: 0 <= j < |s| ==> !p(s[j])
  {
    if |s| == 0 then None
    else if p(s[0]) then Some(0)
    else match IndexWhere(s[1..], p)
      case None => None
      case Some(k) => Some(k + 1)
  }

  /** The elements satisfying `p`, in their original order, as `Array.prototype.filter`. */
  function Filter<T(!new)>(s: seq<T>, p: T -> bool): (r: seq<T>)
    ensures |r| <= |s|
    ensures forall x :: multiset(r)[x] == if p(x) then multiset(s)[x] else 0
  {
    if |s| == 0 then []
    else
      var rest := Filter(s[1..], p);
      assert s == [s[0]] + s[1..];
      if p(s[0]) then [s[0]] + rest else rest
  }

  /** Two sequences whose elements agree on `p` have the same first match. */
  lemma {:induction false} IndexWhereAgrees<T>(s: seq<T>, t: seq<T>, p: T -> bool)
    requires |s| == |t|
    requires forall j :: 0 <= j < |s| ==> p(s[j]) == p(t[j])
    ensures IndexWhere(s, p) == IndexWhere(t, p)
  {
    if |s| > 0 {
      IndexWhereAgrees(s[1..], t[1..], p);
    }
  }

  /** Appending an element only matters to `findIndex` when nothing earlier matched. */
  lemma {:induction false} IndexWhereAppend<T>(s: seq<T>, x: T, p: T -> bool)
    ensures IndexWhere(s + [x], p) ==
      if IndexWhere(s, p).Some? then IndexWhere(s, p)
      else if p(x) then Some(|s|) else None
  {
    if |s| == 0 {
      assert s + [x] == [x];
      assert [x][1..] == [];
    } else {
      assert (s + [x])[0] == s[0];
      assert (s + [x])[1..] == s[1..] + [x];
      IndexWhereAppend(s[1..], x, p);
    }
  }

  /** Filtering distributes over concatenation: the filter keeps the original order. */
  lemma {:induction false} FilterAppend<T(!new)>(a: seq<T>, b: seq<T>, p: T -> bool)
    ensures Filter(a + b, p) == Filter(a, p) + Filter(b, p)
  {
    if |a| == 0 {
      assert a + b == b;
    } else {
      assert (a + b)[1..] == a[1..] + b;
      FilterAppend(a[1..], b, p);
    }
  }

  /** A filter that no element passes yields nothing. */
  lemma {:induction false} FilterNone<T(!new)>(s: seq<T>, p: T -> bool)
    requires forall j :: 0 <= j < |s| ==> !p(s[j])
    ensures Filter(s, p) == []
  {
    if |s| > 0 {
      FilterNone(s[1..], p);
    }
  }

  /** An element survives the filter exactly when it is present and passes `p`. */
  lemma FilterMember<T(!new)>(s: seq<T>, p: T -> bool, x: T)
    ensures x in Filter(s, p) <==> x in s && p(x)
  {
    assert x in Filter(s, p) <==> multiset(Filter(s, p))[x] > 0;
    assert x in s <==> multiset(s)[x] > 0;
  }

  /** Filtering one element keeps it or drops it. */
  lemma FilterSingle<T(!new)>(x: T, p: T -> bool)
    ensures Filter([x], p) == if p(x) then [x] else []
  {
    assert [x][1..] == [];
  }

  /** Replacing one element by one the filter drops removes it from the filtered
      sequence and keeps the rest in order. */
  lemma FilterReplaceDropped<T(!new)>(s: seq<T>, k: nat, x: T, p: T -> bool)
    requires k < |s| && !p(x)
    ensures Filter(s[k := x], p) == Filter(s[..k], p) + Filter(s[k + 1..], p)
  {
    var front, back := s[..k], s[k + 1..];
    var whole := (front + [x]) + back;
    forall i | 0 <= i < |s| ensures whole[i] == s[k := x][i] {
      if i < k {
        assert whole[i] == front[i];
      } else if i > k {
        assert whole[i] == back[i - k - 1];
      }
    }
    assert s[k := x] == whole;
    FilterAppend(front + [x], back, p);
    FilterAppend(front, [x], p);
    FilterSingle(x, p);
  }
}
