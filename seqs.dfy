/** Generic sequence operations behind the store helpers and the pages:
    `Array.prototype.filter`, `findIndex`/`find`, the find-then-replace-or-push
    upsert shared by `saveUser` and `saveProject`, and the id-keyed `.map`
    replacement the pages apply to their local lists. */
module Seqs {

  datatype Option<+T> = None | Some(value: T)

  /** `a` is `b` with some elements deleted: same elements, same relative order. */
  ghost predicate IsSubsequence<T>(a: seq<T>, b: seq<T>)
    decreases |b|
  {
    if a == [] then true
    else if b == [] then false
    else (a[0] == b[0] && IsSubsequence(a[1..], b[1..])) || IsSubsequence(a, b[1..])
  }

  lemma {:induction false} SubsequenceTransitive<T>(a: seq<T>, b: seq<T>, c: seq<T>)
    requires IsSubsequence(a, b) && IsSubsequence(b, c)
    ensures IsSubsequence(a, c)
    decreases |c|
  {
    if a != [] {
      assert b != [] && c != [];
      if IsSubsequence(b, c[1..]) {
        SubsequenceTransitive(a, b, c[1..]);
      } else {
        assert b[0] == c[0] && IsSubsequence(b[1..], c[1..]);
        if a[0] == b[0] && IsSubsequence(a[1..], b[1..]) {
          SubsequenceTransitive(a[1..], b[1..], c[1..]);
        } else {
          SubsequenceTransitive(a, b[1..], c[1..]);
        }
      }
    }
  }

  /** Every sequence is a subsequence of itself. */
  lemma {:induction false} SubsequenceReflexive<T>(s: seq<T>)
    ensures IsSubsequence(s, s)
  {
    if s != [] {
      SubsequenceReflexive(s[1..]);
    }
  }

  /** `s.filter(p)`: exactly the elements of `s` satisfying `p`, in their stored order. */
  function Filter<T(==,!new)>(s: seq<T>, p: T -> bool): (r: seq<T>)
    ensures forall i :: 0 <= i < |r| ==> p(r[i])
    ensures forall x :: x in r <==> x in s && p(x)
    ensures forall x :: multiset(r)[x] == if p(x) then multiset(s)[x] else 0
  {
    if s == [] then []
    else
      assert s == [s[0]] + s[1..];
      if p(s[0]) then [s[0]] + Filter(s[1..], p) else Filter(s[1..], p)
  }

  /** The kept elements are a subsequence of the input: same relative order. */
  lemma {:induction false} FilterIsSubsequence<T(!new)>(s: seq<T>, p: T -> bool)
    ensures IsSubsequence(Filter(s, p), s)
  {
    if s != [] {
      FilterIsSubsequence(s[1..], p);
      if p(s[0]) {
        assert Filter(s, p)[1..] == Filter(s[1..], p);
      }
    }
  }

  lemma {:induction false} FilterKeepsAll<T(!new)>(s: seq<T>, p: T -> bool)
    requires forall i :: 0 <= i < |s| ==> p(s[i])
    ensures Filter(s, p) == s
  {
    if s != [] {
      FilterKeepsAll(s[1..], p);
    }
  }

  lemma {:induction false} FilterConcat<T(!new)>(a: seq<T>, b: seq<T>, p: T -> bool)
    ensures Filter(a + b, p) == Filter(a, p) + Filter(b, p)
  {
    if a == [] {
      assert a + b == b;
    } else {
      assert (a + b)[1..] == a[1..] + b;
      FilterConcat(a[1..], b, p);
    }
  }

  /** `s.findIndex(p)`, with -1 written as None: the first position whose element satisfies `p`. */
  function FirstIndex<T>(s: seq<T>, p: T -> bool): (r: Option<nat>)
    ensures r.Some? ==> r.value < |s| && p(s[r.value])
    ensures r.Some? ==> forall j :: 0 <= j < r.value ==> !p(s[j])
    ensures r.None? ==> forall j :: 0 <= j < |s| ==> !p(s[j])
  {
    if s == [] then None
    else if p(s[0]) then Some(0)
    else match FirstIndex(s[1..], p)
      case None => None
      case Some(k) => Some(k + 1)
  }

  /** Looking past a prefix: the first match in `a + b` is the first in `a`, else the first in `b` shifted by |a|. */
  lemma {:induction false} FirstIndexConcat<T>(a: seq<T>, b: seq<T>, p: T -> bool)
    ensures FirstIndex(a + b, p) ==
      match FirstIndex(a, p)
      case Some(i) => Some(i)
      case None => match FirstIndex(b, p) { case Some(j) => Some(|a| + j) case None => None }
  {
    if a == [] {
      assert a + b == b;
    } else {
      assert (a + b)[1..] == a[1..] + b;
      FirstIndexConcat(a[1..], b, p);
    }
  }

  /** The first position whose element carries `id` under `idOf`. */
  function IndexOfId<T>(s: seq<T>, id: string, idOf: T -> string): (r: Option<nat>)
    ensures r.Some? ==> r.value < |s| && idOf(s[r.value]) == id
    ensures r.Some? ==> forall j :: 0 <= j < r.value ==> idOf(s[j]) != id
    ensures r.None? ==> forall j :: 0 <= j < |s| ==> idOf(s[j]) != id
  {
    FirstIndex(s, (y: T) => idOf(y) == id)
  }

  /** Some element of `s` carries `id`. */
  predicate HasId<T>(s: seq<T>, id: string, idOf: T -> string)
  {
    exists j :: 0 <= j < |s| && idOf(s[j]) == id
  }

  /** No two positions of `s` carry the same id. */
  predicate UniqueIds<T>(s: seq<T>, idOf: T -> string)
  {
    forall i, j :: 0 <= i < j < |s| ==> idOf(s[i]) != idOf(s[j])
  }

  /** Find the first entry with `x`'s id and overwrite it with `x`; with no such entry, push `x`. */
  function Upsert<T>(s: seq<T>, x: T, idOf: T -> string): (r: seq<T>)
    ensures x in r
    ensures |s| <= |r| <= |s| + 1
  {
    match IndexOfId(s, idOf(x), idOf)
    case Some(i) => assert s[i := x][i] == x; s[i := x]
    case None => s + [x]
  }

  /** The saved item is present afterwards; the length is unchanged when the
      id was present and grows by one when it was not. */
  lemma UpsertLength<T>(s: seq<T>, x: T, idOf: T -> string)
    ensures x in Upsert(s, x, idOf)
    ensures HasId(s, idOf(x), idOf) ==> |Upsert(s, x, idOf)| == |s|
    ensures !HasId(s, idOf(x), idOf) ==> |Upsert(s, x, idOf)| == |s| + 1
  {
    match IndexOfId(s, idOf(x), idOf)
    case Some(i) =>
      assert Upsert(s, x, idOf)[i] == x;
    case None =>
      assert Upsert(s, x, idOf)[|s|] == x;
  }

  /** Upsert of an id already present: the first entry with that id, at `k`,
      becomes `x`; every other position and the length are unchanged. */
  lemma UpsertExisting<T>(s: seq<T>, x: T, idOf: T -> string, k: nat)
    requires k < |s| && idOf(s[k]) == idOf(x)
    requires forall j :: 0 <= j < k ==> idOf(s[j]) != idOf(x)
    ensures |Upsert(s, x, idOf)| == |s|
    ensures Upsert(s, x, idOf)[k] == x
    ensures forall j :: 0 <= j < |s| && j != k ==> Upsert(s, x, idOf)[j] == s[j]
  {
    var r := IndexOfId(s, idOf(x), idOf);
    assert r.Some?;
    assert r.value == k;
  }

  /** Upsert of a new id appends: length grows by one and the old sequence is a prefix. */
  lemma UpsertNew<T>(s: seq<T>, x: T, idOf: T -> string)
    requires !HasId(s, idOf(x), idOf)
    ensures Upsert(s, x, idOf) == s + [x]
    ensures Upsert(s, x, idOf)[..|s|] == s
  {
    var r := IndexOfId(s, idOf(x), idOf);
    assert r.None?;
  }

  /** Saving the same item twice has the effect of saving it once. */
  lemma UpsertIdempotent<T>(s: seq<T>, x: T, idOf: T -> string)
    ensures Upsert(Upsert(s, x, idOf), x, idOf) == Upsert(s, x, idOf)
  {
    var id := idOf(x);
    var once := Upsert(s, x, idOf);
    match IndexOfId(s, id, idOf)
    case Some(i) =>
      assert once == s[i := x];
      UpsertExisting(once, x, idOf, i);
    case None =>
      assert once == s + [x];
      UpsertExisting(once, x, idOf, |s|);
      assert once[|s| := x] == once;
  }

  /** Saving a second item with the same id overwrites the first save: only the last one counts. */
  lemma UpsertOverwrites<T>(s: seq<T>, x: T, y: T, idOf: T -> string)
    requires idOf(x) == idOf(y)
    ensures Upsert(Upsert(s, x, idOf), y, idOf) == Upsert(s, y, idOf)
  {
    var once := Upsert(s, x, idOf);
    match IndexOfId(s, idOf(x), idOf)
    case Some(i) =>
      assert once == s[i := x];
      UpsertExisting(once, y, idOf, i);
    case None =>
      assert once == s + [x];
      UpsertExisting(once, y, idOf, |s|);
  }

  /** An upsert never introduces a duplicate id. */
  lemma UpsertKeepsUniqueIds<T>(s: seq<T>, x: T, idOf: T -> string)
    requires UniqueIds(s, idOf)
    ensures UniqueIds(Upsert(s, x, idOf), idOf)
  {
    var r := Upsert(s, x, idOf);
    match IndexOfId(s, idOf(x), idOf)
    case Some(i) =>
      assert r == s[i := x];
      forall a, b | 0 <= a < b < |r| ensures idOf(r[a]) != idOf(r[b]) {
        if a == i {
          assert idOf(s[b]) != idOf(s[i]);
        } else if b == i {
          assert idOf(s[a]) != idOf(s[i]);
        }
      }
    case None =>
      assert r == s + [x];
  }

  /** With unique ids, after the upsert the item is the one and only entry with its id. */
  lemma UpsertSoleEntry<T>(s: seq<T>, x: T, idOf: T -> string)
    requires UniqueIds(s, idOf)
    ensures var r := Upsert(s, x, idOf);
      x in r && forall j :: 0 <= j < |r| && idOf(r[j]) == idOf(x) ==> r[j] == x
  {
    var r := Upsert(s, x, idOf);
    UpsertKeepsUniqueIds(s, x, idOf);
    UpsertLength(s, x, idOf);
    var k :| 0 <= k < |r| && r[k] == x;
    forall j | 0 <= j < |r| && idOf(r[j]) == idOf(x) ensures r[j] == x {
      assert idOf(r[j]) == idOf(r[k]);
    }
  }

  /** `s.map(y => idOf(y) === id ? x : y)`: every entry carrying `id` becomes `x`. */
  function ReplaceAll<T>(s: seq<T>, id: string, x: T, idOf: T -> string): (r: seq<T>)
    ensures |r| == |s|
    ensures forall j :: 0 <= j < |s| && idOf(s[j]) != id ==> r[j] == s[j]
    ensures forall j :: 0 <= j < |s| && idOf(s[j]) == id ==> r[j] == x
  {
    seq(|s|, j requires 0 <= j < |s| => if idOf(s[j]) == id then x else s[j])
  }

  /** On a list with unique ids the page's `.map` replacement and the store's
      upsert agree whenever the id is present. */
  lemma ReplaceAllIsUpsert<T>(s: seq<T>, x: T, idOf: T -> string)
    requires UniqueIds(s, idOf) && HasId(s, idOf(x), idOf)
    ensures ReplaceAll(s, idOf(x), x, idOf) == Upsert(s, x, idOf)
  {
    var i := IndexOfId(s, idOf(x), idOf);
    assert i.Some?;
    var k := i.value;
    forall j | 0 <= j < |s| && j != k ensures idOf(s[j]) != idOf(x) {
      if j > k {
        assert idOf(s[k]) != idOf(s[j]);
      }
    }
  }

  /** `s.reduce((sum, y) => sum + f(y), 0)` */
  function Sum<T>(s: seq<T>, f: T -> int): (r: int)
    ensures s == [] ==> r == 0
    ensures |s| == 1 ==> r == f(s[0])
  {
    if s == [] then 0 else f(s[0]) + Sum(s[1..], f)
  }

  /** Adding an element at the end adds its term to the sum. */
  lemma {:induction false} SumAppend<T>(s: seq<T>, x: T, f: T -> int)
    ensures Sum(s + [x], f) == Sum(s, f) + f(x)
  {
    if s != [] {
      assert (s + [x])[1..] == s[1..] + [x];
      SumAppend(s[1..], x, f);
    }
  }

  /** A sum of non-negative terms is non-negative. */
  lemma {:induction false} SumNonNegative<T>(s: seq<T>, f: T -> int)
    requires forall i :: 0 <= i < |s| ==> f(s[i]) >= 0
    ensures Sum(s, f) >= 0
  {
    if s != [] {
      SumNonNegative(s[1..], f);
    }
  }

  /** Replacing an id no entry carries changes nothing. */
  lemma {:induction false} ReplaceAbsent<T>(s: seq<T>, id: string, x: T, idOf: T -> string)
    requires forall j :: 0 <= j < |s| ==> idOf(s[j]) != id
    ensures ReplaceAll(s, id, x, idOf) == s
  {
    if s != [] {
      ReplaceAbsent(s[1..], id, x, idOf);
    }
  }

  /** The tail of a list with unique ids has unique ids. */
  lemma UniqueIdsTail<T>(s: seq<T>, idOf: T -> string)
    requires s != [] && UniqueIds(s, idOf)
    ensures UniqueIds(s[1..], idOf)
    ensures forall j :: 1 <= j < |s| ==> idOf(s[j]) != idOf(s[0])
  {
    forall a, b | 0 <= a < b < |s[1..]| ensures idOf(s[1..][a]) != idOf(s[1..][b]) {
      assert idOf(s[a + 1]) != idOf(s[b + 1]);
    }
    forall j | 1 <= j < |s| ensures idOf(s[j]) != idOf(s[0]) {
      assert idOf(s[0]) != idOf(s[j]);
    }
  }

  /** In a list with unique ids, replacing the entry at `k` by `x` (same id)
      swaps that entry's term of the sum for `x`'s. */
  lemma {:induction false} SumReplace<T>(s: seq<T>, k: nat, x: T, f: T -> int, idOf: T -> string)
    requires k < |s| && UniqueIds(s, idOf) && idOf(x) == idOf(s[k])
    ensures Sum(ReplaceAll(s, idOf(x), x, idOf), f) == Sum(s, f) - f(s[k]) + f(x)
  {
    var r := ReplaceAll(s, idOf(x), x, idOf);
    assert r[1..] == ReplaceAll(s[1..], idOf(x), x, idOf);
    UniqueIdsTail(s, idOf);
    if k == 0 {
      ReplaceAbsent(s[1..], idOf(x), x, idOf);
    } else {
      SumReplace(s[1..], k - 1, x, f, idOf);
    }
  }
}
