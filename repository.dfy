/** The repository queries the services call, over a table held as a
    sequence in storage order: a `findBy…`/`findFirstBy…` query returns the
    first matching row, a list query all matching rows in order, and a
    `PageRequest.of(page, size)` query the slice of a pre-sorted sequence. */
module Repository {
  import opened Common

  /** Index of the first row satisfying `p`, if any. */
  function FirstIndex<T>(s: seq<T>, p: T -> bool): (r: Option<nat>)
    ensures r.Some? ==> r.value < |s| && p(s[r.value])
    ensures r.Some? ==> forall j :: 0 <= j < r.value ==> !p(s[j])
    ensures r.None? <==> forall j :: 0 <= j < |s| ==> !p(s[j])
  {
    if s == [] then None
    else if p(s[0]) then Some(0)
    else match FirstIndex(s[1..], p)
      case None => None
      case Some(i) => Some(i + 1)
  }

  /** The first row satisfying `p`, if any. */
  function First<T>(s: seq<T>, p: T -> bool): (r: Option<T>)
    ensures r.Some? ==> r.value in s && p(r.value)
    ensures r.None? <==> forall j :: 0 <= j < |s| ==> !p(s[j])
  {
    match FirstIndex(s, p)
    case None => None
    case Some(i) => Some(s[i])
  }

  /** All rows satisfying `p`, in storage order. */
  function Filter<T(!new)>(s: seq<T>, p: T -> bool): (r: seq<T>)
    ensures |r| <= |s|
    ensures forall k :: 0 <= k < |r| ==> p(r[k])
    ensures forall x :: x in r <==> x in s && p(x)
  {
    if s == [] then []
    else (if p(s[0]) then [s[0]] else []) + Filter(s[1..], p)
  }

  /** The row `First` returns is the first matching one: no earlier row
      matches. */
  lemma FirstIsFirstMatch<T>(s: seq<T>, p: T -> bool)
    ensures First(s, p).Some? ==>
              exists i :: 0 <= i < |s| && s[i] == First(s, p).value && forall j :: 0 <= j < i ==> !p(s[j])
  {
    if First(s, p).Some? {
      var i := FirstIndex(s, p).value;
      assert s[i] == First(s, p).value;
    }
  }

  /** Filtering keeps storage order: it distributes over concatenation. */
  lemma {:induction false} FilterAppend<T(!new)>(a: seq<T>, b: seq<T>, p: T -> bool)
    ensures Filter(a + b, p) == Filter(a, p) + Filter(b, p)
  {
    if a == [] {
      assert a + b == b;
    } else {
      assert (a + b)[0] == a[0];
      assert (a + b)[1..] == a[1..] + b;
      FilterAppend(a[1..], b, p);
    }
  }

  /** A single row is kept exactly when it matches. */
  lemma FilterSingle<T(!new)>(x: T, p: T -> bool)
    ensures Filter([x], p) == if p(x) then [x] else []
  {
    assert [x][1..] == [];
  }

  /** Collecting the results of `f` over `s` in order, stopping at the
      first failure: a for loop whose body may throw. */
  function Collect<A, B>(s: seq<A>, f: A -> Result<B>): Result<seq<B>>
  {
    if s == [] then Ok([])
    else match Collect(s[..|s| - 1], f)
      case Err(e) => Err(e)
      case Ok(bs) =>
        match f(s[|s| - 1])
        case Err(e) => Err(e)
        case Ok(b) => Ok(bs + [b])
  }

  /** The collection succeeds exactly when every element succeeds, and then
      holds one result per element, in order. */
  lemma {:induction false} CollectOk<A, B>(s: seq<A>, f: A -> Result<B>)
    ensures Collect(s, f).Ok? <==> forall k :: 0 <= k < |s| ==> f(s[k]).Ok?
    ensures Collect(s, f).Ok? ==> (|Collect(s, f).value| == |s|
      && forall k :: 0 <= k < |s| ==> Collect(s, f).value[k] == f(s[k]).value)
  {
    if s != [] {
      var n := |s|;
      CollectOk(s[..n - 1], f);
      assert forall k :: 0 <= k < n - 1 ==> s[..n - 1][k] == s[k];
    }
  }

  /** A failed collection reports the error of its first failing element. */
  lemma {:induction false} CollectErr<A, B>(s: seq<A>, f: A -> Result<B>)
    requires Collect(s, f).Err?
    ensures exists k :: 0 <= k < |s| && f(s[k]) == Err(Collect(s, f).error)
                        && forall j :: 0 <= j < k ==> f(s[j]).Ok?
  {
    var n := |s|;
    var p := s[..n - 1];
    var c := Collect(p, f);
    if c.Err? {
      CollectErr(p, f);
      var k :| 0 <= k < |p| && f(p[k]) == Err(c.error) && forall j :: 0 <= j < k ==> f(p[j]).Ok?;
      assert p[k] == s[k];
      assert forall j :: 0 <= j < k ==> p[j] == s[j];
    } else {
      CollectOk(p, f);
      assert forall j :: 0 <= j < n - 1 ==> p[j] == s[j];
    }
  }

  /** Once a prefix fails, the whole collection fails the same way. */
  lemma {:induction false} CollectStopsAtFailure<A, B>(s: seq<A>, i: nat, f: A -> Result<B>)
    requires i <= |s| && Collect(s[..i], f).Err?
    ensures Collect(s, f) == Collect(s[..i], f)
    decreases |s| - i
  {
    if i < |s| {
      assert s[..i + 1][..i] == s[..i];
      CollectStopsAtFailure(s, i + 1, f);
    } else {
      assert s[..i] == s;
    }
  }

  /** A successful prefix followed by a successful row extends the result
      by that row's value. */
  lemma CollectStep<A, B>(s: seq<A>, i: nat, f: A -> Result<B>)
    requires i < |s| && Collect(s[..i], f).Ok? && f(s[i]).Ok?
    ensures Collect(s[..i + 1], f) == Ok(Collect(s[..i], f).value + [f(s[i]).value])
  {
    assert s[..i + 1][..i] == s[..i];
  }

  /** The first failure after a successful prefix is the collection's
      result. */
  lemma CollectFailsAt<A, B>(s: seq<A>, i: nat, f: A -> Result<B>)
    requires i < |s| && Collect(s[..i], f).Ok? && f(s[i]).Err?
    ensures Collect(s, f) == Err(f(s[i]).error)
  {
    assert s[..i + 1][..i] == s[..i];
    CollectStopsAtFailure(s, i + 1, f);
  }

  /** Page `page` (zero-based) of `size` rows of `s`. */
  function Page<T>(s: seq<T>, page: nat, size: nat): (r: seq<T>)
    ensures |r| <= size
    ensures page * size < |s| ==> |r| == if |s| - page * size < size then |s| - page * size else size
    ensures page * size >= |s| ==> r == []
    ensures forall k :: 0 <= k < |r| ==> page * size + k < |s| && r[k] == s[page * size + k]
  {
    var lo := if page * size < |s| then page * size else |s|;
    var hi := if lo + size < |s| then lo + size else |s|;
    s[lo..hi]
  }

  /** Pages 0 to k - 1, one after the other. */
  function Pages<T>(s: seq<T>, k: nat, size: nat): seq<T>
  {
    if k == 0 then [] else Pages(s, k - 1, size) + Page(s, k - 1, size)
  }

  lemma PrefixConcat<T>(s: seq<T>, a: nat, b: nat)
    requires a <= b <= |s|
    ensures s[..a] + s[a..b] == s[..b]
  {
  }

  lemma NextPageStart(k: nat, size: nat)
    requires k > 0
    ensures k * size == (k - 1) * size + size
  {
  }

  /** Reading the first k pages in order reads the first k * size rows. */
  lemma {:induction false} PagesArePrefix<T>(s: seq<T>, k: nat, size: nat)
    ensures Pages(s, k, size) == s[..if k * size < |s| then k * size else |s|]
  {
    if k > 0 {
      PagesArePrefix(s, k - 1, size);
      NextPageStart(k, size);
      var lo := (k - 1) * size;
      var a := if lo < |s| then lo else |s|;
      var b := if k * size < |s| then k * size else |s|;
      assert Page(s, k - 1, size) == s[a..b];
      PrefixConcat(s, a, b);
    }
  }
}
