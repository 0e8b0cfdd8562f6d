/** `ReviewDetailResponseDto.of(reviews, imgUrl)`: the number of reviews
    and, for the total rating and each of the five dimension ratings, the
    mean rounded half up to one decimal. Averages are kept exactly, as whole
    tenths: 43 stands for 4.3. */
module ReviewDetails {
  import opened Common
  import opened RoomReviews

  /** The six rating columns. */
  datatype Dimension = Total | Clean | Noise | Access | Host | Facility

  function Rate(rv: RoomReview, d: Dimension): int
  {
    match d
    case Total => rv.totalRate
    case Clean => rv.cleanRate
    case Noise => rv.noiseRate
    case Access => rv.accessRate
    case Host => rv.hostRate
    case Facility => rv.facilityRate
  }

  /** The sum of one column, accumulated front to back. */
  function Sum(reviews: seq<RoomReview>, d: Dimension): int
  {
    if reviews == [] then 0 else Sum(reviews[..|reviews| - 1], d) + Rate(reviews[|reviews| - 1], d)
  }

  /** `Math.round(sum / count * 10)`, the mean in tenths rounded half up:
      the t with t - 1/2 <= 10 * sum / count < t + 1/2. */
  function MeanTenths(sum: int, count: nat): (t: int)
    requires count > 0
    ensures 2 * count * t - count <= 20 * sum < 2 * count * t + count
  {
    var a, b := 20 * sum + count, 2 * count;
    assert b * (a / b) <= a < b * (a / b) + b;
    a / b
  }

  /** The response: averages in tenths. */
  datatype ReviewDetailResponse = ReviewDetailResponse(
    address: string,
    avgTotalRate: int,
    imgUrl: string,
    reviewCount: nat,
    avgCleanRate: int,
    avgNoiseRate: int,
    avgAccessRate: int,
    avgHostRate: int,
    avgFacilityRate: int)

  function Average(r: ReviewDetailResponse, d: Dimension): int
  {
    match d
    case Total => r.avgTotalRate
    case Clean => r.avgCleanRate
    case Noise => r.avgNoiseRate
    case Access => r.avgAccessRate
    case Host => r.avgHostRate
    case Facility => r.avgFacilityRate
  }

  /** What `of` returns: the address is read from element 0, so an empty
      list throws even though the division is guarded. */
  function Detail(reviews: seq<RoomReview>, imgUrl: string): Result<ReviewDetailResponse>
  {
    if reviews == [] then Err(IndexOutOfBounds(0))
    else
      var n := |reviews|;
      Ok(ReviewDetailResponse(
        reviews[0].address, MeanTenths(Sum(reviews, Total), n), imgUrl, n,
        MeanTenths(Sum(reviews, Clean), n), MeanTenths(Sum(reviews, Noise), n),
        MeanTenths(Sum(reviews, Access), n), MeanTenths(Sum(reviews, Host), n),
        MeanTenths(Sum(reviews, Facility), n)))
  }

  /** The loop of `of`: six accumulators over the list, then one guarded
      division and rounding per column. */
  method Of(reviews: seq<RoomReview>, imgUrl: string) returns (r: Result<ReviewDetailResponse>)
    ensures r == Detail(reviews, imgUrl)
    ensures r.Ok? <==> |reviews| > 0
    ensures r.Err? ==> r.error == IndexOutOfBounds(0)
    ensures r.Ok? ==> && r.value.reviewCount == |reviews|
                      && r.value.address == reviews[0].address
                      && r.value.imgUrl == imgUrl
                      && forall d :: Average(r.value, d) == MeanTenths(Sum(reviews, d), |reviews|)
  {
    var count := |reviews|;
    var total, clean, noise, access, host, facility := 0, 0, 0, 0, 0, 0;
    var i := 0;
    while i < count
      invariant 0 <= i <= count
      invariant total == Sum(reviews[..i], Total) && clean == Sum(reviews[..i], Clean)
      invariant noise == Sum(reviews[..i], Noise) && access == Sum(reviews[..i], Access)
      invariant host == Sum(reviews[..i], Host) && facility == Sum(reviews[..i], Facility)
    {
      var rv := reviews[i];
      SumStep(reviews, i);
      total := total + rv.totalRate;
      clean := clean + rv.cleanRate;
      noise := noise + rv.noiseRate;
      access := access + rv.accessRate;
      host := host + rv.hostRate;
      facility := facility + rv.facilityRate;
      i := i + 1;
    }
    assert reviews[..count] == reviews;
    DetailFields(reviews, imgUrl);
    if count == 0 {
      // roomReviewList.get(0) throws
      r := Err(IndexOutOfBounds(0));
    } else {
      r := Ok(ReviewDetailResponse(
        reviews[0].address, MeanTenths(total, count), imgUrl, count,
        MeanTenths(clean, count), MeanTenths(noise, count), MeanTenths(access, count),
        MeanTenths(host, count), MeanTenths(facility, count)));
    }
  }

  /** One more review adds its rating to every column sum. */
  lemma SumStep(reviews: seq<RoomReview>, i: nat)
    requires i < |reviews|
    ensures forall d :: Sum(reviews[..i + 1], d) == Sum(reviews[..i], d) + Rate(reviews[i], d)
  {
    assert reviews[..i + 1][..i] == reviews[..i];
  }

  /** The response `Detail` builds: it fails exactly on the empty list, and
      otherwise carries the count, the first address, the image and the
      rounded mean of every column. */
  lemma DetailFields(reviews: seq<RoomReview>, imgUrl: string)
    ensures Detail(reviews, imgUrl).Ok? <==> |reviews| > 0
    ensures Detail(reviews, imgUrl).Err? ==> Detail(reviews, imgUrl).error == IndexOutOfBounds(0)
    ensures Detail(reviews, imgUrl).Ok? ==>
              && Detail(reviews, imgUrl).value.reviewCount == |reviews|
              && Detail(reviews, imgUrl).value.address == reviews[0].address
              && Detail(reviews, imgUrl).value.imgUrl == imgUrl
              && forall d :: Average(Detail(reviews, imgUrl).value, d) == MeanTenths(Sum(reviews, d), |reviews|)
  {
    if reviews != [] {
      var v := Detail(reviews, imgUrl).value;
      forall d ensures Average(v, d) == MeanTenths(Sum(reviews, d), |reviews|) {
        match d
        case Total =>
        case Clean =>
        case Noise =>
        case Access =>
        case Host =>
        case Facility =>
      }
    }
  }

  /** Half-up rounding has exactly one result: any t within half a tenth
      of 10 * sum / count is the rounded mean. */
  lemma MeanTenthsUnique(sum: int, count: nat, t: int)
    requires count > 0
    requires 2 * count * t - count <= 20 * sum < 2 * count * t + count
    ensures t == MeanTenths(sum, count)
  {
    var m := MeanTenths(sum, count);
    if t < m {
      MulMonotone(2 * count, t + 1, m);
    } else if m < t {
      MulMonotone(2 * count, m + 1, t);
    }
  }

  lemma MulMonotone(c: nat, x: int, y: int)
    requires x <= y
    ensures c * x <= c * y
  {
    assert c * y - c * x == c * (y - x);
  }

  /** A column sum distributes over concatenation. */
  lemma {:induction false} SumConcat(a: seq<RoomReview>, b: seq<RoomReview>, d: Dimension)
    ensures Sum(a + b, d) == Sum(a, d) + Sum(b, d)
  {
    if b != [] {
      var b' := b[..|b| - 1];
      assert (a + b)[..|a + b| - 1] == a + b';
      SumConcat(a, b', d);
    } else {
      assert a + b == a;
    }
  }

  /** Taking element i out of a list takes its rating out of the sum. */
  lemma SumRemove(b: seq<RoomReview>, i: nat, d: Dimension)
    requires i < |b|
    ensures Sum(b, d) == Sum(b[..i] + b[i + 1..], d) + Rate(b[i], d)
  {
    assert b == b[..i] + [b[i]] + b[i + 1..];
    SumConcat(b[..i], b[i + 1..], d);
    SumConcat(b[..i] + [b[i]], b[i + 1..], d);
    assert (b[..i] + [b[i]])[..i] == b[..i];
  }

  lemma MultisetRemove(b: seq<RoomReview>, i: nat)
    requires i < |b|
    ensures multiset(b[..i] + b[i + 1..]) == multiset(b) - multiset{b[i]}
  {
    assert b == b[..i] + [b[i]] + b[i + 1..];
  }

  /** Reordering the reviews does not change any column's sum. */
  lemma {:induction false} SumPermutation(a: seq<RoomReview>, b: seq<RoomReview>, d: Dimension)
    requires multiset(a) == multiset(b)
    ensures Sum(a, d) == Sum(b, d)
    decreases |a|
  {
    if a == [] {
      assert |b| == |multiset(b)| == 0;
    } else {
      var n := |a|;
      var x := a[n - 1];
      assert x in multiset(b) by {
        assert a == a[..n - 1] + [x];
      }
      assert x in b;
      var i :| 0 <= i < |b| && b[i] == x;
      var a', b' := a[..n - 1], b[..i] + b[i + 1..];
      MultisetRemove(a, n - 1);
      MultisetRemove(b, i);
      assert a[..n - 1] + a[n..] == a';
      assert multiset(a') == multiset(b');
      SumPermutation(a', b', d);
      SumRemove(b, i, d);
      assert Sum(a, d) == Sum(a', d) + Rate(x, d);
    }
  }

  /** Every review's rating lies in [lo, hi], so the sum lies in [n lo, n hi]. */
  lemma {:induction false} SumBounds(reviews: seq<RoomReview>, d: Dimension, lo: int, hi: int)
    requires forall k :: 0 <= k < |reviews| ==> lo <= Rate(reviews[k], d) <= hi
    ensures |reviews| * lo <= Sum(reviews, d) <= |reviews| * hi
  {
    if reviews != [] {
      var n := |reviews|;
      SumBounds(reviews[..n - 1], d, lo, hi);
      assert n * lo == (n - 1) * lo + lo;
      assert n * hi == (n - 1) * hi + hi;
    }
  }

  /** A rounded mean of a sum in [n lo, n hi] lies in [10 lo, 10 hi]. */
  lemma MeanTenthsBounds(s: int, n: nat, lo: int, hi: int)
    requires n > 0
    requires n * lo <= s <= n * hi
    ensures 10 * lo <= MeanTenths(s, n) <= 10 * hi
  {
    var t := MeanTenths(s, n);
    if t < 10 * lo {
      MulMonotone(2 * n, t, 10 * lo - 1);
      assert false;
    }
    if t > 10 * hi {
      MulMonotone(2 * n, 10 * hi + 1, t);
      assert false;
    }
  }

  /** Each average lies between the smallest and the largest rating given
      in its column. */
  lemma AverageWithinBounds(reviews: seq<RoomReview>, imgUrl: string, d: Dimension, lo: int, hi: int)
    requires |reviews| > 0
    requires forall k :: 0 <= k < |reviews| ==> lo <= Rate(reviews[k], d) <= hi
    ensures Detail(reviews, imgUrl).Ok?
    ensures 10 * lo <= Average(Detail(reviews, imgUrl).value, d) <= 10 * hi
  {
    SumBounds(reviews, d, lo, hi);
    MeanTenthsBounds(Sum(reviews, d), |reviews|, lo, hi);
  }

  /** Permuting the list keeps the count, the image and every average; only
      the address, read from element 0, may change. */
  lemma PermutationKeepsAverages(a: seq<RoomReview>, b: seq<RoomReview>, imgUrl: string)
    requires multiset(a) == multiset(b)
    ensures Detail(a, imgUrl).Ok? <==> Detail(b, imgUrl).Ok?
    ensures Detail(a, imgUrl).Ok? ==>
      && Detail(a, imgUrl).value.reviewCount == Detail(b, imgUrl).value.reviewCount
      && Detail(a, imgUrl).value.imgUrl == Detail(b, imgUrl).value.imgUrl
      && forall d :: Average(Detail(a, imgUrl).value, d) == Average(Detail(b, imgUrl).value, d)
  {
    assert |a| == |multiset(a)| == |multiset(b)| == |b|;
    forall d: Dimension ensures Sum(a, d) == Sum(b, d) {
      SumPermutation(a, b, d);
    }
  }

  /** The columns do not interfere: two lists of equal length that agree
      on one column have the same average in that column. */
  lemma {:induction false} SumDependsOnColumnOnly(a: seq<RoomReview>, b: seq<RoomReview>, d: Dimension)
    requires |a| == |b|
    requires forall k :: 0 <= k < |a| ==> Rate(a[k], d) == Rate(b[k], d)
    ensures Sum(a, d) == Sum(b, d)
  {
    if a != [] {
      SumDependsOnColumnOnly(a[..|a| - 1], b[..|b| - 1], d);
    }
  }

  lemma ColumnsIndependent(a: seq<RoomReview>, b: seq<RoomReview>, imgUrl: string, d: Dimension)
    requires |a| == |b| > 0
    requires forall k :: 0 <= k < |a| ==> Rate(a[k], d) == Rate(b[k], d)
    ensures Detail(a, imgUrl).Ok? && Detail(b, imgUrl).Ok?
    ensures Average(Detail(a, imgUrl).value, d) == Average(Detail(b, imgUrl).value, d)
  {
    SumDependsOnColumnOnly(a, b, d);
  }

  /** Total ratings 3, 4 and 5 average to 4.0 over three reviews; 4, 4 and 5
      average to 4.33… which rounds to 4.3, and 4 and 5 to 4.5 exactly. */
  lemma Examples()
    ensures MeanTenths(3 + 4 + 5, 3) == 40
    ensures MeanTenths(4 + 4 + 5, 3) == 43
    ensures MeanTenths(4 + 5, 2) == 45
  {
    MeanTenthsUnique(12, 3, 40);
    MeanTenthsUnique(13, 3, 43);
    MeanTenthsUnique(9, 2, 45);
  }
}
