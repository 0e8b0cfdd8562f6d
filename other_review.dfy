/** `OtherReviewResponseDto.of(user, review, images)`: a review as shown to
    other users, with its image URLs joined into one string. */
module OtherReviews {
  import opened Common
  import opened RoomReviews
  import JavaString

  /** The response; `univ` and `roomType` are members that `of` never sets. */
  datatype OtherReviewResponse = OtherReviewResponse(
    reviewId: Option<ReviewId>,
    nickname: string,
    univ: Option<string>,
    startedAt: Date,
    endAt: Date,
    totalRate: int,
    content: string,
    createdAt: Option<Date>,
    imgUrl: string,
    roomType: Option<string>)

  function Urls(images: seq<Image>): (r: seq<string>)
    ensures |r| == |images| && forall k :: 0 <= k < |r| ==> r[k] == images[k].imageUrl
  {
    if images == [] then [] else Urls(images[..|images| - 1]) + [images[|images| - 1].imageUrl]
  }

  /** Every URL in order, each followed by one space. */
  function ConcatUrls(images: seq<Image>): (s: string)
    ensures images != [] ==> s != [] && s[|s| - 1] == ' '
  {
    if images == [] then "" else ConcatUrls(images[..|images| - 1]) + images[|images| - 1].imageUrl + " "
  }

  /** The length of every URL plus one, summed. */
  function UrlLengths(images: seq<Image>): nat
  {
    if images == [] then 0 else UrlLengths(images[..|images| - 1]) + |images[|images| - 1].imageUrl| + 1
  }

  /** The field copy after the loop. */
  function Build(user: User, review: RoomReview, imgUrl: string): (r: OtherReviewResponse)
    ensures r.reviewId == review.reviewId && r.nickname == user.nickname
    ensures r.totalRate == review.totalRate && r.content == review.content
    ensures r.startedAt == review.residencePeriod.startedAt && r.endAt == review.residencePeriod.endAt
    ensures r.createdAt == review.createdAt && r.imgUrl == imgUrl
    ensures r.univ.None? && r.roomType.None?
  {
    OtherReviewResponse(
      review.reviewId, user.nickname, None, review.residencePeriod.startedAt,
      review.residencePeriod.endAt, review.totalRate, review.content, review.createdAt,
      imgUrl, None)
  }

  /** `of`: the string accumulator loop, then the field copy. */
  method Of(user: User, review: RoomReview, images: seq<Image>) returns (r: OtherReviewResponse)
    ensures r == Build(user, review, ConcatUrls(images))
    ensures r.imgUrl == ConcatUrls(images)
  {
    var imgUrls := "";
    var i := 0;
    while i < |images|
      invariant 0 <= i <= |images|
      invariant imgUrls == ConcatUrls(images[..i])
    {
      assert images[..i + 1][..i] == images[..i];
      imgUrls := imgUrls + images[i].imageUrl + " ";
      i := i + 1;
    }
    assert images[..i] == images;
    r := Build(user, review, imgUrls);
  }

  /** The string is as long as the URLs plus one space each. */
  lemma {:induction false} ConcatUrlsLength(images: seq<Image>)
    ensures |ConcatUrls(images)| == UrlLengths(images)
  {
    if images != [] {
      ConcatUrlsLength(images[..|images| - 1]);
    }
  }

  /** Concatenation distributes over the image list. */
  lemma {:induction false} ConcatUrlsAppend(a: seq<Image>, b: seq<Image>)
    ensures ConcatUrls(a + b) == ConcatUrls(a) + ConcatUrls(b)
  {
    if b == [] {
      assert a + b == a;
    } else {
      var b', url := b[..|b| - 1], b[|b| - 1].imageUrl;
      assert (a + b)[..|a + b| - 1] == a + b';
      assert (a + b)[|a + b| - 1].imageUrl == url;
      ConcatUrlsAppend(a, b');
      assert ConcatUrls(a + b) == ConcatUrls(a + b') + url + " ";
      assert ConcatUrls(b) == ConcatUrls(b') + url + " ";
    }
  }

  /** Splitting the string at its spaces gives the URLs back, followed by
      the empty field after the last space, when no URL holds a space. */
  lemma {:induction false} RawSplitConcatUrls(images: seq<Image>, tail: string)
    requires forall k :: 0 <= k < |images| ==> ' ' !in images[k].imageUrl
    ensures JavaString.RawSplit(ConcatUrls(images) + tail) == Urls(images) + JavaString.RawSplit(tail)
  {
    if images == [] {
      assert ConcatUrls(images) + tail == tail;
    } else {
      var n := |images|;
      var prefix, url := images[..n - 1], images[n - 1].imageUrl;
      var rest := url + " " + tail;
      assert ConcatUrls(images) + tail == ConcatUrls(prefix) + rest;
      RawSplitConcatUrls(prefix, rest);
      JavaString.RawSplitAtSpace(url, tail);
      JavaString.RawSplitNoSpace(url);
      calc {
        JavaString.RawSplit(ConcatUrls(images) + tail);
        Urls(prefix) + JavaString.RawSplit(rest);
        Urls(prefix) + ([url] + JavaString.RawSplit(tail));
        (Urls(prefix) + [url]) + JavaString.RawSplit(tail);
      }
    }
  }

  lemma DropOneTrailingEmpty(urls: seq<string>)
    requires urls != [] && urls[|urls| - 1] != []
    ensures JavaString.DropTrailingEmpty(urls + [""]) == urls
  {
    assert (urls + [""])[..|urls|] == urls;
  }

  /** Without a tail, the raw split ends in the empty field after the
      last space. */
  lemma RawSplitConcatUrlsAlone(images: seq<Image>)
    requires forall k :: 0 <= k < |images| ==> ' ' !in images[k].imageUrl
    ensures JavaString.RawSplit(ConcatUrls(images)) == Urls(images) + [""]
  {
    RawSplitConcatUrls(images, "");
    assert ConcatUrls(images) + "" == ConcatUrls(images);
    JavaString.RawSplitNoSpace("");
  }

  /** `imgUrl.split(" ")` returns exactly the URLs when there is at least
      one image and every URL is non-empty and space-free; with no image the
      string is empty and splits into the one empty field. */
  lemma SplitConcatUrls(images: seq<Image>)
    requires forall k :: 0 <= k < |images| ==> ' ' !in images[k].imageUrl && images[k].imageUrl != []
    ensures JavaString.Split(ConcatUrls(images)) == if images == [] then [""] else Urls(images)
  {
    if images != [] {
      var s := ConcatUrls(images);
      var urls := Urls(images);
      RawSplitConcatUrlsAlone(images);
      assert ' ' in s by {
        assert s[|s| - 1] == ' ';
      }
      assert urls[|urls| - 1] == images[|images| - 1].imageUrl;
      DropOneTrailingEmpty(urls);
    }
  }
}
