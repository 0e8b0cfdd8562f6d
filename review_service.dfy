/** `ReviewServiceImpl`: review submission and deletion, the two fixed-size
    review feeds, the rating lookup and the per-address review page, over
    repositories held as sequences and a map. The caller's id, today's date,
    the order of the sorted queries and the `Options.of` mapping are
    parameters. Every write is also appended to a journal, so that the order
    of the writes is part of the state. */
module ReviewServices {
  import opened Common
  import opened RoomReviews
  import Rooms
  import OtherReviews
  import Repository
  import JavaString

  /** The page size of every paged query here. */
  const PageSize: nat := 5
  const RoomTypeKey: string := "RoomType"
  /** The image type of a room's main image, and of a review's images. */
  const MainImageType: int := 0
  const ReviewImageType: int := 3
  /** The code-key list of the rating lookup: ONE string holding five names. */
  const RateCodeKeys: seq<string> := ["AccessRate,CleanRate,HostRate,FacilityRate,NoiseRate"]

  datatype Options = Options(roomId: RoomId, codeKey: string, value: string)

  datatype DateLog = DateLog(id: DateLogId, userId: UserId, createdAt: Date, lastUserId: UserId, updatedAt: Date)

  /** The arguments of `ReviewResponseDto.of`, whose code is not part of
      this model; `user` is absent where that overload takes none. */
  datatype ReviewResponse = ReviewResponse(
    user: Option<User>, review: RoomReview, imageUrl: Option<string>, option: Options)

  /** The arguments of `ReviewRateResponseDto.of`, likewise. */
  datatype ReviewRateResponse = ReviewRateResponse(
    room: Rooms.Room, reviews: seq<RoomReview>, imageUrl: string, option: Options,
    rateOptions: seq<Options>)

  /** One repository write. */
  datatype Write =
    | SaveOptions(options: seq<Options>)
    | SaveDateLog(log: DateLog)
    | SaveReview(review: RoomReview)
    | RemoveReview(review: RoomReview)

  /** The six repositories the service is built from. */
  datatype Repositories = Repositories(
    users: map<UserId, User>,
    rooms: seq<Rooms.Room>,
    options: seq<Options>,
    dateLogs: seq<DateLog>,
    images: seq<Image>,
    reviews: seq<RoomReview>)

  function FindRoomById(db: Repositories, roomId: RoomId): Option<Rooms.Room>
  {
    Repository.First(db.rooms, (room: Rooms.Room) => room.roomId == Some(roomId))
  }

  function FindFirstRoomByAddress(db: Repositories, address: string): Option<Rooms.Room>
  {
    Repository.First(db.rooms, (room: Rooms.Room) => room.roomAddress.address == address)
  }

  function FindOption(db: Repositories, roomId: RoomId, codeKey: string): Option<Options>
  {
    Repository.First(db.options, (o: Options) => o.roomId == roomId && o.codeKey == codeKey)
  }

  function FindMainImage(db: Repositories, roomId: RoomId): Option<Image>
  {
    Repository.First(db.images, (img: Image) => img.id == roomId && img.imageType == MainImageType)
  }

  /** `findByIdAndImageType`; a review without an id matches no image. */
  function FindImages(db: Repositories, id: Option<int>, imageType: int): (r: seq<Image>)
    ensures forall k :: 0 <= k < |r| ==> Some(r[k].id) == id && r[k].imageType == imageType
    ensures forall img :: img in r <==> img in db.images && Some(img.id) == id && img.imageType == imageType
  {
    Repository.Filter(db.images, (img: Image) => Some(img.id) == id && img.imageType == imageType)
  }

  /** `findRateOptions(roomId, codeKeys)`: the room's options whose code key
      is one of the list's elements. */
  function FindRateOptions(db: Repositories, roomId: RoomId, codeKeys: seq<string>): seq<Options>
  {
    Repository.Filter(db.options, (o: Options) => o.roomId == roomId && o.codeKey in codeKeys)
  }

  /** `findByAddress`, over the reviews in the given order. */
  function FindByAddress(reviews: seq<RoomReview>, address: string): seq<RoomReview>
  {
    Repository.Filter(reviews, (rv: RoomReview) => rv.address == address)
  }

  /** `findByUserIdAndReviewId`. */
  function FindReview(reviews: seq<RoomReview>, userId: UserId, reviewId: ReviewId): Option<nat>
  {
    Repository.FirstIndex(reviews, (rv: RoomReview) => rv.userId == userId && rv.reviewId == Some(reviewId))
  }

  /** One iteration of the recent feed: the room, its OWNER, the room-type
      option and the main image, each of which may be missing. The room
      found by id has that id, so the id is read from the review. */
  function RecentEntry(db: Repositories, rv: RoomReview): Result<ReviewResponse>
  {
    match FindRoomById(db, rv.roomId)
    case None => Err(RoomNotFound)
    case Some(room) =>
      if room.userId !in db.users then Err(UserIdNotFound(room.userId))
      else match FindOption(db, rv.roomId, RoomTypeKey)
        case None => Err(OptionNotFound(RoomTypeKey))
        case Some(option) =>
          match FindMainImage(db, rv.roomId)
          case None => Err(ImageNotFound(rv.roomId))
          case Some(image) => Ok(ReviewResponse(Some(db.users[room.userId]), rv, Some(image.imageUrl), option))
  }

  /** One iteration of the star feed: as the recent feed, without a user. */
  function StarEntry(db: Repositories, rv: RoomReview): Result<ReviewResponse>
  {
    match FindRoomById(db, rv.roomId)
    case None => Err(RoomNotFound)
    case Some(room) =>
      match FindOption(db, rv.roomId, RoomTypeKey)
      case None => Err(OptionNotFound(RoomTypeKey))
      case Some(option) =>
        match FindMainImage(db, rv.roomId)
        case None => Err(ImageNotFound(rv.roomId))
        case Some(image) => Ok(ReviewResponse(None, rv, Some(image.imageUrl), option))
  }

  /** One iteration of the detail page: the review's AUTHOR and the review's
      own images (type 3). */
  function DetailEntry(db: Repositories, rv: RoomReview): Result<OtherReviews.OtherReviewResponse>
  {
    if rv.userId !in db.users then Err(UserIdNotFound(rv.userId))
    else
      var images := FindImages(db, rv.reviewId, ReviewImageType);
      Ok(OtherReviews.Build(db.users[rv.userId], rv, OtherReviews.ConcatUrls(images)))
  }

  function RecentFeed(db: Repositories, slice: seq<RoomReview>): Result<seq<ReviewResponse>>
  {
    Repository.Collect(slice, (rv: RoomReview) => RecentEntry(db, rv))
  }

  function StarFeed(db: Repositories, slice: seq<RoomReview>): Result<seq<ReviewResponse>>
  {
    Repository.Collect(slice, (rv: RoomReview) => StarEntry(db, rv))
  }

  function DetailFeed(db: Repositories, slice: seq<RoomReview>): Result<seq<OtherReviews.OtherReviewResponse>>
  {
    Repository.Collect(slice, (rv: RoomReview) => DetailEntry(db, rv))
  }

  lemma RecentFeedFailsAt(db: Repositories, slice: seq<RoomReview>, i: nat)
    requires i < |slice| && RecentFeed(db, slice[..i]).Ok? && RecentEntry(db, slice[i]).Err?
    ensures RecentFeed(db, slice) == Err(RecentEntry(db, slice[i]).error)
  {
    Repository.CollectFailsAt(slice, i, (rv: RoomReview) => RecentEntry(db, rv));
  }

  lemma StarFeedFailsAt(db: Repositories, slice: seq<RoomReview>, i: nat)
    requires i < |slice| && StarFeed(db, slice[..i]).Ok? && StarEntry(db, slice[i]).Err?
    ensures StarFeed(db, slice) == Err(StarEntry(db, slice[i]).error)
  {
    Repository.CollectFailsAt(slice, i, (rv: RoomReview) => StarEntry(db, rv));
  }

  lemma DetailFeedFailsAt(db: Repositories, slice: seq<RoomReview>, i: nat)
    requires i < |slice| && DetailFeed(db, slice[..i]).Ok? && DetailEntry(db, slice[i]).Err?
    ensures DetailFeed(db, slice) == Err(DetailEntry(db, slice[i]).error)
  {
    Repository.CollectFailsAt(slice, i, (rv: RoomReview) => DetailEntry(db, rv));
  }

  lemma RecentFeedStep(db: Repositories, slice: seq<RoomReview>, i: nat)
    requires i < |slice| && RecentFeed(db, slice[..i]).Ok? && RecentEntry(db, slice[i]).Ok?
    ensures RecentFeed(db, slice[..i + 1]) == Ok(RecentFeed(db, slice[..i]).value + [RecentEntry(db, slice[i]).value])
  {
    Repository.CollectStep(slice, i, (rv: RoomReview) => RecentEntry(db, rv));
  }

  lemma StarFeedStep(db: Repositories, slice: seq<RoomReview>, i: nat)
    requires i < |slice| && StarFeed(db, slice[..i]).Ok? && StarEntry(db, slice[i]).Ok?
    ensures StarFeed(db, slice[..i + 1]) == Ok(StarFeed(db, slice[..i]).value + [StarEntry(db, slice[i]).value])
  {
    Repository.CollectStep(slice, i, (rv: RoomReview) => StarEntry(db, rv));
  }

  lemma DetailFeedStep(db: Repositories, slice: seq<RoomReview>, i: nat)
    requires i < |slice| && DetailFeed(db, slice[..i]).Ok? && DetailEntry(db, slice[i]).Ok?
    ensures DetailFeed(db, slice[..i + 1]) == Ok(DetailFeed(db, slice[..i]).value + [DetailEntry(db, slice[i]).value])
  {
    Repository.CollectStep(slice, i, (rv: RoomReview) => DetailEntry(db, rv));
  }

  /** The lookups one recent-feed entry makes all find their row. */
  ghost predicate RecentRowsPresent(db: Repositories, rv: RoomReview)
  {
    && FindRoomById(db, rv.roomId).Some?
    && FindRoomById(db, rv.roomId).value.userId in db.users
    && FindOption(db, rv.roomId, RoomTypeKey).Some?
    && FindMainImage(db, rv.roomId).Some?
  }

  /** The recent feed succeeds exactly when every review's lookups do; it
      then holds one response per review, in order, carrying the review,
      the OWNER of the review's room, its room-type option and the URL of
      its main image. */
  lemma RecentFeedResponses(db: Repositories, slice: seq<RoomReview>)
    ensures RecentFeed(db, slice).Ok? <==> forall k :: 0 <= k < |slice| ==> RecentRowsPresent(db, slice[k])
    ensures RecentFeed(db, slice).Ok? ==>
              var list := RecentFeed(db, slice).value;
              && |list| == |slice|
              && forall k :: 0 <= k < |slice| ==>
                   && list[k].review == slice[k]
                   && FindRoomById(db, slice[k].roomId).value.roomId == Some(slice[k].roomId)
                   && list[k].user == Some(db.users[FindRoomById(db, slice[k].roomId).value.userId])
                   && list[k].option.roomId == slice[k].roomId && list[k].option.codeKey == RoomTypeKey
                   && list[k].imageUrl == Some(FindMainImage(db, slice[k].roomId).value.imageUrl)
  {
    Repository.CollectOk(slice, (rv: RoomReview) => RecentEntry(db, rv));
  }

  /** The star feed succeeds exactly when every review's room, room-type
      option and main image are found; its responses carry no user. */
  lemma StarFeedResponses(db: Repositories, slice: seq<RoomReview>)
    ensures StarFeed(db, slice).Ok? <==> forall k :: 0 <= k < |slice| ==>
              FindRoomById(db, slice[k].roomId).Some? && FindOption(db, slice[k].roomId, RoomTypeKey).Some?
              && FindMainImage(db, slice[k].roomId).Some?
    ensures StarFeed(db, slice).Ok? ==>
              var list := StarFeed(db, slice).value;
              && |list| == |slice|
              && forall k :: 0 <= k < |slice| ==>
                   && list[k].review == slice[k] && list[k].user.None?
                   && list[k].option.roomId == slice[k].roomId && list[k].option.codeKey == RoomTypeKey
                   && list[k].imageUrl == Some(FindMainImage(db, slice[k].roomId).value.imageUrl)
  {
    Repository.CollectOk(slice, (rv: RoomReview) => StarEntry(db, rv));
  }

  /** The detail page succeeds exactly when every review's AUTHOR is found;
      each response then carries that author's nickname and the review's
      own id, rating and text. */
  lemma DetailFeedResponses(db: Repositories, slice: seq<RoomReview>)
    ensures DetailFeed(db, slice).Ok? <==> forall k :: 0 <= k < |slice| ==> slice[k].userId in db.users
    ensures DetailFeed(db, slice).Ok? ==>
              var list := DetailFeed(db, slice).value;
              && |list| == |slice|
              && forall k :: 0 <= k < |slice| ==>
                   && list[k].nickname == db.users[slice[k].userId].nickname
                   && list[k].reviewId == slice[k].reviewId
                   && list[k].totalRate == slice[k].totalRate && list[k].content == slice[k].content
                   && DetailEntry(db, slice[k]).Ok? && list[k] == DetailEntry(db, slice[k]).value
  {
    Repository.CollectOk(slice, (rv: RoomReview) => DetailEntry(db, rv));
  }

  /** A detail response's image string splits back into the URLs of the
      review's own type-3 images, when URLs are non-empty and space-free. */
  lemma DetailImagesRoundTrip(db: Repositories, rv: RoomReview)
    requires forall img :: img in db.images ==> ' ' !in img.imageUrl && img.imageUrl != []
    ensures DetailEntry(db, rv).Ok? ==>
              var images := FindImages(db, rv.reviewId, ReviewImageType);
              && (forall img :: img in images ==> Some(img.id) == rv.reviewId && img.imageType == ReviewImageType)
              && JavaString.Split(DetailEntry(db, rv).value.imgUrl)
                 == if images == [] then [""] else OtherReviews.Urls(images)
  {
    var images := FindImages(db, rv.reviewId, ReviewImageType);
    assert forall k :: 0 <= k < |images| ==> images[k] in db.images;
    OtherReviews.SplitConcatUrls(images);
  }

  /** A page of the recent feed has at most five responses, and response k
      is about row `pages * 5 + k` of the ordered reviews. */
  lemma RecentPageInOrder(db: Repositories, ordered: seq<RoomReview>, pages: nat)
    ensures var r := RecentFeed(db, Repository.Page(ordered, pages, PageSize));
            r.Ok? ==> |r.value| <= PageSize
                      && forall k :: 0 <= k < |r.value| ==>
                           pages * PageSize + k < |ordered| && r.value[k].review == ordered[pages * PageSize + k]
  {
    RecentFeedResponses(db, Repository.Page(ordered, pages, PageSize));
  }

  /** Likewise for the star feed. */
  lemma StarPageInOrder(db: Repositories, ordered: seq<RoomReview>, pages: nat)
    ensures var r := StarFeed(db, Repository.Page(ordered, pages, PageSize));
            r.Ok? ==> |r.value| <= PageSize
                      && forall k :: 0 <= k < |r.value| ==>
                           pages * PageSize + k < |ordered| && r.value[k].review == ordered[pages * PageSize + k]
  {
    StarFeedResponses(db, Repository.Page(ordered, pages, PageSize));
  }

  /** A detail page has at most five responses; response k is about the
      review at position `pages * 5 + k` among the ordered reviews at the
      requested address, and that review is stored when the order is one of
      the stored reviews. */
  lemma DetailPageAtAddress(db: Repositories, ordered: seq<RoomReview>, address: string, pages: nat)
    ensures var matches := FindByAddress(ordered, address);
            var slice := Repository.Page(matches, pages, PageSize);
            var r := DetailFeed(db, slice);
            r.Ok? ==> |r.value| <= PageSize
                      && forall k :: 0 <= k < |r.value| ==>
                           && pages * PageSize + k < |matches| && k < |slice|
                           && slice[k] == matches[pages * PageSize + k]
                           && slice[k].address == address
                           && r.value[k].reviewId == matches[pages * PageSize + k].reviewId
                           && (multiset(ordered) == multiset(db.reviews) ==> slice[k] in db.reviews)
  {
    var matches := FindByAddress(ordered, address);
    var slice := Repository.Page(matches, pages, PageSize);
    var r := DetailFeed(db, slice);
    if r.Ok? {
      DetailFeedResponses(db, slice);
      PageAtAddressStored(db, ordered, address, pages);
      forall k | 0 <= k < |r.value|
        ensures && pages * PageSize + k < |matches| && k < |slice|
                && slice[k] == matches[pages * PageSize + k]
                && r.value[k].reviewId == matches[pages * PageSize + k].reviewId
      {
        assert r.value[k].reviewId == slice[k].reviewId;
      }
    }
  }

  /** Every review on a page of the address's reviews is at the address,
      and stored when the order is one of the stored reviews. */
  lemma PageAtAddressStored(db: Repositories, ordered: seq<RoomReview>, address: string, pages: nat)
    ensures var slice := Repository.Page(FindByAddress(ordered, address), pages, PageSize);
            forall k :: 0 <= k < |slice| ==>
              && slice[k].address == address
              && (multiset(ordered) == multiset(db.reviews) ==> slice[k] in db.reviews)
  {
    var matches := FindByAddress(ordered, address);
    var slice := Repository.Page(matches, pages, PageSize);
    forall k | 0 <= k < |slice|
      ensures slice[k].address == address && slice[k] in ordered
    {
      assert slice[k] in matches;
    }
    if multiset(ordered) == multiset(db.reviews) {
      forall k | 0 <= k < |slice| ensures slice[k] in db.reviews {
        assert slice[k] in multiset(ordered);
      }
    }
  }

  /** `findRateOptions` receives a one-element list whose element is the
      five names joined by commas, so it returns only options stored under
      that whole string: an option keyed by one name, such as "CleanRate",
      is never among them. */
  lemma RateOptionsMatchJoinedKeyOnly(db: Repositories, roomId: RoomId)
    ensures forall o :: o in FindRateOptions(db, roomId, RateCodeKeys) ==>
              o.roomId == roomId && o.codeKey == "AccessRate,CleanRate,HostRate,FacilityRate,NoiseRate"
    ensures forall o :: o in FindRateOptions(db, roomId, RateCodeKeys) ==> o.codeKey != "CleanRate"
  {
  }

  /** Users are stored under their own id. */
  ghost predicate UsersKeyedById(users: map<UserId, User>)
  {
    forall id :: id in users ==> users[id].userId == id
  }

  ghost predicate RoomsHaveIds(rooms: seq<Rooms.Room>)
  {
    forall room :: room in rooms ==> room.roomId.Some?
  }

  /** Every review has an id below `next`, and no two share one. */
  ghost predicate ReviewIdsValid(reviews: seq<RoomReview>, next: ReviewId)
  {
    && (forall rv :: rv in reviews ==> rv.reviewId.Some? && rv.reviewId.value < next)
    && (forall i, j :: 0 <= i < j < |reviews| ==> reviews[i].reviewId != reviews[j].reviewId)
  }

  ghost predicate DateLogIdsBelow(logs: seq<DateLog>, next: DateLogId)
  {
    forall log :: log in logs ==> log.id < next
  }

  lemma ReviewIdsAppend(reviews: seq<RoomReview>, next: ReviewId, review: RoomReview)
    requires ReviewIdsValid(reviews, next) && review.reviewId == Some(next)
    ensures ReviewIdsValid(reviews + [review], next + 1)
  {
    var s := reviews + [review];
    forall i, j | 0 <= i < j < |s| ensures s[i].reviewId != s[j].reviewId {
      if j == |reviews| {
        assert s[i] in reviews;
      }
    }
  }

  lemma DateLogIdsAppend(logs: seq<DateLog>, next: DateLogId, log: DateLog)
    requires DateLogIdsBelow(logs, next) && log.id == next
    ensures DateLogIdsBelow(logs + [log], next + 1)
  {
  }

  /** A review saved under the next id is the one `findByUserIdAndReviewId`
      then finds for its author and that id: no older review has it. */
  lemma FindAppendedReview(reviews: seq<RoomReview>, next: ReviewId, review: RoomReview)
    requires ReviewIdsValid(reviews, next) && review.reviewId == Some(next)
    ensures FindReview(reviews + [review], review.userId, next) == Some(|reviews|)
  {
    var s := reviews + [review];
    assert s[|reviews|] == review;
  }

  /** Removing review i keeps the ids valid, and since ids are unique its id
      is then gone from the repository. */
  lemma ReviewIdsRemove(reviews: seq<RoomReview>, next: ReviewId, i: nat)
    requires ReviewIdsValid(reviews, next) && i < |reviews|
    ensures ReviewIdsValid(reviews[..i] + reviews[i + 1..], next)
    ensures forall rv :: rv in reviews[..i] + reviews[i + 1..] ==> rv.reviewId != reviews[i].reviewId
  {
    RemovedMembers(reviews, next, i);
    RemovedDistinct(reviews, next, i);
  }

  /** Removing position `i` shifts the later rows down by one. */
  lemma RemoveIndex(reviews: seq<RoomReview>, i: nat, k: nat)
    requires i < |reviews| && k < |reviews| - 1
    ensures (reviews[..i] + reviews[i + 1..])[k] == reviews[if k < i then k else k + 1]
  {
  }

  lemma RemovedMembers(reviews: seq<RoomReview>, next: ReviewId, i: nat)
    requires ReviewIdsValid(reviews, next) && i < |reviews|
    ensures forall rv :: rv in reviews[..i] + reviews[i + 1..] ==>
              rv in reviews && rv.reviewId != reviews[i].reviewId
  {
    var s := reviews[..i] + reviews[i + 1..];
    forall rv | rv in s ensures rv in reviews && rv.reviewId != reviews[i].reviewId {
      var k :| 0 <= k < |s| && s[k] == rv;
      RemoveIndex(reviews, i, k);
      var k' := if k < i then k else k + 1;
      assert rv == reviews[k'] && k' != i;
    }
  }

  lemma RemovedDistinct(reviews: seq<RoomReview>, next: ReviewId, i: nat)
    requires ReviewIdsValid(reviews, next) && i < |reviews|
    ensures var s := reviews[..i] + reviews[i + 1..];
            forall a, b :: 0 <= a < b < |s| ==> s[a].reviewId != s[b].reviewId
  {
    var s := reviews[..i] + reviews[i + 1..];
    forall a, b | 0 <= a < b < |s| ensures s[a].reviewId != s[b].reviewId {
      RemoveIndex(reviews, i, a);
      RemoveIndex(reviews, i, b);
      var a' := if a < i then a else a + 1;
      var b' := if b < i then b else b + 1;
      assert a' < b';
    }
  }

  class ReviewService {
    var db: Repositories
    /** The writes made so far, oldest first. */
    var writes: seq<Write>
    /** The next identities the database hands out. */
    var nextDateLogId: DateLogId
    var nextReviewId: ReviewId

    /** Persisted rows have identities; review ids are unique and below the
        next one to be handed out, and so are date-log ids. */
    ghost predicate Valid()
      reads this
    {
      UsersKeyedById(db.users) && RoomsHaveIds(db.rooms) && ReviewIdsValid(db.reviews, nextReviewId)
      && DateLogIdsBelow(db.dateLogs, nextDateLogId)
    }

    constructor (db: Repositories, nextDateLogId: DateLogId, nextReviewId: ReviewId)
      requires UsersKeyedById(db.users) && RoomsHaveIds(db.rooms) && ReviewIdsValid(db.reviews, nextReviewId)
      requires DateLogIdsBelow(db.dateLogs, nextDateLogId)
      ensures Valid() && this.db == db && writes == []
      ensures this.nextDateLogId == nextDateLogId && this.nextReviewId == nextReviewId
    {
      this.db := db;
      this.writes := [];
      this.nextDateLogId := nextDateLogId;
      this.nextReviewId := nextReviewId;
    }

    /** `addReview`: three lookups, each of which aborts the call before any
        write; then the options, a date log stamped today for the caller,
        and the review, saved in that order. */
    method AddReview(callerId: UserId, req: ReviewRequest, today: Date,
                     optionsOf: (RoomId, ReviewRequest) -> seq<Options>)
      returns (r: Result<ReviewResponse>)
      requires Valid()
      modifies this
      ensures Valid()
      ensures callerId !in old(db.users) ==> r == Err(UserIdNotFound(callerId)) && unchanged(this)
      ensures callerId in old(db.users) && FindFirstRoomByAddress(old(db), req.address).None? ==>
                r == Err(RoomNotFound) && unchanged(this)
      ensures callerId in old(db.users) && FindFirstRoomByAddress(old(db), req.address).Some? ==>
                var room := FindFirstRoomByAddress(old(db), req.address).value;
                room.roomId.Some? &&
                var roomId := room.roomId.value;
                && (FindOption(old(db), roomId, RoomTypeKey).None? ==>
                      r == Err(OptionNotFound(RoomTypeKey)) && unchanged(this))
                && (FindOption(old(db), roomId, RoomTypeKey).Some? ==>
                      var user := old(db.users)[callerId];
                      var log := DateLog(old(nextDateLogId), callerId, today, callerId, today);
                      var review := RoomReviews.Of(req, user, roomId, log.id).(reviewId := Some(old(nextReviewId)));
                      var opts := optionsOf(roomId, req);
                      && db == old(db).(options := old(db.options) + opts,
                                        dateLogs := old(db.dateLogs) + [log],
                                        reviews := old(db.reviews) + [review])
                      && writes == old(writes) + [SaveOptions(opts), SaveDateLog(log), SaveReview(review)]
                      && nextDateLogId == old(nextDateLogId) + 1
                      && nextReviewId == old(nextReviewId) + 1
                      && r == Ok(ReviewResponse(Some(user), review, None,
                                                FindOption(old(db), roomId, RoomTypeKey).value)))
      ensures r.Ok? ==> FindReview(db.reviews, callerId, old(nextReviewId)) == Some(|old(db.reviews)|)
    {
      if callerId !in db.users {
        return Err(UserIdNotFound(callerId));
      }
      var user := db.users[callerId];
      var foundRoom := FindFirstRoomByAddress(db, req.address);
      if foundRoom.None? {
        return Err(RoomNotFound);
      }
      var roomId := foundRoom.value.roomId.value;
      var foundOption := FindOption(db, roomId, RoomTypeKey);
      if foundOption.None? {
        return Err(OptionNotFound(RoomTypeKey));
      }
      var opts := optionsOf(roomId, req);
      var log := DateLog(nextDateLogId, callerId, today, callerId, today);
      var review := RoomReviews.Of(req, user, roomId, log.id);
      review := review.(reviewId := Some(nextReviewId));
      assert review.userId == callerId;
      ReviewIdsAppend(db.reviews, nextReviewId, review);
      FindAppendedReview(db.reviews, nextReviewId, review);
      DateLogIdsAppend(db.dateLogs, nextDateLogId, log);

      db := db.(options := db.options + opts, dateLogs := db.dateLogs + [log], reviews := db.reviews + [review]);
      writes := writes + [SaveOptions(opts), SaveDateLog(log), SaveReview(review)];
      nextDateLogId := nextDateLogId + 1;
      nextReviewId := nextReviewId + 1;

      r := Ok(ReviewResponse(Some(user), review, None, foundOption.value));
    }

    /** `deleteReview`: the caller's review with that id is removed from the
        repository (a hard delete), or the call fails and nothing changes. */
    method DeleteReview(callerId: UserId, reviewId: ReviewId) returns (r: Result<()>)
      requires Valid()
      modifies this
      ensures Valid()
      ensures FindReview(old(db.reviews), callerId, reviewId).None? ==>
                r == Err(ReviewNotFound(reviewId)) && unchanged(this)
      ensures FindReview(old(db.reviews), callerId, reviewId).Some? ==>
                var i := FindReview(old(db.reviews), callerId, reviewId).value;
                && r == Ok(())
                && db == old(db).(reviews := old(db.reviews)[..i] + old(db.reviews)[i + 1..])
                && writes == old(writes) + [RemoveReview(old(db.reviews)[i])]
                && nextDateLogId == old(nextDateLogId) && nextReviewId == old(nextReviewId)
      ensures r.Ok? ==> forall rv :: rv in db.reviews ==> rv.reviewId != Some(reviewId)
    {
      var found := FindReview(db.reviews, callerId, reviewId);
      if found.None? {
        return Err(ReviewNotFound(reviewId));
      }
      var i := found.value;
      var reviews := db.reviews;
      ReviewIdsRemove(reviews, nextReviewId, i);
      db := db.(reviews := reviews[..i] + reviews[i + 1..]);
      writes := writes + [RemoveReview(reviews[i])];
      r := Ok(());
    }

    /** `findRecentReview`: page `pages` of five of the reviews in the
        repository's most-recently-updated-first order; one response per
        review, in page order, and any missing row aborts the whole call. */
    method FindRecentReview(pages: int, byUpdatedAt: seq<RoomReview>)
      returns (r: Result<seq<ReviewResponse>>)
      requires multiset(byUpdatedAt) == multiset(db.reviews)
      ensures pages < 0 ==> r == Err(IllegalArgument)
      ensures pages >= 0 ==> r == RecentFeed(db, Repository.Page(byUpdatedAt, pages, PageSize))
    {
      if pages < 0 {
        return Err(IllegalArgument);
      }
      var slice := Repository.Page(byUpdatedAt, pages, PageSize);
      r := RecentLoop(slice);
    }

    /** The loop of `findRecentReview` over one page. */
    method RecentLoop(slice: seq<RoomReview>) returns (r: Result<seq<ReviewResponse>>)
      ensures r == RecentFeed(db, slice)
    {
      var list: seq<ReviewResponse> := [];
      var i := 0;
      while i < |slice|
        invariant 0 <= i <= |slice|
        invariant RecentFeed(db, slice[..i]) == Ok(list)
      {
        var rv := slice[i];
        var room := FindRoomById(db, rv.roomId);
        if room.None? {
          assert RecentEntry(db, rv) == Err(RoomNotFound);
          RecentFeedFailsAt(db, slice, i);
          return Err(RoomNotFound);
        }
        var ownerId := room.value.userId;
        if ownerId !in db.users {
          assert RecentEntry(db, rv) == Err(UserIdNotFound(ownerId));
          RecentFeedFailsAt(db, slice, i);
          return Err(UserIdNotFound(ownerId));
        }
        var option := FindOption(db, rv.roomId, RoomTypeKey);
        if option.None? {
          assert RecentEntry(db, rv) == Err(OptionNotFound(RoomTypeKey));
          RecentFeedFailsAt(db, slice, i);
          return Err(OptionNotFound(RoomTypeKey));
        }
        var image := FindMainImage(db, rv.roomId);
        if image.None? {
          assert RecentEntry(db, rv) == Err(ImageNotFound(rv.roomId));
          RecentFeedFailsAt(db, slice, i);
          return Err(ImageNotFound(rv.roomId));
        }
        var response := ReviewResponse(Some(db.users[ownerId]), rv, Some(image.value.imageUrl), option.value);
        assert RecentEntry(db, rv) == Ok(response);
        RecentFeedStep(db, slice, i);
        list := list + [response];
        i := i + 1;
      }
      assert slice[..i] == slice;
      r := Ok(list);
    }

    /** `findReviewByStar`: as the recent feed, over the reviews in the
        repository's highest-rated-first order, without the user lookup. */
    method FindReviewByStar(pages: int, byTotalRate: seq<RoomReview>)
      returns (r: Result<seq<ReviewResponse>>)
      requires multiset(byTotalRate) == multiset(db.reviews)
      ensures pages < 0 ==> r == Err(IllegalArgument)
      ensures pages >= 0 ==> r == StarFeed(db, Repository.Page(byTotalRate, pages, PageSize))
    {
      if pages < 0 {
        return Err(IllegalArgument);
      }
      var slice := Repository.Page(byTotalRate, pages, PageSize);
      r := StarLoop(slice);
    }

    /** The loop of `findReviewByStar` over one page. */
    method StarLoop(slice: seq<RoomReview>) returns (r: Result<seq<ReviewResponse>>)
      ensures r == StarFeed(db, slice)
    {
      var list: seq<ReviewResponse> := [];
      var i := 0;
      while i < |slice|
        invariant 0 <= i <= |slice|
        invariant StarFeed(db, slice[..i]) == Ok(list)
      {
        var rv := slice[i];
        var room := FindRoomById(db, rv.roomId);
        if room.None? {
          assert StarEntry(db, rv) == Err(RoomNotFound);
          StarFeedFailsAt(db, slice, i);
          return Err(RoomNotFound);
        }
        var option := FindOption(db, rv.roomId, RoomTypeKey);
        if option.None? {
          assert StarEntry(db, rv) == Err(OptionNotFound(RoomTypeKey));
          StarFeedFailsAt(db, slice, i);
          return Err(OptionNotFound(RoomTypeKey));
        }
        var image := FindMainImage(db, rv.roomId);
        if image.None? {
          assert StarEntry(db, rv) == Err(ImageNotFound(rv.roomId));
          StarFeedFailsAt(db, slice, i);
          return Err(ImageNotFound(rv.roomId));
        }
        var response := ReviewResponse(None, rv, Some(image.value.imageUrl), option.value);
        assert StarEntry(db, rv) == Ok(response);
        StarFeedStep(db, slice, i);
        list := list + [response];
        i := i + 1;
      }
      assert slice[..i] == slice;
      r := Ok(list);
    }

    /** `findReviewRate`: the first room at the address, its room-type
        option, its rating options, its main image and the address's
        reviews in storage order. */
    method FindReviewRate(address: string) returns (r: Result<ReviewRateResponse>)
      requires Valid()
      ensures FindFirstRoomByAddress(db, address).None? ==> r == Err(RoomNotFound)
      ensures FindFirstRoomByAddress(db, address).Some? ==>
                var room := FindFirstRoomByAddress(db, address).value;
                room.roomId.Some? &&
                var roomId := room.roomId.value;
                && (FindOption(db, roomId, RoomTypeKey).None? ==> r == Err(OptionNotFound(RoomTypeKey)))
                && (FindOption(db, roomId, RoomTypeKey).Some? && FindMainImage(db, roomId).None? ==>
                      r == Err(ImageNotFound(roomId)))
                && (FindOption(db, roomId, RoomTypeKey).Some? && FindMainImage(db, roomId).Some? ==>
                      r == Ok(ReviewRateResponse(room, FindByAddress(db.reviews, address),
                                                 FindMainImage(db, roomId).value.imageUrl,
                                                 FindOption(db, roomId, RoomTypeKey).value,
                                                 FindRateOptions(db, roomId, RateCodeKeys))))
    {
      var room := FindFirstRoomByAddress(db, address);
      if room.None? {
        return Err(RoomNotFound);
      }
      var roomId := room.value.roomId.value;
      var codeKeys := RateCodeKeys;
      var option := FindOption(db, roomId, RoomTypeKey);
      if option.None? {
        return Err(OptionNotFound(RoomTypeKey));
      }
      var rateOptions := FindRateOptions(db, roomId, codeKeys);
      var image := FindMainImage(db, roomId);
      if image.None? {
        return Err(ImageNotFound(roomId));
      }
      var reviewList := FindByAddress(db.reviews, address);
      r := Ok(ReviewRateResponse(room.value, reviewList, image.value.imageUrl, option.value, rateOptions));
    }

    /** `findReviewDetail`: page `pages` of five of the address's reviews in
        most-recently-updated-first order; per review its author and its
        type-3 images, as built by `OtherReviewResponseDto.of`. */
    method FindReviewDetail(address: string, pages: int, byUpdatedAt: seq<RoomReview>)
      returns (r: Result<seq<OtherReviews.OtherReviewResponse>>)
      requires multiset(byUpdatedAt) == multiset(db.reviews)
      ensures pages < 0 ==> r == Err(IllegalArgument)
      ensures pages >= 0 ==> r == DetailFeed(db, Repository.Page(FindByAddress(byUpdatedAt, address), pages, PageSize))
    {
      if pages < 0 {
        return Err(IllegalArgument);
      }
      var slice := Repository.Page(FindByAddress(byUpdatedAt, address), pages, PageSize);
      r := DetailLoop(slice);
    }

    /** The loop of `findReviewDetail` over one page. */
    method DetailLoop(slice: seq<RoomReview>) returns (r: Result<seq<OtherReviews.OtherReviewResponse>>)
      ensures r == DetailFeed(db, slice)
    {
      var list: seq<OtherReviews.OtherReviewResponse> := [];
      var i := 0;
      while i < |slice|
        invariant 0 <= i <= |slice|
        invariant DetailFeed(db, slice[..i]) == Ok(list)
      {
        var rv := slice[i];
        var userId := rv.userId;
        if userId !in db.users {
          assert DetailEntry(db, rv) == Err(UserIdNotFound(userId));
          DetailFeedFailsAt(db, slice, i);
          return Err(UserIdNotFound(userId));
        }
        var user := db.users[userId];
        var images := FindImages(db, rv.reviewId, ReviewImageType);
        var response := OtherReviews.Of(user, rv, images);
        DetailFeedStep(db, slice, i);
        list := list + [response];
        i := i + 1;
      }
      assert slice[..i] == slice;
      r := Ok(list);
    }
  }
}
