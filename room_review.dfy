/** The `RoomReview` entity and its factory `RoomReview.of`. */
module RoomReviews {
  import opened Common

  datatype ResidencePeriod = ResidencePeriod(startedAt: Date, endAt: Date)

  /** A review row. `reviewId`, `updatedAt` and `createdAt` are assigned by
      persistence, so a freshly built review has `None` there. The five
      dimension ratings and `createdAt` are the members that the aggregator
      and the response builders read. */
  datatype RoomReview = RoomReview(
    reviewId: Option<ReviewId>,
    userId: UserId,
    roomId: RoomId,
    dateId: DateLogId,
    totalRate: int,
    content: string,
    updatedAt: Option<Date>,
    residencePeriod: ResidencePeriod,
    address: string,
    addressDetail: string,
    cleanRate: int,
    noiseRate: int,
    accessRate: int,
    hostRate: int,
    facilityRate: int,
    createdAt: Option<Date>)

  /** The members of a review submission that the core reads. */
  datatype ReviewRequest = ReviewRequest(
    address: string,
    addressDetail: string,
    startedAt: Date,
    endAt: Date,
    totalRate: int,
    content: string,
    cleanRate: int,
    noiseRate: int,
    accessRate: int,
    hostRate: int,
    facilityRate: int)

  /** `RoomReview.of(request, user, roomId, dateId)`: the author is the
      user, the room and date log are the arguments, the rest comes from
      the request unchanged, and the identity is left to persistence. */
  function Of(req: ReviewRequest, user: User, roomId: RoomId, dateId: DateLogId): (r: RoomReview)
    ensures r.userId == user.userId && r.roomId == roomId && r.dateId == dateId
    ensures r.totalRate == req.totalRate && r.content == req.content
    ensures r.address == req.address && r.addressDetail == req.addressDetail
    ensures r.residencePeriod == ResidencePeriod(req.startedAt, req.endAt)
    ensures r.cleanRate == req.cleanRate && r.noiseRate == req.noiseRate && r.accessRate == req.accessRate
    ensures r.hostRate == req.hostRate && r.facilityRate == req.facilityRate
    ensures r.reviewId.None? && r.updatedAt.None? && r.createdAt.None?
  {
    var period := ResidencePeriod(req.startedAt, req.endAt);
    RoomReview(
      None, user.userId, roomId, dateId, req.totalRate, req.content, None, period,
      req.address, req.addressDetail,
      req.cleanRate, req.noiseRate, req.accessRate, req.hostRate, req.facilityRate,
      None)
  }

  /** The review depends on the user only through the user's id. */
  lemma OfDependsOnUserIdOnly(req: ReviewRequest, u1: User, u2: User, roomId: RoomId, dateId: DateLogId)
    requires u1.userId == u2.userId
    ensures Of(req, u1, roomId, dateId) == Of(req, u2, roomId, dateId)
  {
  }
}
