# dankan reviews and token rotation, in Dafny

This project models the review and token core of the dankan rental-listing
backend:

- the review service (`ReviewServiceImpl`):
  - submitting a review;
  - deleting one's own review;
  - the two five-per-page review feeds (most recently updated, highest rated);
  - the rating page of an address;
  - the per-address review detail page.
- the rating aggregator `ReviewDetailResponseDto.of`.
- the detail-response builder `OtherReviewResponseDto.of`.
- the entity factories `Room.of` and `RoomReview.of`.
- access-token rotation (`TokenServiceImpl.reissueAccessToken`).

Modules:

- `Common`: the user and image records, ids, `Option`, and `Result`, whose error cases name the exceptions the source throws.
- `JavaString`: Java's `String.split(" ")`.
  - Adjacent spaces give an empty field.
  - Trailing empty fields are dropped.
  - A string with no space splits into itself.
- `Repository`: the repository queries the core uses, as functions on sequences.
  - `findFirst…` and `findBy…` return the first matching row; list queries keep every matching row in order.
  - `PageRequest.of(page, size)` gives a page of rows.
  - `Collect` is a loop that stops at the first `orElseThrow` that fails.
- `RoomReviews`, `Rooms`: the two entities and their `of` factories.
- `ReviewDetails`: the rating aggregator, as a `method` with the source's accumulating loop.
  - It is proved equal to the function `Detail`.
  - An empty review list makes the aggregator throw at `roomReviewList.get(0)` (ReviewDetailResponseDto.java:54). The guard at :44 covers only the division.
  - Averages are integer tenths. The rounded mean `MeanTenths(sum, n)` is the one `t` with `|10 * sum / n - t| <= 1/2`, rounding halves up. This is what `Math.round(avg * 10) / 10.0` computes.
- `OtherReviews`: the response builder, as a `method` with the source's URL-concatenating loop.
- `Tokens`: a `TokenService` class. Its fields are the token rows and the user map.
- `ReviewServices`: a `ReviewService` class. Its fields are:
  - `db`: the six repositories, held as one `Repositories` value;
  - `writes`: a journal of the writes, in order;
  - the two identity counters the database hands out.

  `deleteReview` deletes the row outright (`reviewRepository.delete`, ReviewServiceImpl.java:91).

  The three list endpoints are loops proved equal to the feed functions `RecentFeed`, `StarFeed` and `DetailFeed`.

The caller's id (`JwtUtil.getMemberId()`), the clock and `JwtUtil.createJwt` are parameters. So are `Options.of` and the enum converters.

Spring sorts with `Sort.by(DESC, …)`. The sorted order is likewise a parameter: a sequence required to be a permutation of the stored reviews.

A negative page number makes `PageRequest.of` throw. It is modelled as `Err(IllegalArgument)`.

## Model

| member | source | states |
|---|---|---|
| JavaString.SplitJoin | dankan/src/main/java/com/dankan/domain/Room.java:49 | `split(" ")` gives back space-free words joined by single spaces, if the last word is not empty |
| JavaString.SplitAdjacentSpaces | dankan/src/main/java/com/dankan/domain/Room.java:49 | `"a  b"` splits into `a`, an empty field and `b` |
| JavaString.SplitTrailingSpaces | dankan/src/main/java/com/dankan/domain/Room.java:49 | `"a b  "` splits into `a` and `b`: the trailing empty fields are dropped |
| JavaString.SplitBlank | dankan/src/main/java/com/dankan/domain/Room.java:49 | a lone space splits into no fields; the empty string splits into one empty field |
| JavaString.Split | dankan/src/main/java/com/dankan/domain/Room.java:49 | `split(" ")`: no field holds a space |
| JavaString.RawSplit | dankan/src/main/java/com/dankan/domain/Room.java:49 | the fields between single spaces, at least one, none holding a space |
| JavaString.DropTrailingEmpty | dankan/src/main/java/com/dankan/domain/Room.java:49 | a prefix of the fields that drops exactly the trailing empty ones |
| JavaString.Join | dankan/src/main/java/com/dankan/domain/Room.java:49 | the fields with one space between neighbours, the inverse of the raw split (`JoinRawSplit`, `RawSplitJoin`) |
| JavaString.RawSplitNoSpace | dankan/src/main/java/com/dankan/domain/Room.java:49 | a string without spaces is one field |
| JavaString.RawSplitAtSpace | dankan/src/main/java/com/dankan/domain/Room.java:49 | a space separates the fields on its left from those on its right |
| JavaString.JoinRawSplit | dankan/src/main/java/com/dankan/domain/Room.java:49 | joining the raw fields gives back the string |
| JavaString.RawSplitJoin | dankan/src/main/java/com/dankan/domain/Room.java:49 | the raw split of space-free words joined by single spaces is the words |
| JavaString.RawSplitTrailingSpaces | dankan/src/main/java/com/dankan/domain/Room.java:49 | `"a b  "` has the raw fields `a`, `b`, and two empty ones |
| Rooms.Of | dankan/src/main/java/com/dankan/domain/Room.java:48-100 | a price type the converter rejects fails with the converter's exception, then likewise a rejected room type. With both converted: fails with index-out-of-bounds at index `n` exactly when the address splits into `n < 4` fields. Otherwise doo, si, gu and dong are the first four fields, the whole address and its detail are kept, the converted values are stored, the owner is the given user and the id is unassigned. |
| Rooms.OfWords | dankan/src/main/java/com/dankan/domain/Room.java:49-90 | once both converters succeed, an address of four or more words yields its first four words as doo/si/gu/dong |
| Rooms.OfThreeWordsFails | dankan/src/main/java/com/dankan/domain/Room.java:49-85 | once both converters succeed, a three-word address fails at index 3 |
| RoomReviews.Of | dankan/src/main/java/com/dankan/domain/RoomReview.java:58-74 | the author is the user's id. The room and date-log ids are the arguments. Total rating, content, address, address detail and residence period come from the request. Review id and timestamps are left unset. |
| RoomReviews.OfDependsOnUserIdOnly | dankan/src/main/java/com/dankan/domain/RoomReview.java:65 | the review depends on the user only through the user's id |
| Repository.FirstIndex | dankan/src/main/java/com/dankan/service/review/ReviewServiceImpl.java:89-90 | returns the first matching index; `None` exactly when no row matches |
| Repository.First | dankan/src/main/java/com/dankan/service/review/ReviewServiceImpl.java:61-65 | a found row is stored and matches; `None` exactly when no row matches (that it is the first match is `FirstIsFirstMatch`) |
| Repository.FirstIsFirstMatch | dankan/src/main/java/com/dankan/service/review/ReviewServiceImpl.java:61-65 | the row `First` returns has a position before which no row matches |
| Repository.Filter | dankan/src/main/java/com/dankan/service/review/ReviewServiceImpl.java:161 | keeps exactly the stored rows that match, never more rows than it is given |
| Repository.FilterAppend | dankan/src/main/java/com/dankan/service/review/ReviewServiceImpl.java:161 | filtering distributes over concatenation, so matching rows keep their storage order and multiplicity |
| Repository.FilterSingle | dankan/src/main/java/com/dankan/service/review/ReviewServiceImpl.java:161 | one row is kept exactly when it matches |
| Repository.Page | dankan/src/main/java/com/dankan/service/review/ReviewServiceImpl.java:99-100 | at most `size` rows. Element `k` is row `page * size + k`; the length is exact; a page past the end is empty. |
| Repository.PagesArePrefix | dankan/src/main/java/com/dankan/service/review/ReviewServiceImpl.java:99-100 | reading pages `0 … k-1` in turn reads the first `k * size` rows |
| Repository.CollectOk | dankan/src/main/java/com/dankan/service/review/ReviewServiceImpl.java:102-117 | the loop succeeds exactly when every iteration does; it then yields one result per row, in order |
| Repository.CollectErr | dankan/src/main/java/com/dankan/service/review/ReviewServiceImpl.java:102-117 | a failed loop fails with the error of its first failing iteration |
| Repository.CollectStopsAtFailure | dankan/src/main/java/com/dankan/service/review/ReviewServiceImpl.java:102-117 | once a prefix fails, the rows after it do not matter |
| Repository.Collect | dankan/src/main/java/com/dankan/service/review/ReviewServiceImpl.java:102-117 | the for loop whose body may throw: results in order, or the first exception (its contract is `CollectOk` and `CollectErr`) |
| Repository.CollectFailsAt | dankan/src/main/java/com/dankan/service/review/ReviewServiceImpl.java:102-117 | after a successful prefix, the first failing row's exception is the loop's result |
| Repository.CollectStep | dankan/src/main/java/com/dankan/service/review/ReviewServiceImpl.java:102-117 | a successful iteration after a successful prefix appends its value to the result list |
| Repository.Pages | dankan/src/main/java/com/dankan/service/review/ReviewServiceImpl.java:99-100 | the concatenation of the first `k` pages (its contract is `PagesArePrefix`) |
| ReviewDetails.MeanTenths | dankan/src/main/java/com/dankan/dto/response/review/ReviewDetailResponseDto.java:45-60 | the result is within half a tenth of `10 * sum / count` |
| ReviewDetails.MeanTenthsUnique | dankan/src/main/java/com/dankan/dto/response/review/ReviewDetailResponseDto.java:55-60 | the half-up rounded tenth is unique |
| ReviewDetails.Of | dankan/src/main/java/com/dankan/dto/response/review/ReviewDetailResponseDto.java:25-64 | equals `Detail`, and fails with index-out-of-bounds at 0 exactly when the list is empty. Otherwise: the count is the list length; the address is the first review's; the image URL is the argument; each of the six averages is the rounded mean of that column. |
| ReviewDetails.SumStep | dankan/src/main/java/com/dankan/dto/response/review/ReviewDetailResponseDto.java:35-42 | one more iteration adds the review's rating to each of the six accumulators |
| ReviewDetails.DetailFields | dankan/src/main/java/com/dankan/dto/response/review/ReviewDetailResponseDto.java:25-64 | the response fails with index-out-of-bounds at 0 exactly on the empty list; otherwise it carries the list length, the first review's address, the image URL and the rounded mean of each column |
| ReviewDetails.SumPermutation | dankan/src/main/java/com/dankan/dto/response/review/ReviewDetailResponseDto.java:35-42 | a column's sum does not depend on the order of the reviews |
| ReviewDetails.PermutationKeepsAverages | dankan/src/main/java/com/dankan/dto/response/review/ReviewDetailResponseDto.java:25-64 | reordering the reviews changes no average and no count |
| ReviewDetails.SumBounds | dankan/src/main/java/com/dankan/dto/response/review/ReviewDetailResponseDto.java:35-42 | ratings within `[lo, hi]` sum to within `[n * lo, n * hi]` |
| ReviewDetails.MeanTenthsBounds | dankan/src/main/java/com/dankan/dto/response/review/ReviewDetailResponseDto.java:45-60 | a mean of a sum within `[n * lo, n * hi]` lies within `[10 * lo, 10 * hi]` tenths |
| ReviewDetails.AverageWithinBounds | dankan/src/main/java/com/dankan/dto/response/review/ReviewDetailResponseDto.java:25-64 | ratings within `[lo, hi]` average to within `[lo, hi]` |
| ReviewDetails.SumConcat | dankan/src/main/java/com/dankan/dto/response/review/ReviewDetailResponseDto.java:35-42 | a column sum distributes over concatenation |
| ReviewDetails.SumDependsOnColumnOnly | dankan/src/main/java/com/dankan/dto/response/review/ReviewDetailResponseDto.java:35-42 | a column's sum depends only on that column |
| ReviewDetails.ColumnsIndependent | dankan/src/main/java/com/dankan/dto/response/review/ReviewDetailResponseDto.java:44-60 | one dimension's average ignores every other column |
| ReviewDetails.Examples | dankan/src/main/java/com/dankan/dto/response/review/ReviewDetailResponseDto.java:55 | 3, 4, 5 average 4.0; 4, 4, 5 average 4.3; 4, 5 average 4.5 |
| ReviewDetails.Rate | dankan/src/main/java/com/dankan/dto/response/review/ReviewDetailResponseDto.java:36-41 | the rating column each of the six accumulators reads |
| ReviewDetails.Sum | dankan/src/main/java/com/dankan/dto/response/review/ReviewDetailResponseDto.java:35-42 | one accumulator after the loop (its contracts are `SumConcat`, `SumPermutation` and `SumBounds`) |
| ReviewDetails.Average | dankan/src/main/java/com/dankan/dto/response/review/ReviewDetailResponseDto.java:55-60 | the average field of the response for each dimension |
| ReviewDetails.Detail | dankan/src/main/java/com/dankan/dto/response/review/ReviewDetailResponseDto.java:25-64 | the response of `of` as a function: the reference the loop is proved equal to, on which the averaging lemmas are stated |
| OtherReviews.Build | dankan/src/main/java/com/dankan/dto/response/review/OtherReviewResponseDto.java:35-44 | id, total rating, content, residence period and creation date come from the review, the nickname from the user, and the image string is the argument. University and room type are left unset. |
| OtherReviews.ConcatUrls | dankan/src/main/java/com/dankan/dto/response/review/OtherReviewResponseDto.java:29-33 | a non-empty image list gives a string ending in a space |
| OtherReviews.Of | dankan/src/main/java/com/dankan/dto/response/review/OtherReviewResponseDto.java:28-45 | the loop builds the image string `ConcatUrls(images)`: each URL followed by one space |
| OtherReviews.ConcatUrlsLength | dankan/src/main/java/com/dankan/dto/response/review/OtherReviewResponseDto.java:31-33 | the string is as long as the URLs plus one space each |
| OtherReviews.ConcatUrlsAppend | dankan/src/main/java/com/dankan/dto/response/review/OtherReviewResponseDto.java:31-33 | the image string of `a + b` is that of `a` followed by that of `b` |
| OtherReviews.RawSplitConcatUrls | dankan/src/main/java/com/dankan/dto/response/review/OtherReviewResponseDto.java:31-33 | splitting at every space gives back the space-free URLs |
| OtherReviews.SplitConcatUrls | dankan/src/main/java/com/dankan/dto/response/review/OtherReviewResponseDto.java:31-33 | `split(" ")` of the image string is the list of URLs (non-empty, space-free); with no image it is `[""]` |
| OtherReviews.RawSplitConcatUrlsAlone | dankan/src/main/java/com/dankan/dto/response/review/OtherReviewResponseDto.java:31-33 | splitting the space-terminated image string at every space gives the URLs followed by one empty piece |
| OtherReviews.Urls | dankan/src/main/java/com/dankan/dto/response/review/OtherReviewResponseDto.java:31-32 | the image URLs, one per image, in order |
| OtherReviews.UrlLengths | dankan/src/main/java/com/dankan/dto/response/review/OtherReviewResponseDto.java:32 | the URL lengths plus one each, the length `ConcatUrlsLength` proves |
| Tokens.FindToken | dankan/src/main/java/com/dankan/service/token/TokenServiceImpl.java:30 | a found row carries both tokens; `None` exactly when no row carries the pair |
| Tokens.FindTokenUnique | dankan/src/main/java/com/dankan/service/token/TokenServiceImpl.java:30 | with refresh tokens unique, the lookup finds the one row carrying the pair |
| Tokens.TokenService.ReissueAccessToken | dankan/src/main/java/com/dankan/service/token/TokenServiceImpl.java:27-54 | an unknown pair fails (the log line's `get()`), with the store unchanged. An unknown caller fails with a runtime exception, unchanged. Otherwise only the matched row's access token and its expiry change: the new token is minted for the caller and expires `expireDays` days from `now`, so after `now` for a positive window. No other row carries the presented refresh token. The response carries the caller's id and the row's tokens and expiries. Uniqueness of refresh tokens is preserved. |
| Tokens.RotationTouchesOneRow | dankan/src/main/java/com/dankan/service/token/TokenServiceImpl.java:36-45 | other rows are untouched; the row is then found by the new pair and no longer by the old one |
| Tokens.TokenService.Valid | dankan/src/main/java/com/dankan/service/token/TokenServiceImpl.java:30 | refresh tokens are unique, so the pair lookup finds at most one row |
| Tokens.TokenService.constructor | dankan/src/main/java/com/dankan/service/token/TokenServiceImpl.java:15-19 | the service over a given token store and user repository |
| ReviewServices.FindImages | dankan/src/main/java/com/dankan/service/review/ReviewServiceImpl.java:178 | exactly the stored images with the review's id and the requested type, in storage order |
| ReviewServices.ReviewService.AddReview | dankan/src/main/java/com/dankan/service/review/ReviewServiceImpl.java:56-82 | each of the three lookups fails with its own exception before any write. Otherwise the options, a date log stamped today for the caller and the review are saved, in that order, under the next ids. The response carries the user, the review, no image and the room-type option. The saved review is then the one found for the caller under the new id. |
| ReviewServices.ReviewService.DeleteReview | dankan/src/main/java/com/dankan/service/review/ReviewServiceImpl.java:86-92 | fails with review-not-found, and nothing changes, when the caller has no review with that id. Otherwise exactly that row is removed, and no review with that id is left. |
| ReviewServices.ReviewService.FindRecentReview | dankan/src/main/java/com/dankan/service/review/ReviewServiceImpl.java:96-120 | the result is the recent feed of page `pages` of the most-recently-updated order |
| ReviewServices.ReviewService.FindReviewByStar | dankan/src/main/java/com/dankan/service/review/ReviewServiceImpl.java:124-145 | the result is the star feed of page `pages` of the highest-rated order |
| ReviewServices.ReviewService.FindReviewRate | dankan/src/main/java/com/dankan/service/review/ReviewServiceImpl.java:149-163 | room-not-found, option-not-found and image-not-found, in that order. Otherwise the room, the address's reviews in storage order, the main image's URL, the room-type option and the rating options. |
| ReviewServices.ReviewService.FindReviewDetail | dankan/src/main/java/com/dankan/service/review/ReviewServiceImpl.java:167-184 | the result is the detail feed of page `pages` of the address's reviews, most recently updated first |
| ReviewServices.RecentFeedFailsAt | dankan/src/main/java/com/dankan/service/review/ReviewServiceImpl.java:102-113 | the first review whose lookup fails decides the recent feed's error |
| ReviewServices.StarFeedFailsAt | dankan/src/main/java/com/dankan/service/review/ReviewServiceImpl.java:130-138 | the first review whose lookup fails decides the star feed's error |
| ReviewServices.DetailFeedFailsAt | dankan/src/main/java/com/dankan/service/review/ReviewServiceImpl.java:173-176 | the first review whose author is missing decides the detail page's error |
| ReviewServices.RecentFeedStep | dankan/src/main/java/com/dankan/service/review/ReviewServiceImpl.java:102-117 | a review whose lookups succeed appends its response to the recent feed built so far |
| ReviewServices.StarFeedStep | dankan/src/main/java/com/dankan/service/review/ReviewServiceImpl.java:130-142 | a review whose lookups succeed appends its response to the star feed built so far |
| ReviewServices.DetailFeedStep | dankan/src/main/java/com/dankan/service/review/ReviewServiceImpl.java:173-181 | a review whose author is found appends its response to the detail page built so far |
| ReviewServices.RecentFeedResponses | dankan/src/main/java/com/dankan/service/review/ReviewServiceImpl.java:102-117 | succeeds exactly when every review's room, room owner, room-type option and main image exist. Then there is one response per review, in order, carrying the review, the room's owner (not the author), the option and the main image URL. |
| ReviewServices.StarFeedResponses | dankan/src/main/java/com/dankan/service/review/ReviewServiceImpl.java:130-142 | succeeds exactly when every review's room, room-type option and main image exist. Then there is one response per review, in order, with no user. |
| ReviewServices.DetailFeedResponses | dankan/src/main/java/com/dankan/service/review/ReviewServiceImpl.java:173-181 | succeeds exactly when every review's author exists. Then there is one response per review, in order, with the author's nickname and the review's id, rating and text. Each response is the one `DetailEntry` builds for its review, so `DetailImagesRoundTrip` applies to its image string. |
| ReviewServices.DetailImagesRoundTrip | dankan/src/main/java/com/dankan/service/review/ReviewServiceImpl.java:178-179 | a detail response's images are the review's own type-3 images, and its image string splits back into their URLs |
| ReviewServices.RecentPageInOrder | dankan/src/main/java/com/dankan/service/review/ReviewServiceImpl.java:98-117 | at most five responses; response `k` is about row `pages * 5 + k` of the order |
| ReviewServices.StarPageInOrder | dankan/src/main/java/com/dankan/service/review/ReviewServiceImpl.java:126-142 | at most five responses; response `k` is about row `pages * 5 + k` of the order |
| ReviewServices.DetailPageAtAddress | dankan/src/main/java/com/dankan/service/review/ReviewServiceImpl.java:169-181 | at most five responses; response `k` is about the review at position `pages * 5 + k` among the ordered reviews at the address, and that review is stored when the order is a permutation of the stored reviews |
| ReviewServices.PageAtAddressStored | dankan/src/main/java/com/dankan/service/review/ReviewServiceImpl.java:169-171 | every review on a page at an address has that address, and is stored when the order is a permutation of the stored reviews |
| ReviewServices.RateOptionsMatchJoinedKeyOnly | dankan/src/main/java/com/dankan/service/review/ReviewServiceImpl.java:152-155 | if `findRateOptions` matches each code key by string equality, it keeps only the room's options whose code key is the whole comma-joined string; under that reading an option keyed `"CleanRate"` is never returned |
| ReviewServices.ReviewIdsAppend | dankan/src/main/java/com/dankan/service/review/ReviewServiceImpl.java:79 | saving a review under the next id keeps review ids unique and below the counter |
| ReviewServices.FindAppendedReview | dankan/src/main/java/com/dankan/service/review/ReviewServiceImpl.java:79-90 | the review saved under the next id is the one `findByUserIdAndReviewId` finds for its author |
| ReviewServices.ReviewIdsRemove | dankan/src/main/java/com/dankan/service/review/ReviewServiceImpl.java:91 | deleting a row keeps review ids unique, and its id is then gone |
| ReviewServices.RemovedMembers | dankan/src/main/java/com/dankan/service/review/ReviewServiceImpl.java:91 | every row left after the delete was stored before and has a different id from the deleted one |
| ReviewServices.RemovedDistinct | dankan/src/main/java/com/dankan/service/review/ReviewServiceImpl.java:91 | the rows left after the delete still have pairwise distinct ids |
| ReviewServices.DateLogIdsAppend | dankan/src/main/java/com/dankan/service/review/ReviewServiceImpl.java:76 | saving a date log under the next id keeps date-log ids below the counter |
| ReviewServices.FindRoomById | dankan/src/main/java/com/dankan/service/review/ReviewServiceImpl.java:103-104 | `roomRepository.findById`: the first room carrying the id |
| ReviewServices.FindFirstRoomByAddress | dankan/src/main/java/com/dankan/service/review/ReviewServiceImpl.java:61-62 | `findFirstByRoomAddress_Address`: the first room whose address equals the argument |
| ReviewServices.FindOption | dankan/src/main/java/com/dankan/service/review/ReviewServiceImpl.java:64-65 | `findByRoomIdAndCodeKey`: the first option of the room under that code key |
| ReviewServices.FindMainImage | dankan/src/main/java/com/dankan/service/review/ReviewServiceImpl.java:112-113 | `findMainImage(roomId, 0)`, assumed to be the first image of the room with type 0 |
| ReviewServices.FindRateOptions | dankan/src/main/java/com/dankan/service/review/ReviewServiceImpl.java:155 | `findRateOptions`, assumed to keep the room's options whose code key is an element of the list |
| ReviewServices.FindByAddress | dankan/src/main/java/com/dankan/service/review/ReviewServiceImpl.java:161 | `findByAddress`: the reviews at that address, in the order given |
| ReviewServices.FindReview | dankan/src/main/java/com/dankan/service/review/ReviewServiceImpl.java:89-90 | `findByUserIdAndReviewId`: the position of the first review with that author and id |
| ReviewServices.RecentEntry | dankan/src/main/java/com/dankan/service/review/ReviewServiceImpl.java:103-116 | one iteration of the recent feed: room, owner, room-type option and main image, each of which may be missing, in that order |
| ReviewServices.StarEntry | dankan/src/main/java/com/dankan/service/review/ReviewServiceImpl.java:131-141 | one iteration of the star feed: room, room-type option and main image, in that order, and no user |
| ReviewServices.DetailEntry | dankan/src/main/java/com/dankan/service/review/ReviewServiceImpl.java:174-180 | one iteration of the detail page: the author, then the review's type-3 images built into a response |
| ReviewServices.RecentFeed | dankan/src/main/java/com/dankan/service/review/ReviewServiceImpl.java:102-117 | the recent-feed loop over a slice (its contracts are `RecentFeedResponses` and `RecentFeedFailsAt`) |
| ReviewServices.StarFeed | dankan/src/main/java/com/dankan/service/review/ReviewServiceImpl.java:130-143 | the star-feed loop over a slice (its contracts are `StarFeedResponses` and `StarFeedFailsAt`) |
| ReviewServices.DetailFeed | dankan/src/main/java/com/dankan/service/review/ReviewServiceImpl.java:173-182 | the detail-page loop over a slice (its contracts are `DetailFeedResponses` and `DetailFeedFailsAt`) |
| ReviewServices.ReviewService.RecentLoop | dankan/src/main/java/com/dankan/service/review/ReviewServiceImpl.java:102-117 | the for loop of `findRecentReview` computes exactly `RecentFeed` over the page |
| ReviewServices.ReviewService.StarLoop | dankan/src/main/java/com/dankan/service/review/ReviewServiceImpl.java:130-143 | the for loop of `findReviewByStar` computes exactly `StarFeed` over the page |
| ReviewServices.ReviewService.DetailLoop | dankan/src/main/java/com/dankan/service/review/ReviewServiceImpl.java:173-182 | the for loop of `findReviewDetail` computes exactly `DetailFeed` over the page |
| ReviewServices.ReviewService.Valid | dankan/src/main/java/com/dankan/service/review/ReviewServiceImpl.java:32-37 | users are stored under their own id, rooms have ids, review ids are unique and below the counter, date-log ids are below theirs |
| ReviewServices.ReviewService.constructor | dankan/src/main/java/com/dankan/service/review/ReviewServiceImpl.java:40-52 | the service over six given repositories, with an empty journal |

## Left out

- Persistence:
  - JPA's IDENTITY generation is modelled as two counters, `nextDateLogId` and `nextReviewId`.
  - `@UpdateTimestamp` and `createdAt` are not assigned, so a saved review's timestamps stay unset.
  - Transactions are not modelled. `addReview` writes only after all three lookups succeed, so there is nothing to roll back.
- Spring's sorting: each feed takes the sorted order as a parameter. The model does not check that order against `updatedAt` or `totalRate`.
- Collaborators:
  - `JwtUtil` (`getMemberId`, `getAccessToken`, `createJwt`, `ACCESS_TOKEN_EXPIRE_TIME`), `LocalDate.now()` and `LocalDateTime.now()` are parameters.
  - The two `LocalDate.now()` calls of `addReview` are one `today`.
  - A `LocalDateTime` is an integer count of seconds.
- `isExpired` (TokenServiceImpl.java:21-24) is one call into `JwtUtil` and has no logic of its own.
- Logging: the `log.info` line of `reissueAccessToken` is modelled only through the exception its `result.get()` raises on an empty result.
- Collaborators outside the modelled files:
  - `Options.of`, `PriceTypeEnum`, `RoomTypeEnum`, `ReviewResponseDto.of` and `ReviewRateResponseDto.of` are not part of this model. The first three are parameters; the two converters return a `Result`, so a rejected value (such as the one `InvalidRoomTypeException` reports) aborts `Room.of` with the converter's exception. The last two are replaced by the records of their arguments (`ReviewResponse`, `ReviewRateResponse`).
  - `findReviewDetail` calls a three-argument `ReviewDetailResponseDto.of(user, review, images)`, which the aggregator's class does not declare. The model uses `OtherReviewResponseDto.of`, the one builder with that signature.
- RoomReviews.Of: RoomReview.java declares `totalRate` (:41) but no per-dimension rating columns, although ReviewDetailResponseDto.java:35-42 reads `getCleanRate()` and the others. `RoomReview.of` (RoomReview.java:58-74) copies only the total rating. The model gives the review the five dimension ratings the aggregator needs, and `Of` copies them from the request. This is an assumption.
- Doubles:
  - Averages are exact rational means rounded half up to integer tenths. Floating-point error in `Double` sums and divisions is not modelled.
  - All ratings are integers. Room sizes and coordinates are `real` values that are only copied.
- Integer width: Java's `Long` ids are unbounded integers here, so overflow is not modelled. The `Double` accumulators of the aggregator are exact integer sums.
- Exception messages: `RoomNotFound` does not carry the address or room id that `RoomNotFoundException` is given (ReviewServiceImpl.java:62, :104, :132, :151).
- Custom queries declared in repository interfaces that are not modelled:
  - `findRateOptions(roomId, codeKeys)` is assumed to keep the room's options whose code key equals an element of the list. The behaviour stated by `RateOptionsMatchJoinedKeyOnly` holds only under that assumption.
  - `findMainImage(roomId, 0L)` is assumed to return the first image whose `id` is the room's id and whose type is 0.
- Single-result queries:
  - `findByRoomIdAndCodeKey` (ReviewServiceImpl.java:64, :109, :134, :153), `findByUserIdAndReviewId` (:89) and `findTokenByAccessTokenAndRefreshToken` (TokenServiceImpl.java:30) are modelled as the first matching row.
  - Spring Data throws `IncorrectResultSizeDataAccessException` when more than one row matches. The model does not raise it. The case is reachable for options, because `optionsRepository.saveAll` (ReviewServiceImpl.java:68) may store several options per room.
  - Both readings of `findByIdAndImageType(reviewId, 3L)` (ReviewServiceImpl.java:178) are possible. The model reads `Image.id` as the owner's id, not as the image's own key.
- Tokens.TokenService.ReissueAccessToken: the new access token is not proved to differ from the old one, because `createJwt` is a parameter.
- Tokens.TokenService.ReissueAccessToken: it does not model `tokenRepository.save` as a separate write. The row is updated in place in the sequence, so the saved row and the stored row coincide.
