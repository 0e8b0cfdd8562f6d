/** Types shared by every part of the model: identifiers, dates, the
    exceptions the services throw, and the two entities (User, Image) whose
    own source files are not part of this model. */
module Common {

  datatype Option<T> = None | Some(value: T)

  /** Java `Long` identifiers; the model does not bound them. */
  type UserId = int
  type RoomId = int
  type ReviewId = int
  type DateLogId = int

  /** A `LocalDate`, as a day number. */
  type Date = int

  /** A `LocalDateTime`, in seconds. */
  type DateTime = int

  /** The exceptions thrown along the modelled paths, one constructor each. */
  datatype Error =
    | IndexOutOfBounds(index: int)      // List.get / array index past the end
    | NoSuchElement                     // Optional.get on an empty Optional
    | Runtime                           // a bare RuntimeException
    | IllegalArgument                   // PageRequest.of with a negative page
    | UserIdNotFound(userId: UserId)
    | RoomNotFound
    | OptionNotFound(codeKey: string)
    | ImageNotFound(roomId: RoomId)
    | ReviewNotFound(reviewId: ReviewId)

  /** A value, or the exception that aborted the call. */
  datatype Result<T> = Ok(value: T) | Err(error: Error)

  /** The members of the `User` entity that the core reads. */
  datatype User = User(userId: UserId, nickname: string)

  /** An image row: `id` is the room or review it belongs to, `imageType`
      its category (0 is a room's main image, 3 a review image). */
  datatype Image = Image(imageId: int, id: int, imageType: int, imageUrl: string)
}
