/** What both `move_robot` endpoints share: the input check and the HTTP outcome. */
module Service {

  /** The largest rectangle side, in mm, the endpoints accept. */
  const MaxOffset := 1000

  /** The text of the 400 answer; it names 100 although the bound checked is 1000. */
  const OffsetDetail := "offset must be between 0 and 100"

  const MotionGroupDetail :=
    "No or more than one motion group found. Example just works with one motion group. "
    + "Go to settings app and create one or delete all except one."

  const PlanningFailedDetail :=
    "Planning failed. Check that the starting position provides enough space for moving with the desired offset."

  predicate OffsetInRange(offsetMm: int) {
    0 <= offsetMm <= MaxOffset
  }

  /**
   * How a request ends: 201 with no body, an `HTTPException` with its status
   * and detail, or an unhandled exception (answered 500 by the framework).
   */
  datatype Outcome = Created | HttpError(status: int, detail: string) | InternalError
}
