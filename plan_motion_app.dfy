/**
 * `wandelbots_python_plan_motion/app.py`: the rectangle waypoints, the plan
 * request built from them, the failure text of a rejected plan, and the
 * order of checks and external calls in `move_robot`.
 *
 * The API client's `Pose` is a mutable object: `calculate_points` deep-copies
 * and then assigns coordinates, so it is a class here, and the waypoint list
 * holds references (the first and last entries are the caller's pose itself).
 */
module PlanMotionApp {
  import opened Wrappers
  import opened Geometry
  import opened Service

  /** The blending radius, in mm, set on every linear command. */
  const PositionBlending := 20

  /** The rest of the 500 detail, before the planner's own description. */
  const DetailedMessage := " detailed message: "

  const UnknownFailure := "unknown planning failure"

  /** The playback speed of the move request, in percent. */
  const PlaybackSpeed := 100

  /** `wb.models.Pose`: a position and an orientation, both assignable. */
  class Pose {
    var position: Vector3
    var orientation: Vector3

    constructor (position: Vector3, orientation: Vector3)
      ensures Value() == PoseValue(position, orientation)
    {
      this.position := position;
      this.orientation := orientation;
    }

    function Value(): PoseValue
      reads this
    {
      PoseValue(position, orientation)
    }

    /** `copy.deepcopy`: a new pose with the same value. */
    method DeepCopy() returns (c: Pose)
      ensures fresh(c) && c.Value() == Value()
    {
      c := new Pose(position, orientation);
    }
  }

  /** `wb.models.CommandSettings`: every setting starts unset. */
  class CommandSettings {
    var positionBlending: Option<int>

    constructor ()
      ensures positionBlending == None
    {
      positionBlending := None;
    }
  }

  /** `wb.models.Command` with a line target. */
  datatype Command = Command(line: Pose, settings: CommandSettings)

  datatype PlanRequest = PlanRequest(motionGroup: string, commands: seq<Command>, startJointPosition: seq<real>)

  /** What a command and a plan request say, once the objects are read. */
  datatype CommandValue = CommandValue(line: PoseValue, positionBlending: Option<int>)

  datatype PlanRequestValue = PlanRequestValue(motionGroup: string, commands: seq<CommandValue>, startJointPosition: seq<real>)

  datatype PlanSuccessfulResponse = PlanSuccessfulResponse(motion: string)
  datatype PlanFailedResponse = PlanFailedResponse(description: string)
  datatype PlanFailedOnTrajectoryResponse = PlanFailedOnTrajectoryResponse(description: string)

  /** The planner's answer: at most the fields it filled in are present. */
  datatype PlanResponse = PlanResponse(
    successful: Option<PlanSuccessfulResponse>,
    failed: Option<PlanFailedResponse>,
    failedOnTrajectory: Option<PlanFailedOnTrajectoryResponse>)

  /** The state read back for the motion group: its TCP pose and joint position. */
  datatype RobotState = RobotState(tcpPose: PoseValue, jointPosition: seq<real>)

  /** The external calls `move_robot` makes, in the order they happen. */
  datatype Step =
    | CreateClient
    | ListMotionGroups
    | GetActiveTcp(motionGroup: string)
    | ActivateMotionGroup(motionGroup: string)
    | GetCurrentState(motionGroup: string, tcp: string)
    | PlanMotion(request: PlanRequestValue)
    | StreamMoveForward(motion: string, playbackSpeed: int)
    | CloseClient

  /**
   * The six waypoints as values: start, +x, +x+y, +y, start, start. Each
   * corner lies `offset` away from the previous one along one axis.
   */
  function Rectangle(p: PoseValue, offset: real): seq<PoseValue> {
    [p, Shifted(p, offset, 0.0), Shifted(p, offset, offset), Shifted(p, 0.0, offset), p, p]
  }

  /** `q` is `p` moved by exactly `d` along x alone or along y alone. */
  predicate AxisStep(p: PoseValue, q: PoseValue, d: real) {
    && q.position.z == p.position.z && q.orientation == p.orientation
    && ((q.position.y == p.position.y && (q.position.x - p.position.x == d || p.position.x - q.position.x == d))
        || (q.position.x == p.position.x && (q.position.y - p.position.y == d || p.position.y - q.position.y == d)))
  }

  /**
   * The waypoints form a closed axis-aligned square of side `offset` at the
   * start's height: only x and y ever change, each of the four legs moves
   * along one axis by `offset`, and the path ends where it began.
   */
  lemma RectangleIsClosedSquare(p: PoseValue, offset: real)
    ensures |Rectangle(p, offset)| == 6
    ensures forall i :: 0 <= i < 6 ==>
      Rectangle(p, offset)[i].position.z == p.position.z && Rectangle(p, offset)[i].orientation == p.orientation
    ensures forall i :: 0 <= i < 4 ==> AxisStep(Rectangle(p, offset)[i], Rectangle(p, offset)[i + 1], offset)
    ensures Rectangle(p, offset)[0] == Rectangle(p, offset)[4] == Rectangle(p, offset)[5] == p
  {
  }

  /** With no offset every waypoint is the start pose. */
  lemma RectangleOfZero(p: PoseValue)
    ensures Rectangle(p, 0.0) == [p, p, p, p, p, p]
  {
  }

  /** The worked example: start (100, 200, 300), offset 50. */
  lemma RectangleExample(q: Vector3)
    ensures var p := PoseValue(Vector3(100.0, 200.0, 300.0), q);
      Rectangle(p, 50.0) == [
        p,
        PoseValue(Vector3(150.0, 200.0, 300.0), q),
        PoseValue(Vector3(150.0, 250.0, 300.0), q),
        PoseValue(Vector3(100.0, 250.0, 300.0), q),
        p,
        p]
  {
  }

  function CommandOf(c: Command): CommandValue
    reads c.line, c.settings
  {
    CommandValue(c.line.Value(), c.settings.positionBlending)
  }

  /** The objects a plan request's commands refer to. */
  function Footprint(r: PlanRequest): set<object> {
    (set c | c in r.commands :: c.line) + (set c | c in r.commands :: c.settings)
  }

  function RequestOf(r: PlanRequest): PlanRequestValue
    reads Footprint(r)
  {
    var commands := seq(|r.commands|, i requires 0 <= i < |r.commands| reads Footprint(r) => CommandOf(r.commands[i]));
    PlanRequestValue(r.motionGroup, commands, r.startJointPosition)
  }

  /** The plan request `move_robot` should submit: one 20 mm linear move per waypoint. */
  function ExpectedRequest(motionGroup: string, initial: PoseValue, offsetMm: int, joints: seq<real>): PlanRequestValue {
    var points := Rectangle(initial, offsetMm as real);
    PlanRequestValue(motionGroup, seq(6, i requires 0 <= i < 6 => CommandValue(points[i], Some(PositionBlending))), joints)
  }

  /**
   * `calculate_points`: each new corner is a deep copy of the previous one
   * with one coordinate moved; the caller's pose is returned as the first
   * and last entry and is not changed.
   */
  method CalculatePoints(initial: Pose, offsetMm: int) returns (points: seq<Pose>)
    ensures |points| == 6 && points[0] == initial && points[5] == initial
    ensures fresh(points[1]) && fresh(points[2]) && fresh(points[3]) && fresh(points[4])
    ensures forall i, j :: 1 <= i < j <= 4 ==> points[i] != points[j]
    ensures unchanged(initial)
    ensures forall i :: 0 <= i < 6 ==> points[i].Value() == Rectangle(initial.Value(), offsetMm as real)[i]
  {
    var offset := offsetMm as real;
    var pos1 := initial.DeepCopy();
    pos1.position := pos1.position.(x := pos1.position.x + offset);

    var pos2 := pos1.DeepCopy();
    pos2.position := pos2.position.(y := pos2.position.y + offset);

    var pos3 := pos2.DeepCopy();
    pos3.position := pos3.position.(x := pos3.position.x - offset);

    var pos4 := pos3.DeepCopy();
    pos4.position := pos4.position.(y := pos4.position.y - offset);

    points := [initial, pos1, pos2, pos3, pos4, initial];
  }

  /** `linear_move`: a line command to `pose` whose settings get a 20 mm blending radius. */
  method LinearMove(pose: Pose) returns (c: Command)
    ensures c.line == pose && c.settings.positionBlending == Some(PositionBlending)
  {
    var settings := new CommandSettings();
    settings.positionBlending := Some(PositionBlending);
    c := Command(pose, settings);
  }

  /**
   * `get_plan_request`: the motion group and start joints as given, and one
   * linear command per waypoint, in waypoint order.
   */
  method GetPlanRequest(offsetMm: int, motionGroupId: string, initial: Pose, initialJoints: seq<real>)
    returns (r: PlanRequest)
    ensures r.motionGroup == motionGroupId && r.startJointPosition == initialJoints
    ensures |r.commands| == 6
    ensures r.commands[0].line == initial && r.commands[5].line == initial
    ensures forall i :: 0 <= i < 6 ==>
      r.commands[i].line.Value() == Rectangle(initial.Value(), offsetMm as real)[i]
      && r.commands[i].settings.positionBlending == Some(PositionBlending)
  {
    var points := CalculatePoints(initial, offsetMm);
    var moves: seq<Command> := [];
    for k := 0 to |points|
      invariant |moves| == k
      invariant forall i :: 0 <= i < k ==> moves[i].line == points[i]
      invariant forall i :: 0 <= i < k ==> moves[i].settings.positionBlending == Some(PositionBlending)
      invariant forall i :: 0 <= i < 6 ==> points[i].Value() == Rectangle(initial.Value(), offsetMm as real)[i]
    {
      var move := LinearMove(points[k]);
      moves := moves + [move];
    }
    r := PlanRequest(motionGroupId, moves, initialJoints);
  }

  /**
   * `get_planning_failure`: the plan-failure description if there is one,
   * else the trajectory-failure description, else a fixed text.
   */
  function GetPlanningFailure(response: PlanResponse): (text: string)
    ensures response.failed.Some? ==> text == response.failed.value.description
    ensures response.failed.None? && response.failedOnTrajectory.Some? ==>
      text == response.failedOnTrajectory.value.description
    ensures response.failed.None? && response.failedOnTrajectory.None? ==> text == UnknownFailure
  {
    if response.failed.Some? then response.failed.value.description
    else if response.failedOnTrajectory.Some? then response.failedOnTrajectory.value.description
    else UnknownFailure
  }

  /**
   * `move_robot`, with what the API would answer as parameters: the motion
   * groups it lists, the active TCP, the current state and the plan
   * response. Returns how the request ends and the calls made on the way.
   */
  method MoveRobot(offsetMm: int, motionGroups: seq<string>, activeTcp: string, state: RobotState,
                   planResponse: PlanResponse)
    returns (outcome: Outcome, trace: seq<Step>)
    // the offset is checked before a client exists
    ensures !OffsetInRange(offsetMm) ==> outcome == HttpError(400, OffsetDetail) && trace == []
    // the group count is checked before anything is planned
    ensures OffsetInRange(offsetMm) && |motionGroups| != 1 ==>
      outcome == HttpError(400, MotionGroupDetail) && trace == [CreateClient, ListMotionGroups]
    // one request is planned: the rectangle around the current TCP pose, from the current joints
    ensures OffsetInRange(offsetMm) && |motionGroups| == 1 ==>
      |trace| >= 6 && trace[..6] == [CreateClient, ListMotionGroups, GetActiveTcp(motionGroups[0]),
        ActivateMotionGroup(motionGroups[0]), GetCurrentState(motionGroups[0], activeTcp),
        PlanMotion(ExpectedRequest(motionGroups[0], state.tcpPose, offsetMm, state.jointPosition))]
    // a failed plan is answered 500 with the planner's reason, and nothing moves
    ensures OffsetInRange(offsetMm) && |motionGroups| == 1 && planResponse.successful.None? ==>
      outcome == HttpError(500, PlanningFailedDetail + DetailedMessage + GetPlanningFailure(planResponse))
      && |trace| == 6
    // the robot moves only on a successful plan, and then the request succeeds
    ensures forall s :: s in trace && s.StreamMoveForward? ==>
      planResponse.successful.Some? && s == StreamMoveForward(planResponse.successful.value.motion, PlaybackSpeed)
    ensures outcome == Created <==> OffsetInRange(offsetMm) && |motionGroups| == 1 && planResponse.successful.Some?
    ensures outcome == Created ==> |trace| == 8 && trace[6].StreamMoveForward? && trace[7] == CloseClient
    // the client is closed only at the end of a successful request
    ensures CloseClient in trace <==> outcome == Created
  {
    trace := [];
    if offsetMm < 0 || offsetMm > MaxOffset {
      return HttpError(400, OffsetDetail), trace;
    }

    trace := trace + [CreateClient];
    trace := trace + [ListMotionGroups];
    if |motionGroups| != 1 {
      return HttpError(400, MotionGroupDetail), trace;
    }

    var motionGroupId := motionGroups[0];
    trace := trace + [GetActiveTcp(motionGroupId)];
    trace := trace + [ActivateMotionGroup(motionGroupId)];
    trace := trace + [GetCurrentState(motionGroupId, activeTcp)];

    var initialPose := new Pose(state.tcpPose.position, state.tcpPose.orientation);
    var planRequest := GetPlanRequest(offsetMm, motionGroupId, initialPose, state.jointPosition);
    var submitted := RequestOf(planRequest);
    assert submitted == ExpectedRequest(motionGroupId, state.tcpPose, offsetMm, state.jointPosition) by {
      assert forall i :: 0 <= i < 6 ==> submitted.commands[i] == CommandOf(planRequest.commands[i]);
    }
    trace := trace + [PlanMotion(submitted)];

    if planResponse.successful.None? {
      var failure := GetPlanningFailure(planResponse);
      return HttpError(500, PlanningFailedDetail + DetailedMessage + failure), trace;
    }

    trace := trace + [StreamMoveForward(planResponse.successful.value.motion, PlaybackSpeed)];
    trace := trace + [CloseClient];
    outcome := Created;
  }
}
