/**
 * `wandelbots_python_convenient/app.py`: the waypoints built with the Nova
 * pose operator `@`, the action list sent for planning, and the order of
 * checks and calls in `move_robot`.
 *
 * Nova poses are immutable values here. `@` (composition with a six-part
 * offset: translation, then rotation vector) is foreign rotation arithmetic;
 * it reaches every member as a parameter `compose` about which nothing is
 * assumed.
 */
module ConvenientApp {
  import opened Wrappers
  import opened Geometry
  import opened Service
  import PlanMotionApp

  /** The blending radius, in mm, of every linear action. */
  const Blending := 10

  /** A six-part Nova offset `(x, y, z, rx, ry, rz)` as written in the source. */
  datatype Offset6 = Offset6(x: int, y: int, z: int, rx: int, ry: int, rz: int)

  /** The Nova `@` operator, left uninterpreted. */
  type Compose = (PoseValue, Offset6) -> PoseValue

  datatype MotionSettings = MotionSettings(blending: int)

  /** `jnt(...)` and `Linear(...)`. */
  datatype Action = JointMove(joints: seq<real>) | Linear(target: PoseValue, settings: MotionSettings)

  /** The result of `plan`: no trajectory, or an opaque one. */
  datatype Trajectory = Trajectory(id: string)

  /** What the controller and motion group would answer, as `move_robot` asks. */
  datatype Cell = Cell(
    controllerCount: nat,
    activatedMotionGroupCount: nat,
    tcpNames: seq<string>,
    joints: seq<real>,
    tcpPose: PoseValue,
    plan: Option<Trajectory>)

  /** The calls `move_robot` makes, in order. */
  datatype Step =
    | CreateNova
    | ListControllers
    | ListActivatedMotionGroups
    | EnterMotionGroup
    | ListTcpNames
    | ReadJoints
    | ReadTcpPose(tcp: string)
    | Plan(actions: seq<Action>, tcp: string)
    | Execute(trajectory: Trajectory, tcp: string, actions: seq<Action>)
    | ExitMotionGroup

  datatype Response = Response(outcome: Outcome, trace: seq<Step>)

  /** The four offsets, each applied to the start pose: +x, +y, -x, -y. */
  function CornerOffsets(offsetMm: int): (r: seq<Offset6>)
    ensures |r| == 4
    // each offset is a pure translation in the x-y plane along one axis
    ensures forall i :: 0 <= i < 4 ==> r[i].z == 0 && r[i].rx == 0 && r[i].ry == 0 && r[i].rz == 0
    ensures r[0].x == offsetMm && r[1].y == offsetMm && r[2].x == -offsetMm && r[3].y == -offsetMm
    ensures r[0].y == 0 && r[1].x == 0 && r[2].y == 0 && r[3].x == 0
  {
    [Offset6(offsetMm, 0, 0, 0, 0, 0), Offset6(0, offsetMm, 0, 0, 0, 0),
     Offset6(-offsetMm, 0, 0, 0, 0, 0), Offset6(0, -offsetMm, 0, 0, 0, 0)]
  }

  /**
   * `calculate_points`: the start pose, the start composed with each of the
   * four offsets (never with the previous point), and the start again.
   */
  function CalculatePoints(initial: PoseValue, offsetMm: int, compose: Compose): (r: seq<PoseValue>)
    ensures |r| == 6 && r[0] == initial && r[5] == initial
    ensures forall i :: 0 <= i < 4 ==> r[i + 1] == compose(initial, CornerOffsets(offsetMm)[i])
  {
    [initial,
     compose(initial, Offset6(offsetMm, 0, 0, 0, 0, 0)),
     compose(initial, Offset6(0, offsetMm, 0, 0, 0, 0)),
     compose(initial, Offset6(-offsetMm, 0, 0, 0, 0, 0)),
     compose(initial, Offset6(0, -offsetMm, 0, 0, 0, 0)),
     initial]
  }

  /**
   * The `actions` list: joint move to the start joints, one linear move with
   * blending 10 per pose in order, joint move to the start joints.
   */
  function Actions(joints: seq<real>, poses: seq<PoseValue>): (r: seq<Action>)
    ensures |r| == |poses| + 2
    ensures r[0] == JointMove(joints) && r[|r| - 1] == JointMove(joints)
    ensures forall i :: 0 <= i < |poses| ==> r[i + 1] == Linear(poses[i], MotionSettings(Blending))
  {
    [JointMove(joints)]
    + seq(|poses|, i requires 0 <= i < |poses| => Linear(poses[i], MotionSettings(Blending)))
    + [JointMove(joints)]
  }

  /**
   * `move_robot`, with the cell's answers as parameters. Indexing an empty
   * controller or TCP list raises, which ends the request with a 500; the
   * `async with` block leaves the motion group on every path out of it.
   */
  function MoveRobot(offsetMm: int, cell: Cell, compose: Compose): (r: Response)
    // the offset is checked before any Nova object exists
    ensures !OffsetInRange(offsetMm) ==> r == Response(HttpError(400, OffsetDetail), [])
    // the motion-group count is checked before a motion group is entered
    ensures OffsetInRange(offsetMm) && cell.controllerCount > 0 && cell.activatedMotionGroupCount != 1 ==>
      r == Response(HttpError(400, MotionGroupDetail), [CreateNova, ListControllers, ListActivatedMotionGroups])
    // an empty controller list stops the request before any motion group is listed
    ensures OffsetInRange(offsetMm) && cell.controllerCount == 0 ==>
      r == Response(InternalError, [CreateNova, ListControllers])
    // an empty TCP list stops the request inside the motion group, which is left again
    ensures (OffsetInRange(offsetMm) && cell.controllerCount > 0 && cell.activatedMotionGroupCount == 1
             && |cell.tcpNames| == 0)
            ==> r == Response(InternalError, [CreateNova, ListControllers, ListActivatedMotionGroups,
                                              EnterMotionGroup, ListTcpNames, ExitMotionGroup])
    // no plan: 500 after reading the start and planning, then the motion group is left
    ensures (OffsetInRange(offsetMm) && cell.controllerCount > 0 && cell.activatedMotionGroupCount == 1
             && |cell.tcpNames| > 0 && cell.plan.None?)
            ==> (var t := cell.tcpNames[0];
                 var a := Actions(cell.joints, CalculatePoints(cell.tcpPose, offsetMm, compose));
                 r == Response(HttpError(500, PlanningFailedDetail),
                               [CreateNova, ListControllers, ListActivatedMotionGroups, EnterMotionGroup,
                                ListTcpNames, ReadJoints, ReadTcpPose(t), Plan(a, t), ExitMotionGroup]))
    // success: the start is read, the rectangle planned and executed, in that order
    ensures r.outcome == Created ==>
      && |cell.tcpNames| > 0 && cell.plan.Some?
      && (var t := cell.tcpNames[0];
          var a := Actions(cell.joints, CalculatePoints(cell.tcpPose, offsetMm, compose));
          r.trace == [CreateNova, ListControllers, ListActivatedMotionGroups, EnterMotionGroup, ListTcpNames,
                      ReadJoints, ReadTcpPose(t), Plan(a, t), Execute(cell.plan.value, t, a), ExitMotionGroup])
    ensures r.outcome == Created <==>
      OffsetInRange(offsetMm) && cell.controllerCount > 0 && cell.activatedMotionGroupCount == 1
      && |cell.tcpNames| > 0 && cell.plan.Some?
  {
    if offsetMm < 0 || offsetMm > MaxOffset then
      Response(HttpError(400, OffsetDetail), [])
    else if cell.controllerCount == 0 then
      Response(InternalError, [CreateNova, ListControllers])
    else if cell.activatedMotionGroupCount != 1 then
      Response(HttpError(400, MotionGroupDetail), [CreateNova, ListControllers, ListActivatedMotionGroups])
    else
      var entered := [CreateNova, ListControllers, ListActivatedMotionGroups, EnterMotionGroup, ListTcpNames];
      if |cell.tcpNames| == 0 then
        Response(InternalError, entered + [ExitMotionGroup])
      else
        var tcp := cell.tcpNames[0];
        var poses := CalculatePoints(cell.tcpPose, offsetMm, compose);
        var actions := Actions(cell.joints, poses);
        var planned := entered + [ReadJoints, ReadTcpPose(tcp), Plan(actions, tcp)];
        if cell.plan.None? then
          Response(HttpError(500, PlanningFailedDetail), planned + [ExitMotionGroup])
        else
          Response(Created, planned + [Execute(cell.plan.value, tcp, actions), ExitMotionGroup])
  }

  /**
   * Over every path of `move_robot`: nothing is executed without a plan, an
   * entered motion group is left as the last step, and whatever is planned
   * or executed is the eight-action rectangle with the first TCP.
   */
  lemma MoveRobotSteps(offsetMm: int, cell: Cell, compose: Compose)
    ensures var r := MoveRobot(offsetMm, cell, compose);
      && (cell.plan.None? ==> forall s :: s in r.trace ==> !s.Execute?)
      && (EnterMotionGroup in r.trace ==> r.trace[|r.trace| - 1] == ExitMotionGroup)
      && (forall s :: s in r.trace && (s.Plan? || s.Execute?) ==>
            |cell.tcpNames| > 0 && s.tcp == cell.tcpNames[0]
            && s.actions == Actions(cell.joints, CalculatePoints(cell.tcpPose, offsetMm, compose)))
  {
    var r := MoveRobot(offsetMm, cell, compose);
    if OffsetInRange(offsetMm) && cell.controllerCount > 0 && cell.activatedMotionGroupCount == 1
       && |cell.tcpNames| > 0 {
      var t := cell.tcpNames[0];
      var a := Actions(cell.joints, CalculatePoints(cell.tcpPose, offsetMm, compose));
      var planned := [CreateNova, ListControllers, ListActivatedMotionGroups, EnterMotionGroup, ListTcpNames,
                      ReadJoints, ReadTcpPose(t), Plan(a, t)];
      if cell.plan.None? {
        assert r.trace == planned + [ExitMotionGroup];
      } else {
        assert r.trace == planned + [Execute(cell.plan.value, t, a), ExitMotionGroup];
      }
    }
  }

  /** The action list of a request: eight actions, joint moves at both ends. */
  lemma ActionListShape(joints: seq<real>, initial: PoseValue, offsetMm: int, compose: Compose)
    ensures var a := Actions(joints, CalculatePoints(initial, offsetMm, compose));
      && |a| == 8
      && a[0] == JointMove(joints) && a[7] == JointMove(joints)
      && a[1] == Linear(initial, MotionSettings(Blending)) && a[6] == Linear(initial, MotionSettings(Blending))
      && forall i :: 1 <= i <= 6 ==> a[i].Linear? && a[i].settings.blending == Blending
  {
  }

  /**
   * `@` read as a pure translation: the offset's x, y and z are added to the
   * position, and the orientation and the rotation part of the offset are
   * ignored. That is what `@` does for a pose with identity orientation when
   * the offset has no rotation, as every corner offset has.
   */
  function Translate(p: PoseValue, d: Offset6): PoseValue {
    p.(position := Vector3(p.position.x + d.x as real, p.position.y + d.y as real, p.position.z + d.z as real))
  }

  /**
   * Read as translations, the corners are the start moved by +x, +y, -x and
   * -y: a square turned 45 degrees around the start, not the axis-aligned
   * square of the plan-motion variant, with which it shares only the first
   * two and the last waypoint when the offset is not zero.
   */
  lemma CornersAroundStart(p: PoseValue, offsetMm: int)
    ensures var pts := CalculatePoints(p, offsetMm, Translate);
      var o := offsetMm as real;
      && pts[1] == Shifted(p, o, 0.0) && pts[2] == Shifted(p, 0.0, o)
      && pts[3] == Shifted(p, -o, 0.0) && pts[4] == Shifted(p, 0.0, -o)
    ensures var pts := CalculatePoints(p, offsetMm, Translate);
      var rect := PlanMotionApp.Rectangle(p, offsetMm as real);
      && pts[0] == rect[0] && pts[1] == rect[1] && pts[5] == rect[5]
      && (offsetMm != 0 ==> pts[2] != rect[2] && pts[3] != rect[3] && pts[4] != rect[4])
  {
  }
}
