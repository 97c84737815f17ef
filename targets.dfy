/**
 * Robot targets and the motion settings they carry. A target compiles
 * itself, once, into one line of robot code: an ABB RAPID move instruction
 * or a KUKA KRL motion, from a Cartesian plane, or a RAPID absolute-joint
 * move from six joint values. Number formatting, rounding and the plane and
 * quaternion geometry belong to the host and are parameters of the model.
 */
module Targets {
  import opened Common

  /** How the robot moves to a target. */
  datatype MotionType = Linear | Joint | AbsoluteJoint | NoMovement

  datatype Point3d = Point3d(x: real, y: real, z: real)

  /** A plane: its origin and two axis directions. */
  datatype Plane = Plane(origin: Point3d, xAxis: Point3d, yAxis: Point3d)

  /** A rotation as the quaternion A + Bi + Cj + Dk. */
  datatype Quaternion = Quaternion(a: real, b: real, c: real, d: real)

  const Zero: Point3d := Point3d(0.0, 0.0, 0.0)

  /** The world XY plane. */
  const WorldXY: Plane := Plane(Zero, Point3d(1.0, 0.0, 0.0), Point3d(0.0, 1.0, 0.0))

  /** The plane and quaternion a target holds when its constructor does not set them. */
  const UnsetPlane: Plane := Plane(Zero, Zero, Zero)
  const UnsetQuaternion: Quaternion := Quaternion(0.0, 0.0, 0.0, 0.0)

  /** The numerics and geometry the host provides. */
  datatype Host = Host(
    /** `Math.Round(value, digits)`. */
    round: (real, nat) -> real,
    /** `double.ToString()`. */
    show: real -> string,
    /** The "0.0" format. */
    showFixed: real -> string,
    /** The quaternion of a plane's orientation. */
    quaternionFromPlane: Plane -> Quaternion,
    /** Euler angles, in radians, of a quaternion. */
    quaternionToEuler: Quaternion -> (real, real, real),
    /** A plane mapped by the transform that takes `from` onto the world XY plane: `(from, plane)`. */
    toWorldXY: (Plane, Plane) -> Plane)

  /** The external axis value that means "no external axis". */
  const ExAxisTol: real := 0.00001

  /** The RAPID value of an external axis that is not in use. */
  const AxisUnused: string := "9E9"

  // ---- motion settings ----

  /** A speed setting. */
  class Speed {
    var name: NString
    var translationSpeed: real
    var rotationSpeed: real
    var time: real

    constructor (tcpSpeed: real := 100.0, rotSpeed: real := 30.0, name: NString := None, time: real := 0.0)
      ensures this.name == name && translationSpeed == tcpSpeed && rotationSpeed == rotSpeed && this.time == time
    {
      this.name := name;
      translationSpeed := tcpSpeed;
      rotationSpeed := rotSpeed;
      this.time := time;
    }

    /** The default speed: 100 mm/s, 30 degrees/s, no time. */
    constructor Default()
      ensures name == Some("DefaultSpeed") && translationSpeed == 100.0 && rotationSpeed == 30.0 && time == 0.0
    {
      name := Some("DefaultSpeed");
      translationSpeed, rotationSpeed, time := 100.0, 30.0, 0.0;
    }

    /** The display text: the name, or the translation speed in mm/s when there is none. */
    function ToString(host: Host): (s: string)
      reads this
      ensures "Speed (" <= s && s[|s| - 1] == ')'
      ensures name.Some? ==> s[|"Speed ("|..|s| - 1] == name.value
      ensures name.None? ==> s[|"Speed ("|..|s| - 1] == host.showFixed(translationSpeed) + " mm/s"
    {
      if name.Some? then "Speed (" + name.value + ")"
      else "Speed (" + host.showFixed(translationSpeed) + " mm/s)"
    }
  }

  /** A zone (blending) setting. */
  class Zone {
    var name: NString
    var pathRadius: real
    var pathOrient: real
    var pathExternal: real
    var orientation: real
    var linearExternal: real
    var rotaryExternal: real
    var stopPoint: bool

    constructor (stop: bool, pathRadius: real, pathOrient: real, pathExternal: real, orientation: real,
                 linExternal: real, rotExternal: real, name: NString)
      ensures stopPoint == stop && this.pathRadius == pathRadius && this.pathOrient == pathOrient
      ensures this.pathExternal == pathExternal && this.orientation == orientation
      ensures linearExternal == linExternal && rotaryExternal == rotExternal && this.name == name
    {
      this.name := name;
      this.pathRadius := pathRadius;
      this.pathOrient := pathOrient;
      this.pathExternal := pathExternal;
      this.orientation := orientation;
      linearExternal := linExternal;
      rotaryExternal := rotExternal;
      stopPoint := stop;
    }

    /** The default zone: a fly-by point with radius 5 mm. */
    constructor Default()
      ensures !stopPoint && pathRadius == 5.0 && pathOrient == 25.0 && pathExternal == 25.0
      ensures orientation == 15.0 && linearExternal == 35.0 && rotaryExternal == 5.0
      ensures name == Some("DefaultZone")
    {
      name := Some("DefaultZone");
      pathRadius, pathOrient, pathExternal := 5.0, 25.0, 25.0;
      orientation, linearExternal, rotaryExternal := 15.0, 35.0, 5.0;
      stopPoint := false;
    }

    /** The display text: the name, or the path radius in mm when there is none. */
    function ToString(host: Host): (s: string)
      reads this
      ensures "Zone (" <= s && s[|s| - 1] == ')'
      ensures name.Some? ==> s[|"Zone ("|..|s| - 1] == name.value
      ensures name.None? ==> s[|"Zone ("|..|s| - 1] == host.showFixed(pathRadius) + " mm"
    {
      if name.Some? then "Zone (" + name.value + ")"
      else "Zone (" + host.showFixed(pathRadius) + " mm)"
    }
  }

  /** A coordinate system (work object). */
  class CSystem {
    var name: NString
    var csPlane: Plane

    constructor (name: NString, csPlane: Plane)
      ensures this.name == name && this.csPlane == csPlane
    {
      this.name := name;
      this.csPlane := csPlane;
    }

    /** The default coordinate system: the world XY plane. */
    constructor Default()
      ensures name == Some("Default") && csPlane == WorldXY
    {
      name := Some("Default");
      csPlane := WorldXY;
    }
  }

  /** The tool a target is reached with; only its name enters the code. */
  class Tool {
    var name: NString

    constructor (name: NString)
      ensures this.name == name
    {
      this.name := name;
    }
  }

  // ---- the text of a target ----

  /**
   * The speed argument: with a positive time, the speed's name (empty when
   * null) followed by the time argument; otherwise the name itself, which
   * may be null.
   */
  function SpeedText(name: NString, time: real, host: Host): (s: NString)
    ensures s.None? <==> time <= 0.0 && name.None?
    ensures time <= 0.0 ==> s == name
    ensures time > 0.0 ==> Text(name) <= s.value && EndsWith(s.value, "\\T:=" + host.show(time))
    ensures time > 0.0 ==> |s.value| == |Text(name)| + 4 + |host.show(time)|
  {
    if time > 0.0 then
      AppendEndsWith(Text(name), "\\T:=" + host.show(time));
      Some(Text(name) + ("\\T:=" + host.show(time)))
    else name
  }

  /** One external axis value, rounded, or the unused marker when it equals the tolerance. */
  function AxisValue(value: real, digits: nat, host: Host): string {
    if value != ExAxisTol then host.show(host.round(value, digits)) else AxisUnused
  }

  /**
   * An external axis value reads "9E9" exactly when it equals the
   * tolerance, provided the host never formats a rounded value as "9E9".
   */
  lemma AxisValueMarksTolerance(value: real, digits: nat, host: Host)
    requires host.show(host.round(value, digits)) != AxisUnused
    ensures AxisValue(value, digits, host) == AxisUnused <==> value == ExAxisTol
  {
  }

  /** The external axis data: rotary axis to two places, linear axis to four, the rest unused. */
  function ExternalAxes(extRot: real, extLin: real, host: Host): string {
    "[" + AxisValue(extRot, 2, host) + ", " + AxisValue(extLin, 4, host) + ", 9E9, 9E9, 9E9, 9E9]"
  }

  /** Both external axis values are the "none" value. */
  predicate NoExternalAxes(extRot: real, extLin: real) {
    extRot == ExAxisTol && extLin == ExAxisTol
  }

  /** The RAPID instruction name of a Cartesian move; null for the other motion types. */
  function AbbMovement(motion: MotionType): NString {
    match motion
    case Linear => Some("MoveL")
    case Joint => Some("MoveJ")
    case _ => None
  }

  /** The KRL motion and approximation keywords of a Cartesian move. */
  function KukaMovement(motion: MotionType): (NString, string) {
    match motion
    case Linear => (Some("LIN"), "C_VEL")
    case Joint => (Some("PTP"), "C_PTP")
    case _ => (None, "")
  }

  /** The name of a Cartesian target's motion type; unset for the other motion types. */
  function MethodName(motion: MotionType): NString {
    match motion
    case Linear => Some("Linear")
    case Joint => Some("Joint")
    case _ => None
  }

  /** A position in millimetres, each coordinate rounded to three places. */
  function AbbPosition(p: Point3d, host: Host): string {
    host.show(host.round(p.x, 3)) + ", " + host.show(host.round(p.y, 3)) + ", " + host.show(host.round(p.z, 3))
  }

  /** A quaternion, each component rounded to six places. */
  function AbbQuaternion(q: Quaternion, host: Host): string {
    host.show(host.round(q.a, 6)) + ", " + host.show(host.round(q.b, 6)) + ", "
    + host.show(host.round(q.c, 6)) + ", " + host.show(host.round(q.d, 6))
  }

  /** The work object argument of a RAPID move. */
  function WorkObjectArgument(wobj: NString): string {
    "\\Wobj:=" + Text(wobj)
  }

  /** The last arguments of a Cartesian RAPID move: the tool and the work object. */
  function ToolAndWorkObject(tool: NString, wobj: NString): string {
    Text(tool) + " " + WorkObjectArgument(wobj) + ";"
  }

  /**
   * The external axis field of a Cartesian RAPID move: `eAxis`, the RAPID
   * variable, exactly when both values are the "none" value.
   */
  function AbbAxisField(extRot: real, extLin: real, host: Host): (s: string)
    ensures s == "eAxis" <==> NoExternalAxes(extRot, extLin)
    ensures !NoExternalAxes(extRot, extLin) ==> s == ExternalAxes(extRot, extLin, host)
  {
    if NoExternalAxes(extRot, extLin) then "eAxis"
    else
      var axes := ExternalAxes(extRot, extLin, host);
      assert axes[0] == '[';
      axes
  }

  /**
   * A Cartesian RAPID move: robot target (position, orientation, the
   * configuration variable and the external axes), speed, zone, tool and
   * work object.
   */
  function AbbTarget(movement: NString, position: string, quaternion: string, extRot: real, extLin: real,
                     speed: NString, zone: NString, tool: NString, wobj: NString, host: Host): (s: string)
    ensures Text(movement) + " [[" <= s
    ensures EndsWith(s, ToolAndWorkObject(tool, wobj))
  {
    var head := Text(movement) + " [[";
    var target := position + "],[" + quaternion + "]," + " cData, " + AbbAxisField(extRot, extLin, host) + "], ";
    var arguments := Text(speed) + ", " + Text(zone) + ", ";
    var tail := ToolAndWorkObject(tool, wobj);
    PrefixAppend(head, head, target + arguments);
    PrefixAppend(head, head + (target + arguments), tail);
    AppendEndsWith(head + (target + arguments), tail);
    head + (target + arguments) + tail
  }

  /** The external axes of a KRL motion, all at zero. */
  const KukaAxes: string := "E1 0, E2 0, E3 0, E4 0"

  /** An angle in radians as degrees, rounded to three places. */
  function Degrees(radians: real, host: Host): real {
    host.round(radians * 180.0 / Pi, 3)
  }

  /** A KRL E6POS motion; the orientation is given in degrees, rounded to three places. */
  function KukaTarget(motion: MotionType, position: Point3d, euler: (real, real, real), host: Host): (s: string)
    ensures Text(KukaMovement(motion).0) + " {E6POS: " <= s
    ensures EndsWith(s, ", " + KukaAxes + "} " + KukaMovement(motion).1)
  {
    var (movement, approx) := KukaMovement(motion);
    var kukaPosition := "X " + host.show(host.round(position.x, 3)) + ", Y " + host.show(host.round(position.y, 3))
                        + ", Z " + host.show(host.round(position.z, 3));
    var e1 := Degrees(euler.0, host);
    var e2 := Degrees(euler.1, host);
    var e3 := Degrees(euler.2, host);
    var strEuler := "A " + host.show(e3) + ", B " + host.show(e2) + ", C " + host.show(e1);
    var head := Text(movement) + " {E6POS: ";
    var tail := ", " + KukaAxes + "} " + approx;
    PrefixAppend(head, head, kukaPosition + ", " + strEuler);
    PrefixAppend(head, head + (kukaPosition + ", " + strEuler), tail);
    AppendEndsWith(head + (kukaPosition + ", " + strEuler), tail);
    head + (kukaPosition + ", " + strEuler) + tail
  }

  /** What a Cartesian target computes: its position in the work object, its code and its motion name. */
  datatype CartesianCode = CartesianCode(position: Point3d, strABB: NString, strKUKA: NString, strMethod: NString)

  /**
   * The code of a Cartesian target. The target plane is first expressed in
   * the work object's coordinate system; `robot` selects KUKA over ABB.
   */
  function CompileCartesian(target: Plane, motion: MotionType, speedName: NString, speedTime: real,
                            zoneName: NString, toolName: NString, wobjName: NString, wobjPlane: Plane,
                            extRot: real, extLin: real, robot: bool, host: Host): (c: CartesianCode)
    ensures c.position == host.toWorldXY(wobjPlane, target).origin
    ensures c.strABB.Some? <==> !robot
    ensures c.strKUKA.Some? <==> robot
    ensures c.strMethod.Some? <==> motion == Linear || motion == Joint
    ensures motion == Linear ==> c.strMethod == Some("Linear")
    ensures motion == Joint ==> c.strMethod == Some("Joint")
    ensures !robot ==> Text(AbbMovement(motion)) + " [[" <= c.strABB.value
    ensures !robot ==> EndsWith(c.strABB.value, ToolAndWorkObject(toolName, wobjName))
    ensures robot ==> Text(KukaMovement(motion).0) + " {E6POS: " <= c.strKUKA.value
  {
    var plane := host.toWorldXY(wobjPlane, target);
    var quat := host.quaternionFromPlane(plane);
    var position := plane.origin;
    if !robot then
      var strSpeed := SpeedText(speedName, speedTime, host);
      var strABB := AbbTarget(AbbMovement(motion), AbbPosition(position, host), AbbQuaternion(quat, host),
                              extRot, extLin, strSpeed, zoneName, toolName, wobjName, host);
      CartesianCode(position, Some(strABB), None, MethodName(motion))
    else
      CartesianCode(position, None, Some(KukaTarget(motion, position, host.quaternionToEuler(quat), host)),
                    MethodName(motion))
  }

  /**
   * A KUKA target's code does not depend on the speed or the external axes:
   * KRL motions carry neither.
   */
  lemma KukaIgnoresSpeedAndAxes(target: Plane, motion: MotionType, speedName: NString, speedTime: real,
                                speedName': NString, speedTime': real, zoneName: NString, toolName: NString,
                                wobjName: NString, wobjPlane: Plane, extRot: real, extLin: real,
                                extRot': real, extLin': real, host: Host)
    ensures CompileCartesian(target, motion, speedName, speedTime, zoneName, toolName, wobjName, wobjPlane,
                             extRot, extLin, true, host)
            == CompileCartesian(target, motion, speedName', speedTime', zoneName, toolName, wobjName, wobjPlane,
                                extRot', extLin', true, host)
  {
  }

  // ---- joint targets ----

  /** The six joint values of an absolute joint move, unrounded. */
  function JointList(axisVals: seq<real>, host: Host): string
    requires |axisVals| >= 6
  {
    "[" + host.show(axisVals[0]) + ", " + host.show(axisVals[1]) + ", " + host.show(axisVals[2]) + ", "
    + host.show(axisVals[3]) + ", " + host.show(axisVals[4]) + ", " + host.show(axisVals[5]) + "]"
  }

  /**
   * The external axis field of an absolute joint move. Unlike the Cartesian
   * move it is never elided: its "none" form is the general form with every
   * value unused.
   */
  function JointAxisField(extRot: real, extLin: real, host: Host): (s: string)
    ensures s == ExternalAxes(extRot, extLin, host)
  {
    if !NoExternalAxes(extRot, extLin) then
      "[" + AxisValue(extRot, 2, host) + ", " + AxisValue(extLin, 4, host) + ", 9E9, 9E9, 9E9, 9E9]"
    else
      UnusedAxesText();
      "[9E9, 9E9, 9E9, 9E9, 9E9, 9E9]"
  }

  /** The external axis data with no axis in use, spelled out. */
  lemma UnusedAxesText()
    ensures "[" + AxisUnused + ", " + AxisUnused + ", 9E9, 9E9, 9E9, 9E9]" == "[9E9, 9E9, 9E9, 9E9, 9E9, 9E9]"
  {
  }

  /** A RAPID absolute joint move, always with tool0. */
  function CompileJoint(axisVals: seq<real>, speedName: NString, speedTime: real, zoneName: NString,
                        extRot: real, extLin: real, host: Host): (s: string)
    requires |axisVals| >= 6
    ensures "MoveAbsJ [" <= s
    ensures EndsWith(s, ", tool0;")
  {
    var strSpeed := SpeedText(speedName, speedTime, host);
    var jTarg := JointList(axisVals, host);
    var body := "MoveAbsJ [" + jTarg + ", " + JointAxisField(extRot, extLin, host) + "], "
                + Text(strSpeed) + ", " + Text(zoneName);
    assert body[..10] == "MoveAbsJ [";
    PrefixAppend("MoveAbsJ [", body, ", tool0;");
    AppendEndsWith(body, ", tool0;");
    body + ", tool0;"
  }

  // ---- reading the code back ----

  /**
   * The host formats every number as one list item: .NET number texts hold
   * no ", " and do not end with a comma.
   */
  ghost predicate NumbersAreItems(host: Host) {
    forall v :: Item(host.show(v))
  }

  /** One number's text is a list item. */
  lemma NumberItem(host: Host, v: real)
    requires NumbersAreItems(host)
    ensures Item(host.show(v))
  {
  }

  /** Four items joined. */
  lemma Join4(a: string, b: string, c: string, d: string)
    ensures Join([a, b, c, d]) == a + ", " + b + ", " + c + ", " + d
  {
    Join3(a, b, c);
    JoinAppend([a, b, c], [d]);
    assert [a, b, c] + [d] == [a, b, c, d];
  }

  /** Three labelled values joined. */
  lemma Labelled3(l1: string, l2: string, l3: string, a: string, b: string, c: string)
    ensures l1 + a + (", " + l2) + b + (", " + l3) + c == Join([l1 + a, l2 + b, l3 + c])
  {
    Join3(l1 + a, l2 + b, l3 + c);
  }

  /** The KRL external axes as a list. */
  lemma KukaAxesText()
    ensures KukaAxes == Join(["E1 0", "E2 0", "E3 0", "E4 0"])
  {
    Join4("E1 0", "E2 0", "E3 0", "E4 0");
  }

  /** Position, orientation and external axes of a KRL motion as one list. */
  lemma KukaListText(x: string, y: string, z: string, a: string, b: string, c: string)
    ensures ("X " + x + ", Y " + y + ", Z " + z) + ", " + ("A " + a + ", B " + b + ", C " + c) + ", " + KukaAxes
            == Join(["X " + x, "Y " + y, "Z " + z, "A " + a, "B " + b, "C " + c, "E1 0", "E2 0", "E3 0", "E4 0"])
  {
    var pos, euler, axes := ["X " + x, "Y " + y, "Z " + z], ["A " + a, "B " + b, "C " + c],
                            ["E1 0", "E2 0", "E3 0", "E4 0"];
    assert ", Y " == ", " + "Y " && ", Z " == ", " + "Z ";
    Labelled3("X ", "Y ", "Z ", x, y, z);
    assert ", B " == ", " + "B " && ", C " == ", " + "C ";
    Labelled3("A ", "B ", "C ", a, b, c);
    KukaAxesText();
    JoinAppend(pos, euler);
    JoinAppend(pos + euler, axes);
    assert pos + euler + axes
           == ["X " + x, "Y " + y, "Z " + z, "A " + a, "B " + b, "C " + c, "E1 0", "E2 0", "E3 0", "E4 0"];
  }

  /** The items of a KRL motion are list items when the numbers are. */
  lemma KukaItems(x: string, y: string, z: string, a: string, b: string, c: string)
    requires Item(x) && Item(y) && Item(z) && Item(a) && Item(b) && Item(c)
    ensures Items(["X " + x, "Y " + y, "Z " + z, "A " + a, "B " + b, "C " + c, "E1 0", "E2 0", "E3 0", "E4 0"])
  {
    ItemAppend("X ", x);
    ItemAppend("Y ", y);
    ItemAppend("Z ", z);
    ItemAppend("A ", a);
    ItemAppend("B ", b);
    ItemAppend("C ", c);
    assert Item("E1 0") && Item("E2 0") && Item("E3 0") && Item("E4 0");
  }

  /**
   * The items of a KRL motion between `{E6POS: ` and the closing brace, as
   * a reader takes them apart at ", ": X, Y and Z rounded to three places,
   * then A, B and C in degrees taken from the third, second and first Euler
   * angle, then the four external axes at zero.
   */
  function KukaFields(position: Point3d, euler: (real, real, real), host: Host): seq<string> {
    ["X " + host.show(host.round(position.x, 3)), "Y " + host.show(host.round(position.y, 3)),
     "Z " + host.show(host.round(position.z, 3)), "A " + host.show(Degrees(euler.2, host)),
     "B " + host.show(Degrees(euler.1, host)), "C " + host.show(Degrees(euler.0, host)),
     "E1 0", "E2 0", "E3 0", "E4 0"]
  }

  /** A KRL motion is its opening, the list of its items and its closing. */
  lemma KukaTargetText(motion: MotionType, position: Point3d, euler: (real, real, real), host: Host)
    ensures KukaTarget(motion, position, euler, host)
            == Text(KukaMovement(motion).0) + " {E6POS: " + Join(KukaFields(position, euler, host))
               + ("} " + KukaMovement(motion).1)
  {
    var x, y, z := host.show(host.round(position.x, 3)), host.show(host.round(position.y, 3)),
                   host.show(host.round(position.z, 3));
    var a, b, c := host.show(Degrees(euler.2, host)), host.show(Degrees(euler.1, host)),
                   host.show(Degrees(euler.0, host));
    var kukaPosition, strEuler := "X " + x + ", Y " + y + ", Z " + z, "A " + a + ", B " + b + ", C " + c;
    KukaListText(x, y, z, a, b, c);
    RegroupMiddle(Text(KukaMovement(motion).0) + " {E6POS: ", kukaPosition + ", " + strEuler,
                  ", " + KukaAxes, "} " + KukaMovement(motion).1);
  }

  /** A KRL motion read back: between `{E6POS: ` and the closing brace lie the items of `KukaFields`. */
  lemma KukaTargetFields(motion: MotionType, position: Point3d, euler: (real, real, real), host: Host)
    requires NumbersAreItems(host)
    ensures Framed(KukaTarget(motion, position, euler, host), Text(KukaMovement(motion).0) + " {E6POS: ",
                   "} " + KukaMovement(motion).1, KukaFields(position, euler, host))
  {
    NumberItem(host, host.round(position.x, 3));
    NumberItem(host, host.round(position.y, 3));
    NumberItem(host, host.round(position.z, 3));
    NumberItem(host, Degrees(euler.2, host));
    NumberItem(host, Degrees(euler.1, host));
    NumberItem(host, Degrees(euler.0, host));
    KukaItems(host.show(host.round(position.x, 3)), host.show(host.round(position.y, 3)),
              host.show(host.round(position.z, 3)), host.show(Degrees(euler.2, host)),
              host.show(Degrees(euler.1, host)), host.show(Degrees(euler.0, host)));
    KukaTargetText(motion, position, euler, host);
    FramedJoin(Text(KukaMovement(motion).0) + " {E6POS: ", KukaFields(position, euler, host),
               "} " + KukaMovement(motion).1);
  }

  /** The unused external axes as a list. */
  lemma UnusedAxesList()
    ensures ", 9E9, 9E9, 9E9, 9E9]" == ", " + Join(["9E9", "9E9", "9E9", "9E9]"])
  {
    Join4("9E9", "9E9", "9E9", "9E9]");
  }

  /** The external axis data as a list. */
  lemma ExternalAxesText(r: string, l: string)
    ensures "[" + r + ", " + l + ", 9E9, 9E9, 9E9, 9E9]" == Join(["[" + r, l, "9E9", "9E9", "9E9", "9E9]"])
  {
    var unused := ["9E9", "9E9", "9E9", "9E9]"];
    UnusedAxesList();
    JoinAppend(["[" + r, l], unused);
    assert ["[" + r, l][1..] == [l];
    assert ["[" + r, l] + unused == ["[" + r, l, "9E9", "9E9", "9E9", "9E9]"];
  }

  /** The robot target of a Cartesian RAPID move as a list: position, orientation, configuration. */
  lemma AbbRobTargetText(x: string, y: string, z: string, w: string, qx: string, qy: string, qz: string)
    ensures (x + ", " + y + ", " + z) + "],[" + (w + ", " + qx + ", " + qy + ", " + qz) + "]," + " cData, "
            == Join([x, y, z + "],[" + w, qx, qy, qz + "]", "cData"]) + ", "
  {
    Join3(x, y, z);
    Join4(w, qx, qy, qz);
    JoinAppendText([x, y, z], "],[");
    assert [x, y, z][..2] + [[x, y, z][2] + "],["] == [x, y, z + "],["];
    JoinFuse([x, y, z + "],["], [w, qx, qy, qz]);
    assert [x, y, z + "],["][..2] + [[x, y, z + "],["][2] + w] + [qx, qy, qz] == [x, y, z + "],[" + w, qx, qy, qz];
    JoinAppendText([x, y, z + "],[" + w, qx, qy, qz], "]");
    assert [x, y, z + "],[" + w, qx, qy, qz][..5] + [qz + "]"] == [x, y, z + "],[" + w, qx, qy, qz + "]"];
    JoinAppend([x, y, z + "],[" + w, qx, qy, qz + "]"], ["cData"]);
    assert [x, y, z + "],[" + w, qx, qy, qz + "]"] + ["cData"] == [x, y, z + "],[" + w, qx, qy, qz + "]", "cData"];
    assert "]," + " cData, " == "]" + ", " + "cData" + ", ";
  }

  /** The speed, zone, tool and work object arguments of a Cartesian RAPID move as a list. */
  lemma AbbArgumentsText(sp: string, zn: string, tl: string, wb: string)
    ensures "], " + (sp + ", " + zn + ", ") + (tl + " " + ("\\Wobj:=" + wb))
            == "]" + ", " + Join([sp, zn, tl + " \\Wobj:=" + wb])
  {
    Join3(sp, zn, tl + " \\Wobj:=" + wb);
    assert "], " == "]" + ", ";
    assert " " + "\\Wobj:=" == " \\Wobj:=";
  }

  /** A Cartesian RAPID move, from its position to its work object, as one list. */
  lemma AbbListText(x: string, y: string, z: string, w: string, qx: string, qy: string, qz: string,
                    axes: seq<string>, sp: string, zn: string, tl: string, wb: string)
    requires |axes| > 0
    ensures (x + ", " + y + ", " + z) + "],[" + (w + ", " + qx + ", " + qy + ", " + qz) + "]," + " cData, "
            + Join(axes) + "], " + (sp + ", " + zn + ", ") + (tl + " " + ("\\Wobj:=" + wb))
            == Join([x, y, z + "],[" + w, qx, qy, qz + "]", "cData"] + (axes[..|axes| - 1] + [axes[|axes| - 1] + "]"])
                    + [sp, zn, tl + " \\Wobj:=" + wb])
  {
    var front := [x, y, z + "],[" + w, qx, qy, qz + "]", "cData"];
    var closed := axes[..|axes| - 1] + [axes[|axes| - 1] + "]"];
    var arguments := [sp, zn, tl + " \\Wobj:=" + wb];
    var target := (x + ", " + y + ", " + z) + "],[" + (w + ", " + qx + ", " + qy + ", " + qz) + "]," + " cData, ";
    var rest := "], " + (sp + ", " + zn + ", ") + (tl + " " + ("\\Wobj:=" + wb));
    AbbRobTargetText(x, y, z, w, qx, qy, qz);
    AbbArgumentsText(sp, zn, tl, wb);
    JoinAppendText(axes, "]");
    JoinAppend(front, closed);
    JoinAppend(front + closed, arguments);
    RegroupLast(target + Join(axes), "], ", sp + ", " + zn + ", ", tl + " " + ("\\Wobj:=" + wb));
    RegroupAround(Join(front), ", ", Join(axes), "]", Join(arguments));
  }

  /**
   * The items of a Cartesian RAPID move between `[[` and the closing `;`,
   * as a reader takes them apart at ", ": the position rounded to three
   * places, the quaternion rounded to six, the configuration variable, the
   * external axes (`eAxis`, or the rotary axis to two places and the linear
   * axis to four), the speed, the zone, and the tool with the work object.
   */
  function AbbFields(p: Point3d, q: Quaternion, extRot: real, extLin: real, speed: NString, zone: NString,
                     tool: NString, wobj: NString, host: Host): seq<string>
  {
    [host.show(host.round(p.x, 3)), host.show(host.round(p.y, 3)),
     host.show(host.round(p.z, 3)) + "],[" + host.show(host.round(q.a, 6)),
     host.show(host.round(q.b, 6)), host.show(host.round(q.c, 6)), host.show(host.round(q.d, 6)) + "]", "cData"]
    + (if NoExternalAxes(extRot, extLin) then ["eAxis]"]
       else ["[" + AxisValue(extRot, 2, host), AxisValue(extLin, 4, host), "9E9", "9E9", "9E9", "9E9]]"])
    + [Text(speed), Text(zone), Text(tool) + " \\Wobj:=" + Text(wobj)]
  }

  /** The external axis field of a Cartesian RAPID move as a list. */
  lemma AbbAxisFieldText(extRot: real, extLin: real, host: Host)
    ensures var axes := if NoExternalAxes(extRot, extLin) then ["eAxis"]
                        else ["[" + AxisValue(extRot, 2, host), AxisValue(extLin, 4, host), "9E9", "9E9", "9E9", "9E9]"];
            AbbAxisField(extRot, extLin, host) == Join(axes)
  {
    ExternalAxesText(AxisValue(extRot, 2, host), AxisValue(extLin, 4, host));
  }

  /** A Cartesian RAPID move is its instruction, the list of its items and `;`. */
  lemma AbbTargetText(movement: NString, p: Point3d, q: Quaternion, extRot: real, extLin: real,
                      speed: NString, zone: NString, tool: NString, wobj: NString, host: Host)
    ensures AbbTarget(movement, AbbPosition(p, host), AbbQuaternion(q, host), extRot, extLin, speed, zone, tool, wobj, host)
            == Text(movement) + " [[" + Join(AbbFields(p, q, extRot, extLin, speed, zone, tool, wobj, host)) + ";"
  {
    var axes := if NoExternalAxes(extRot, extLin) then ["eAxis"]
                else ["[" + AxisValue(extRot, 2, host), AxisValue(extLin, 4, host), "9E9", "9E9", "9E9", "9E9]"];
    AbbAxisFieldText(extRot, extLin, host);
    if NoExternalAxes(extRot, extLin) {
      assert "eAxis" + "]" == "eAxis]";
      assert axes[..|axes| - 1] + [axes[|axes| - 1] + "]"] == ["eAxis]"];
    } else {
      assert "9E9]" + "]" == "9E9]]";
      assert axes[..|axes| - 1] + [axes[|axes| - 1] + "]"]
             == ["[" + AxisValue(extRot, 2, host), AxisValue(extLin, 4, host), "9E9", "9E9", "9E9", "9E9]]"];
    }
    AbbListText(host.show(host.round(p.x, 3)), host.show(host.round(p.y, 3)), host.show(host.round(p.z, 3)),
                host.show(host.round(q.a, 6)), host.show(host.round(q.b, 6)), host.show(host.round(q.c, 6)),
                host.show(host.round(q.d, 6)), axes, Text(speed), Text(zone), Text(tool), Text(wobj));
    var position, quaternion := AbbPosition(p, host), AbbQuaternion(q, host);
    RegroupMiddle(Text(movement) + " [[",
                  position + "],[" + quaternion + "]," + " cData, " + AbbAxisField(extRot, extLin, host) + "], "
                  + (Text(speed) + ", " + Text(zone) + ", "),
                  Text(tool) + " " + WorkObjectArgument(wobj), ";");
  }

  /** An external axis value is a list item. */
  lemma AxisValueItem(value: real, digits: nat, host: Host)
    requires NumbersAreItems(host)
    ensures Item(AxisValue(value, digits, host))
  {
    if value != ExAxisTol {
      NumberItem(host, host.round(value, digits));
    } else {
      assert Item("9E9");
    }
  }

  /** The position and orientation items of a Cartesian RAPID move are list items. */
  lemma AbbRobTargetItems(p: Point3d, q: Quaternion, host: Host)
    requires NumbersAreItems(host)
    ensures Item(host.show(host.round(p.x, 3))) && Item(host.show(host.round(p.y, 3)))
    ensures Item(host.show(host.round(p.z, 3)) + "],[" + host.show(host.round(q.a, 6)))
    ensures Item(host.show(host.round(q.b, 6))) && Item(host.show(host.round(q.c, 6)))
    ensures Item(host.show(host.round(q.d, 6)) + "]")
  {
    NumberItem(host, host.round(p.x, 3));
    NumberItem(host, host.round(p.y, 3));
    NumberItem(host, host.round(p.z, 3));
    NumberItem(host, host.round(q.a, 6));
    NumberItem(host, host.round(q.b, 6));
    NumberItem(host, host.round(q.c, 6));
    NumberItem(host, host.round(q.d, 6));
    assert Item("],[") && Item("]");
    ItemAppend(host.show(host.round(p.z, 3)), "],[");
    ItemAppend(host.show(host.round(p.z, 3)) + "],[", host.show(host.round(q.a, 6)));
    ItemAppend(host.show(host.round(q.d, 6)), "]");
  }

  /** The external axis items of a Cartesian RAPID move are list items. */
  lemma AbbAxisItems(extRot: real, extLin: real, host: Host)
    requires NumbersAreItems(host)
    ensures var axes := if NoExternalAxes(extRot, extLin) then ["eAxis]"]
                        else ["[" + AxisValue(extRot, 2, host), AxisValue(extLin, 4, host), "9E9", "9E9", "9E9", "9E9]]"];
            Items(axes)
  {
    assert Item("eAxis]") && Item("9E9") && Item("9E9]]") && Item("[");
    AxisValueItem(extRot, 2, host);
    AxisValueItem(extLin, 4, host);
    ItemAppend("[", AxisValue(extRot, 2, host));
  }

  /** The position, orientation and configuration items of a Cartesian RAPID move are list items. */
  lemma AbbFrontItems(p: Point3d, q: Quaternion, host: Host)
    requires NumbersAreItems(host)
    ensures Items([host.show(host.round(p.x, 3)), host.show(host.round(p.y, 3)),
                   host.show(host.round(p.z, 3)) + "],[" + host.show(host.round(q.a, 6)),
                   host.show(host.round(q.b, 6)), host.show(host.round(q.c, 6)), host.show(host.round(q.d, 6)) + "]",
                   "cData"])
  {
    AbbRobTargetItems(p, q, host);
    assert Item("cData");
  }

  /** The speed, zone, tool and work object items of a Cartesian RAPID move are list items. */
  lemma AbbArgumentItems(speed: NString, zone: NString, tool: NString, wobj: NString)
    requires Item(Text(speed)) && Item(Text(zone)) && Item(Text(tool)) && Item(Text(wobj))
    ensures Items([Text(speed), Text(zone), Text(tool) + " \\Wobj:=" + Text(wobj)])
  {
    assert Item(" \\Wobj:=");
    ItemAppend(Text(tool), " \\Wobj:=");
    ItemAppend(Text(tool) + " \\Wobj:=", Text(wobj));
  }

  /** The items of a Cartesian RAPID move are list items when its numbers and names are. */
  lemma AbbItems(p: Point3d, q: Quaternion, extRot: real, extLin: real, speed: NString, zone: NString,
                 tool: NString, wobj: NString, host: Host)
    requires NumbersAreItems(host)
    requires Item(Text(speed)) && Item(Text(zone)) && Item(Text(tool)) && Item(Text(wobj))
    ensures Items(AbbFields(p, q, extRot, extLin, speed, zone, tool, wobj, host))
  {
    var front := [host.show(host.round(p.x, 3)), host.show(host.round(p.y, 3)),
                  host.show(host.round(p.z, 3)) + "],[" + host.show(host.round(q.a, 6)),
                  host.show(host.round(q.b, 6)), host.show(host.round(q.c, 6)), host.show(host.round(q.d, 6)) + "]",
                  "cData"];
    var axes := if NoExternalAxes(extRot, extLin) then ["eAxis]"]
                else ["[" + AxisValue(extRot, 2, host), AxisValue(extLin, 4, host), "9E9", "9E9", "9E9", "9E9]]"];
    var arguments := [Text(speed), Text(zone), Text(tool) + " \\Wobj:=" + Text(wobj)];
    AbbFrontItems(p, q, host);
    AbbAxisItems(extRot, extLin, host);
    AbbArgumentItems(speed, zone, tool, wobj);
    ItemsAppend(front, axes);
    ItemsAppend(front + axes, arguments);
  }

  /**
   * A Cartesian RAPID move read back: after the instruction and `[[`, and
   * before the closing `;`, lie the items of `AbbFields`, in that order.
   */
  lemma AbbTargetFields(movement: NString, p: Point3d, q: Quaternion, extRot: real, extLin: real,
                        speed: NString, zone: NString, tool: NString, wobj: NString, host: Host)
    requires NumbersAreItems(host)
    requires Item(Text(speed)) && Item(Text(zone)) && Item(Text(tool)) && Item(Text(wobj))
    ensures Framed(AbbTarget(movement, AbbPosition(p, host), AbbQuaternion(q, host), extRot, extLin,
                             speed, zone, tool, wobj, host),
                   Text(movement) + " [[", ";", AbbFields(p, q, extRot, extLin, speed, zone, tool, wobj, host))
  {
    AbbItems(p, q, extRot, extLin, speed, zone, tool, wobj, host);
    AbbTargetText(movement, p, q, extRot, extLin, speed, zone, tool, wobj, host);
    FramedJoin(Text(movement) + " [[", AbbFields(p, q, extRot, extLin, speed, zone, tool, wobj, host), ";");
  }

  /** The joint values of an absolute joint move as a list. */
  lemma JointListText(a: string, b: string, c: string, d: string, e: string, f: string)
    ensures "[" + a + ", " + b + ", " + c + ", " + d + ", " + e + ", " + f + "]"
            == Join(["[" + a, b, c, d, e, f + "]"])
  {
    Join3("[" + a, b, c);
    Join3(d, e, f + "]");
    JoinAppend(["[" + a, b, c], [d, e, f + "]"]);
    assert ["[" + a, b, c] + [d, e, f + "]"] == ["[" + a, b, c, d, e, f + "]"];
  }

  /** The grouping of an absolute joint move's text, with its literals as parameters. */
  lemma JointMoveShape(m: string, j: string, sep: string, a: string, br: string, sp: string, zn: string,
                       t: string, semi: string)
    ensures m + j + sep + a + (br + sep) + sp + sep + zn + (sep + t + semi)
            == m + (j + sep + (a + br) + sep + (sp + sep + zn + sep + t)) + semi
  {
  }

  /** An absolute joint move as its instruction, one list and `;`. */
  lemma JointMoveText(joints: seq<string>, axes: seq<string>, sp: string, zn: string)
    requires |joints| > 0 && |axes| > 0
    ensures "MoveAbsJ [" + Join(joints) + ", " + Join(axes) + "], " + sp + ", " + zn + ", tool0;"
            == "MoveAbsJ [" + Join(joints + (axes[..|axes| - 1] + [axes[|axes| - 1] + "]"]) + [sp, zn, "tool0"]) + ";"
  {
    var closed := axes[..|axes| - 1] + [axes[|axes| - 1] + "]"];
    JoinAppendText(axes, "]");
    Join3(sp, zn, "tool0");
    JoinAppend(joints, closed);
    JoinAppend(joints + closed, [sp, zn, "tool0"]);
    assert "], " == "]" + ", " && ", tool0;" == ", " + "tool0" + ";";
    JointMoveShape("MoveAbsJ [", Join(joints), ", ", Join(axes), "]", sp, zn, "tool0", ";");
  }

  /**
   * The items of an absolute joint move between `MoveAbsJ [` and the
   * closing `;`, as a reader takes them apart at ", ": the first six joint
   * values, unrounded, the external axes (the rotary axis to two places and
   * the linear axis to four, "9E9" when unused), the speed, the zone and
   * `tool0`.
   */
  function JointFields(axisVals: seq<real>, speedName: NString, speedTime: real, zoneName: NString,
                       extRot: real, extLin: real, host: Host): seq<string>
    requires |axisVals| >= 6
  {
    ["[" + host.show(axisVals[0]), host.show(axisVals[1]), host.show(axisVals[2]), host.show(axisVals[3]),
     host.show(axisVals[4]), host.show(axisVals[5]) + "]"]
    + ["[" + AxisValue(extRot, 2, host), AxisValue(extLin, 4, host), "9E9", "9E9", "9E9", "9E9]]"]
    + [Text(SpeedText(speedName, speedTime, host)), Text(zoneName), "tool0"]
  }

  /** An absolute joint move is `MoveAbsJ [`, the list of its items and `;`. */
  lemma CompileJointText(axisVals: seq<real>, speedName: NString, speedTime: real, zoneName: NString,
                         extRot: real, extLin: real, host: Host)
    requires |axisVals| >= 6
    ensures CompileJoint(axisVals, speedName, speedTime, zoneName, extRot, extLin, host)
            == "MoveAbsJ [" + Join(JointFields(axisVals, speedName, speedTime, zoneName, extRot, extLin, host)) + ";"
  {
    var joints := ["[" + host.show(axisVals[0]), host.show(axisVals[1]), host.show(axisVals[2]),
                   host.show(axisVals[3]), host.show(axisVals[4]), host.show(axisVals[5]) + "]"];
    var axes := ["[" + AxisValue(extRot, 2, host), AxisValue(extLin, 4, host), "9E9", "9E9", "9E9", "9E9]"];
    var sp, zn := Text(SpeedText(speedName, speedTime, host)), Text(zoneName);
    JointListText(host.show(axisVals[0]), host.show(axisVals[1]), host.show(axisVals[2]),
                  host.show(axisVals[3]), host.show(axisVals[4]), host.show(axisVals[5]));
    assert JointList(axisVals, host) == Join(joints);
    ExternalAxesText(AxisValue(extRot, 2, host), AxisValue(extLin, 4, host));
    assert JointAxisField(extRot, extLin, host) == Join(axes);
    JointMoveText(joints, axes, sp, zn);
    assert "9E9]" + "]" == "9E9]]";
    assert joints + (axes[..|axes| - 1] + [axes[|axes| - 1] + "]"]) + [sp, zn, "tool0"]
           == JointFields(axisVals, speedName, speedTime, zoneName, extRot, extLin, host);
  }

  /** The speed argument is a list item when the speed's name and the numbers are. */
  lemma SpeedTextItem(name: NString, time: real, host: Host)
    requires NumbersAreItems(host) && Item(Text(name))
    ensures Item(Text(SpeedText(name, time, host)))
  {
    if time > 0.0 {
      NumberItem(host, time);
      assert Item("\\T:=");
      ItemAppend(Text(name), "\\T:=");
      ItemAppend(Text(name) + "\\T:=", host.show(time));
      assert Text(name) + ("\\T:=" + host.show(time)) == Text(name) + "\\T:=" + host.show(time);
    }
  }

  /** The items of an absolute joint move are list items when its numbers and names are. */
  lemma JointItems(axisVals: seq<real>, speedName: NString, speedTime: real, zoneName: NString,
                   extRot: real, extLin: real, host: Host)
    requires |axisVals| >= 6
    requires NumbersAreItems(host) && Item(Text(speedName)) && Item(Text(zoneName))
    ensures Items(JointFields(axisVals, speedName, speedTime, zoneName, extRot, extLin, host))
  {
    var joints := ["[" + host.show(axisVals[0]), host.show(axisVals[1]), host.show(axisVals[2]),
                   host.show(axisVals[3]), host.show(axisVals[4]), host.show(axisVals[5]) + "]"];
    var axes := ["[" + AxisValue(extRot, 2, host), AxisValue(extLin, 4, host), "9E9", "9E9", "9E9", "9E9]]"];
    var arguments := [Text(SpeedText(speedName, speedTime, host)), Text(zoneName), "tool0"];
    JointValueItems(axisVals, host);
    AxisValueItem(extRot, 2, host);
    AxisValueItem(extLin, 4, host);
    assert Item("[") && Item("9E9") && Item("9E9]]");
    ItemAppend("[", AxisValue(extRot, 2, host));
    assert Items(axes);
    SpeedTextItem(speedName, speedTime, host);
    assert Item("tool0");
    assert Items(arguments);
    ItemsAppend(joints, axes);
    ItemsAppend(joints + axes, arguments);
  }

  /** The joint value items of an absolute joint move are list items. */
  lemma JointValueItems(axisVals: seq<real>, host: Host)
    requires |axisVals| >= 6 && NumbersAreItems(host)
    ensures Items(["[" + host.show(axisVals[0]), host.show(axisVals[1]), host.show(axisVals[2]),
                   host.show(axisVals[3]), host.show(axisVals[4]), host.show(axisVals[5]) + "]"])
  {
    NumberItem(host, axisVals[0]);
    NumberItem(host, axisVals[1]);
    NumberItem(host, axisVals[2]);
    NumberItem(host, axisVals[3]);
    NumberItem(host, axisVals[4]);
    NumberItem(host, axisVals[5]);
    assert Item("[") && Item("]");
    ItemAppend("[", host.show(axisVals[0]));
    ItemAppend(host.show(axisVals[5]), "]");
  }

  /**
   * An absolute joint move read back: between `MoveAbsJ [` and the closing
   * `;` lie the items of `JointFields`, in that order.
   */
  lemma CompileJointFields(axisVals: seq<real>, speedName: NString, speedTime: real, zoneName: NString,
                           extRot: real, extLin: real, host: Host)
    requires |axisVals| >= 6
    requires NumbersAreItems(host) && Item(Text(speedName)) && Item(Text(zoneName))
    ensures Framed(CompileJoint(axisVals, speedName, speedTime, zoneName, extRot, extLin, host), "MoveAbsJ [", ";",
                   JointFields(axisVals, speedName, speedTime, zoneName, extRot, extLin, host))
  {
    JointItems(axisVals, speedName, speedTime, zoneName, extRot, extLin, host);
    CompileJointText(axisVals, speedName, speedTime, zoneName, extRot, extLin, host);
    FramedJoin("MoveAbsJ [", JointFields(axisVals, speedName, speedTime, zoneName, extRot, extLin, host), ";");
  }

  /** Only the first six joint values enter the code of an absolute joint move. */
  lemma CompileJointReadsSix(axisVals: seq<real>, speedName: NString, speedTime: real, zoneName: NString,
                             extRot: real, extLin: real, host: Host)
    requires |axisVals| >= 6
    ensures CompileJoint(axisVals, speedName, speedTime, zoneName, extRot, extLin, host)
            == CompileJoint(axisVals[..6], speedName, speedTime, zoneName, extRot, extLin, host)
  {
    assert JointList(axisVals, host) == JointList(axisVals[..6], host);
  }

  /**
   * The RAPID code of a Cartesian target read back: its items are those of
   * `AbbFields` for the target's position and orientation in the work
   * object, with the speed argument and the zone, tool and work object names.
   */
  lemma CompileCartesianAbbFields(target: Plane, motion: MotionType, speedName: NString, speedTime: real,
                                  zoneName: NString, toolName: NString, wobjName: NString, wobjPlane: Plane,
                                  extRot: real, extLin: real, host: Host)
    requires NumbersAreItems(host)
    requires Item(Text(speedName)) && Item(Text(zoneName)) && Item(Text(toolName)) && Item(Text(wobjName))
    ensures var c := CompileCartesian(target, motion, speedName, speedTime, zoneName, toolName, wobjName,
                                      wobjPlane, extRot, extLin, false, host);
            Framed(c.strABB.value, Text(AbbMovement(motion)) + " [[", ";",
                   AbbFields(c.position, host.quaternionFromPlane(host.toWorldXY(wobjPlane, target)), extRot, extLin,
                             SpeedText(speedName, speedTime, host), zoneName, toolName, wobjName, host))
  {
    var plane := host.toWorldXY(wobjPlane, target);
    SpeedTextItem(speedName, speedTime, host);
    AbbTargetFields(AbbMovement(motion), plane.origin, host.quaternionFromPlane(plane), extRot, extLin,
                    SpeedText(speedName, speedTime, host), zoneName, toolName, wobjName, host);
  }

  /**
   * The KRL code of a Cartesian target read back: its items are those of
   * `KukaFields` for the target's position in the work object and the Euler
   * angles of its orientation.
   */
  lemma CompileCartesianKukaFields(target: Plane, motion: MotionType, speedName: NString, speedTime: real,
                                   zoneName: NString, toolName: NString, wobjName: NString, wobjPlane: Plane,
                                   extRot: real, extLin: real, host: Host)
    requires NumbersAreItems(host)
    ensures var c := CompileCartesian(target, motion, speedName, speedTime, zoneName, toolName, wobjName,
                                      wobjPlane, extRot, extLin, true, host);
            Framed(c.strKUKA.value, Text(KukaMovement(motion).0) + " {E6POS: ", "} " + KukaMovement(motion).1,
                   KukaFields(c.position, host.quaternionToEuler(host.quaternionFromPlane(host.toWorldXY(wobjPlane, target))),
                              host))
  {
    var plane := host.toWorldXY(wobjPlane, target);
    KukaTargetFields(motion, plane.origin, host.quaternionToEuler(host.quaternionFromPlane(plane)), host);
  }

  // ---- the target ----

  /** The display text of an absolute joint target, spelled out. */
  lemma AbsoluteJointLabel()
    ensures "Target (" + Text(Some("Absolute Joint")) + ")" == "Target (Absolute Joint)"
  {
  }

  /** A robot target. Properties the source only reads are constants, set once by a constructor. */
  class Target {
    var position: Point3d
    var plane: Plane
    var quaternion: Quaternion
    var jointAngles: Option<seq<real>>
    const speed: Speed?
    const zone: Zone?
    const tool: Tool?
    var cSystem: CSystem?
    var extRot: real
    var extLin: real
    const workObject: NString
    const strABB: NString
    const strKUKA: NString
    const motion: MotionType
    const strMethod: NString

    /**
     * A Cartesian target. A null work object, zone or tool, or a null
     * speed for an ABB target, makes the source throw.
     */
    constructor Cartesian(target: Plane, motion: MotionType, speed: Speed?, zone: Zone, tool: Tool, wobj: CSystem,
                          extRot: real, extLin: real, robot: bool, host: Host)
      requires !robot ==> speed != null
      ensures plane == target && quaternion == host.quaternionFromPlane(target)
      ensures this.extRot == extRot && this.extLin == extLin && this.motion == motion
      ensures workObject == wobj.name && this.tool == tool && cSystem == wobj
      ensures this.speed == null && this.zone == null && jointAngles == None
      ensures var c := CompileCartesian(target, motion, if robot then None else speed.name,
                                        if robot then 0.0 else speed.time, zone.name, tool.name,
                                        wobj.name, wobj.csPlane, extRot, extLin, robot, host);
              position == c.position && strABB == c.strABB && strKUKA == c.strKUKA && strMethod == c.strMethod
    {
      var code := CompileCartesian(target, motion, if robot then None else speed.name,
                                   if robot then 0.0 else speed.time, zone.name, tool.name,
                                   wobj.name, wobj.csPlane, extRot, extLin, robot, host);
      plane := target;
      quaternion := host.quaternionFromPlane(target);
      this.extRot := extRot;
      this.extLin := extLin;
      workObject := wobj.name;
      this.motion := motion;
      this.tool := tool;
      this.speed := null;
      this.zone := null;
      jointAngles := None;
      position := code.position;
      cSystem := wobj;
      strABB := code.strABB;
      strKUKA := code.strKUKA;
      strMethod := code.strMethod;
    }

    /**
     * An absolute joint target from the first six of `axisVals`. `robot` is
     * not read: the code is always RAPID. Fewer than six values make the
     * source throw.
     */
    constructor Joint(axisVals: seq<real>, speed: Speed, zone: Zone, extRot: real, extLin: real, robot: bool,
                      host: Host)
      requires |axisVals| >= 6
      ensures jointAngles == Some(axisVals) && this.extRot == extRot && this.extLin == extLin
      ensures strABB == Some(CompileJoint(axisVals, speed.name, speed.time, zone.name, extRot, extLin, host))
      ensures strKUKA == None && motion == AbsoluteJoint && strMethod == Some("Absolute Joint")
      ensures position == Zero && plane == UnsetPlane && quaternion == UnsetQuaternion
      ensures this.speed == null && this.zone == null && tool == null && cSystem == null && workObject == None
      ensures ToString() == "Target (Absolute Joint)"
    {
      jointAngles := Some(axisVals);
      this.extRot := extRot;
      this.extLin := extLin;
      strABB := Some(CompileJoint(axisVals, speed.name, speed.time, zone.name, extRot, extLin, host));
      strKUKA := None;
      motion := AbsoluteJoint;
      strMethod := Some("Absolute Joint");
      position, plane, quaternion := Zero, UnsetPlane, UnsetQuaternion;
      this.speed, this.zone, tool, cSystem, workObject := null, null, null, null, None;
      AbsoluteJointLabel();
    }

    /** The display text: the motion name, which is empty when it was never set. */
    function ToString(): (s: string)
      ensures "Target (" <= s && s[|s| - 1] == ')'
      ensures s[|"Target ("|..|s| - 1] == Text(strMethod)
    {
      "Target (" + Text(strMethod) + ")"
    }
  }
}
