/**
 * Control skeleton of the analytic inverse kinematics of a six-axis
 * offset-wrist arm (the "UR IK" component).
 *
 * The trigonometry is floating point in the original; here it is a record of
 * host functions (`Numerics`) about which only their ranges are known:
 * `acos` is partial (`None` stands for NaN) and `atan2` lies in [-pi, pi].
 * What the model keeps is everything around those calls: the coupled
 * configuration flags, the fallback angle and the log message for each
 * failed arccos, the reachability flag, the slots of the joint array and
 * the final wrap of every angle into [-pi, pi].
 */
module Kinematics {
  import opened Common

  /** A 4x4 transform, read as `transform[row, column]`. */
  type Matrix = (int, int) -> real

  /** The host's geometry and floating-point functions. */
  datatype Numerics = Numerics(
    preRotate: Matrix -> Matrix,   // transform * Rotation(pi / 2, origin)
    sqrt: real -> real,
    sin: real -> real,
    cos: real -> real,
    acos: real -> Option<real>,    // None: the result is NaN
    atan2: (real, real) -> real)

  /** `Math.Atan2` returns an angle in [-pi, pi]. */
  ghost predicate Atan2InRange(n: Numerics) {
    forall y, x :: -Pi <= n.atan2(y, x) <= Pi
  }

  /** `Math.Acos` returns NaN or an angle in [0, pi]. */
  ghost predicate AcosInRange(n: Numerics) {
    forall c :: n.acos(c).Some? ==> 0.0 <= n.acos(c).value <= Pi
  }

  /** Link lengths `a` and link offsets `d` of the modelled arm. */
  const LinkA: seq<real> := [0.0, -0.612, -0.5723, 0.0, 0.0, 0.0]
  const LinkD: seq<real> := [0.1273, 0.0, 0.0, 0.163941, 0.1157, 0.0922]

  /** The log messages. */
  const OverheadSingularity: string := "Overhead singularity."
  const OverheadSingularity2: string := "Overhead singularity 2."
  const OutOfReach: string := "Target out of reach."

  /** `Math.Sign` of a (non-NaN) double. */
  function Sign(x: real): real {
    if x > 0.0 then 1.0 else if x < 0.0 then -1.0 else 0.0
  }

  /** A quotient whose divisor may vanish; a zero divisor gives 0 (IEEE infinities and the NaN of 0/0 are not modelled). */
  function Quotient(x: real, y: real): real {
    if y == 0.0 then 0.0 else x / y
  }

  // ---- the closed-form expressions, one per step of the solution ----

  /** Arccos term of the waist angle; a zero root makes the quotient infinite, and its arccos NaN. */
  function ShoulderAcos(m: Matrix, n: Numerics): Option<real> {
    var a := LinkD[5] * m(1, 2) - m(1, 3);
    var b := LinkD[5] * m(0, 2) - m(0, 3);
    var root := n.sqrt(a * a + b * b);
    if root == 0.0 then None else n.acos(LinkD[3] / root)
  }

  /** Arctangent term of the waist angle. */
  function ShoulderAtan(m: Matrix, n: Numerics): real {
    var a := LinkD[5] * m(1, 2) - m(1, 3);
    var b := LinkD[5] * m(0, 2) - m(0, 3);
    n.atan2(-b, a)
  }

  /** The cosine of the wrist-bend angle, given the waist angle `j0`. */
  function WristCosine(m: Matrix, n: Numerics, j0: real): real {
    (m(0, 3) * n.sin(j0) - m(1, 3) * n.cos(j0) - LinkD[3]) / LinkD[5]
  }

  /** Wrist roll and the arm-plane quantities the remaining joints are solved from. */
  datatype ArmPlane = ArmPlane(j5: real, x04x: real, x04y: real, p13x: real, p13y: real, c3: real)

  function SolveArmPlane(m: Matrix, n: Numerics, j0: real, j4: real): ArmPlane {
    var c1, s1, c5, s5 := n.cos(j0), n.sin(j0), n.cos(j4), n.sin(j4);
    var j5 := n.atan2(Sign(s5) * -(m(0, 1) * s1 - m(1, 1) * c1), Sign(s5) * (m(0, 0) * s1 - m(1, 0) * c1));
    var c6, s6 := n.cos(j5), n.sin(j5);
    var x04x := -s5 * (m(0, 2) * c1 + m(1, 2) * s1)
                - c5 * (s6 * (m(0, 1) * c1 + m(1, 1) * s1) - c6 * (m(0, 0) * c1 + m(1, 0) * s1));
    var x04y := c5 * (m(2, 0) * c6 - m(2, 1) * s6) - m(2, 2) * s5;
    var p13x := LinkD[4] * (s6 * (m(0, 0) * c1 + m(1, 0) * s1) + c6 * (m(0, 1) * c1 + m(1, 1) * s1))
                - LinkD[5] * (m(0, 2) * c1 + m(1, 2) * s1) + m(0, 3) * c1 + m(1, 3) * s1;
    var p13y := m(2, 3) - LinkD[0] - LinkD[5] * m(2, 2) + LinkD[4] * (m(2, 1) * c6 + m(2, 0) * s6);
    var c3 := (p13x * p13x + p13y * p13y - LinkA[1] * LinkA[1] - LinkA[2] * LinkA[2]) / (2.0 * LinkA[1] * LinkA[2]);
    ArmPlane(j5, x04x, x04y, p13x, p13y, c3)
  }

  /** The shoulder pitch from the elbow's arccos term, for either elbow configuration. */
  function ShoulderPitch(n: Numerics, p: ArmPlane, arccos: real, elbow: bool): real {
    var denom := LinkA[1] * LinkA[1] + LinkA[2] * LinkA[2] + 2.0 * LinkA[1] * LinkA[2] * p.c3;
    var s3 := n.sin(arccos);
    var a := LinkA[1] + LinkA[2] * p.c3;
    var b := LinkA[2] * s3;
    if !elbow then n.atan2(Quotient(a * p.p13y - b * p.p13x, denom), Quotient(a * p.p13x + b * p.p13y, denom))
    else n.atan2(Quotient(a * p.p13y + b * p.p13x, denom), Quotient(a * p.p13x - b * p.p13y, denom))
  }

  /** The forearm roll that closes the chain. */
  function ForearmRoll(n: Numerics, p: ArmPlane, j1: real, j2: real): real {
    var c23, s23 := n.cos(j1 + j2), n.sin(j1 + j2);
    n.atan2(c23 * p.x04y - s23 * p.x04x, p.x04x * c23 + p.x04y * s23)
  }

  // ---- the steps, each with its configuration flag and its fallback ----

  /** The arccos term of a step: the arccos, or `fallback` when it is NaN. */
  function ArccosOr(acos: Option<real>, fallback: real): real {
    if acos.None? then fallback else acos.value
  }

  /** The waist angle: the arctangent term plus or minus the arccos term (0 when NaN). */
  function WaistAngle(m: Matrix, n: Numerics, shoulder: bool): real {
    var arccos := ArccosOr(ShoulderAcos(m, n), 0.0);
    var arctan := ShoulderAtan(m, n);
    if !shoulder then arccos + arctan else -arccos + arctan
  }

  /** The wrist-bend angle: the arccos term (pi when NaN) or its complement to 2 pi. */
  function WristBend(m: Matrix, n: Numerics, wrist: bool, j0: real): real {
    var arccos := ArccosOr(n.acos(WristCosine(m, n, j0)), Pi);
    if !wrist then arccos else 2.0 * Pi - arccos
  }

  /** The elbow angle: the arccos term (0 when NaN) or its complement to 2 pi. */
  function ElbowAngle(n: Numerics, p: ArmPlane, elbow: bool): real {
    var arccos := ArccosOr(n.acos(p.c3), 0.0);
    if !elbow then arccos else 2.0 * Pi - arccos
  }

  // ---- the specification of the solver ----

  /** The six angles before the final wrap, and which arccos calls failed. */
  datatype Solution = Solution(angles: seq<real>, shoulderSingular: bool, wristSingular: bool, elbowSingular: bool)

  /**
   * The solution for an already pre-rotated transform `m`. The shoulder
   * flag is fixed to true, so the elbow and wrist flags are both false:
   * the waist takes the minus sign, and the wrist bend and the elbow take
   * their arccos terms unchanged. A failed arccos falls back to 0 (waist),
   * pi (wrist bend) or 0 (elbow). Every angle lies in [-2 pi, 2 pi].
   */
  function Solve(m: Matrix, n: Numerics): (s: Solution)
    requires Atan2InRange(n) && AcosInRange(n)
    ensures |s.angles| == 6
    ensures forall i :: 0 <= i < 6 ==> -2.0 * Pi <= s.angles[i] <= 2.0 * Pi
    ensures s.shoulderSingular <==> ShoulderAcos(m, n).None?
    ensures s.angles[0] == ShoulderAtan(m, n) - ArccosOr(ShoulderAcos(m, n), 0.0)
    ensures s.wristSingular <==> n.acos(WristCosine(m, n, s.angles[0])).None?
    ensures s.angles[4] == ArccosOr(n.acos(WristCosine(m, n, s.angles[0])), Pi)
    ensures var p := SolveArmPlane(m, n, s.angles[0], s.angles[4]);
            && (s.elbowSingular <==> n.acos(p.c3).None?)
            && s.angles[2] == ArccosOr(n.acos(p.c3), 0.0)
            && s.angles[5] == p.j5
  {
    var shoulder := true;
    var elbow := !shoulder;
    var wrist := !shoulder;
    var j0 := WaistAngle(m, n, shoulder);
    var j4 := WristBend(m, n, wrist, j0);
    var p := SolveArmPlane(m, n, j0, j4);
    var j2 := ElbowAngle(n, p, elbow);
    var j1 := ShoulderPitch(n, p, ArccosOr(n.acos(p.c3), 0.0), elbow);
    var j3 := ForearmRoll(n, p, j1, j2);
    Solution([j0, j1, j2, j3, j4, p.j5],
             ShoulderAcos(m, n).None?, n.acos(WristCosine(m, n, j0)).None?, n.acos(p.c3).None?)
  }

  /**
   * The log of a solution: the two singularity messages in the order the
   * steps run, then "Target out of reach." once, last, exactly when the
   * wrist bend or the elbow failed. A singular waist alone does not make
   * the target unreachable.
   */
  function Diagnostics(s: Solution): (log: seq<string>)
    ensures |log| <= 3
    ensures |log| == (if s.shoulderSingular then 1 else 0) + (if s.wristSingular then 1 else 0)
                     + (if s.wristSingular || s.elbowSingular then 1 else 0)
    ensures OverheadSingularity in log <==> s.shoulderSingular
    ensures OverheadSingularity2 in log <==> s.wristSingular
    ensures OutOfReach in log <==> s.wristSingular || s.elbowSingular
    ensures multiset(log)[OutOfReach] == if s.wristSingular || s.elbowSingular then 1 else 0
    ensures OutOfReach in log ==> log[|log| - 1] == OutOfReach
    ensures s.shoulderSingular ==> log[0] == OverheadSingularity
  {
    (if s.shoulderSingular then [OverheadSingularity] else [])
    + (if s.wristSingular then [OverheadSingularity2] else [])
    + (if s.wristSingular || s.elbowSingular then [OutOfReach] else [])
  }

  /** The final normalisation step: one 2 pi step down above pi, then one step up below -pi. */
  function Wrap(x: real): (r: real)
    ensures -2.0 * Pi <= x <= 2.0 * Pi ==> -Pi <= r <= Pi
    ensures -Pi <= x <= Pi ==> r == x
    ensures r == x || r == x - 2.0 * Pi || r == x + 2.0 * Pi
  {
    var y := if x > Pi then x - 2.0 * Pi else x;
    if y < -Pi then y + 2.0 * Pi else y
  }

  /** Wrapping the angles of a solution brings each into [-pi, pi]. */
  lemma WrappedInRange(s: Solution)
    requires |s.angles| == 6
    requires forall i :: 0 <= i < 6 ==> -2.0 * Pi <= s.angles[i] <= 2.0 * Pi
    ensures forall i :: 0 <= i < 6 ==> -Pi <= Wrap(s.angles[i]) <= Pi
  {
  }

  // ---- the solver ----

  /** Every angle of `angles`, wrapped. */
  function WrapAll(angles: seq<real>): (r: seq<real>)
    ensures |r| == |angles|
    ensures forall k :: 0 <= k < |angles| ==> r[k] == Wrap(angles[k])
  {
    seq(|angles|, k requires 0 <= k < |angles| => Wrap(angles[k]))
  }

  /** The closing loop of the solver: wraps every angle of `joints` in place. */
  method WrapAngles(joints: array<real>)
    modifies joints
    ensures joints[..] == WrapAll(old(joints[..]))
  {
    for i := 0 to joints.Length
      invariant forall k :: 0 <= k < i ==> joints[k] == Wrap(old(joints[k]))
      invariant forall k :: i <= k < joints.Length ==> joints[k] == old(joints[k])
    {
      if joints[i] > Pi { joints[i] := joints[i] - 2.0 * Pi; }
      if joints[i] < -Pi { joints[i] := joints[i] + 2.0 * Pi; }
    }
  }

  /**
   * The shoulder block: the waist angle into `joints[0]`, logging the first
   * overhead singularity when its arccos is NaN.
   */
  method ShoulderBlock(joints: array<real>, m: Matrix, n: Numerics, shoulder: bool, errors: seq<string>)
    returns (errors': seq<string>)
    requires joints.Length == 6
    modifies joints
    ensures joints[..] == old(joints[..])[0 := WaistAngle(m, n, shoulder)]
    ensures errors' == errors + if ShoulderAcos(m, n).None? then [OverheadSingularity] else []
  {
    errors' := errors;
    var acos := ShoulderAcos(m, n);
    var arccos: real;
    if acos.None? {
      errors' := errors' + [OverheadSingularity];
      arccos := 0.0;
    } else {
      arccos := acos.value;
    }
    var arctan := ShoulderAtan(m, n);
    if !shoulder {
      joints[0] := arccos + arctan;
    } else {
      joints[0] := -arccos + arctan;
    }
  }

  /**
   * The wrist block: the wrist bend into `joints[4]`, logging the second
   * overhead singularity and marking the target unreachable when its arccos
   * is NaN.
   */
  method WristBlock(joints: array<real>, m: Matrix, n: Numerics, wrist: bool, errors: seq<string>,
                    isUnreachable: bool)
    returns (errors': seq<string>, isUnreachable': bool)
    requires joints.Length == 6
    modifies joints
    ensures var singular := n.acos(WristCosine(m, n, old(joints[0]))).None?;
            && joints[..] == old(joints[..])[4 := WristBend(m, n, wrist, old(joints[0]))]
            && errors' == errors + (if singular then [OverheadSingularity2] else [])
            && isUnreachable' == (isUnreachable || singular)
  {
    errors', isUnreachable' := errors, isUnreachable;
    var acos := n.acos(WristCosine(m, n, joints[0]));
    var arccos: real;
    if acos.None? {
      errors' := errors' + [OverheadSingularity2];
      arccos := Pi;
      isUnreachable' := true;
    } else {
      arccos := acos.value;
    }
    if !wrist {
      joints[4] := arccos;
    } else {
      joints[4] := 2.0 * Pi - arccos;
    }
  }

  /**
   * The remaining block: wrist roll, elbow, shoulder pitch and forearm roll
   * from the waist and the wrist bend, marking the target unreachable when
   * the elbow's arccos is NaN.
   */
  method RestBlock(joints: array<real>, m: Matrix, n: Numerics, elbow: bool, isUnreachable: bool)
    returns (isUnreachable': bool)
    requires joints.Length == 6
    modifies joints
    ensures var p := SolveArmPlane(m, n, old(joints[0]), old(joints[4]));
            var j2 := ElbowAngle(n, p, elbow);
            var j1 := ShoulderPitch(n, p, ArccosOr(n.acos(p.c3), 0.0), elbow);
            && joints[0] == old(joints[0]) && joints[4] == old(joints[4])
            && joints[5] == p.j5 && joints[2] == j2 && joints[1] == j1 && joints[3] == ForearmRoll(n, p, j1, j2)
            && isUnreachable' == (isUnreachable || n.acos(p.c3).None?)
  {
    isUnreachable' := isUnreachable;
    var p := SolveArmPlane(m, n, joints[0], joints[4]);
    joints[5] := p.j5;
    var acos := n.acos(p.c3);
    var arccos: real;
    if acos.None? {
      arccos := 0.0;
      isUnreachable' := true;
    } else {
      arccos := acos.value;
    }
    var j2 := if !elbow then arccos else 2.0 * Pi - arccos;
    joints[2] := j2;
    var j1 := ShoulderPitch(n, p, arccos, elbow);
    joints[1] := j1;
    joints[3] := ForearmRoll(n, p, j1, j2);
  }

  /**
   * Solves `transform` for the six joint angles and the error log. Never
   * fails: every angle ends up in [-pi, pi], and the log is the one the
   * solution's failed arccos calls call for.
   */
  method OffsetWristIK(transform: Matrix, n: Numerics) returns (joints: seq<real>, errors: seq<string>)
    requires Atan2InRange(n) && AcosInRange(n)
    ensures |joints| == 6
    ensures forall i :: 0 <= i < 6 ==> -Pi <= joints[i] <= Pi
    ensures var s := Solve(n.preRotate(transform), n);
            joints == WrapAll(s.angles) && errors == Diagnostics(s)
  {
    errors := [];

    var shoulder := true;
    var elbow := true;
    if shoulder { elbow := !elbow; }
    var wrist := true;
    if shoulder { wrist := !wrist; }

    var a := new real[6];
    var isUnreachable := false;

    var m := n.preRotate(transform);
    ghost var s := Solve(m, n);

    errors := ShoulderBlock(a, m, n, shoulder, errors);
    ghost var shoulderLog := errors;
    assert shoulderLog == if s.shoulderSingular then [OverheadSingularity] else [];
    errors, isUnreachable := WristBlock(a, m, n, wrist, errors, isUnreachable);
    ghost var wristLog := errors;
    assert wristLog == shoulderLog + if s.wristSingular then [OverheadSingularity2] else [];
    ghost var j0, j4 := a[0], a[4];
    isUnreachable := RestBlock(a, m, n, elbow, isUnreachable);
    ghost var p := SolveArmPlane(m, n, j0, j4);
    assert isUnreachable == (s.wristSingular || s.elbowSingular);

    if isUnreachable {
      errors := errors + [OutOfReach];
    }
    assert errors == wristLog + if s.wristSingular || s.elbowSingular then [OutOfReach] else [];

    assert a[..] == [j0, a[1], a[2], a[3], j4, p.j5];
    WrapAngles(a);
    joints := a[..];
    WrappedInRange(s);
  }
}
