# Axis robot code core, modelled in Dafny

Axis is a Grasshopper plug-in that turns geometry into industrial robot
programs. This project models four parts of it and proves properties of the
model.

- **Targets** (`targets.dfy`, module `Targets`). A robot target compiles itself once, in its constructor, into one line of robot code:
  - from a Cartesian plane: an ABB RAPID `MoveL`/`MoveJ` instruction, or a KUKA KRL `LIN`/`PTP` E6POS motion;
  - from six joint values: a RAPID `MoveAbsJ`.

  The module also holds the speed, zone and coordinate-system settings and their defaults. The target's text is computed by pure functions. The target and the settings are classes: the target's get-only properties are `const` fields set once by a constructor, and the settable ones are `var` fields. A .NET `null` string is `None`, and it reads as the empty string in a concatenation.
- **Inverse kinematics** (`kinematics.dfy`, module `Kinematics`). This is the offset-wrist solver, written as the source writes it: configuration flags, a six-slot array filled block by block, arccos results that fall back when NaN, an error log, and a final loop that wraps every angle into [-pi, pi] in place. It is proved against `Solve` and `Diagnostics`, the specification of the angles and of the log.
- **The Tool component** (`tool.dfy`, module `ToolComponent`). Three sticky menu toggles add or remove optional parameters:
  - a tool weight input;
  - a relative tool offset input;
  - a declaration output.

  Each addition is inserted at the position that keeps the optional parameters in catalogue order. The four sticky settings are written to and read back from the document archive. The component is a class whose parameter lists are `seq` fields that its methods reassign.
- **The AccSet component** (`acceleration.dfy`, module `Acceleration`). It emits `AccSet acc, dec;`. The defaults are 35 and 60, and it produces no output when an input cannot be read.

`common.dfy` (module `Common`) holds the shared `Option` type, nullable strings and `Math.PI`. It also defines `String.Join(", ", …)` and its inverse `Split`, with the proof that splitting a join of items that hold no `, ` and do not end with a comma gives the items back. The target lemmas use this to read each line of code back into its fields.

Numbers and geometry belong to the host, and the model takes them as parameters:
- `Math.Round`, `double.ToString` and its "0.0" format;
- square root, sine, cosine, arccos, atan2;
- the quaternion and Euler conversions;
- the plane-to-plane transforms.

Where the kinematics relies on the range of the host's trigonometry, that range is a precondition:
- atan2 lies in [-pi, pi];
- a non-NaN arccos lies in [0, pi].

Behaviour of the source that the model keeps as written:
- The Cartesian constructor computes a `toolName` that drops "DefaultTool" and then never uses it. The ABB line always ends with the tool's own name, a blank and `\Wobj:=` with the work object's name.
- The ABB branch of the Cartesian constructor and the joint constructor read `speed.Time` before testing `speed` for null. A null speed therefore throws, and the `v200` fallback can never run. The model requires a speed wherever the source reads one and has no fallback.
- The joint constructor ignores its `robot` argument, always emits RAPID and never sets the KUKA text.
- `Target.ToString` compares an enum with null. An enum never equals null, so `Method != null` always holds and the position branch cannot be reached; the model always shows the method name.

## Model

| member | source | states |
|---|---|---|
| Acceleration.AccSet | RAPID/Acceleration.cs:49 | the line starts with `AccSet `, ends with `;`, and its length is that of the keyword, both formatted numbers, the separator and `;` |
| Acceleration.AccSetText | RAPID/Acceleration.cs:49 | the line is `AccSet `, the acceleration and deceleration texts joined with `, `, then `;` |
| Acceleration.AccSetFields | RAPID/Acceleration.cs:49 | when neither number text holds `, ` or ends with a comma, splitting the line at `, ` between `AccSet ` and `;` gives exactly the acceleration text, then the deceleration text |
| Acceleration.SolveInstance | RAPID/Acceleration.cs:41-52 | a line is produced exactly when both inputs can be read; it is the AccSet line of each wired value, or of the registered default (35 for acceleration, 60 for deceleration) for an unwired input, acceleration first |
| Acceleration.ParseAccSetInvertsAccSet | RAPID/Acceleration.cs:49 | when the acceleration text holds no `, ` and does not end with a comma (a decimal comma is allowed), reading the line back at its first `, ` gives the acceleration text then the deceleration text, so the two arguments are never swapped or merged |
| Acceleration.DecimalCommaReadsBack | RAPID/Acceleration.cs:49 | with a decimal-comma formatting (35.5 written `35,5`), the line still reads back as `35,5` and `60` |
| Kinematics.Solve | Core/OffsetWristKinematics.cs:53-150 | with the shoulder flag on (so elbow and wrist off), six angles, each in [-2 pi, 2 pi]; the waist is the arctangent term minus the arccos term (0 when NaN); the wrist bend is its arccos (pi when NaN); the elbow is its arccos (0 when NaN); each singular flag holds exactly when its arccos is NaN |
| Kinematics.Diagnostics | Core/OffsetWristKinematics.cs:75-153 | one message per failure: the log is as long as the number of singular waist and wrist flags plus one when the wrist or elbow failed, so at most three; "Overhead singularity." exactly when the waist arccos is NaN, and then first; "Overhead singularity 2." exactly when the wrist arccos is NaN; "Target out of reach." exactly once and last when the wrist or elbow arccos is NaN, and absent otherwise |
| Kinematics.Wrap | Core/OffsetWristKinematics.cs:157-161 | an angle in [-2 pi, 2 pi] comes out in [-pi, pi]; an angle already in [-pi, pi] is unchanged; the result differs from the input by 0 or 2 pi |
| Kinematics.WrapAll | Core/OffsetWristKinematics.cs:157-161 | the wrapped sequence has the same length and wraps each angle in place |
| Kinematics.WrappedInRange | Core/OffsetWristKinematics.cs:157-161 | wrapping a solution puts all six angles in [-pi, pi] |
| Kinematics.WrapAngles | Core/OffsetWristKinematics.cs:157-161 | the loop leaves the array equal to the wrap of its old contents |
| Kinematics.ShoulderBlock | Core/OffsetWristKinematics.cs:68-87 | writes only slot 0, with the waist angle for the given shoulder flag, and logs the first singularity exactly when the arccos is NaN |
| Kinematics.WristBlock | Core/OffsetWristKinematics.cs:89-106 | writes only slot 4, with the wrist bend for the given wrist flag, and logs the second singularity and marks the target unreachable exactly when the arccos is NaN |
| Kinematics.RestBlock | Core/OffsetWristKinematics.cs:108-150 | keeps slots 0 and 4; fills slots 5, 2, 1 and 3 in the source's order, from the waist and wrist bend; marks the target unreachable when the elbow arccos is NaN, without logging |
| Kinematics.OffsetWristIK | Core/OffsetWristKinematics.cs:49-164 | never fails; returns exactly six angles, each in [-pi, pi], equal to the wrapped solution of the pre-rotated transform; its log is the solution's diagnostics |
| ToolComponent.FindIndex | Robot/Tool.cs:188 | the first catalogue position with that name, or -1 exactly when no entry has it |
| ToolComponent.FirstNamed | Robot/Tool.cs:182 | the position of the first parameter with that name |
| ToolComponent.InsertionPoint | Robot/Tool.cs:185-194 | every parameter before the point has catalogue position at most `index` (parameters outside the catalogue, at -1, included); the parameter at the point, if any, has a greater position |
| ToolComponent.InsertIndex | Robot/Tool.cs:185-194 | the scan with its early exit returns exactly the insertion point |
| ToolComponent.InsertionPointUnique | Robot/Tool.cs:185-194 | only one position has the two defining properties of the insertion point |
| ToolComponent.Unregister | Robot/Tool.cs:137 | with a parameter of that name, the list loses one element; with none, the list is unchanged |
| ToolComponent.Toggle | Robot/Tool.cs:177-200 | a present parameter is removed (length minus one); an absent one is inserted at the insertion point (length plus one) |
| ToolComponent.ToggleCount | Robot/Tool.cs:177-200 | toggling takes the count of the toggled name from 0 to 1, or down by one; every other name's count is unchanged |
| ToolComponent.UnregisterCount | Robot/Tool.cs:137 | unregistering takes exactly one parameter of that name away, if there is one, and changes no other name's count |
| ToolComponent.ToggleKeepsOthers | Robot/Tool.cs:181-196 | with the toggled name filtered out, the list is the same before and after: the other parameters keep their order |
| ToolComponent.ToggleKeepsOrder | Robot/Tool.cs:185-196 | with distinct catalogue names, a list whose catalogued parameters are in catalogue order stays so |
| ToolComponent.CreateTool.constructor | Robot/Tool.cs:20-43 | manufacturer ABB, every toggle off; inputs Name, TCP, Mesh; output Tool; toggles and lists in sync |
| ToolComponent.CreateTool.AddInput | Robot/Tool.cs:177-200 | the input list becomes its toggle for input-catalogue entry `index` |
| ToolComponent.CreateTool.AddOutput | Robot/Tool.cs:203-226 | the output list becomes its toggle for output-catalogue entry `index` |
| ToolComponent.CreateTool.WeightClick | Robot/Tool.cs:125-140 | flips the weight flag; on, toggles the Weight input; off, unregisters the first Weight input; keeps each optional parameter present exactly once when its flag is on and absent when it is off |
| ToolComponent.CreateTool.DeclarationClick | Robot/Tool.cs:142-157 | the same for the declaration flag and the Declaration output |
| ToolComponent.CreateTool.RelToolClick | Robot/Tool.cs:159-174 | the same for the relative-offset flag and the Offset input |
| ToolComponent.CreateTool.Write | Robot/Tool.cs:231-238 | stores the manufacturer under "Manufacturer" and the three flags under "Weight", "Declaration" and "Relative Tool Offset", leaving other entries alone |
| ToolComponent.CreateTool.Read | Robot/Tool.cs:241-248 | loads the four settings from those keys |
| ToolComponent.SaveAndRestore | Robot/Tool.cs:231-248 | reading an archive written by one component restores its four settings into another |
| Targets.Speed.constructor | Targets/Target.cs:267-273 | the fields take the arguments; defaults 100, 30, null and 0 |
| Targets.Speed.Default | Targets/Target.cs:260-265 | "DefaultSpeed", 100 mm/s, 30 degrees/s, no time |
| Targets.Speed.ToString | Targets/Target.cs:275 | the text is `Speed (`, a middle and `)`; the middle is the name when there is one, otherwise the formatted translation speed followed by ` mm/s` |
| Targets.Zone.constructor | Targets/Target.cs:296-306 | every field takes its argument |
| Targets.Zone.Default | Targets/Target.cs:289-294 | "DefaultZone": no stop point, radii 5, 25, 25, orientation 15, external 35 and 5 |
| Targets.Zone.ToString | Targets/Target.cs:308 | the text is `Zone (`, a middle and `)`; the middle is the name when there is one, otherwise the formatted path radius followed by ` mm` |
| Targets.CSystem.constructor | Targets/Target.cs:318-322 | name and plane take the arguments |
| Targets.CSystem.Default | Targets/Target.cs:324-327 | "Default" on the world XY plane |
| Targets.SpeedText | Targets/Target.cs:105-129 | with a positive time, the name (empty when null) then `\T:=` and the time, and nothing else (the length is the sum of the three); otherwise the name itself; null exactly when there is no time and no name |
| Targets.AxisValueMarksTolerance | Targets/Target.cs:132-142 | provided the host never formats the rounded value as `9E9`, an external axis value reads 9E9 exactly when it equals the 0.00001 tolerance |
| Targets.AbbAxisField | Targets/Target.cs:131-145 | the external axis field is `eAxis` exactly when both values are the tolerance, and otherwise the full six-value list |
| Targets.AbbTarget | Targets/Target.cs:143-145 | the ABB line starts with the instruction and `[[` and ends with the tool, a blank, `\Wobj:=`, the work object and `;` |
| Targets.AbbTargetText | Targets/Target.cs:84-145 | the ABB line is the instruction and ` [[`, the items of `AbbFields` joined with `, `, then `;` |
| Targets.AbbTargetFields | Targets/Target.cs:84-145 | read back by splitting at `, ` between ` [[` and `;`, the ABB line gives x, y, z rounded to three places (z fused with `],[` and w), the quaternion rounded to six (the last fused with `]`), `cData`, then `eAxis]` exactly when both axes are unused, otherwise the rotary axis to two places, the linear axis to four and four `9E9`, then the speed, the zone, and the tool with ` \Wobj:=` and the work object |
| Targets.KukaTarget | Targets/Target.cs:151-180 | the KUKA line starts with the motion keyword and ` {E6POS: ` and ends with `, `, the four zero external axes, `} ` and the approximation keyword |
| Targets.KukaTargetText | Targets/Target.cs:151-180 | the KUKA line is the keyword and ` {E6POS: `, the ten items of `KukaFields` joined with `, `, then `} ` and the approximation keyword |
| Targets.KukaTargetFields | Targets/Target.cs:151-180 | read back by splitting at `, ` between ` {E6POS: ` and `} `, the KUKA line gives X, Y, Z rounded to three places, A, B, C in degrees from the third, second and first Euler angle, then `E1 0` to `E4 0` |
| Targets.CompileCartesian | Targets/Target.cs:36-185 | exactly one of the ABB and KUKA texts is set, chosen by `robot`; a method name is set exactly for Linear and Joint; the ABB text starts with MoveL/MoveJ (nothing for the other motion types) and ends with tool and work object; the position is the origin of the target expressed in the work object |
| Targets.CompileCartesianAbbFields | Targets/Target.cs:36-145 | the ABB text of a Cartesian target reads back as the `AbbFields` of its position and quaternion in the work object, its external axes, its speed argument and its zone, tool and work object names |
| Targets.CompileCartesianKukaFields | Targets/Target.cs:36-180 | the KUKA text of a Cartesian target reads back as the `KukaFields` of its position in the work object and the Euler angles of its quaternion there |
| Targets.KukaIgnoresSpeedAndAxes | Targets/Target.cs:149-181 | a KUKA target's code is the same whatever the speed and the external axis values |
| Targets.JointAxisField | Targets/Target.cs:223-238 | both branches give the full six-value external axis list; the joint move never elides it |
| Targets.CompileJoint | Targets/Target.cs:187-238 | the joint line starts with `MoveAbsJ [` and ends with `, tool0;` |
| Targets.CompileJointText | Targets/Target.cs:187-238 | the joint line is `MoveAbsJ [`, the items of `JointFields` joined with `, `, then `;` |
| Targets.CompileJointFields | Targets/Target.cs:187-238 | read back by splitting at `, ` between `MoveAbsJ [` and `;`, the joint line gives the six joint values unrounded (bracketed), the rotary axis to two places, the linear axis to four and four `9E9` (bracketed), the speed argument, the zone and `tool0` |
| Targets.CompileJointReadsSix | Targets/Target.cs:191 | the joint line of a list of joint values is that of its first six |
| Targets.Target.Cartesian | Targets/Target.cs:36-185 | plane, quaternion, external axes, method, tool and work object are stored; speed, zone and joint angles stay unset; position and texts are those of the compiled code |
| Targets.Target.Joint | Targets/Target.cs:187-248 | joint angles and the MoveAbsJ text are stored; method AbsoluteJoint named "Absolute Joint"; no KUKA text, no tool, work object or coordinate system; shows as "Target (Absolute Joint)" |
| Targets.Target.ToString | Targets/Target.cs:250 | `Target (` then the method name (empty when unset) then `)` |

## Left out

- Floating point: numbers are mathematical reals. Rounding and formatting, including the culture-dependent decimal separator, are host functions. The only NaN modelled is the one an arccos returns.
- Kinematics.Solve: its contract states the waist, wrist bend, elbow and wrist roll slots. It bounds the shoulder pitch and forearm roll slots (1 and 3) but does not spell out their formulas; those follow from its definition.
- Kinematics: the pre-rotation `transform *= Rotation(pi/2)` is the host's `preRotate`. The shoulder arccos of a zero root is NaN, as in IEEE.
- Kinematics.OffsetWristIK: a zero shoulder-pitch denominator (Core/OffsetWristKinematics.cs:136) is divided as 0 by `Quotient`. That denominator always equals p13x^2 + p13y^2, so it is zero only when p13 is the origin. There the elbow cosine is -(a1^2 + a2^2) / (2 a1 a2), below -1 for this arm's unequal link lengths, so the elbow arccos is also NaN and the target is already logged as out of reach. The source then divides 0 by 0, gets NaN for slot 1 and hence for slot 3 (lines 142-149), and the wrap at lines 159-160 leaves NaN alone. For that input the model's [-pi, pi] bound on slots 1 and 3 does not hold in the source.
- Targets: a null work object, zone, tool, speed or joint-value list makes the source throw. These are preconditions of the constructors.
- Targets.Target.Joint: a joint-value list with fewer than six values makes the source throw at Targets/Target.cs:191. The model has no error path for it; at least six values is a precondition.
- Targets.Speed.Default, Targets.Zone.Default, Targets.CSystem.Default: in the source these are shared static objects, so a change to one is seen by every user, and `CSystem.Default` can be reassigned. The model builds a fresh object on each call, so that sharing is not modelled.
- Targets.KukaTargetFields, Targets.AbbTargetFields, Targets.CompileJointFields, Targets.CompileCartesianAbbFields, Targets.CompileCartesianKukaFields: reading back holds when the host's number texts and the speed, zone, tool and work object names hold no `, ` and do not end with a comma (`NumbersAreItems` and `Item`); a name with a `, ` in it splits into more items.
- Targets: the joint values are stored as a value. The constructor keeps the caller's list object, so later changes to that list are not modelled.
- Targets: the static `Target.Default` is never assigned in the source and stays null. The data-only `ExternalTarget` class has no behaviour. Neither is modelled.
- Targets: the tool object (`Axis.Tools.Tool`) is not part of this model beyond its name.
- Targets.AxisValueMarksTolerance: `Util.ExAxisTol` is not part of this model. Its value 0.00001 is taken from the comment at Targets/Target.cs:133, which says that value is passed when there is no external axis.
- ToolComponent: `SolveInstance` is not modelled. It reads the inputs, moves the TCP by the relative offset and builds the tool and its declaration, and the tool class is not part of this model.
- ToolComponent: menu construction and `manufacturer_Click` are not modelled. That handler sets the manufacturer from the clicked menu item's position in the host's menu.
- ToolComponent: undo records, `ExpireSolution`, `OnParametersChanged` and the results of `base.Write`/`base.Read` are host notifications and are not modelled.
- ToolComponent: parameters are modelled by name, nickname and description. Their kind (number, vector, string) and identity as objects are not modelled.
- ToolComponent.CreateTool.Read: reading a missing archive key is a precondition, not an error path.
- ToolComponent.CreateTool.constructor: the `Manufacturer` enumeration is not part of this model. The constant `ABB` is its value 0, which assumes ABB is the enumeration's first member; the stored and archived value follows that assumption.
- Acceleration.ParseAccSetInvertsAccSet, Acceleration.AccSetFields: reading back needs the acceleration text (and, for `AccSetFields`, the deceleration text too) to hold no `, ` and not end with a comma. A decimal comma such as `35,5` is fine, but a number text with a `, ` in it would make the emitted RAPID line itself ambiguous, and no read-back is promised for it.
- Acceleration: input registration is reduced to the two defaults. The single output assignment is the function's result.
