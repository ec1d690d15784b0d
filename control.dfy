/**
 * The control decision rules of `DroneController.Update`: the chain of `if`s
 * that turns the heights `z1`..`z4` of the four markers (and the keyboard
 * axes) into a movement direction, a lift, a yaw rate and tilt targets.
 */
module Control {

  /** The public tuning fields `speed`, `liftForce` and `rotationSpeed`. */
  datatype Tuning = Tuning(speed: real, liftForce: real, rotationSpeed: real)

  /** Their initial values. */
  const DefaultTuning: Tuning := Tuning(5.0, 10.0, 100.0)

  /** The heights `z1`, `z2`, `z3`, `z4` of markers 1 to 4. */
  datatype Heights = Heights(z1: real, z2: real, z3: real, z4: real)

  /**
   * What one frame decides: the sideways and forward axis values `movex`,
   * `movez` (before they are turned into a camera-relative vector and scaled
   * by `speed`), the lift `moveY`, the yaw rate `rotateY` and the tilt targets
   * `targetRotateX`, `targetRotateZ`.
   */
  datatype Command = Command(moveX: real, moveZ: real, moveY: real, rotateY: real,
                             targetRotateX: real, targetRotateZ: real)

  /** Update, lines 58-90, with the keyboard axes `Horizontal` and `Vertical` as inputs. */
  function Decide(h: Heights, axisH: real, axisV: real, t: Tuning): Command {
    var z1, z2, z3, z4 := h.z1, h.z2, h.z3, h.z4;
    var movex0, movez0 := axisH, axisV;
    var movez1 := if z1 + 15.0 < z2 && z3 + 15.0 < z4 then 1.0 else movez0;
    var movez := if z2 + 15.0 < z1 && z4 + 15.0 < z3 then -1.0 else movez1;
    var movex1 := if z1 + 15.0 < z3 && z2 + 15.0 < z4 then 1.0 else movex0;
    var movex := if z3 + 15.0 < z1 && z4 + 15.0 < z2 then -1.0 else movex1;
    var moveY0 := 0.0;
    var moveY1 := if z1 > 1700.0 then t.liftForce else moveY0;
    var moveY := if z1 == 0.0 then -t.liftForce else moveY1;
    if z3 + 60.0 <= z1 && z4 + 60.0 <= z2 then
      Command(movex, movez, moveY, -t.rotationSpeed, 0.0, 0.0)
    else if z1 + 60.0 <= z3 && z2 + 60.0 <= z4 then
      Command(movex, movez, moveY, t.rotationSpeed, 0.0, 0.0)
    else
      var rx1 := if z1 + 15.0 < z2 && z3 + 15.0 < z4 then 10.0 else 0.0;
      var rx := if z2 + 15.0 < z1 && z4 + 15.0 < z3 then -10.0 else rx1;
      var rz1 := if z1 + 15.0 < z3 && z2 + 15.0 < z4 then -10.0 else 0.0;
      var rz := if z3 + 15.0 < z1 && z4 + 15.0 < z2 then 10.0 else rz1;
      Command(movex, movez, moveY, 0.0, rx, rz)
  }

  // ---------------------------------------------------------------------------
  // The same decisions as ordered rule lists.

  /** A rule: when `fires` holds, it sets the output to `value`. */
  datatype Rule = Rule(fires: bool, value: real)

  /** Rules applied in order, each that fires overwriting the output: the last firing rule wins. */
  function LastMatch(rules: seq<Rule>, default: real): real
    decreases |rules|
  {
    if rules == [] then default
    else LastMatch(rules[1..], if rules[0].fires then rules[0].value else default)
  }

  /** An `if` / `else if` chain: the first firing rule wins. */
  function FirstMatch(rules: seq<Rule>, default: real): real
    decreases |rules|
  {
    if rules == [] then default
    else if rules[0].fires then rules[0].value
    else FirstMatch(rules[1..], default)
  }

  /** With no rule firing the default stays. */
  lemma {:induction false} LastMatchNone(rules: seq<Rule>, default: real)
    requires forall k :: 0 <= k < |rules| ==> !rules[k].fires
    ensures LastMatch(rules, default) == default
    decreases |rules|
  {
    if rules != [] {
      assert forall k :: 0 <= k < |rules[1..]| ==> !rules[1..][k].fires by {
        forall k | 0 <= k < |rules[1..]| ensures !rules[1..][k].fires { assert rules[1..][k] == rules[k + 1]; }
      }
      LastMatchNone(rules[1..], default);
    }
  }

  /** When rule `k` fires and none after it does, the outcome is the value of rule `k`. */
  lemma {:induction false} LastMatchAt(rules: seq<Rule>, default: real, k: nat)
    requires k < |rules| && rules[k].fires && (forall j :: k < j < |rules| ==> !rules[j].fires)
    ensures LastMatch(rules, default) == rules[k].value
    decreases |rules|
  {
    var d := if rules[0].fires then rules[0].value else default;
    assert forall j :: k <= j < |rules[1..]| ==> !rules[1..][j].fires by {
      forall j | k <= j < |rules[1..]| ensures !rules[1..][j].fires { assert rules[1..][j] == rules[j + 1]; }
    }
    if k == 0 {
      LastMatchNone(rules[1..], d);
    } else {
      assert rules[1..][k - 1] == rules[k];
      LastMatchAt(rules[1..], d, k - 1);
    }
  }

  /** Every firing rule that no later rule overrides gives the outcome. */
  lemma LastMatchLast(rules: seq<Rule>, default: real)
    ensures forall k :: 0 <= k < |rules| && rules[k].fires && (forall j :: k < j < |rules| ==> !rules[j].fires) ==>
              LastMatch(rules, default) == rules[k].value
  {
    forall k | 0 <= k < |rules| && rules[k].fires && (forall j :: k < j < |rules| ==> !rules[j].fires)
      ensures LastMatch(rules, default) == rules[k].value
    {
      LastMatchAt(rules, default, k);
    }
  }

  /** With no rule firing the default stays; otherwise the value of the last firing rule is the outcome. */
  lemma {:induction false} LastMatchWins(rules: seq<Rule>, default: real)
    ensures (forall k :: 0 <= k < |rules| ==> !rules[k].fires) ==> LastMatch(rules, default) == default
    ensures forall k :: 0 <= k < |rules| && rules[k].fires && (forall j :: k < j < |rules| ==> !rules[j].fires) ==>
              LastMatch(rules, default) == rules[k].value
  {
    if forall k :: 0 <= k < |rules| ==> !rules[k].fires {
      LastMatchNone(rules, default);
    }
    LastMatchLast(rules, default);
  }

  /** Forward/back: `z1+15 < z2 && z3+15 < z4` forward, then the mirrored test backward. */
  function ForwardRules(h: Heights): seq<Rule> {
    [Rule(h.z1 + 15.0 < h.z2 && h.z3 + 15.0 < h.z4, 1.0), Rule(h.z2 + 15.0 < h.z1 && h.z4 + 15.0 < h.z3, -1.0)]
  }

  /** Left/right: `z1+15 < z3 && z2+15 < z4` right, then the mirrored test left. */
  function SidewaysRules(h: Heights): seq<Rule> {
    [Rule(h.z1 + 15.0 < h.z3 && h.z2 + 15.0 < h.z4, 1.0), Rule(h.z3 + 15.0 < h.z1 && h.z4 + 15.0 < h.z2, -1.0)]
  }

  /** Lift: above 1700 ascend, then exactly 0 descend. */
  function LiftRules(h: Heights, t: Tuning): seq<Rule> {
    [Rule(h.z1 > 1700.0, t.liftForce), Rule(h.z1 == 0.0, -t.liftForce)]
  }

  /** Yaw: markers 1 and 2 at least 60 above 3 and 4 turn left, the mirrored case turns right. */
  function YawRules(h: Heights, t: Tuning): seq<Rule> {
    [Rule(h.z3 + 60.0 <= h.z1 && h.z4 + 60.0 <= h.z2, -t.rotationSpeed),
     Rule(h.z1 + 60.0 <= h.z3 && h.z2 + 60.0 <= h.z4, t.rotationSpeed)]
  }

  predicate Yaws(h: Heights) {
    (h.z3 + 60.0 <= h.z1 && h.z4 + 60.0 <= h.z2) || (h.z1 + 60.0 <= h.z3 && h.z2 + 60.0 <= h.z4)
  }

  /** Tilt about x: the forward tests, giving +10 and -10. */
  function TiltXRules(h: Heights): seq<Rule> {
    [Rule(h.z1 + 15.0 < h.z2 && h.z3 + 15.0 < h.z4, 10.0), Rule(h.z2 + 15.0 < h.z1 && h.z4 + 15.0 < h.z3, -10.0)]
  }

  /** Tilt about z: the sideways tests, giving -10 and +10. */
  function TiltZRules(h: Heights): seq<Rule> {
    [Rule(h.z1 + 15.0 < h.z3 && h.z2 + 15.0 < h.z4, -10.0), Rule(h.z3 + 15.0 < h.z1 && h.z4 + 15.0 < h.z2, 10.0)]
  }

  /** Two rules as two `if`s in a row, and as an `if` / `else if`. */
  lemma PairRules(rules: seq<Rule>, default: real)
    requires |rules| == 2
    ensures LastMatch(rules, default) ==
              if rules[1].fires then rules[1].value else if rules[0].fires then rules[0].value else default
    ensures FirstMatch(rules, default) ==
              if rules[0].fires then rules[0].value else if rules[1].fires then rules[1].value else default
  {
    var rest := rules[1..];
    assert rest[0] == rules[1] && rest[1..] == [];
    var d0 := if rules[0].fires then rules[0].value else default;
    var d1 := if rules[1].fires then rules[1].value else d0;
    assert LastMatch(rules, default) == LastMatch(rest, d0);
    assert LastMatch(rest, d0) == LastMatch(rest[1..], d1);
    assert FirstMatch(rules, default) == if rules[0].fires then rules[0].value else FirstMatch(rest, default);
    assert FirstMatch(rest, default) == if rest[0].fires then rest[0].value else FirstMatch(rest[1..], default);
  }

  /** The `if` chain of Update is the rule lists above: last match for the overwrites, first match for the yaw `else if`, tilt only without yaw. */
  lemma DecideIsRuleLists(h: Heights, axisH: real, axisV: real, t: Tuning)
    ensures var c := Decide(h, axisH, axisV, t);
            c.moveZ == LastMatch(ForwardRules(h), axisV) &&
            c.moveX == LastMatch(SidewaysRules(h), axisH) &&
            c.moveY == LastMatch(LiftRules(h, t), 0.0) &&
            c.rotateY == FirstMatch(YawRules(h, t), 0.0) &&
            c.targetRotateX == (if Yaws(h) then 0.0 else LastMatch(TiltXRules(h), 0.0)) &&
            c.targetRotateZ == (if Yaws(h) then 0.0 else LastMatch(TiltZRules(h), 0.0))
  {
    PairRules(ForwardRules(h), axisV);
    PairRules(SidewaysRules(h), axisH);
    PairRules(LiftRules(h, t), 0.0);
    PairRules(YawRules(h, t), 0.0);
    PairRules(TiltXRules(h), 0.0);
    PairRules(TiltZRules(h), 0.0);
  }

  // ---------------------------------------------------------------------------
  // What the rules mean.

  /** Forward and backward never fire together, nor left and right, nor the two yaws, nor ascend and descend: no overwrite ever changes a value already set. */
  lemma RulesExclusive(h: Heights, t: Tuning)
    ensures !(ForwardRules(h)[0].fires && ForwardRules(h)[1].fires)
    ensures !(SidewaysRules(h)[0].fires && SidewaysRules(h)[1].fires)
    ensures !(LiftRules(h, t)[0].fires && LiftRules(h, t)[1].fires)
    ensures !(YawRules(h, t)[0].fires && YawRules(h, t)[1].fires)
  {
  }

  /** Forward/back and left/right: +1 or -1 when a test fires, otherwise the keyboard axis value. */
  lemma Translation(h: Heights, axisH: real, axisV: real, t: Tuning)
    ensures var c := Decide(h, axisH, axisV, t);
            (h.z1 + 15.0 < h.z2 && h.z3 + 15.0 < h.z4 ==> c.moveZ == 1.0) &&
            (h.z2 + 15.0 < h.z1 && h.z4 + 15.0 < h.z3 ==> c.moveZ == -1.0) &&
            (!(h.z1 + 15.0 < h.z2 && h.z3 + 15.0 < h.z4) && !(h.z2 + 15.0 < h.z1 && h.z4 + 15.0 < h.z3) ==> c.moveZ == axisV) &&
            (h.z1 + 15.0 < h.z3 && h.z2 + 15.0 < h.z4 ==> c.moveX == 1.0) &&
            (h.z3 + 15.0 < h.z1 && h.z4 + 15.0 < h.z2 ==> c.moveX == -1.0) &&
            (!(h.z1 + 15.0 < h.z3 && h.z2 + 15.0 < h.z4) && !(h.z3 + 15.0 < h.z1 && h.z4 + 15.0 < h.z2) ==> c.moveX == axisH)
  {
    DecideIsRuleLists(h, axisH, axisV, t);
    LastMatchWins(ForwardRules(h), axisV);
    LastMatchWins(SidewaysRules(h), axisH);
  }

  /** Lift: ascend above 1700, descend at exactly 0, otherwise none. */
  lemma Lift(h: Heights, axisH: real, axisV: real, t: Tuning)
    ensures var c := Decide(h, axisH, axisV, t);
            c.moveY == (if h.z1 > 1700.0 then t.liftForce else if h.z1 == 0.0 then -t.liftForce else 0.0)
  {
    DecideIsRuleLists(h, axisH, axisV, t);
    LastMatchWins(LiftRules(h, t), 0.0);
  }

  /** Yaw and tilt exclude each other: a yaw leaves both tilt targets 0, and without a yaw the rate is 0. */
  lemma YawExcludesTilt(h: Heights, axisH: real, axisV: real, t: Tuning)
    ensures var c := Decide(h, axisH, axisV, t);
            (h.z3 + 60.0 <= h.z1 && h.z4 + 60.0 <= h.z2 ==> c.rotateY == -t.rotationSpeed) &&
            (h.z1 + 60.0 <= h.z3 && h.z2 + 60.0 <= h.z4 ==> c.rotateY == t.rotationSpeed) &&
            (Yaws(h) ==> c.targetRotateX == 0.0 && c.targetRotateZ == 0.0) &&
            (!Yaws(h) ==> c.rotateY == 0.0)
  {
  }

  /**
   * Without a yaw, each tilt target is -10, 0 or 10 and mirrors the
   * translation decided from the same tests: the x target is 10 times the
   * forward value and the z target -10 times the sideways value when a test
   * fired, and 0 when none did.
   */
  lemma TiltTargets(h: Heights, axisH: real, axisV: real, t: Tuning)
    requires !Yaws(h)
    ensures var c := Decide(h, axisH, axisV, t);
            (c.targetRotateX == -10.0 || c.targetRotateX == 0.0 || c.targetRotateX == 10.0) &&
            (c.targetRotateZ == -10.0 || c.targetRotateZ == 0.0 || c.targetRotateZ == 10.0) &&
            c.targetRotateX == (if ForwardRules(h)[0].fires || ForwardRules(h)[1].fires then 10.0 * c.moveZ else 0.0) &&
            c.targetRotateZ == (if SidewaysRules(h)[0].fires || SidewaysRules(h)[1].fires then -10.0 * c.moveX else 0.0)
  {
    DecideIsRuleLists(h, axisH, axisV, t);
    LastMatchWins(TiltXRules(h), 0.0);
    LastMatchWins(TiltZRules(h), 0.0);
    Translation(h, axisH, axisV, t);
  }

  /** A yaw always comes with a sideways move: yaw left with moving left, yaw right with moving right. */
  lemma YawMovesSideways(h: Heights, axisH: real, axisV: real, t: Tuning)
    ensures var c := Decide(h, axisH, axisV, t);
            (h.z3 + 60.0 <= h.z1 && h.z4 + 60.0 <= h.z2 ==> c.moveX == -1.0) &&
            (h.z1 + 60.0 <= h.z3 && h.z2 + 60.0 <= h.z4 ==> c.moveX == 1.0)
  {
    Translation(h, axisH, axisV, t);
  }

  /** Markers at heights 0, 20, 0, 20 move forward (and, since z1 is 0, descend). */
  lemma ForwardExample(axisH: real, axisV: real, t: Tuning)
    ensures var c := Decide(Heights(0.0, 20.0, 0.0, 20.0), axisH, axisV, t);
            c.moveZ == 1.0 && c.moveY == -t.liftForce && c.rotateY == 0.0 && c.targetRotateX == 10.0
  {
  }
}
