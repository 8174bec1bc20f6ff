/** The threshold rules that gate captured samples (training_data_capture.py,
    lines 22-29). Sensor readings are exact reals: the binary floating-point
    behaviour of the comparisons at 0.1, 0.2, 0.3 and 0.7 is not modelled. */
module Gestures {

  /** One reading of the three pressure channels `(s1, s2, s3)`. */
  datatype Triplet = Triplet(s1: real, s2: real, s3: real)

  /** The eight gesture labels, in the order the program lists them. */
  datatype Gesture =
    | LightTouch
    | HardTouch
    | LeftLight
    | LeftHard
    | RightLight
    | RightHard
    | Middle
    | Indeterminate

  predicate IsLeftLight(t: Triplet)  { 0.1 <= t.s1 <= 0.3 && t.s2 <= 0.1 && t.s3 <= 0.1 }
  predicate IsRightLight(t: Triplet) { t.s1 <= 0.1 && t.s2 <= 0.1 && 0.1 <= t.s3 <= 0.3 }
  predicate IsMiddle(t: Triplet)     { t.s1 <= 0.2 && t.s2 >= 0.7 && t.s3 <= 0.2 }
  predicate IsLeftHard(t: Triplet)   { t.s1 >= 0.7 && t.s2 <= 0.3 && t.s3 <= 0.2 }
  predicate IsRightHard(t: Triplet)  { t.s1 <= 0.2 && t.s2 <= 0.3 && t.s3 >= 0.7 }
  predicate IsHard(t: Triplet)       { t.s1 >= 0.7 && t.s2 >= 0.7 && t.s3 >= 0.7 }
  predicate IsLight(t: Triplet)      { t.s1 <= 0.3 && t.s2 <= 0.3 && t.s3 <= 0.3 }

  /** The rule list `is_indeterminate` scans, in its order. */
  const IndeterminateRules: seq<Triplet -> bool> :=
    [IsLeftLight, IsRightLight, IsMiddle, IsLeftHard, IsRightHard, IsHard, IsLight]

  /** Python's `any(rule(t) for rule in rules)`, scanning left to right. */
  predicate AnyRule(rules: seq<Triplet -> bool>, t: Triplet)
    decreases |rules|
  {
    |rules| > 0 && (rules[0](t) || AnyRule(rules[1..], t))
  }

  predicate IsIndeterminate(t: Triplet) { !AnyRule(IndeterminateRules, t) }

  /** The validation function the capture loop applies for gesture `g`. */
  predicate Holds(g: Gesture, t: Triplet)
  {
    match g
    case LightTouch => IsLight(t)
    case HardTouch => IsHard(t)
    case LeftLight => IsLeftLight(t)
    case LeftHard => IsLeftHard(t)
    case RightLight => IsRightLight(t)
    case RightHard => IsRightHard(t)
    case Middle => IsMiddle(t)
    case Indeterminate => IsIndeterminate(t)
  }

  /** Some explicit (non-catch-all) rule matches `t`. */
  predicate SomeExplicitRule(t: Triplet)
  {
    IsLeftLight(t) || IsRightLight(t) || IsMiddle(t) || IsLeftHard(t)
    || IsRightHard(t) || IsHard(t) || IsLight(t)
  }

  /** `any` over a rule list holds exactly when some listed rule holds. */
  lemma {:induction false} AnyRuleExists(rules: seq<Triplet -> bool>, t: Triplet)
    ensures AnyRule(rules, t) <==> exists i :: 0 <= i < |rules| && rules[i](t)
    decreases |rules|
  {
    if |rules| > 0 {
      AnyRuleExists(rules[1..], t);
      if !rules[0](t) && AnyRule(rules[1..], t) {
        var i :| 0 <= i < |rules[1..]| && rules[1..][i](t);
        assert rules[i + 1](t);
      }
      if exists i :: 0 <= i < |rules| && rules[i](t) {
        var i :| 0 <= i < |rules| && rules[i](t);
        if i > 0 {
          assert rules[1..][i - 1](t);
        }
      }
    }
  }

  /** `is_indeterminate` is true exactly when none of the seven other rules is. */
  lemma IndeterminateIffNoRule(t: Triplet)
    ensures IsIndeterminate(t) <==> !SomeExplicitRule(t)
  {
    AnyRuleExists(IndeterminateRules, t);
    var rs := IndeterminateRules;
    if SomeExplicitRule(t) {
      if IsLeftLight(t) { assert rs[0](t); }
      else if IsRightLight(t) { assert rs[1](t); }
      else if IsMiddle(t) { assert rs[2](t); }
      else if IsLeftHard(t) { assert rs[3](t); }
      else if IsRightHard(t) { assert rs[4](t); }
      else if IsHard(t) { assert rs[5](t); }
      else { assert rs[6](t); }
    }
  }

  /** The catch-all excludes every other gesture. */
  lemma IndeterminateExcludesOthers(g: Gesture, t: Triplet)
    requires g != Indeterminate
    ensures Holds(g, t) ==> !Holds(Indeterminate, t)
  {
    IndeterminateIffNoRule(t);
  }

  /** Every triplet satisfies at least one of the eight gestures. */
  lemma EveryTripletCovered(t: Triplet)
    ensures exists g :: Holds(g, t)
  {
    IndeterminateIffNoRule(t);
    if !Holds(Indeterminate, t) {
      if IsLeftLight(t) { assert Holds(LeftLight, t); }
      else if IsRightLight(t) { assert Holds(RightLight, t); }
      else if IsMiddle(t) { assert Holds(Middle, t); }
      else if IsLeftHard(t) { assert Holds(LeftHard, t); }
      else if IsRightHard(t) { assert Holds(RightHard, t); }
      else if IsHard(t) { assert Holds(HardTouch, t); }
      else { assert Holds(LightTouch, t); }
    }
  }

  /** Both one-sided light regions lie inside the all-channels-light region. */
  lemma SideLightIsLight(t: Triplet)
    ensures IsLeftLight(t) ==> IsLight(t)
    ensures IsRightLight(t) ==> IsLight(t)
  {
  }

  /** The light group: a triplet that is light, left-light or right-light. */
  predicate InLightGroup(t: Triplet) { IsLight(t) || IsLeftLight(t) || IsRightLight(t) }

  /** No two of the flags are set together. */
  predicate AtMostOne(flags: seq<bool>)
  {
    forall i, j :: 0 <= i < j < |flags| ==> !(flags[i] && flags[j])
  }

  /** Middle, left-hard, right-hard, hard and the light group are pairwise
      disjoint regions. */
  lemma FiveRegionsDisjoint(t: Triplet)
    ensures AtMostOne([IsMiddle(t), IsLeftHard(t), IsRightHard(t), IsHard(t), InLightGroup(t)])
  {
    SideLightIsLight(t);
  }

  /** The two one-sided light rules overlap exactly on the corner segment
      `s1 = 0.1, s3 = 0.1, s2 <= 0.1`. */
  lemma LeftRightLightOverlap(t: Triplet)
    ensures IsLeftLight(t) && IsRightLight(t) <==> t.s1 == 0.1 && t.s3 == 0.1 && t.s2 <= 0.1
  {
  }

  /** Hence the five directional rules are not mutually exclusive: a single
      reading satisfies both one-sided light rules. */
  lemma DirectionalRulesOverlap()
    ensures Holds(LeftLight, Triplet(0.1, 0.0, 0.1)) && Holds(RightLight, Triplet(0.1, 0.0, 0.1))
  {
  }

  /** Apart from that overlap, the directional rules are pairwise exclusive. */
  lemma DirectionalOtherwiseDisjoint(t: Triplet)
    ensures AtMostOne([IsLeftLight(t), IsMiddle(t), IsLeftHard(t), IsRightHard(t)])
    ensures AtMostOne([IsRightLight(t), IsMiddle(t), IsLeftHard(t), IsRightHard(t)])
  {
  }
}
