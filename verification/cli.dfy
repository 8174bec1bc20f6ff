/** The argument handling of `main` (training_data_capture.py, lines 10-19,
    33-42 and 60-77): the single command-line argument must name one of the
    eight gestures; it selects the validation rule and the CSV file name.
    Printing the usage text and `sys.exit(1)` are modelled by a `Failure`. */
module Cli {
  import opened Wrappers
  import opened Text
  import opened Gestures

  /** `GESTURES`: the accepted names, in the order the usage text lists them. */
  const GestureNames: seq<string> := [
    "Light Touch",
    "Hard Touch",
    "Left Light",
    "Left Hard",
    "Right Light",
    "Right Hard",
    "Middle",
    "Indeterminate"
  ]

  /** `GESTURE_FUNCTION_NAME_DICT`: the validation rule for each name, given
      as the gesture whose `Holds` is that rule. */
  const RuleTable: map<string, Gesture> := map[
    "Light Touch" := LightTouch,
    "Hard Touch" := HardTouch,
    "Left Light" := LeftLight,
    "Left Hard" := LeftHard,
    "Right Light" := RightLight,
    "Right Hard" := RightHard,
    "Middle" := Middle,
    "Indeterminate" := Indeterminate
  ]

  /** The display name of a gesture: the name that selects it. */
  function Name(g: Gesture): (s: string)
    ensures s in GestureNames
    ensures s in RuleTable && RuleTable[s] == g
  {
    match g
    case LightTouch => "Light Touch"
    case HardTouch => "Hard Touch"
    case LeftLight => "Left Light"
    case LeftHard => "Left Hard"
    case RightLight => "Right Light"
    case RightHard => "Right Hard"
    case Middle => "Middle"
    case Indeterminate => "Indeterminate"
  }

  /** The two tables agree: a name is listed exactly when it has a rule, and
      every listed name is the display name of the gesture it selects. */
  lemma NamesHaveRules()
    ensures forall s :: s in GestureNames <==> s in RuleTable
    ensures forall s :: s in RuleTable ==> Name(RuleTable[s]) == s
  {
  }

  /** Distinct gestures have distinct names, so the name list has no repeats. */
  lemma NamesDistinct(g1: Gesture, g2: Gesture)
    ensures Name(g1) == Name(g2) ==> g1 == g2
  {
  }

  /** `gesture_input.lower().replace(" ", "_") + ".csv"`. */
  function FileName(name: string): (f: string)
    ensures |f| == |name| + 4 && f[|name|..] == ".csv"
    ensures forall i :: 0 <= i < |name| ==> !IsUpper(f[i]) && f[i] != ' '
    ensures forall i :: 0 <= i < |name| && name[i] == ' ' ==> f[i] == '_'
    ensures forall i :: 0 <= i < |name| && name[i] != ' ' ==> f[i] == LowerChar(name[i])
  {
    Replace(Lower(name), ' ', '_') + ".csv"
  }

  /** The eight gestures write to eight different files. */
  lemma FileNamesDistinct(g1: Gesture, g2: Gesture)
    requires g1 != g2
    ensures FileName(Name(g1)) != FileName(Name(g2))
  {
    var a, b := Name(g1), Name(g2);
    if |a| == |b| {
      assert FileName(a)[0] == LowerChar(a[0]);
      assert FileName(b)[0] == LowerChar(b[0]);
    }
  }

  /** Why a command line is refused (the usage text is printed and the
      process exits with status 1). */
  datatype UsageError =
    | WrongArgumentCount(count: nat)
    | UnknownGesture(arg: string)

  /** What an accepted command line selects: the gesture whose rule gates
      the capture, the name written on each row, and the output file. */
  datatype Setup = Setup(gesture: Gesture, name: string, filename: string)

  /** The checks on `sys.argv` (program name first). */
  function CheckArgs(argv: seq<string>): (r: Result<Setup, UsageError>)
    ensures r.Success? <==> |argv| == 2 && Strip(argv[1]) in GestureNames
    ensures |argv| != 2 ==> r == Failure(WrongArgumentCount(|argv|))
    ensures |argv| == 2 && r.Failure? ==> r.error == UnknownGesture(argv[1])
    ensures r.Success? ==> r.value.name == Strip(argv[1]) && Name(r.value.gesture) == r.value.name
    ensures r.Success? ==> r.value.filename == FileName(r.value.name)
  {
    if |argv| != 2 then Failure(WrongArgumentCount(|argv|))
    else
      var name := Strip(argv[1]);
      if name !in GestureNames then Failure(UnknownGesture(argv[1]))
      else
        NamesHaveRules();
        Success(Setup(RuleTable[name], name, FileName(name)))
  }

  /** The file name for "Left Hard". */
  lemma LeftHardFileName(name: string)
    requires name == "Left Hard"
    ensures FileName(name) == "left_hard.csv"
  {
    var f := FileName(name);
    forall i | 0 <= i < 9 ensures f[i] == "left_hard.csv"[i] { }
  }

  /** "Left Hard" needs no stripping and is the name of `LeftHard`. */
  lemma LeftHardListed(arg: string)
    requires arg == "Left Hard"
    ensures Strip(arg) == arg && arg == Name(LeftHard)
  {
    assert Trimmed(arg) by {
      assert arg[0] == 'L';
      assert arg[|arg| - 1] == 'd';
    }
    StripTrimmed(arg);
  }

  /** The exact name "Left Hard" is accepted. */
  lemma AcceptsExactName(argv: seq<string>)
    requires argv == ["capture_gesture.py", "Left Hard"]
    ensures CheckArgs(argv) == Success(Setup(LeftHard, "Left Hard", "left_hard.csv"))
  {
    var arg := argv[1];
    LeftHardListed(arg);
    LeftHardFileName(arg);
    var r := CheckArgs(argv);
    NamesDistinct(r.value.gesture, LeftHard);
  }

  /** "left hard" is not a listed name: names are compared case-sensitively. */
  lemma LowerCaseNotListed(arg: string)
    requires arg == "left hard"
    ensures arg !in GestureNames
  {
    assert arg != "Left Hard" by {
      assert arg[0] != "Left Hard"[0];
    }
    assert forall s :: s in GestureNames && |s| == |arg| ==> s == "Left Hard";
  }

  /** The same name in lower case is refused: the match is case-sensitive. */
  lemma RejectsLowerCaseName(argv: seq<string>)
    requires argv == ["capture_gesture.py", "left hard"]
    ensures CheckArgs(argv) == Failure(UnknownGesture("left hard"))
  {
    var arg := argv[1];
    assert Trimmed(arg) by {
      assert arg[0] == 'l';
      assert arg[|arg| - 1] == 'd';
    }
    StripTrimmed(arg);
    LowerCaseNotListed(arg);
  }
}
