# Gesture sample capture, modelled in Dafny

This project models the sample-gating logic of the training-data capture
script of a three-channel touch sensor (`training_data_capture.py`). The
script reads lines such as `s1=0.05,s2=0.05,s3=0.20` from a serial port. It
parses each line into a sensor triplet and keeps the triplet only if it
satisfies the geometric rule of the gesture named on the command line. It
stops once `SAMPLE_SIZE` (2000) triplets have been kept.

Modules, one per part of the script:

- `Gestures` (`gestures.dfy`): the `Triplet` and `Gesture` datatypes, the
  seven threshold rules, the catch-all `is_indeterminate`, and `Holds`, the
  rule selected for each gesture. Sensor values are exact reals.
- `Text` (`text.dfy`): the Python string operations the script uses.
  `str.strip()` uses Python's exact whitespace set. `str.split(sep)`
  is proved to invert `join`. `str.lower()` is modelled on whole strings
  for ASCII capitals only; `str.replace` is modelled for a
  one-character pattern and replacement.
- `LineParser` (`line_parser.dfy`): `parse_line`. Python's `float()` is the
  parameter `num: string -> Option<real>`, an arbitrary partial function.
- `Sampler` (`sampler.dfy`): the capture loop as a fold over the lines the
  port delivered. It has a quota and returns the kept triplets.
- `Cli` (`cli.dfy`): the argument check, the name-to-rule table
  `GESTURE_FUNCTION_NAME_DICT`, and the derived CSV file name.
- `Wrappers` (`wrappers.dfy`): `Option` and `Result`.

Facts about the rules and the loop that the proofs establish:

- The directional rules (left/right light, left/right hard, middle) are not
  pairwise exclusive: `is_left_light` and `is_right_light` both hold
  exactly when `s1 = 0.1`, `s3 = 0.1` and `s2 <= 0.1`
  (`Gestures.LeftRightLightOverlap`, `Gestures.DirectionalRulesOverlap`).
  Every other directional pair is disjoint
  (`Gestures.DirectionalOtherwiseDisjoint`).
- The one-sided light regions lie inside `is_light`
  (`Gestures.SideLightIsLight`). Middle, left-hard, right-hard, hard and
  the light group taken as one are pairwise disjoint
  (`Gestures.FiveRegionsDisjoint`).
- `is_indeterminate` negates all seven rules, including `is_light` and
  `is_hard` (`Gestures.IndeterminateIffNoRule`).
- `SAMPLE_SIZE and count >= SAMPLE_SIZE`: a zero quota is falsy in Python
  and never ends the loop. `Sampler.QuotaReached` keeps this. The program
  itself always uses 2000.

## Model

| member | source | states |
|---|---|---|
| Gestures.AnyRuleExists | training_data_capture.py:29 | `any(rule(t) for rule in rules)` holds iff some rule in the list holds |
| Gestures.IndeterminateIffNoRule | training_data_capture.py:29 | `is_indeterminate` is true exactly when none of the seven other rules holds |
| Gestures.IndeterminateExcludesOthers | training_data_capture.py:29 | a triplet that satisfies any other gesture's rule is not indeterminate |
| Gestures.EveryTripletCovered | training_data_capture.py:22-29 | every triplet satisfies the rule of at least one of the eight gestures |
| Gestures.SideLightIsLight | training_data_capture.py:22-28 | the left-light and right-light regions lie inside the all-channels-at-most-0.3 region |
| Gestures.FiveRegionsDisjoint | training_data_capture.py:24-28 | middle, left-hard, right-hard, hard and the light group are pairwise disjoint |
| Gestures.LeftRightLightOverlap | training_data_capture.py:22-23 | left-light and right-light both hold iff `s1 = 0.1`, `s3 = 0.1` and `s2 <= 0.1` |
| Gestures.DirectionalRulesOverlap | training_data_capture.py:22-23 | the reading (0.1, 0, 0.1) is both left-light and right-light, so the directional rules are not exclusive |
| Gestures.DirectionalOtherwiseDisjoint | training_data_capture.py:22-26 | apart from that pair, no two directional rules hold together |
| Text.Strip | training_data_capture.py:46 | `strip()` leaves a string with no whitespace at either end; it is empty iff the line was all whitespace |
| Text.StripPadded | training_data_capture.py:46 | `strip()` removes exactly the whitespace padding around a trimmed body |
| Text.Split | training_data_capture.py:50 | `split(sep)` gives at least one piece, none holding the separator, which `join` reassembles into the input |
| Text.SplitJoin | training_data_capture.py:50 | `split` inverts `join` on separator-free pieces |
| Text.SplitCount | training_data_capture.py:50 | `split` yields one more piece than the text has separators |
| Text.Lower | training_data_capture.py:76 | `lower()` keeps the length and lowers each ASCII capital |
| Text.Replace | training_data_capture.py:76 | `replace` swaps every occurrence of one character for another, keeping the length |
| LineParser.FieldValue | training_data_capture.py:52-54 | `field.split("=")[1]` exists iff the field contains `=`, and holds no `=` |
| LineParser.FieldValueOf | training_data_capture.py:52-54 | the value taken is the text between the first and second `=`, whatever the key |
| LineParser.ParseFields | training_data_capture.py:50-56 | a triplet is built exactly when there are at least three fields whose values all convert, and it is the tuple of those three numbers in field order |
| LineParser.ParseLine | training_data_capture.py:44-57 | `parse_line` fails on a blank line, on fewer than two commas, and on a first-three field without `=` or with an unconvertible value |
| LineParser.RenderedFields | training_data_capture.py:50 | the first three comma-separated fields of a line are its three raw fields, whatever follows |
| LineParser.ParseRenderedLine | training_data_capture.py:44-57 | on any whitespace-padded line, `parse_line` ignores the keys and every field after the third; it returns the three converted values, or `None` if one fails |
| LineParser.ParseSensorLine | training_data_capture.py:44-57 | a printed `s1=..,s2=..,s3=..` line with its line ending parses back to the numbers `float()` reads from its value texts |
| LineParser.EmptyLineFails | training_data_capture.py:46-48 | the empty line, returned by a read that received nothing before its timeout, is unparsable |
| LineParser.ParseRightLightReading | training_data_capture.py:44-57 | `s1=0.05,s2=0.05,s3=0.20` parses to (0.05, 0.05, 0.20) |
| LineParser.ParseNonNumericLine | training_data_capture.py:44-57 | `s1=abc,s2=0.1,s3=0.1` is unparsable when `abc` is not a number |
| Sampler.Admit | training_data_capture.py:96-102 | a parsed line yields a sample iff it parsed and its triplet satisfies the target gesture's rule, and the sample is that triplet unchanged |
| Sampler.Loop | training_data_capture.py:91-111 | the loop keeps exactly the accepted triplets of the lines it read, never more than the quota. It stops iff the count reaches the quota, on the line that reached it; otherwise it reads every line |
| Sampler.Run | training_data_capture.py:91-111 | the same, for the loop started with nothing kept |
| Sampler.Capture | training_data_capture.py:91-111 | a session for one gesture keeps exactly the triplets its gate passes among the lines it read, in order: at most 2000, all satisfying that gesture's rule. It ends exactly when 2000 are kept, on a line that was kept; otherwise it reads every line |
| Sampler.AcceptedAppend | training_data_capture.py:93-102 | filtering a stream in two parts gives the two filtered parts in order |
| Sampler.RunKeepsFirstAccepted | training_data_capture.py:91-111 | a session keeps exactly the first `quota` accepted triplets of the stream, or all of them when fewer arrive |
| Sampler.AcceptedInOrder | training_data_capture.py:93-104 | kept triplets come from strictly increasing line positions, and every line the gate passes is among them |
| Sampler.AcceptedSound | training_data_capture.py:95-104 | every kept triplet was parsed from a line of the stream and satisfies the target rule |
| Sampler.SkippedLineKeepsCount | training_data_capture.py:96-102 | an unparsable or rejected line leaves the kept samples and their count unchanged |
| Sampler.LoopStopsAtQuota | training_data_capture.py:109-111 | once the quota is reached, lines that arrive later change nothing |
| Sampler.RunIgnoresLaterLines | training_data_capture.py:109-111 | a finished session is the same whatever the stream holds afterwards |
| Sampler.RightLightReadingGating | training_data_capture.py:95-102 | the line `s1=0.05,s2=0.05,s3=0.20` is kept for "Right Light" and discarded for "Middle" |
| Sampler.NonNumericLineSkipped | training_data_capture.py:95-97 | the line `s1=abc,s2=0.1,s3=0.1` yields no sample for any gesture when `abc` is not a number |
| Cli.Name | training_data_capture.py:33-42 | each gesture's name is listed in `GESTURES` and selects that gesture's rule in the table |
| Cli.NamesHaveRules | training_data_capture.py:10-42 | a name is listed in `GESTURES` iff it has an entry in the rule table, and each entry's gesture is named by its key |
| Cli.NamesDistinct | training_data_capture.py:10-19 | distinct gestures have distinct names |
| Cli.FileName | training_data_capture.py:76 | the file name is the name with each capital lowered and each space made `_`, then `.csv` |
| Cli.FileNamesDistinct | training_data_capture.py:76 | the eight gestures write to eight different files |
| Cli.CheckArgs | training_data_capture.py:60-77 | the command line is accepted iff it has exactly one argument whose stripped form is listed, by case-sensitive match. The result then names that gesture and its file; otherwise it gives the reason |
| Cli.LeftHardFileName | training_data_capture.py:76 | "Left Hard" writes to `left_hard.csv` |
| Cli.AcceptsExactName | training_data_capture.py:60-77 | the argument "Left Hard" is accepted and selects the left-hard rule and `left_hard.csv` |
| Cli.LowerCaseNotListed | training_data_capture.py:69 | "left hard" is not a listed name |
| Cli.RejectsLowerCaseName | training_data_capture.py:67-74 | the argument "left hard" is refused as an unknown gesture |

## Left out

- Serial port access (`serial.Serial`, `readline`, `reset_input_buffer`,
  `close`), `time.sleep`, UTF-8 decoding with `errors="ignore"`, file
  existence checks, CSV writing and its header row, printing and
  `sys.exit`: these are I/O. The stream is the finite sequence of lines read
  so far. The rows this session appends to the CSV file (opened for
  appending) are its kept triplets, each labelled with the target
  gesture's name. A refused command line is a `Failure` value.
- Read timeouts: `readline()` with a one-second timeout returns whatever
  arrived before the timeout, so a line may be any prefix of a record, the
  empty one included. Lines are arbitrary strings, so such a truncated
  record is parsed like any other line and may be kept with a value that
  differs from the full record's (`s1=0.1,s2=0.1,s3=0.2` cut from
  `...s3=0.25`). Nothing in the model detects the truncation.
- Python's `float()`: it is the uninterpreted parameter `num`, so the model
  says nothing about which texts are numbers. This includes the
  whitespace `float()` itself tolerates inside a field.
- Non-finite readings: `float()` accepts `nan` and `inf`, and the model's
  values are reals. A NaN reading fails every comparison, so in the program
  it satisfies only `is_indeterminate`. The model has no such value.
- The `:.4f` and `:.3f` formatting of written and printed values, and the
  4-decimal round trip of the persisted format: floating-point formatting
  is not modelled.
- Binary floating point: sensor values are exact reals. Comparisons that
  IEEE doubles decide differently near 0.1, 0.2, 0.3 and 0.7 are not
  modelled.
- Text.Lower: lowers ASCII capitals only, where Python's `str.lower()`
  covers all of Unicode. Every name the program accepts is ASCII, so
  file names are exact for every accepted argument.
- The end of the live stream: the real loop only ends at the quota. A session
  that has not reached it (`done` false) has read every line delivered so far.
- `gesture_nn.py` as a whole:
  - dataset loading is an HTTP/pandas fetch;
  - training and evaluation are TensorFlow/Keras numerics in a library that
    is not part of this model;
  - weight export formats float32 arrays whose shapes come from that library.
