/** The capture loop of `main` (training_data_capture.py, lines 91-111) with
    its I/O stripped away: each line read from the serial port is parsed,
    gated by the target gesture's rule, and kept; the loop ends once the
    kept count reaches the quota. The live stream is modelled by the finite
    sequence of lines read so far. A read that timed out returns whatever
    arrived before the timeout, so a line may be any prefix of a record,
    the empty one included. The CSV rows this session appends are modelled
    by the sequence of kept triplets (every row carries the same target
    gesture name).

    The fold itself is stated over any per-line decision `keep`; `Capture`
    instantiates it with the program's decision `Keep`. */
module Sampler {
  import opened Wrappers
  import opened Gestures
  import opened LineParser

  /** `SAMPLE_SIZE`: kept samples that end a capture session. */
  const SampleSize: nat := 2000

  /** The loop body's decision on the result of `parse_line`: the triplet
      to write, or `None` when the line did not parse or the triplet fails
      the gesture's rule. */
  function Admit(g: Gesture, parsed: Option<Triplet>): (r: Option<Triplet>)
    ensures r.Some? <==> parsed.Some? && Holds(g, parsed.value)
    ensures r.Some? ==> r == parsed
  {
    match parsed
    case None => None
    case Some(t) => if Holds(g, t) then Some(t) else None
  }

  /** The decision for one raw line read from the port. */
  function Keep(num: string -> Option<real>, g: Gesture, line: string): Option<Triplet>
  {
    Admit(g, ParseLine(num, line))
  }

  /** `Keep` for a fixed float parser and target gesture, as a value. */
  function Gate(num: string -> Option<real>, g: Gesture): string -> Option<Triplet>
  {
    line => Keep(num, g, line)
  }

  /** Reference definition without a quota: every triplet `keep` lets
      through, in stream order. */
  function Accepted(keep: string -> Option<Triplet>, lines: seq<string>): seq<Triplet>
    decreases |lines|
  {
    if lines == [] then []
    else
      var before := Accepted(keep, lines[..|lines| - 1]);
      match keep(lines[|lines| - 1])
      case None => before
      case Some(t) => before + [t]
  }

  /** `if SAMPLE_SIZE and valid_data_points >= SAMPLE_SIZE: break`; a zero
      quota is falsy in Python and never stops the loop. */
  predicate QuotaReached(count: nat, quota: nat)
  {
    quota != 0 && count >= quota
  }

  /** What a capture session produced: the kept triplets, how many lines it
      read, and whether it stopped because the quota was reached. */
  datatype Session = Session(kept: seq<Triplet>, consumed: nat, done: bool)

  /** `c` is an honest record of reading the stream: its kept triplets are
      exactly those `keep` passes among the first `c.consumed` lines. */
  predicate KeptSoFar(keep: string -> Option<Triplet>, lines: seq<string>, c: Session)
  {
    c.consumed <= |lines| && c.kept == Accepted(keep, lines[..c.consumed])
  }

  /** The `while True` loop from line `i` on, having kept `kept` so far. */
  function Loop(keep: string -> Option<Triplet>, quota: nat,
                lines: seq<string>, i: nat, kept: seq<Triplet>): (c: Session)
    requires i <= |lines|
    requires kept == Accepted(keep, lines[..i])
    requires !QuotaReached(|kept|, quota)
    ensures KeptSoFar(keep, lines, c)
    ensures i <= c.consumed
    ensures quota != 0 ==> |c.kept| <= quota
    ensures c.done <==> quota != 0 && |c.kept| == quota
    ensures !c.done ==> c.consumed == |lines|
    ensures c.done ==> c.consumed > i && keep(lines[c.consumed - 1]).Some?
    decreases |lines| - i
  {
    if i == |lines| then Session(kept, i, false)
    else
      assert lines[..i + 1][..i] == lines[..i];
      var kept' := match keep(lines[i])
        case None => kept
        case Some(t) => kept + [t];
      if QuotaReached(|kept'|, quota) then Session(kept', i + 1, true)
      else Loop(keep, quota, lines, i + 1, kept')
  }

  /** The loop run from its start, with nothing kept yet. */
  function Run(keep: string -> Option<Triplet>, quota: nat, lines: seq<string>): (c: Session)
    ensures KeptSoFar(keep, lines, c)
    ensures quota != 0 ==> |c.kept| <= quota
    ensures c.done <==> quota != 0 && |c.kept| == quota
    ensures !c.done ==> c.consumed == |lines|
    ensures c.done ==> c.consumed > 0 && keep(lines[c.consumed - 1]).Some?
  {
    assert lines[..0] == [];
    Loop(keep, quota, lines, 0, [])
  }

  /** A capture session for gesture `g` over the lines the port delivered. */
  function Capture(num: string -> Option<real>, g: Gesture, lines: seq<string>): (c: Session)
    ensures KeptSoFar(Gate(num, g), lines, c)
    ensures |c.kept| <= SampleSize
    ensures forall t :: t in c.kept ==> Holds(g, t)
    ensures c.done <==> |c.kept| == SampleSize
    ensures !c.done ==> c.consumed == |lines|
    ensures c.done ==> c.consumed > 0 && Keep(num, g, lines[c.consumed - 1]).Some?
  {
    var c := Run(Gate(num, g), SampleSize, lines);
    AcceptedSound(num, g, lines[..c.consumed]);
    c
  }

  /** The quota-free filter distributes over concatenation of streams. */
  lemma {:induction false} AcceptedAppend(keep: string -> Option<Triplet>, a: seq<string>, b: seq<string>)
    ensures Accepted(keep, a + b) == Accepted(keep, a) + Accepted(keep, b)
    decreases |b|
  {
    if b == [] {
      assert a + b == a;
    } else {
      var b' := b[..|b| - 1];
      assert (a + b)[..|a + b| - 1] == a + b';
      assert (a + b)[|a + b| - 1] == b[|b| - 1];
      AcceptedAppend(keep, a, b');
    }
  }

  /** The kept triplets of a shorter stream prefix are a prefix of those of a
      longer one. */
  lemma AcceptedPrefix(keep: string -> Option<Triplet>, lines: seq<string>, n: nat)
    requires n <= |lines|
    ensures var all := Accepted(keep, lines);
      var some := Accepted(keep, lines[..n]);
      |some| <= |all| && some == all[..|some|]
  {
    assert lines == lines[..n] + lines[n..];
    AcceptedAppend(keep, lines[..n], lines[n..]);
  }

  /** A session keeps exactly the first `quota` accepted triplets of the
      stream, or all of them when fewer arrive or the quota is zero. */
  lemma RunKeepsFirstAccepted(keep: string -> Option<Triplet>, quota: nat, lines: seq<string>)
    ensures var c := Run(keep, quota, lines);
      var all := Accepted(keep, lines);
      && |c.kept| == (if quota == 0 || |all| < quota then |all| else quota)
      && c.kept == all[..|c.kept|]
  {
    var c := Run(keep, quota, lines);
    AcceptedPrefix(keep, lines, c.consumed);
    if !c.done {
      assert lines[..c.consumed] == lines;
    }
  }

  /** Strictly increasing line indices. */
  predicate Increasing(idx: seq<nat>)
  {
    forall a, b :: 0 <= a < b < |idx| ==> idx[a] < idx[b]
  }

  /** The kept triplets are exactly those of the lines `keep` lets through,
      listed in stream order: `idx` names the source line of each. */
  lemma {:induction false} AcceptedInOrder(keep: string -> Option<Triplet>, lines: seq<string>)
    returns (idx: seq<nat>)
    ensures |idx| == |Accepted(keep, lines)|
    ensures Increasing(idx)
    ensures forall k :: 0 <= k < |idx| ==>
      idx[k] < |lines| && keep(lines[idx[k]]) == Some(Accepted(keep, lines)[k])
    ensures forall j :: 0 <= j < |lines| && keep(lines[j]).Some? ==> j in idx
    decreases |lines|
  {
    if lines == [] {
      idx := [];
    } else {
      var n := |lines| - 1;
      var init := lines[..n];
      var prev := AcceptedInOrder(keep, init);
      var before := Accepted(keep, init);
      var kept := Accepted(keep, lines);
      assert forall k :: 0 <= k < |prev| ==> lines[prev[k]] == init[prev[k]];
      if keep(lines[n]).Some? {
        idx := prev + [n];
        assert kept == before + [keep(lines[n]).value];
        forall k | 0 <= k < |idx|
          ensures idx[k] < |lines| && keep(lines[idx[k]]) == Some(kept[k])
        {
          if k < |prev| {
            assert idx[k] == prev[k] && kept[k] == before[k];
          }
        }
      } else {
        idx := prev;
        assert kept == before;
      }
      forall j | 0 <= j < |lines| && keep(lines[j]).Some? ensures j in idx {
        if j < n {
          assert init[j] == lines[j];
          assert j in prev;
        }
      }
    }
  }

  /** Every triplet the program keeps parsed from some line of the stream
      and satisfies the target gesture's rule. */
  lemma AcceptedSound(num: string -> Option<real>, g: Gesture, lines: seq<string>)
    ensures forall t :: t in Accepted(Gate(num, g), lines) ==>
      Holds(g, t) && exists j :: 0 <= j < |lines| && ParseLine(num, lines[j]) == Some(t)
  {
    var kept := Accepted(Gate(num, g), lines);
    var idx := AcceptedInOrder(Gate(num, g), lines);
    forall t | t in kept
      ensures Holds(g, t) && exists j :: 0 <= j < |lines| && ParseLine(num, lines[j]) == Some(t)
    {
      var k :| 0 <= k < |kept| && kept[k] == t;
      var j := idx[k];
      assert Gate(num, g)(lines[j]) == Some(t);
      assert Keep(num, g, lines[j]) == Some(t);
      assert ParseLine(num, lines[j]) == Some(t);
    }
  }

  /** A line that does not parse, or fails the rule, leaves the kept
      samples, and so the count, unchanged. */
  lemma SkippedLineKeepsCount(num: string -> Option<real>, g: Gesture, lines: seq<string>, line: string)
    requires ParseLine(num, line).None? || !Holds(g, ParseLine(num, line).value)
    ensures Accepted(Gate(num, g), lines + [line]) == Accepted(Gate(num, g), lines)
  {
    assert (lines + [line])[..|lines|] == lines;
    assert Gate(num, g)(line) == None;
  }

  /** Once the quota is reached, nothing read afterwards changes the loop. */
  lemma {:induction false} LoopStopsAtQuota(keep: string -> Option<Triplet>, quota: nat,
                                            lines: seq<string>, more: seq<string>,
                                            i: nat, kept: seq<Triplet>)
    requires i <= |lines|
    requires kept == Accepted(keep, lines[..i])
    requires !QuotaReached(|kept|, quota)
    requires Loop(keep, quota, lines, i, kept).done
    ensures (lines + more)[..i] == lines[..i]
    ensures Loop(keep, quota, lines + more, i, kept) == Loop(keep, quota, lines, i, kept)
    decreases |lines| - i
  {
    assert (lines + more)[..i] == lines[..i];
    if i < |lines| {
      assert (lines + more)[i] == lines[i];
      var kept' := match keep(lines[i])
        case None => kept
        case Some(t) => kept + [t];
      if !QuotaReached(|kept'|, quota) {
        assert lines[..i + 1][..i] == lines[..i];
        LoopStopsAtQuota(keep, quota, lines, more, i + 1, kept');
      }
    }
  }

  /** A finished session ignores the rest of the stream. */
  lemma RunIgnoresLaterLines(keep: string -> Option<Triplet>, quota: nat,
                             lines: seq<string>, more: seq<string>)
    requires Run(keep, quota, lines).done
    ensures Run(keep, quota, lines + more) == Run(keep, quota, lines)
  {
    assert lines[..0] == [];
    assert (lines + more)[..0] == [];
    LoopStopsAtQuota(keep, quota, lines, more, 0, []);
  }

  /** The right-light reading `s1=0.05,s2=0.05,s3=0.20` is kept when
      capturing "Right Light" and discarded when capturing "Middle" (its
      `s2` is far below 0.7). */
  lemma RightLightReadingGating(num: string -> Option<real>, line: string)
    requires num("0.05") == Some(0.05) && num("0.20") == Some(0.20)
    requires line == "s1=0.05,s2=0.05,s3=0.20"
    ensures Keep(num, RightLight, line) == Some(Triplet(0.05, 0.05, 0.20))
    ensures Keep(num, Middle, line) == None
  {
    var t := Triplet(0.05, 0.05, 0.20);
    ParseRightLightReading(num, line);
    assert ParseLine(num, line) == Some(t);
    assert Holds(RightLight, t) && !Holds(Middle, t);
  }

  /** The line `s1=abc,s2=0.1,s3=0.1`, whose first value is not a number,
      produces no sample for any gesture. */
  lemma NonNumericLineSkipped(num: string -> Option<real>, g: Gesture, line: string)
    requires num("abc") == None
    requires line == "s1=abc,s2=0.1,s3=0.1"
    ensures Keep(num, g, line) == None
  {
    ParseNonNumericLine(num, line);
  }
}
