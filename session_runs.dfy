/** Properties of a run of `measure` events: the baseline telescopes, labels are only
    ever appended, and the window stays at two points once it starts within two. */
module SessionRuns {
  import opened Geometry
  import opened SuperMeasure

  /** The session after handling `evs` in order. */
  function Run(s: Session, evs: seq<MeasureEvent>): Session
    decreases |evs|
  {
    if evs == [] then s else Run(OnMeasure(s, evs[0]), evs[1..])
  }

  /** The segment length each processed event derives (its total minus the baseline
      it finds), in event order; events for other tools derive none. */
  function SegmentLengths(s: Session, evs: seq<MeasureEvent>): seq<real>
    decreases |evs|
  {
    if evs == [] then []
    else
      (if evs[0].toolName == Distance then [evs[0].values - s.prevLineLength] else [])
      + SegmentLengths(OnMeasure(s, evs[0]), evs[1..])
  }

  /** The total of the last processed event in `evs`, or `base` if there is none. */
  function LastTotal(base: real, evs: seq<MeasureEvent>): real
    decreases |evs|
  {
    if evs == [] then base
    else LastTotal(if evs[0].toolName == Distance then evs[0].values else base, evs[1..])
  }

  function Sum(xs: seq<real>): real
    decreases |xs|
  {
    if xs == [] then 0.0 else xs[0] + Sum(xs[1..])
  }

  /** The lengths the labels display, in label order. */
  function LabelValues(labels: seq<Label>): seq<real>
  {
    seq(|labels|, i requires 0 <= i < |labels| => labels[i].text.value)
  }

  lemma {:induction false} SumConcat(xs: seq<real>, ys: seq<real>)
    ensures Sum(xs + ys) == Sum(xs) + Sum(ys)
    decreases |xs|
  {
    if xs == [] {
      assert xs + ys == ys;
    } else {
      assert (xs + ys)[1..] == xs[1..] + ys;
      SumConcat(xs[1..], ys);
    }
  }

  /** Telescoping: the lengths derived over a run add up to the run's final baseline
      minus its starting one, and that final baseline is the last processed total. */
  lemma {:induction false} Telescoping(s: Session, evs: seq<MeasureEvent>)
    ensures Run(s, evs).prevLineLength == LastTotal(s.prevLineLength, evs)
    ensures Sum(SegmentLengths(s, evs)) == Run(s, evs).prevLineLength - s.prevLineLength
    decreases |evs|
  {
    if evs != [] {
      var e := evs[0];
      var s1 := OnMeasure(s, e);
      Telescoping(s1, evs[1..]);
      var head := if e.toolName == Distance then [e.values - s.prevLineLength] else [];
      SumConcat(head, SegmentLengths(s1, evs[1..]));
      assert Sum(head) == s1.prevLineLength - s.prevLineLength by {
        if e.toolName == Distance {
          assert Sum(head) == head[0] + Sum(head[1..]);
          assert head[1..] == [];
        }
      }
    }
  }

  /** Labels are append-only over a run of measure events: every earlier label keeps
      its place and value, and exactly one label is added per labelling event. */
  lemma {:induction false} LabelsAppendOnly(s: Session, evs: seq<MeasureEvent>)
    ensures |Run(s, evs).measureText| >= |s.measureText|
    ensures Run(s, evs).measureText[..|s.measureText|] == s.measureText
    decreases |evs|
  {
    if evs != [] {
      var s1 := OnMeasure(s, evs[0]);
      LabelsAppendOnly(s1, evs[1..]);
      var t := Run(s1, evs[1..]).measureText;
      assert t[..|s.measureText|] == t[..|s1.measureText|][..|s.measureText|];
    }
  }

  /** A window that starts with at most two points never exceeds two over a run of
      measure events; one that starts non-empty never becomes empty. */
  lemma {:induction false} WindowStaysBounded(s: Session, evs: seq<MeasureEvent>)
    ensures |s.segs| <= 2 ==> |Run(s, evs).segs| <= 2
    ensures |s.segs| >= 1 ==> |Run(s, evs).segs| >= 1
    decreases |evs|
  {
    if evs != [] {
      WindowStaysBounded(OnMeasure(s, evs[0]), evs[1..]);
    }
  }

  /** Once the window holds a point, every processed event places a label, and the
      new labels display exactly the derived segment lengths, in order. */
  lemma {:induction false} LabelsShowSegmentLengths(s: Session, evs: seq<MeasureEvent>)
    requires |s.segs| >= 1
    ensures |Run(s, evs).measureText| >= |s.measureText|
    ensures LabelValues(Run(s, evs).measureText[|s.measureText|..]) == SegmentLengths(s, evs)
    decreases |evs|
  {
    LabelsAppendOnly(s, evs);
    if evs == [] {
      assert Run(s, evs).measureText[|s.measureText|..] == [];
    } else {
      var e := evs[0];
      var s1 := OnMeasure(s, e);
      var rest := evs[1..];
      LabelsShowSegmentLengths(s1, rest);
      LabelsAppendOnly(s1, rest);
      var t := Run(s1, rest).measureText;
      assert Run(s, evs).measureText == t;
      var n, n1 := |s.measureText|, |s1.measureText|;
      var added := s1.measureText[n..];
      assert t[n..] == added + t[n1..] by {
        assert t[..n1] == s1.measureText;
      }
      var head := if e.toolName == Distance then [e.values - s.prevLineLength] else [];
      assert LabelValues(added) == head;
      assert SegmentLengths(s, evs) == head + SegmentLengths(s1, rest);
      assert LabelValues(added + t[n1..]) == LabelValues(added) + LabelValues(t[n1..]);
    }
  }

  /** After a tool change and the seed push, the labels of a run of measure events
      add up to the run's last processed total (0 if none was processed), and the
      window holds one or two points throughout. */
  lemma SessionTelescopes(s: Session, seed: Point, evs: seq<MeasureEvent>)
    ensures Sum(LabelValues(Run(OnCursorCapture(OnToolChange(s), seed), evs).measureText)) == LastTotal(0.0, evs)
    ensures 1 <= |Run(OnCursorCapture(OnToolChange(s), seed), evs).segs| <= 2
  {
    var t := OnCursorCapture(OnToolChange(s), seed);
    LabelsShowSegmentLengths(t, evs);
    Telescoping(t, evs);
    WindowStaysBounded(t, evs);
    assert Run(t, evs).measureText[0..] == Run(t, evs).measureText;
  }
}
