/**
 The axis scales of the log canvas: the shared time axis `xScale` over
 `[0, max Time]`, optionally rescaled by the zoom state, and one inverted
 value axis `yScale` per selected field over its scanned `[min, max]`.
 */
module Scales {
  import opened LogEntries
  import opened RangeScan

  /** A d3 linear scale from the domain [d0, d1] onto the range [r0, r1], without clamping. */
  datatype LinearScale = LinearScale(d0: real, d1: real, r0: real, r1: real) {
    /** The image of a value; a one-point domain sends every value to the middle of the range. */
    function Apply(v: real): real {
      if d0 == d1 then (r0 + r1) / 2.0 else r0 + (v - d0) / (d1 - d0) * (r1 - r0)
    }
  }

  /** A scale sends the ends of its domain to the ends of its range. */
  lemma ApplyEnds(s: LinearScale)
    requires s.d0 != s.d1
    ensures s.Apply(s.d0) == s.r0 && s.Apply(s.d1) == s.r1
  {
  }

  /** An inverted scale (range running downwards) never sends a larger value higher. */
  lemma ApplyAntiMonotone(s: LinearScale, u: real, v: real)
    requires s.d0 < s.d1 && s.r1 <= s.r0 && u <= v
    ensures s.Apply(v) <= s.Apply(u)
  {
    var tu := (u - s.d0) / (s.d1 - s.d0);
    var tv := (v - s.d0) / (s.d1 - s.d0);
    assert tu <= tv by {
      assert tv - tu == (v - u) / (s.d1 - s.d0);
    }
    assert tv * (s.r1 - s.r0) <= tu * (s.r1 - s.r0) by {
      assert tv * (s.r1 - s.r0) - tu * (s.r1 - s.r0) == (tv - tu) * (s.r1 - s.r0);
    }
  }

  lemma ProductSign(a: real, b: real)
    requires 0.0 <= a
    ensures b <= 0.0 ==> a * b <= 0.0
    ensures 0.0 <= b ==> 0.0 <= a * b
  {
  }

  /** A part of a positive whole is a fraction between 0 and 1. */
  lemma UnitFraction(a: real, b: real)
    requires 0.0 <= a <= b && 0.0 < b
    ensures 0.0 <= a / b <= 1.0
  {
  }

  /** A value inside the domain lands inside the range. */
  lemma ApplyWithin(s: LinearScale, v: real)
    requires s.d0 <= v <= s.d1 && s.r1 <= s.r0
    ensures s.r1 <= s.Apply(v) <= s.r0
  {
    if s.d0 != s.d1 {
      var t := (v - s.d0) / (s.d1 - s.d0);
      var w := s.r1 - s.r0;
      UnitFraction(v - s.d0, s.d1 - s.d0);
      ProductSign(t, w);
      ProductSign(1.0 - t, w);
      assert t * w == w - (1.0 - t) * w;
      assert s.Apply(v) == s.r0 + t * w;
    }
  }

  /** The same for a range running upwards. */
  lemma ApplyWithinUpwards(s: LinearScale, v: real)
    requires s.d0 <= v <= s.d1 && s.r0 <= s.r1
    ensures s.r0 <= s.Apply(v) <= s.r1
  {
    if s.d0 != s.d1 {
      var t := (v - s.d0) / (s.d1 - s.d0);
      var w := s.r1 - s.r0;
      UnitFraction(v - s.d0, s.d1 - s.d0);
      ProductSign(t, w);
      ProductSign(1.0 - t, w);
      assert t * w == w - (1.0 - t) * w;
      assert s.Apply(v) == s.r0 + t * w;
    }
  }

  /** `max(filtered, xValue)`: the latest time stamp, or nothing (`undefined`) for no records. */
  function MaxTime(es: seq<LogEntry>): (r: Option<real>)
    ensures r.None? <==> es == []
  {
    if es == [] then None
    else
      var last := XValue(es[|es| - 1]);
      match MaxTime(es[..|es| - 1])
      case None => Some(last)
      case Some(m) => Some(if last > m then last else m)
  }

  /** The latest time stamp is at least every record's and is some record's. */
  lemma {:induction false} MaxTimeBounds(es: seq<LogEntry>)
    requires es != []
    ensures forall j :: 0 <= j < |es| ==> XValue(es[j]) <= MaxTime(es).value
    ensures exists j :: 0 <= j < |es| && XValue(es[j]) == MaxTime(es).value
  {
    var p := es[..|es| - 1];
    assert forall j :: 0 <= j < |p| ==> p[j] == es[j];
    if p != [] {
      MaxTimeBounds(p);
    }
  }

  /**
   The zoom state, known here only through what it does to the time axis
   (`zoomState.rescaleX`).
   */
  datatype ZoomTransform = ZoomTransform(rescaleX: LinearScale -> LinearScale)

  /**
   `xScale`: `[0, max Time]` onto `[0, width]`, rescaled by the zoom state when
   there is one. For no records d3's `max` is undefined and so is the axis.
   */
  function XScale(filtered: seq<LogEntry>, width: real, zoom: Option<ZoomTransform>): Option<LinearScale> {
    match MaxTime(filtered)
    case None => None
    case Some(t) =>
      var base := LinearScale(0.0, t, 0.0, width);
      match zoom
      case None => Some(base)
      case Some(z) => Some(z.rescaleX(base))
  }

  /** Without zoom the time axis sends 0 to the left edge and the latest time stamp to the right edge. */
  lemma XScaleUnzoomedEnds(filtered: seq<LogEntry>, width: real)
    requires filtered != [] && MaxTime(filtered).value != 0.0
    ensures XScale(filtered, width, None) == Some(LinearScale(0.0, MaxTime(filtered).value, 0.0, width))
    ensures XScale(filtered, width, None).value.Apply(0.0) == 0.0
    ensures XScale(filtered, width, None).value.Apply(MaxTime(filtered).value) == width
  {
    ApplyEnds(LinearScale(0.0, MaxTime(filtered).value, 0.0, width));
  }

  /** Without zoom, and with non-negative time stamps, every record lies between the edges. */
  lemma XScaleUnzoomedWithin(filtered: seq<LogEntry>, width: real, j: nat)
    requires j < |filtered| && 0.0 <= width
    requires forall k :: 0 <= k < |filtered| ==> 0.0 <= XValue(filtered[k])
    ensures XScale(filtered, width, None).Some?
    ensures 0.0 <= XScale(filtered, width, None).value.Apply(XValue(filtered[j])) <= width
  {
    MaxTimeBounds(filtered);
    ApplyWithinUpwards(LinearScale(0.0, MaxTime(filtered).value, 0.0, width), XValue(filtered[j]));
  }

  /** `yScale`: the field's `[min, max]`, or `[0, 0]` without a descriptor, onto `[height, 0]`. */
  function YScale(fields: map<string, FieldRange>, field: SelectedField, height: real): LinearScale {
    if field.fieldLabel in fields then
      LinearScale(fields[field.fieldLabel].min, fields[field.fieldLabel].max, height, 0.0)
    else
      LinearScale(0.0, 0.0, height, 0.0)
  }

  /**
   A field's axis sends its minimum to the bottom edge and its maximum to the
   top edge, and a larger value never plots lower.
   */
  lemma YScaleInverted(fields: map<string, FieldRange>, field: SelectedField, height: real, u: real, v: real)
    requires field.fieldLabel in fields
    requires fields[field.fieldLabel].min < fields[field.fieldLabel].max
    requires 0.0 <= height && u <= v
    ensures YScale(fields, field, height).Apply(fields[field.fieldLabel].min) == height
    ensures YScale(fields, field, height).Apply(fields[field.fieldLabel].max) == 0.0
    ensures YScale(fields, field, height).Apply(v) <= YScale(fields, field, height).Apply(u)
  {
    ApplyAntiMonotone(YScale(fields, field, height), u, v);
  }
}
