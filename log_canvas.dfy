/**
 The log canvas pipeline: filter the records, scan the ranges, build the axes,
 produce one point list per selected field, and pair each with its stroke
 colour for drawing.
 */
module LogCanvas {
  import opened LogEntries
  import opened RangeScan
  import opened Scales

  /** `Colors.RED`, the stroke of a path whose label has no descriptor. */
  const Red: string := "#f32450"

  /** One device-space vertex of a path. */
  datatype Point = Point(x: real, y: real)

  /** `line().x(...).y(...)(filtered)` for one field: one vertex per record, in record order. */
  function FieldPoints(filtered: seq<LogEntry>, x: LinearScale, y: LinearScale, field: SelectedField): seq<Point> {
    seq(|filtered|, j requires 0 <= j < |filtered| =>
      Point(x.Apply(XValue(filtered[j])), y.Apply(YValue(filtered[j], field))))
  }

  /** `linesRaw`: `selectedFields.map(...)`, one point list per selection entry. */
  function Lines(filtered: seq<LogEntry>, selected: seq<SelectedField>, fields: map<string, FieldRange>,
                 width: real, height: real, zoom: Option<ZoomTransform>): seq<seq<Point>> {
    match XScale(filtered, width, zoom)
    case None => seq(|selected|, i => [])
    case Some(x) =>
      seq(|selected|, i requires 0 <= i < |selected| =>
        FieldPoints(filtered, x, YScale(fields, selected[i], height), selected[i]))
  }

  /**
   There is one point list per selection entry, in selection order; each has one
   vertex per record, and vertex j plots record j against that entry's axis.
   */
  lemma LinesShape(filtered: seq<LogEntry>, selected: seq<SelectedField>, fields: map<string, FieldRange>,
                   width: real, height: real, zoom: Option<ZoomTransform>)
    ensures |Lines(filtered, selected, fields, width, height, zoom)| == |selected|
    ensures forall i :: 0 <= i < |selected| ==> |Lines(filtered, selected, fields, width, height, zoom)[i]| == |filtered|
    ensures forall i, j :: 0 <= i < |selected| && 0 <= j < |filtered| ==>
              XScale(filtered, width, zoom).Some? &&
              Lines(filtered, selected, fields, width, height, zoom)[i][j] ==
                Point(XScale(filtered, width, zoom).value.Apply(XValue(filtered[j])),
                      YScale(fields, selected[i], height).Apply(YValue(filtered[j], selected[i])))
  {
  }

  /**
   Every value `yValue` reads for a selected field, a missing one read as 0
   included, lies within the descriptor the scan built for it.
   */
  lemma YValueWithinDescriptor(es: seq<LogEntry>, sel: seq<SelectedField>, hsl: (nat, nat) -> string,
                               i: nat, j: nat)
    requires i < |sel| && j < |es|
    ensures sel[i].fieldLabel in Plottable(es, sel, hsl)
    ensures var d := Plottable(es, sel, hsl)[sel[i].fieldLabel];
            d.min <= YValue(es[j], sel[i]) <= d.max
  {
    assert sel[i].fieldLabel in Labels(sel);
    MaxSeenBounds(es, sel[i].fieldLabel);
    MinSeenBounds(es, sel[i].fieldLabel);
  }

  /**
   Every vertex of every path lies vertically inside the viewport, zoomed or
   not: the value axes do not depend on the zoom, and each value lies within its
   field's scanned range, a missing one too. Unzoomed, a vertex also lies
   horizontally inside the viewport when the time stamps are not negative.
   */
  lemma PointsInViewport(filtered: seq<LogEntry>, selected: seq<SelectedField>, hsl: (nat, nat) -> string,
                         width: real, height: real, zoom: Option<ZoomTransform>, i: nat, j: nat)
    requires 0.0 <= height && i < |selected| && j < |filtered|
    ensures var p := Lines(filtered, selected, Plottable(filtered, selected, hsl), width, height, zoom)[i][j];
            && 0.0 <= p.y <= height
            && ((zoom.None? && 0.0 <= width && forall k :: 0 <= k < |filtered| ==> 0.0 <= XValue(filtered[k])) ==>
                  0.0 <= p.x <= width)
  {
    var fields := Plottable(filtered, selected, hsl);
    LinesShape(filtered, selected, fields, width, height, zoom);
    YValueWithinDescriptor(filtered, selected, hsl, i, j);
    ApplyWithin(YScale(fields, selected[i], height), YValue(filtered[j], selected[i]));
    if zoom.None? && 0.0 <= width && forall k :: 0 <= k < |filtered| ==> 0.0 <= XValue(filtered[k]) {
      XScaleUnzoomedWithin(filtered, width, j);
    }
  }

  /**
   Because the range is seeded at 0, a field whose present values are all
   positive and not all equal to 0 gets the range `[0, max]`: its largest value
   plots on the top edge and 0 on the bottom edge.
   */
  lemma PositiveFieldTouchesBottomAtZero(es: seq<LogEntry>, sel: seq<SelectedField>, hsl: (nat, nat) -> string,
                                         i: nat, height: real)
    requires i < |sel| && 0.0 <= height
    requires forall j :: 0 <= j < |es| && sel[i].fieldLabel in es[j].fields ==> 0.0 <= es[j].fields[sel[i].fieldLabel]
    requires exists j :: 0 <= j < |es| && sel[i].fieldLabel in es[j].fields && 0.0 < es[j].fields[sel[i].fieldLabel]
    ensures sel[i].fieldLabel in Plottable(es, sel, hsl)
    ensures Plottable(es, sel, hsl)[sel[i].fieldLabel].min == 0.0
    ensures YScale(Plottable(es, sel, hsl), sel[i], height).Apply(0.0) == height
    ensures YScale(Plottable(es, sel, hsl), sel[i], height).Apply(Plottable(es, sel, hsl)[sel[i].fieldLabel].max) == 0.0
  {
    var l := sel[i].fieldLabel;
    assert l in Labels(sel);
    var j :| 0 <= j < |es| && l in es[j].fields && 0.0 < es[j].fields[l];
    MaxSeenBounds(es, l);
    MinSeenBounds(es, l);
    assert MinSeen(es, l) == 0.0;
    assert 0.0 < MaxSeen(es, l);
    ApplyEnds(YScale(Plottable(es, sel, hsl), sel[i], height));
  }

  /**
   The stroke of path `index`: the colour of the descriptor of that selection
   entry's label, red without one (an index past the selection looks up the key
   `undefined`).
   */
  function StrokeColor(fields: map<string, FieldRange>, selected: seq<SelectedField>, index: nat): string {
    var key := if index < |selected| then selected[index].fieldLabel else "undefined";
    if key in fields then fields[key].color else Red
  }

  /**
   With the scan's descriptors, a selected field is stroked with the colour of
   the lowest selection index carrying its label, and red when there were no
   records to scan.
   */
  lemma StrokeColorOfScan(filtered: seq<LogEntry>, selected: seq<SelectedField>, hsl: (nat, nat) -> string, i: nat)
    requires i < |selected|
    ensures selected[i].fieldLabel in Labels(selected)
    ensures StrokeColor(Plottable(filtered, selected, hsl), selected, i) ==
            if filtered == [] then Red else hsl(FirstIndex(selected, selected[i].fieldLabel), MaxFields)
  {
    assert selected[i].fieldLabel in Labels(selected);
  }

  /** One drawn path: its render key, its vertices and its stroke colour. */
  datatype RenderedPath = RenderedPath(key: Option<string>, points: seq<Point>, stroke: string)

  /** `(selectedFields[index] || {}).name` */
  function PathKey(selected: seq<SelectedField>, index: nat): Option<string> {
    if index < |selected| then Some(selected[index].name) else None
  }

  /** What the canvas draws: nothing for an empty log, otherwise each line with its key and stroke. */
  function Render(data: seq<LogEntry>, selected: seq<SelectedField>, fields: map<string, FieldRange>,
                  lines: seq<seq<Point>>): seq<RenderedPath> {
    if |data| == 0 then []
    else seq(|lines|, i requires 0 <= i < |lines| => RenderedPath(PathKey(selected, i), lines[i], StrokeColor(fields, selected, i)))
  }

  /**
   The whole pipeline for one render: filter, scan, build the axes and the
   lines, and draw them.
   */
  method Draw(data: seq<LogEntry>, selected: seq<SelectedField>, width: real, height: real,
              zoom: Option<ZoomTransform>, hsl: (nat, nat) -> string)
    returns (paths: seq<RenderedPath>)
    ensures var filtered := Filtered(data);
            var fields := Plottable(filtered, selected, hsl);
            paths == Render(data, selected, fields, Lines(filtered, selected, fields, width, height, zoom))
    ensures |paths| == if data == [] then 0 else |selected|
    ensures forall i :: 0 <= i < |paths| ==>
              |paths[i].points| == |Filtered(data)| &&
              paths[i].key == Some(selected[i].name)
    ensures 0.0 <= height ==>
              forall i, j :: 0 <= i < |paths| && 0 <= j < |paths[i].points| ==>
                0.0 <= paths[i].points[j].y <= height
  {
    var filtered := Filtered(data);
    var temp := ScanRanges(filtered, selected, hsl);
    var fields := Snapshot(temp);
    var lines := Lines(filtered, selected, fields, width, height, zoom);
    paths := Render(data, selected, fields, lines);
    LinesShape(filtered, selected, fields, width, height, zoom);
    if 0.0 <= height {
      forall i, j | 0 <= i < |paths| && 0 <= j < |paths[i].points|
        ensures 0.0 <= paths[i].points[j].y <= height
      {
        PointsInViewport(filtered, selected, hsl, width, height, zoom, i, j);
      }
    }
  }

  /**
   A log that is not empty but has no field record still passes the render
   test, which looks at the unfiltered log: it draws one empty path per
   selection entry, keyed by the entry's name and stroked red.
   */
  lemma OnlyOtherRecordsDrawEmptyRedPaths(data: seq<LogEntry>, selected: seq<SelectedField>, width: real, height: real,
                                          zoom: Option<ZoomTransform>, hsl: (nat, nat) -> string)
    requires data != [] && forall k :: 0 <= k < |data| ==> !IsField(data[k])
    ensures var filtered := Filtered(data);
            var fields := Plottable(filtered, selected, hsl);
            Render(data, selected, fields, Lines(filtered, selected, fields, width, height, zoom)) ==
              seq(|selected|, i requires 0 <= i < |selected| => RenderedPath(Some(selected[i].name), [], Red))
  {
    var filtered := Filtered(data);
    FilteredNone(data);
    var fields := Plottable(filtered, selected, hsl);
    assert fields == map[];
    assert XScale(filtered, width, zoom) == None;
    var lines := Lines(filtered, selected, fields, width, height, zoom);
    assert |lines| == |selected|;
    var paths := Render(data, selected, fields, lines);
    var expected := seq(|selected|, i requires 0 <= i < |selected| => RenderedPath(Some(selected[i].name), [], Red));
    forall i | 0 <= i < |selected| ensures paths[i] == expected[i] {
      assert lines[i] == [];
      assert StrokeColor(fields, selected, i) == Red;
    }
  }

  /** The three records of the worked example below: `RPM` at times 0, 1 and 2. */
  function RpmLog(): seq<LogEntry> {
    [LogEntry("field", map["Time" := 0.0, "RPM" := 1000.0]),
     LogEntry("field", map["Time" := 1.0, "RPM" := 2000.0]),
     LogEntry("field", map["Time" := 2.0, "RPM" := 1500.0])]
  }

  function RpmSelection(): seq<SelectedField> {
    [SelectedField("rpm", "RPM", "rpm", Number(1.0), Number(0.0), "")]
  }

  lemma RpmScan(hsl: (nat, nat) -> string)
    ensures Filtered(RpmLog()) == RpmLog()
    ensures "RPM" in Plottable(RpmLog(), RpmSelection(), hsl)
    ensures Plottable(RpmLog(), RpmSelection(), hsl)["RPM"].min == 0.0
    ensures Plottable(RpmLog(), RpmSelection(), hsl)["RPM"].max == 2000.0
    ensures MaxTime(RpmLog()) == Some(2.0)
  {
    var data := RpmLog();
    assert data[1..][1..][1..] == [];
    assert Filtered(data[1..][1..]) == [data[2]];
    assert Filtered(data[1..]) == [data[1], data[2]];
    assert data[..2] == [data[0], data[1]] && data[..2][..1] == [data[0]] && data[..2][..1][..0] == [];
    assert MaxSeen(data[..1], "RPM") == 1000.0;
    assert MaxSeen(data[..2], "RPM") == 2000.0;
    assert MinSeen(data[..1], "RPM") == 0.0;
    assert MinSeen(data[..2], "RPM") == 0.0;
    assert XValue(data[0]) == 0.0 && XValue(data[1]) == 1.0 && XValue(data[2]) == 2.0;
    assert MaxTime(data[..2][..1][..0]) == None;
    assert MaxTime(data[..1]) == Some(0.0);
    assert MaxTime(data[..2]) == Some(1.0);
    assert RpmSelection()[0].fieldLabel == "RPM";
    assert "RPM" in Labels(RpmSelection());
  }

  /**
   A worked example: three records of `RPM` at times 0, 1 and 2 with values
   1000, 2000 and 1500 on a 100 by 50 viewport. The scan gives `[0, 2000]`, and
   the path runs through (0, 25), (50, 0) and (100, 12.5).
   */
  lemma RpmExample(hsl: (nat, nat) -> string)
    ensures var fields := Plottable(Filtered(RpmLog()), RpmSelection(), hsl);
            && "RPM" in fields
            && fields["RPM"].min == 0.0 && fields["RPM"].max == 2000.0
            && Lines(Filtered(RpmLog()), RpmSelection(), fields, 100.0, 50.0, None) ==
                 [[Point(0.0, 25.0), Point(50.0, 0.0), Point(100.0, 12.5)]]
  {
    RpmScan(hsl);
    var data := RpmLog();
    var fields := Plottable(data, RpmSelection(), hsl);
    var xs := LinearScale(0.0, 2.0, 0.0, 100.0);
    var ys := LinearScale(0.0, 2000.0, 50.0, 0.0);
    assert XScale(data, 100.0, None) == Some(xs);
    assert YScale(fields, RpmSelection()[0], 50.0) == ys;
    var ps := FieldPoints(data, xs, ys, RpmSelection()[0]);
    assert Lines(data, RpmSelection(), fields, 100.0, 50.0, None) == [ps];
    assert xs.Apply(0.0) == 0.0 && xs.Apply(1.0) == 50.0 && xs.Apply(2.0) == 100.0;
    assert ys.Apply(1000.0) == 25.0 && ys.Apply(2000.0) == 0.0 && ys.Apply(1500.0) == 12.5;
    assert ps == [Point(0.0, 25.0), Point(50.0, 0.0), Point(100.0, 12.5)];
  }
}
