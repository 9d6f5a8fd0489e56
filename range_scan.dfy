/**
 The range scan of the log canvas (`fieldsToPlot`): one pass over the filtered
 records that builds, per selected label, a plottable field descriptor with a
 running minimum and maximum, both seeded at 0.

 Three layers: `Plottable` says declaratively what the descriptors are;
 `Scan` is the same computation step by step, as the nested loops perform it;
 `ScanRanges` is the loop itself, over `PlottableField` objects whose `min` and
 `max` it updates in place. `ScanIsPlottable` ties the first two together and
 `ScanRanges` is proved against both.
 */
module RangeScan {
  import opened LogEntries

  /** The palette size handed to the colour function. */
  const MaxFields: nat := 5

  /** The value of a plottable field descriptor. */
  datatype FieldRange = FieldRange(
    min: real,
    max: real,
    scale: Scalar,
    transform: Scalar,
    units: string,
    format: string,
    color: string)

  /**
   The descriptor created for a selection entry, before any value is compared.
   `units || ''` and `format || ''` leave a string unchanged, so they are copied.
   */
  function Created(f: SelectedField, color: string): FieldRange {
    FieldRange(0.0, 0.0, OrDefault(f.scale, 1.0), OrDefault(f.transform, 0.0), f.units, f.format, color)
  }

  /** The labels named by a selection. */
  function Labels(sel: seq<SelectedField>): set<string> {
    set i | 0 <= i < |sel| :: sel[i].fieldLabel
  }

  /** The lowest index of the selection that carries a label. */
  function FirstIndex(sel: seq<SelectedField>, l: string): (i: nat)
    requires l in Labels(sel)
    ensures i < |sel| && sel[i].fieldLabel == l
    ensures forall j :: 0 <= j < i ==> sel[j].fieldLabel != l
  {
    var k :| 0 <= k < |sel| && sel[k].fieldLabel == l;
    if sel[0].fieldLabel == l then 0
    else
      assert sel[1..][k - 1] == sel[k];
      1 + FirstIndex(sel[1..], l)
  }

  /** The descriptor as first created for a label: from its lowest-index selection entry. */
  function Origin(sel: seq<SelectedField>, l: string, hsl: (nat, nat) -> string): FieldRange
    requires l in Labels(sel)
  {
    var i := FirstIndex(sel, l);
    Created(sel[i], hsl(i, MaxFields))
  }

  /**
   One comparison against the running maximum: a present value above it replaces
   it; a missing value (`undefined > max`) compares false and changes nothing.
   */
  function RaiseMax(m: real, e: LogEntry, l: string): real {
    match FieldValue(e, l)
    case Some(v) => if v > m then v else m
    case None => m
  }

  /** The same for the running minimum. */
  function LowerMin(m: real, e: LogEntry, l: string): real {
    match FieldValue(e, l)
    case Some(v) => if v < m then v else m
    case None => m
  }

  /** The maximum the scan reaches for a label over some records, seeded at 0. */
  function MaxSeen(es: seq<LogEntry>, l: string): real {
    if es == [] then 0.0 else RaiseMax(MaxSeen(es[..|es| - 1], l), es[|es| - 1], l)
  }

  /** The minimum the scan reaches for a label over some records, seeded at 0. */
  function MinSeen(es: seq<LogEntry>, l: string): real {
    if es == [] then 0.0 else LowerMin(MinSeen(es[..|es| - 1], l), es[|es| - 1], l)
  }

  /**
   The scanned maximum is at least 0 and at least every present value of the
   label, and it is 0 or one of those values.
   */
  lemma {:induction false} MaxSeenBounds(es: seq<LogEntry>, l: string)
    ensures 0.0 <= MaxSeen(es, l)
    ensures forall j :: 0 <= j < |es| && l in es[j].fields ==> es[j].fields[l] <= MaxSeen(es, l)
    ensures MaxSeen(es, l) == 0.0 || exists j :: 0 <= j < |es| && l in es[j].fields && es[j].fields[l] == MaxSeen(es, l)
  {
    if es != [] {
      var p := es[..|es| - 1];
      MaxSeenBounds(p, l);
      assert forall j :: 0 <= j < |p| ==> p[j] == es[j];
    }
  }

  /**
   The scanned minimum is at most 0 and at most every present value of the
   label, and it is 0 or one of those values.
   */
  lemma {:induction false} MinSeenBounds(es: seq<LogEntry>, l: string)
    ensures MinSeen(es, l) <= 0.0
    ensures forall j :: 0 <= j < |es| && l in es[j].fields ==> MinSeen(es, l) <= es[j].fields[l]
    ensures MinSeen(es, l) == 0.0 || exists j :: 0 <= j < |es| && l in es[j].fields && es[j].fields[l] == MinSeen(es, l)
  {
    if es != [] {
      var p := es[..|es| - 1];
      MinSeenBounds(p, l);
      assert forall j :: 0 <= j < |p| ==> p[j] == es[j];
    }
  }

  /** The descriptor of one label after a scan over records that is not empty. */
  function Described(es: seq<LogEntry>, sel: seq<SelectedField>, l: string, hsl: (nat, nat) -> string): FieldRange
    requires l in Labels(sel)
  {
    Origin(sel, l, hsl).(min := MinSeen(es, l), max := MaxSeen(es, l))
  }

  /**
   What the scan produces: nothing for no records (descriptors are only created
   inside the per-record loop), otherwise one descriptor per selected label.
   */
  function Plottable(es: seq<LogEntry>, sel: seq<SelectedField>, hsl: (nat, nat) -> string): map<string, FieldRange> {
    if es == [] then map[]
    else map l | l in Labels(sel) :: Described(es, sel, l, hsl)
  }

  // ---------------------------------------------------------------------------
  // The scan, one step at a time

  /** Visiting selection entry `index` for one record: create the descriptor if absent, then compare. */
  function Visit(m: map<string, FieldRange>, e: LogEntry, sel: seq<SelectedField>, index: nat,
                 hsl: (nat, nat) -> string): map<string, FieldRange>
    requires index < |sel|
  {
    var l := sel[index].fieldLabel;
    var d := if l in m then m[l] else Created(sel[index], hsl(index, MaxFields));
    m[l := d.(max := RaiseMax(d.max, e, l), min := LowerMin(d.min, e, l))]
  }

  /** Visiting the first k selection entries for one record, in selection order. */
  function VisitEntry(m: map<string, FieldRange>, e: LogEntry, sel: seq<SelectedField>, k: nat,
                      hsl: (nat, nat) -> string): map<string, FieldRange>
    requires k <= |sel|
  {
    if k == 0 then m else Visit(VisitEntry(m, e, sel, k - 1, hsl), e, sel, k - 1, hsl)
  }

  /** The whole scan: every record in order, each against the whole selection. */
  function Scan(es: seq<LogEntry>, sel: seq<SelectedField>, hsl: (nat, nat) -> string): map<string, FieldRange> {
    if es == [] then map[]
    else VisitEntry(Scan(es[..|es| - 1], sel, hsl), es[|es| - 1], sel, |sel|, hsl)
  }

  /** A descriptor for the label, if there is one, carries the creation settings of the label's first entry. */
  ghost predicate SettledAt(m: map<string, FieldRange>, sel: seq<SelectedField>, hsl: (nat, nat) -> string, l: string) {
    l in m ==> l in Labels(sel) && m[l].(min := 0.0, max := 0.0) == Origin(sel, l, hsl)
  }

  function PriorMax(m: map<string, FieldRange>, l: string): real {
    if l in m then m[l].max else 0.0
  }

  function PriorMin(m: map<string, FieldRange>, l: string): real {
    if l in m then m[l].min else 0.0
  }

  lemma LabelsPrefix(sel: seq<SelectedField>, k: nat)
    requires k < |sel|
    ensures Labels(sel[..k + 1]) == Labels(sel[..k]) + {sel[k].fieldLabel}
  {
    assert forall i :: 0 <= i < k ==> sel[..k + 1][i] == sel[..k][i];
    assert sel[..k + 1][k] == sel[k];
  }

  /** A label that none of the first k entries carries, but entry k does, has k as its first index. */
  lemma FirstIndexAt(sel: seq<SelectedField>, k: nat)
    requires k < |sel| && sel[k].fieldLabel !in Labels(sel[..k])
    ensures sel[k].fieldLabel in Labels(sel) && FirstIndex(sel, sel[k].fieldLabel) == k
  {
    var l := sel[k].fieldLabel;
    forall j | 0 <= j < k ensures sel[j].fieldLabel != l {
      assert sel[..k][j] == sel[j];
      assert sel[..k][j].fieldLabel in Labels(sel[..k]);
    }
    assert l in Labels(sel);
  }

  /**
   Visiting the first k selection entries for one record, seen from one label:
   the label has a descriptor if it had one or one of those entries carries it;
   if one does, its range was compared once against the record (a duplicate
   label compares the same value twice, which changes nothing); otherwise its
   descriptor is untouched. Creation settings always come from the label's
   lowest-index entry.
   */
  lemma {:induction false} VisitEntryAt(m: map<string, FieldRange>, e: LogEntry, sel: seq<SelectedField>,
                                        k: nat, hsl: (nat, nat) -> string, l: string)
    requires k <= |sel|
    ensures l in VisitEntry(m, e, sel, k, hsl) <==> l in m || l in Labels(sel[..k])
    ensures l in Labels(sel[..k]) ==>
              VisitEntry(m, e, sel, k, hsl)[l].max == RaiseMax(PriorMax(m, l), e, l) &&
              VisitEntry(m, e, sel, k, hsl)[l].min == LowerMin(PriorMin(m, l), e, l)
    ensures l in m && l !in Labels(sel[..k]) ==> VisitEntry(m, e, sel, k, hsl)[l] == m[l]
    ensures SettledAt(m, sel, hsl, l) ==> SettledAt(VisitEntry(m, e, sel, k, hsl), sel, hsl, l)
  {
    if k == 0 {
      assert Labels(sel[..0]) == {};
    } else {
      VisitEntryAt(m, e, sel, k - 1, hsl, l);
      LabelsPrefix(sel, k - 1);
      var before := VisitEntry(m, e, sel, k - 1, hsl);
      if sel[k - 1].fieldLabel == l && l !in before {
        FirstIndexAt(sel, k - 1);
      }
    }
  }

  /** The step-by-step scan computes exactly the declarative descriptors. */
  lemma {:induction false} ScanIsPlottable(es: seq<LogEntry>, sel: seq<SelectedField>, hsl: (nat, nat) -> string)
    ensures Scan(es, sel, hsl) == Plottable(es, sel, hsl)
  {
    if es != [] {
      var p := es[..|es| - 1];
      var e := es[|es| - 1];
      ScanIsPlottable(p, sel, hsl);
      var prior := Plottable(p, sel, hsl);
      var r := Scan(es, sel, hsl);
      assert r == VisitEntry(prior, e, sel, |sel|, hsl);
      assert sel[..|sel|] == sel;
      forall l
        ensures l in r <==> l in Labels(sel)
        ensures l in Labels(sel) ==> r[l] == Described(es, sel, l, hsl)
      {
        VisitEntryAt(prior, e, sel, |sel|, hsl, l);
        if l in Labels(sel) {
          assert SettledAt(prior, sel, hsl, l);
          assert PriorMax(prior, l) == MaxSeen(p, l);
          assert PriorMin(prior, l) == MinSeen(p, l);
        }
      }
      assert r.Keys == Labels(sel);
    }
  }

  // ---------------------------------------------------------------------------
  // What the descriptors satisfy

  /**
   The key set is tied to the selection: exactly the selected labels when there
   are records, and nothing when there are none.
   */
  lemma PlottableKeys(es: seq<LogEntry>, sel: seq<SelectedField>, hsl: (nat, nat) -> string)
    ensures es != [] ==> Plottable(es, sel, hsl).Keys == Labels(sel)
    ensures es == [] ==> Plottable(es, sel, hsl) == map[]
  {
  }

  /**
   Every descriptor straddles 0, holds every present value of its label, and
   each bound is 0 or a value actually seen.
   */
  lemma PlottableBounds(es: seq<LogEntry>, sel: seq<SelectedField>, hsl: (nat, nat) -> string, l: string)
    requires l in Plottable(es, sel, hsl)
    ensures Plottable(es, sel, hsl)[l].min <= 0.0 <= Plottable(es, sel, hsl)[l].max
    ensures forall j :: 0 <= j < |es| && l in es[j].fields ==>
              Plottable(es, sel, hsl)[l].min <= es[j].fields[l] <= Plottable(es, sel, hsl)[l].max
    ensures Plottable(es, sel, hsl)[l].max == 0.0 ||
            exists j :: 0 <= j < |es| && l in es[j].fields && es[j].fields[l] == Plottable(es, sel, hsl)[l].max
    ensures Plottable(es, sel, hsl)[l].min == 0.0 ||
            exists j :: 0 <= j < |es| && l in es[j].fields && es[j].fields[l] == Plottable(es, sel, hsl)[l].min
  {
    MaxSeenBounds(es, l);
    MinSeenBounds(es, l);
  }

  /**
   A descriptor's settings come from the lowest-index selection entry with its
   label, with falsy `scale` and `transform` replaced by 1 and 0; a later entry
   with the same label overwrites nothing.
   */
  lemma PlottableSettings(es: seq<LogEntry>, sel: seq<SelectedField>, hsl: (nat, nat) -> string, i: nat)
    requires es != [] && i < |sel|
    ensures sel[i].fieldLabel in Plottable(es, sel, hsl)
    ensures var d := Plottable(es, sel, hsl)[sel[i].fieldLabel];
            var f := FirstIndex(sel, sel[i].fieldLabel);
            && f <= i
            && d.color == hsl(f, MaxFields)
            && d.units == sel[f].units && d.format == sel[f].format
            && (Falsy(sel[f].scale) ==> d.scale == Number(1.0))
            && (!Falsy(sel[f].scale) ==> d.scale == sel[f].scale)
            && (Falsy(sel[f].transform) ==> d.transform == Number(0.0))
            && (!Falsy(sel[f].transform) ==> d.transform == sel[f].transform)
  {
    assert sel[i].fieldLabel in Labels(sel);
  }

  /** A record entirely without some label leaves that label's range as it was. */
  lemma MissingLeavesRange(es: seq<LogEntry>, e: LogEntry, l: string)
    requires l !in e.fields
    ensures MaxSeen(es + [e], l) == MaxSeen(es, l) && MinSeen(es + [e], l) == MinSeen(es, l)
  {
    assert (es + [e])[..|es|] == es;
  }

  /** `e` with a missing label filled in with 0, as `yValue` would read it. */
  function FillZero(e: LogEntry, l: string): LogEntry {
    if l in e.fields then e else e.(fields := e.fields[l := 0.0])
  }

  /**
   Because the range is seeded at 0, skipping a missing value is the same as
   reading it as 0: filling every gap with 0 gives the same range.
   */
  lemma {:induction false} MissingReadsAsZero(es: seq<LogEntry>, l: string)
    ensures var filled := seq(|es|, j requires 0 <= j < |es| => FillZero(es[j], l));
            MaxSeen(filled, l) == MaxSeen(es, l) && MinSeen(filled, l) == MinSeen(es, l)
  {
    var filled := seq(|es|, j requires 0 <= j < |es| => FillZero(es[j], l));
    if es != [] {
      var p := es[..|es| - 1];
      MissingReadsAsZero(p, l);
      MaxSeenBounds(p, l);
      MinSeenBounds(p, l);
      var pf := seq(|p|, j requires 0 <= j < |p| => FillZero(p[j], l));
      assert filled[..|es| - 1] == pf;
    }
  }

  // ---------------------------------------------------------------------------
  // The descriptors as objects, updated in place

  /** A plottable field descriptor. The scan moves `min` and `max`; the rest is fixed at creation. */
  class PlottableField {
    var min: real
    var max: real
    const scale: Scalar
    const transform: Scalar
    const units: string
    const format: string
    const color: string

    constructor (f: SelectedField, color: string)
      ensures View() == Created(f, color)
    {
      min, max := 0.0, 0.0;
      scale := OrDefault(f.scale, 1.0);
      transform := OrDefault(f.transform, 0.0);
      units := f.units;
      format := f.format;
      this.color := color;
    }

    /** One comparison of a record's value: a present value above the maximum raises it, one below the minimum lowers it. */
    method Observe(value: Option<real>)
      modifies this
      ensures max == (if value.Some? && value.value > old(max) then value.value else old(max))
      ensures min == (if value.Some? && value.value < old(min) then value.value else old(min))
    {
      if value.Some? && value.value > max {
        max := value.value;
      }
      if value.Some? && value.value < min {
        min := value.value;
      }
    }

    function View(): FieldRange
      reads this
    {
      FieldRange(min, max, scale, transform, units, format, color)
    }
  }

  /** The values of a dictionary of descriptors. */
  function Snapshot(temp: map<string, PlottableField>): map<string, FieldRange>
    reads temp.Values
  {
    map l | l in temp :: temp[l].View()
  }

  /** Each label has a descriptor object of its own. */
  ghost predicate Distinct(temp: map<string, PlottableField>) {
    forall a, b :: a in temp && b in temp && a != b ==> temp[a] != temp[b]
  }

  /** The label's descriptor, created from selection entry `index` if the label has none yet. */
  method Ensure(temp: map<string, PlottableField>, f: SelectedField, index: nat, hsl: (nat, nat) -> string)
    returns (temp': map<string, PlottableField>, d: PlottableField)
    requires Distinct(temp)
    ensures Distinct(temp')
    ensures f.fieldLabel in temp' && temp'[f.fieldLabel] == d
    ensures f.fieldLabel in temp ==> temp' == temp
    ensures f.fieldLabel !in temp ==> temp' == temp[f.fieldLabel := d] && fresh(d)
    ensures Snapshot(temp') == Snapshot(temp)[f.fieldLabel := d.View()]
    ensures d.View() == if f.fieldLabel in temp then Snapshot(temp)[f.fieldLabel] else Created(f, hsl(index, MaxFields))
  {
    var l := f.fieldLabel;
    if l in temp {
      temp', d := temp, temp[l];
    } else {
      d := new PlottableField(f, hsl(index, MaxFields));
      temp' := temp[l := d];
      forall l' | l' in temp' && l' != l ensures temp'[l'] != d {
      }
    }
  }

  /**
   The body of the scan's inner loop: make sure the label has a descriptor,
   then raise its maximum and lower its minimum to the record's value.
   */
  method VisitObjects(temp: map<string, PlottableField>, entry: LogEntry, selected: seq<SelectedField>,
                      index: nat, hsl: (nat, nat) -> string)
    returns (temp': map<string, PlottableField>)
    requires index < |selected|
    requires Distinct(temp)
    modifies temp.Values
    ensures Distinct(temp')
    ensures forall l :: l in temp' ==> (l in temp && temp'[l] == temp[l]) || fresh(temp'[l])
    ensures Snapshot(temp') == Visit(old(Snapshot(temp)), entry, selected, index, hsl)
  {
    var f := selected[index];
    var l := f.fieldLabel;
    var value := FieldValue(entry, l);
    var d;
    temp', d := Ensure(temp, f, index, hsl);
    ObserveAt(temp', l, value);
  }

  /** Comparing one label's descriptor against a value changes the snapshot at that label only. */
  method ObserveAt(temp: map<string, PlottableField>, l: string, value: Option<real>)
    requires l in temp && Distinct(temp)
    modifies temp[l]
    ensures Snapshot(temp) == old(Snapshot(temp))[l := old(temp[l].View()).(
              max := if value.Some? && value.value > old(temp[l].max) then value.value else old(temp[l].max),
              min := if value.Some? && value.value < old(temp[l].min) then value.value else old(temp[l].min))]
  {
    temp[l].Observe(value);
    forall l' | l' in temp && l' != l ensures temp[l'] != temp[l] {
    }
  }

  /**
   `fieldsToPlot`: for every record, for every selection entry, visit the
   entry's label; no record, no descriptor.
   */
  method ScanRanges(filtered: seq<LogEntry>, selected: seq<SelectedField>, hsl: (nat, nat) -> string)
    returns (temp: map<string, PlottableField>)
    ensures Distinct(temp)
    ensures forall l :: l in temp ==> fresh(temp[l])
    ensures Snapshot(temp) == Scan(filtered, selected, hsl)
    ensures Snapshot(temp) == Plottable(filtered, selected, hsl)
  {
    temp := map[];
    var n := 0;
    while n < |filtered|
      invariant n <= |filtered|
      invariant Distinct(temp)
      invariant forall l :: l in temp ==> fresh(temp[l])
      invariant Snapshot(temp) == Scan(filtered[..n], selected, hsl)
    {
      var entry := filtered[n];
      var index := 0;
      while index < |selected|
        invariant index <= |selected|
        invariant Distinct(temp)
        invariant forall l :: l in temp ==> fresh(temp[l])
        invariant Snapshot(temp) == VisitEntry(Scan(filtered[..n], selected, hsl), entry, selected, index, hsl)
      {
        temp := VisitObjects(temp, entry, selected, index, hsl);
        index := index + 1;
      }
      assert filtered[..n + 1][..n] == filtered[..n];
      n := n + 1;
    }
    assert filtered[..n] == filtered;
    ScanIsPlottable(filtered, selected, hsl);
  }
}
