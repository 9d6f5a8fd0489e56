/**
 The records a log is made of, the field selection, the filter that keeps the
 plottable records, and the two value accessors of the log canvas
 (src/components/Log/LogCanvas.tsx).
 */
module LogEntries {

  datatype Option<T> = None | Some(value: T)

  /** A setting that the selection may carry as a number or as text (`string | number`). */
  datatype Scalar = Number(n: real) | Text(s: string)

  /** JavaScript falsiness of the values a Scalar can hold: `0` and `''`. */
  predicate Falsy(v: Scalar) {
    v == Number(0.0) || v == Text("")
  }

  /** `v || d`: a falsy setting is replaced by the numeric default, any other is kept as it is. */
  function OrDefault(v: Scalar, d: real): Scalar {
    if Falsy(v) then Number(d) else v
  }

  /** One entry of the field selection. */
  datatype SelectedField = SelectedField(
    name: string,
    fieldLabel: string,
    units: string,
    scale: Scalar,
    transform: Scalar,
    format: string)

  /**
   One record of a log: its `type` tag and its numeric fields keyed by label
   (the time stamp is the field `Time`).
   */
  datatype LogEntry = LogEntry(kind: string, fields: map<string, real>)

  const FieldKind: string := "field"
  const TimeKey: string := "Time"

  /** `entry[fieldLabel]`: the value under a label, or nothing (`undefined`). */
  function FieldValue(e: LogEntry, fieldLabel: string): Option<real> {
    if fieldLabel in e.fields then Some(e.fields[fieldLabel]) else None
  }

  /** `fieldsOnly`: the record is a sample of fields. */
  predicate IsField(e: LogEntry) {
    e.kind == FieldKind
  }

  /** `data.filter(fieldsOnly)` */
  function Filtered(data: seq<LogEntry>): (r: seq<LogEntry>)
    ensures |r| <= |data|
    ensures forall e :: e in r <==> e in data && IsField(e)
  {
    if data == [] then []
    else (if IsField(data[0]) then [data[0]] else []) + Filtered(data[1..])
  }

  /** Filtering a concatenation filters each part and keeps the parts in order. */
  lemma {:induction false} FilteredAppend(a: seq<LogEntry>, b: seq<LogEntry>)
    ensures Filtered(a + b) == Filtered(a) + Filtered(b)
  {
    if a == [] {
      assert a + b == b;
    } else {
      assert (a + b)[0] == a[0];
      assert (a + b)[1..] == a[1..] + b;
      FilteredAppend(a[1..], b);
    }
  }

  /** A single record is kept exactly when it is a field record. */
  lemma FilteredSingle(e: LogEntry)
    ensures Filtered([e]) == if IsField(e) then [e] else []
  {
    assert [e][1..] == [];
  }

  /**
   The filter keeps the field records in their original relative order: the
   field record at index i lands at the position given by the number of field
   records before it, so a later record never comes out ahead of an earlier one.
   */
  lemma FilteredPosition(data: seq<LogEntry>, i: nat)
    requires i < |data| && IsField(data[i])
    ensures |Filtered(data[..i])| < |Filtered(data)|
    ensures Filtered(data)[|Filtered(data[..i])|] == data[i]
  {
    assert data == data[..i] + ([data[i]] + data[i + 1..]);
    FilteredAppend(data[..i], [data[i]] + data[i + 1..]);
    FilteredAppend([data[i]], data[i + 1..]);
    FilteredSingle(data[i]);
  }

  /** A field record after another one has a strictly larger position in the output. */
  lemma FilteredMonotone(data: seq<LogEntry>, i: nat, j: nat)
    requires i < j <= |data| && IsField(data[i])
    ensures |Filtered(data[..i])| < |Filtered(data[..j])|
  {
    assert data[..j] == data[..i] + ([data[i]] + data[i + 1..j]);
    FilteredAppend(data[..i], [data[i]] + data[i + 1..j]);
    FilteredAppend([data[i]], data[i + 1..j]);
    FilteredSingle(data[i]);
  }

  /** A log without field records filters to nothing. */
  lemma {:induction false} FilteredNone(data: seq<LogEntry>)
    requires forall k :: 0 <= k < |data| ==> !IsField(data[k])
    ensures Filtered(data) == []
  {
    if data != [] {
      assert forall k :: 0 <= k < |data[1..]| ==> data[1..][k] == data[k + 1];
      FilteredNone(data[1..]);
    }
  }

  /** Filtering an already filtered sequence changes nothing. */
  lemma {:induction false} FilteredIdempotent(data: seq<LogEntry>)
    ensures Filtered(Filtered(data)) == Filtered(data)
  {
    if data != [] {
      FilteredIdempotent(data[1..]);
      FilteredAppend(if IsField(data[0]) then [data[0]] else [], Filtered(data[1..]));
      FilteredSingle(data[0]);
    }
  }

  /** `xValue`: `entry.Time || 0`. */
  function XValue(e: LogEntry): real {
    match FieldValue(e, TimeKey)
    case None => 0.0
    case Some(t) => if t == 0.0 then 0.0 else t
  }

  /**
   The `|| 0` fallback of `xValue` only matters for a record without a time
   stamp: a stamp of 0 reads as 0 either way.
   */
  lemma XValueDefaults(e: LogEntry)
    ensures XValue(e) == 0.0 <==> TimeKey !in e.fields || e.fields[TimeKey] == 0.0
    ensures XValue(e) == if TimeKey in e.fields then e.fields[TimeKey] else 0.0
  {
  }

  /** `yValue`: the selected field's value, or 0 when the record has no such field. */
  function YValue(e: LogEntry, field: SelectedField): real {
    if field.fieldLabel !in e.fields then 0.0 else e.fields[field.fieldLabel]
  }

  /**
   The diagnostic `yValue` reports for a missing field: present exactly when the
   label is absent, and then the value read is 0; absent otherwise, and then the
   value read is the stored one.
   */
  function MissingFieldWarning(e: LogEntry, field: SelectedField): (w: Option<string>)
    ensures w.Some? <==> field.fieldLabel !in e.fields
    ensures w.Some? ==> YValue(e, field) == 0.0
    ensures w.None? ==> YValue(e, field) == e.fields[field.fieldLabel]
  {
    if field.fieldLabel !in e.fields then
      Some("Field [" + field.fieldLabel + "] doesn't exist in this log file.")
    else None
  }
}
