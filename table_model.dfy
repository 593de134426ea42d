/**
 * The two-column telemetry table: one row per telemetry field, the field's
 * caption in column 0 and its latest formatted value in column 1.
 */
module TableModel {
  import opened Values
  import opened Metadata

  /** Qt's `ItemDataRole.DisplayRole`. */
  const DisplayRole: int := 0

  datatype Orientation = Horizontal | Vertical

  /** A Qt model index; Qt never builds a valid index with a negative row or column. */
  datatype ModelIndex = InvalidIndex | Index(row: nat, column: nat)

  /** What a view receives for a cell or header: nothing, text, or an exception. */
  datatype CellData = NoData | Text(s: string) | Raised(error: PyError)

  /** The source keys the table displays. */
  function SourceKeys(fields: seq<TelemetryField>): (keys: set<string>)
    ensures forall k :: k in keys <==> exists i :: 0 <= i < |fields| && fields[i].sourceKey == k
  {
    set i | 0 <= i < |fields| :: fields[i].sourceKey
  }

  /** The stored values after an update: every displayed key present in `data` takes its new value. */
  function Updated(values: map<string, Value>, fields: seq<TelemetryField>, data: map<string, Value>): map<string, Value> {
    values + map k | k in data && k in SourceKeys(fields) :: data[k]
  }

  /** The exceptions the display code catches around the one-argument format. */
  predicate CaughtByValueFormat(e: PyError) {
    e == ValueError || e == TypeError || e == KeyError
  }

  /** The exceptions the display code catches around the two-argument format of a GPS pair. */
  predicate CaughtByPairFormat(e: PyError) {
    e == IndexError || e == TypeError || e == ValueError
  }

  /**
   * `fmt.format(value)`, followed by a space and the unit when there is one;
   * `str(value)` where formatting raises an exception that is caught; any
   * other exception propagates.
   */
  function FormatWithUnit(fmt: string, unit: string, value: Value, rt: Runtime): Result<string> {
    match rt.format(fmt, value)
    case Ok(formatted) => Ok(if unit != "" then formatted + " " + unit else formatted)
    case Err(e) => if CaughtByValueFormat(e) then Ok(rt.repr(value)) else Err(e)
  }

  /**
   * The display text of one field, given the stored values, or the exception
   * that escapes: a missing value shows as "", and only an exception the
   * display code does not catch on that path escapes.
   */
  function ResolveFieldValue(field: TelemetryField, values: map<string, Value>, rt: Runtime): (r: Result<string>)
    ensures Get(values, field.sourceKey).Null? ==> r == Ok("")
    ensures r.Err? ==> !Get(values, field.sourceKey).Null?
    ensures r.Err? && field.sourceKey == "gps_latlon" && Get(values, field.sourceKey).Tuple? ==>
      !CaughtByPairFormat(r.error)
    ensures r.Err? && !(field.sourceKey == "gps_latlon" && Get(values, field.sourceKey).Tuple?) ==>
      !CaughtByValueFormat(r.error)
  {
    var value := Get(values, field.sourceKey);
    if value.Null? then Ok("")
    else if field.sourceKey == "gps_latlon" && value.Tuple? then
      if |value.elems| < 2 then Ok(rt.repr(value))
      else match rt.formatPair(field.fmt, value.elems[0], value.elems[1])
        case Ok(s) => Ok(s)
        case Err(e) => if CaughtByPairFormat(e) then Ok(rt.repr(value)) else Err(e)
    else
      var shown := if field.transform.Some? then
        match rt.transform(field.transform.value, value)
        case Some(v) => v
        case None => value
      else value;
      FormatWithUnit(field.fmt, field.unit, shown, rt)
  }

  class TelemetryTableModel {
    const fields: seq<TelemetryField>
    /** Latest raw value per source key. */
    var values: map<string, Value>

    /** A table over `fields`, or over the configured telemetry fields when none are given; no values yet. */
    constructor(fieldsArg: Option<seq<TelemetryField>>)
      ensures fields == (if fieldsArg.Some? then fieldsArg.value else TelemetryFields)
      ensures values == map[]
    {
      fields := if fieldsArg.Some? then fieldsArg.value else TelemetryFields;
      values := map[];
    }

    function RowCount(): nat {
      |fields|
    }

    function ColumnCount(): nat {
      2
    }

    /**
     * Cell contents. Text appears only in the grid of `RowCount()` rows and
     * `ColumnCount()` columns; a row past the end raises `IndexError`, and a
     * value cell raises whatever exception escapes its formatting.
     */
    function Data(index: ModelIndex, role: int, rt: Runtime): (c: CellData)
      reads this
      ensures c.Text? ==> index.Index? && role == DisplayRole && index.row < RowCount() && index.column < ColumnCount()
      ensures c.Raised? <==>
        (index.Index? && role == DisplayRole &&
         (index.row >= RowCount() || (index.column == 1 && ResolveFieldValue(fields[index.row], values, rt).Err?)))
      ensures c.NoData? <==> !(index.Index? && role == DisplayRole && (index.row >= RowCount() || index.column < ColumnCount()))
      ensures c.Raised? && index.row >= RowCount() ==> c.error == IndexError
      ensures c.Raised? && index.row < RowCount() ==> c.error == ResolveFieldValue(fields[index.row], values, rt).error
      ensures c.Text? && index.column == 0 ==> c.s == fields[index.row].caption
      ensures c.Text? && index.column == 1 ==> Ok(c.s) == ResolveFieldValue(fields[index.row], values, rt)
    {
      if index.InvalidIndex? || role != DisplayRole then NoData
      else if index.row >= |fields| then Raised(IndexError)
      else if index.column == 0 then Text(fields[index.row].caption)
      else if index.column == 1 then
        match ResolveFieldValue(fields[index.row], values, rt)
        case Ok(text) => Text(text)
        case Err(e) => Raised(e)
      else NoData
    }

    /**
     * Horizontal display-role headers: "Parameter" and "Value". The header
     * list is indexed the Python way, so sections -2 and -1 name the same
     * headers as 0 and 1, and any other section raises `IndexError`.
     */
    function HeaderData(section: int, orientation: Orientation, role: int): (c: CellData)
      ensures role != DisplayRole || orientation != Horizontal ==> c == NoData
      ensures role == DisplayRole && orientation == Horizontal ==>
        && (section == 0 || section == -2 ==> c == Text("Parameter"))
        && (section == 1 || section == -1 ==> c == Text("Value"))
        && (c.Raised? <==> section < -2 || 1 < section)
    {
      if role != DisplayRole || orientation != Horizontal then NoData
      else
        var headers := ["Parameter", "Value"];
        if 0 <= section < 2 then Text(headers[section])
        else if -2 <= section < 0 then Text(headers[section + 2])
        else Raised(IndexError)
    }

    /**
     * Stores every displayed key present in `data` and reports the first and
     * last row whose key was present (the range the change signal covers),
     * or `None` when no row changed.
     */
    method UpdateTelemetry(data: map<string, Value>) returns (changed: Option<(nat, nat)>)
      modifies this
      ensures values == Updated(old(values), fields, data)
      ensures changed.None? <==> forall i :: 0 <= i < |fields| ==> fields[i].sourceKey !in data
      ensures changed.Some? ==>
        && changed.value.0 <= changed.value.1 < |fields|
        && fields[changed.value.0].sourceKey in data
        && fields[changed.value.1].sourceKey in data
        && forall i :: 0 <= i < |fields| && (i < changed.value.0 || changed.value.1 < i) ==> fields[i].sourceKey !in data
    {
      var rows: seq<nat> := [];
      var i := 0;
      while i < |fields|
        invariant 0 <= i <= |fields|
        invariant values == Updated(old(values), fields[..i], data)
        invariant ChangedRows(fields, data, rows, i)
      {
        var key, next := fields[i].sourceKey, i + 1;
        if key in data {
          UpdatedStep(old(values), fields, i, next, data);
          ChangedRowsAdd(fields, data, rows, i, next);
          values := values[key := data[key]];
          rows := rows + [i];
        } else {
          UpdatedSkip(old(values), fields, i, next, data);
          ChangedRowsSkip(fields, data, rows, i, next);
        }
        i := next;
      }
      assert fields[..i] == fields;
      NoChangedRows(fields, data, rows);
      if rows == [] {
        changed := None;
      } else {
        changed := Some((rows[0], rows[|rows| - 1]));
        ChangedRowsRange(fields, data, rows);
      }
    }
  }

  /** `rows` lists, in increasing order, exactly the rows below `i` whose key is in `data`. */
  ghost predicate ChangedRows(fields: seq<TelemetryField>, data: map<string, Value>, rows: seq<nat>, i: nat)
    requires i <= |fields|
  {
    && (forall j :: 0 <= j < |rows| ==> rows[j] < i && fields[rows[j]].sourceKey in data)
    && (forall j :: 0 <= j < i && fields[j].sourceKey in data ==> j in rows)
    && (forall j, k :: 0 <= j < k < |rows| ==> rows[j] < rows[k])
  }

  lemma ChangedRowsAdd(fields: seq<TelemetryField>, data: map<string, Value>, rows: seq<nat>, i: nat, next: nat)
    requires i < |fields| && next == i + 1 && fields[i].sourceKey in data
    requires ChangedRows(fields, data, rows, i)
    ensures ChangedRows(fields, data, rows + [i], next)
  {
  }

  lemma ChangedRowsSkip(fields: seq<TelemetryField>, data: map<string, Value>, rows: seq<nat>, i: nat, next: nat)
    requires i < |fields| && next == i + 1 && fields[i].sourceKey !in data
    requires ChangedRows(fields, data, rows, i)
    ensures ChangedRows(fields, data, rows, next)
  {
  }

  /**
   * The increasing list of every row whose key is in `data` starts at the
   * first such row and ends at the last.
   */
  lemma ChangedRowsRange(fields: seq<TelemetryField>, data: map<string, Value>, rows: seq<nat>)
    requires rows != []
    requires ChangedRows(fields, data, rows, |fields|)
    ensures rows[0] <= rows[|rows| - 1] < |fields|
    ensures fields[rows[0]].sourceKey in data && fields[rows[|rows| - 1]].sourceKey in data
    ensures forall j :: 0 <= j < |fields| && (j < rows[0] || rows[|rows| - 1] < j) ==> fields[j].sourceKey !in data
  {
    assert forall k :: 0 <= k < |rows| ==> rows[0] <= rows[k] <= rows[|rows| - 1];
  }

  /** No row changed exactly when no field's key is in `data`. */
  lemma NoChangedRows(fields: seq<TelemetryField>, data: map<string, Value>, rows: seq<nat>)
    requires ChangedRows(fields, data, rows, |fields|)
    ensures rows == [] <==> forall j :: 0 <= j < |fields| ==> fields[j].sourceKey !in data
  {
    if rows != [] {
      assert fields[rows[0]].sourceKey in data;
    }
  }

  /** The keys of one more field are those before and the new field's. */
  lemma SourceKeysSnoc(fields: seq<TelemetryField>, i: nat, next: nat)
    requires i < |fields| && next == i + 1
    ensures SourceKeys(fields[..next]) == SourceKeys(fields[..i]) + {fields[i].sourceKey}
  {
    assert fields[..next] == fields[..i] + [fields[i]];
  }

  lemma UpdatedStep(values: map<string, Value>, fields: seq<TelemetryField>, i: nat, next: nat, data: map<string, Value>)
    requires i < |fields| && next == i + 1 && fields[i].sourceKey in data
    ensures Updated(values, fields[..next], data) ==
            Updated(values, fields[..i], data)[fields[i].sourceKey := data[fields[i].sourceKey]]
  {
    SourceKeysSnoc(fields, i, next);
  }

  lemma UpdatedSkip(values: map<string, Value>, fields: seq<TelemetryField>, i: nat, next: nat, data: map<string, Value>)
    requires i < |fields| && next == i + 1 && fields[i].sourceKey !in data
    ensures Updated(values, fields[..next], data) == Updated(values, fields[..i], data)
  {
    SourceKeysSnoc(fields, i, next);
  }

  /**
   * After an update, a row whose key was in the update shows the new value,
   * and every other row shows what it showed before.
   */
  lemma UpdateThenDisplay(fields: seq<TelemetryField>, values: map<string, Value>, data: map<string, Value>,
                          row: nat, rt: Runtime)
    requires row < |fields|
    ensures var field := fields[row];
      ResolveFieldValue(field, Updated(values, fields, data), rt) ==
        if field.sourceKey in data then ResolveFieldValue(field, map[field.sourceKey := data[field.sourceKey]], rt)
        else ResolveFieldValue(field, values, rt)
  {
    var field := fields[row];
    assert field.sourceKey in SourceKeys(fields);
    assert Get(Updated(values, fields, data), field.sourceKey) ==
           if field.sourceKey in data then data[field.sourceKey] else Get(values, field.sourceKey);
  }

  /** A field with no stored value, or a stored `None`, shows as an empty cell. */
  lemma MissingValueShowsEmpty(field: TelemetryField, values: map<string, Value>, rt: Runtime)
    requires field.sourceKey !in values || values[field.sourceKey] == Null
    ensures ResolveFieldValue(field, values, rt) == Ok("")
  {
  }

  /**
   * A value that formats shows as the formatted text followed by the field's
   * unit; one whose format raises `ValueError`, `TypeError` or `KeyError`
   * shows as `str(value)`; any other exception escapes.
   */
  lemma FormattedValueCarriesUnit(field: TelemetryField, values: map<string, Value>, rt: Runtime)
    requires field.sourceKey in values && values[field.sourceKey] != Null
    requires !(field.sourceKey == "gps_latlon" && values[field.sourceKey].Tuple?)
    requires field.transform.None?
    requires field.unit != ""
    ensures rt.format(field.fmt, values[field.sourceKey]).Ok? ==>
      ResolveFieldValue(field, values, rt) == Ok(rt.format(field.fmt, values[field.sourceKey]).value + " " + field.unit)
    ensures rt.format(field.fmt, values[field.sourceKey]).Err? ==>
      var e := rt.format(field.fmt, values[field.sourceKey]).error;
      ResolveFieldValue(field, values, rt) == if e in {ValueError, TypeError, KeyError} then Ok(rt.repr(values[field.sourceKey])) else Err(e)
  {
  }

  /**
   * A field without a unit shows the formatted value alone; the caught
   * exceptions show `str(value)` and any other escapes.
   */
  lemma UnitlessValueIsFormatted(field: TelemetryField, values: map<string, Value>, rt: Runtime)
    requires field.sourceKey in values && values[field.sourceKey] != Null
    requires !(field.sourceKey == "gps_latlon" && values[field.sourceKey].Tuple?)
    requires field.transform.None?
    requires field.unit == ""
    ensures rt.format(field.fmt, values[field.sourceKey]).Ok? ==>
      ResolveFieldValue(field, values, rt) == rt.format(field.fmt, values[field.sourceKey])
    ensures rt.format(field.fmt, values[field.sourceKey]).Err? ==>
      var e := rt.format(field.fmt, values[field.sourceKey]).error;
      ResolveFieldValue(field, values, rt) == if e in {ValueError, TypeError, KeyError} then Ok(rt.repr(values[field.sourceKey])) else Err(e)
  {
  }

  /** A transform that raises leaves the raw value: the field shows as if it had no transform. */
  lemma RaisingTransformKeepsRaw(field: TelemetryField, values: map<string, Value>, rt: Runtime)
    requires field.transform.Some? && field.sourceKey in values
    requires rt.transform(field.transform.value, values[field.sourceKey]).None?
    ensures ResolveFieldValue(field, values, rt) == ResolveFieldValue(field.(transform := None), values, rt)
  {
  }

  /**
   * A transform that succeeds is formatted in place of the raw value: the
   * field shows as a field without a transform would show the transformed
   * value, when that value is neither `None` nor a GPS pair.
   */
  lemma TransformedValueShown(field: TelemetryField, values: map<string, Value>, rt: Runtime)
    requires field.transform.Some? && field.sourceKey in values && values[field.sourceKey] != Null
    requires !(field.sourceKey == "gps_latlon" && values[field.sourceKey].Tuple?)
    requires rt.transform(field.transform.value, values[field.sourceKey]).Some?
    requires var v := rt.transform(field.transform.value, values[field.sourceKey]).value;
      v != Null && !(field.sourceKey == "gps_latlon" && v.Tuple?)
    ensures ResolveFieldValue(field, values, rt) ==
      ResolveFieldValue(field.(transform := None), values[field.sourceKey := rt.transform(field.transform.value, values[field.sourceKey]).value], rt)
  {
  }

  /**
   * One row per field and two columns: every row of the grid shows its
   * field's caption, the row after the last raises `IndexError`, and the
   * column after the value column holds nothing.
   */
  lemma TableShape(model: TelemetryTableModel, rt: Runtime)
    ensures model.RowCount() == |model.fields| && model.ColumnCount() == 2
    ensures forall i :: 0 <= i < |model.fields| ==> model.Data(Index(i, 0), DisplayRole, rt) == Text(model.fields[i].caption)
    ensures model.Data(Index(|model.fields|, 0), DisplayRole, rt) == Raised(IndexError)
    ensures forall i :: 0 <= i < |model.fields| ==> model.Data(Index(i, 2), DisplayRole, rt) == NoData
  {
  }

  /**
   * The configured GPS field holding a single number rather than a pair: its
   * two-placeholder format raises `IndexError`, which the display code does
   * not catch, so the value cell raises.
   */
  lemma SingleCoordinateRaises(model: TelemetryTableModel, row: nat, rt: Runtime)
    requires row < |model.fields| && model.fields[row].sourceKey == "gps_latlon" && model.fields[row].transform.None?
    requires "gps_latlon" in model.values && model.values["gps_latlon"].Num?
    requires rt.format(model.fields[row].fmt, model.values["gps_latlon"]) == Err(IndexError)
    ensures model.Data(Index(row, 1), DisplayRole, rt) == Raised(IndexError)
  {
  }

  /** A GPS pair of coordinates is handed to the two-argument format, never to the unit path. */
  lemma GpsPairFormatting(field: TelemetryField, values: map<string, Value>, lat: Value, lon: Value, rt: Runtime)
    requires field.sourceKey == "gps_latlon"
    requires field.sourceKey in values && values[field.sourceKey] == Tuple([lat, lon])
    ensures var r := rt.formatPair(field.fmt, lat, lon);
      ResolveFieldValue(field, values, rt) ==
        if r.Ok? then r
        else if r.error in {IndexError, TypeError, ValueError} then Ok(rt.repr(Tuple([lat, lon])))
        else Err(r.error)
  {
  }
}
