/** The row navigator: the plugin's top level. It keeps the record ids of the current
    table, the position of the record on screen and the table it belongs to; it loads
    a record's question sheet from its JSON fields, moves to the previous or next
    record, and writes the editor's reports back to the record.

    Host calls are parameters: `fetch(tableId, recordId)` stands for reading all
    fields of a record, `listIds(tableId)` for listing a table's record ids, and the
    writes are returned in the order they are issued. JSON decoding and encoding are
    the navigator's `parse` and `stringify` functions. */
module App {
  import opened Common
  import opened Scene

  /** One rich-text segment of a text field's value. */
  datatype Segment = Segment(kind: string, text: Option<string>)

  /** A field value: `null`, or the rich-text segments of a text field. */
  datatype FieldValue = Null | Segments(segments: seq<Segment>)

  datatype FieldData = FieldData(fieldName: string, value: FieldValue)

  /** What the selection watcher delivers: a failure, or the selected record's table,
      record id and fields (an id the host did not give is the empty string). */
  datatype RowData = RowFailed | Row(tableId: string, recordId: string, data: seq<FieldData>)

  /** The outcome of reading a record's fields: the call threw, reported failure (or
      returned no fields), or returned the fields. */
  datatype RowFetch = FetchThrew | FetchFailed | Fetched(data: seq<FieldData>)

  /** A write of `value` into the field named `fieldName` of a record; `recordId` is
      `None` when the position does not name a record of the list. */
  datatype Write = Write(fieldName: string, tableId: string, recordId: Option<string>, value: string)

  const OUTPUT_JSON := "输出json"
  const INPUT_JSON := "输入json"
  const STATUS_FIELD := "标注状态"
  const IN_PROGRESS := "标注中"
  const ANNOTATED := "已标注"

  // ---------------------------------------------------------------------------
  // Loading a sheet from the record's fields

  /** The text a segment contributes: that of a `text` or `url` segment (empty when
      it has none), nothing for any other kind. */
  function Piece(s: Segment): string {
    if IsTextual(s) then s.text.GetOr("") else ""
  }

  predicate IsTextual(s: Segment) {
    s.kind == "text" || s.kind == "url"
  }

  /** The text of a rich-text value: its segments' pieces, in order. */
  function SegmentText(segs: seq<Segment>): string {
    if segs == [] then "" else Piece(segs[0]) + SegmentText(segs[1..])
  }

  /** Concatenating values concatenates their texts. */
  lemma {:induction false} SegmentTextAppend(a: seq<Segment>, b: seq<Segment>)
    ensures SegmentText(a + b) == SegmentText(a) + SegmentText(b)
  {
    if a == [] {
      assert a + b == b;
    } else {
      assert (a + b)[1..] == a[1..] + b;
      SegmentTextAppend(a[1..], b);
    }
  }

  /** Segments of any kind other than `text` and `url` are ignored. */
  lemma {:induction false} SegmentTextIgnoresOtherKinds(segs: seq<Segment>)
    ensures SegmentText(segs) == SegmentText(Filter(segs, IsTextual))
  {
    if segs != [] {
      SegmentTextIgnoresOtherKinds(segs[1..]);
    }
  }

  /** Builds the text of a rich-text value, appending segment by segment. */
  method JoinSegments(segs: seq<Segment>) returns (s: string)
    ensures s == SegmentText(segs)
  {
    s := "";
    var k := 0;
    while k < |segs|
      invariant 0 <= k <= |segs|
      invariant s == SegmentText(segs[..k])
    {
      SegmentTextAppend(segs[..k], [segs[k]]);
      assert segs[..k + 1] == segs[..k] + [segs[k]];
      s := s + Piece(segs[k]);
      k := k + 1;
    }
    assert segs[..k] == segs;
  }

  /** Whether a field is named `name`. */
  function Named(name: string): FieldData -> bool {
    (f: FieldData) => f.fieldName == name
  }

  /** The first field named `name`, as `fields.find(...)`. */
  function FirstNamed(fields: seq<FieldData>, name: string): (r: Option<FieldData>)
    ensures r.None? <==> forall k :: 0 <= k < |fields| ==> fields[k].fieldName != name
    ensures r.Some? ==> exists k :: (0 <= k < |fields| && fields[k] == r.value && r.value.fieldName == name &&
      forall m :: 0 <= m < k ==> fields[m].fieldName != name)
  {
    match FindFirst(fields, Named(name))
    case None => None
    case Some(k) => Some(fields[k])
  }

  /** The value to parse: the output field's when it is not null, otherwise the
      input field's when that is not null, otherwise none. */
  function ChosenValue(fields: seq<FieldData>): (r: Option<seq<Segment>>)
    ensures FirstNamed(fields, OUTPUT_JSON).Some? && FirstNamed(fields, OUTPUT_JSON).value.value.Segments? ==>
      r == Some(FirstNamed(fields, OUTPUT_JSON).value.value.segments)
    ensures r.Some? ==> exists k :: (0 <= k < |fields| && fields[k].value == Segments(r.value) &&
      (fields[k].fieldName == OUTPUT_JSON || fields[k].fieldName == INPUT_JSON))
    ensures
      && (FirstNamed(fields, OUTPUT_JSON).None? || FirstNamed(fields, OUTPUT_JSON).value.value.Null?)
      && FirstNamed(fields, INPUT_JSON).Some? && FirstNamed(fields, INPUT_JSON).value.value.Segments?
      ==> r == Some(FirstNamed(fields, INPUT_JSON).value.value.segments)
    ensures r.None? <==>
      && (FirstNamed(fields, OUTPUT_JSON).None? || FirstNamed(fields, OUTPUT_JSON).value.value.Null?)
      && (FirstNamed(fields, INPUT_JSON).None? || FirstNamed(fields, INPUT_JSON).value.value.Null?)
  {
    var output := FirstNamed(fields, OUTPUT_JSON);
    var input := FirstNamed(fields, INPUT_JSON);
    if output.Some? && output.value.value.Segments? then Some(output.value.value.segments)
    else if input.Some? && input.value.value.Segments? then Some(input.value.value.segments)
    else None
  }

  /** The sheets a record's fields hold: the chosen value's text decoded, or none
      (`{}`) when there is no value or it does not decode. */
  function SheetsFrom(fields: seq<FieldData>, parse: string -> Option<seq<Sheet>>): seq<Sheet> {
    match ChosenValue(fields)
    case None => []
    case Some(segs) => parse(SegmentText(segs)).GetOr([])
  }

  /** `ids.indexOf(id)`: the first position of `id`, or -1. */
  function IndexOf(ids: seq<string>, id: string): (r: int)
    ensures -1 <= r < |ids|
    ensures r == -1 <==> id !in ids
    ensures r >= 0 ==> ids[r] == id && forall k :: 0 <= k < r ==> ids[k] != id
  {
    match FindFirst(ids, (x: string) => x == id)
    case None => -1
    case Some(k) => k
  }

  /** `ids[index]`, which is `undefined` outside the list. */
  function RecordAt(ids: seq<string>, index: int): (r: Option<string>)
    ensures r.Some? <==> 0 <= index < |ids|
    ensures r.Some? ==> r.value == ids[index]
  {
    if 0 <= index < |ids| then Some(ids[index]) else None
  }

  // ---------------------------------------------------------------------------
  // The navigator

  class RowNavigator {
    const parse: string -> Option<seq<Sheet>>
    const stringify: seq<Sheet> -> string

    /** The sheets shown in the editor (`{}` is the empty list). */
    var structuredData: seq<Sheet>
    /** The fields of the record on screen. */
    var allFieldsData: seq<FieldData>
    /** The record ids of the current table. */
    var recordIds: seq<string>
    /** The position of the record on screen in `recordIds`; -1 when unknown. */
    var currentRecordIndex: int
    /** The table of the record on screen; empty before the first selection. */
    var currentTableId: string

    constructor (parse: string -> Option<seq<Sheet>>, stringify: seq<Sheet> -> string)
      ensures this.parse == parse && this.stringify == stringify
      ensures structuredData == [] && allFieldsData == [] && recordIds == []
      ensures currentRecordIndex == -1 && currentTableId == ""
    {
      this.parse := parse;
      this.stringify := stringify;
      structuredData, allFieldsData, recordIds := [], [], [];
      currentRecordIndex, currentTableId := -1, "";
    }

    /** The position is -1 or names a record of the list. */
    predicate IndexInRange()
      reads this
    {
      -1 <= currentRecordIndex < |recordIds|
    }

    predicate CanGoPrevious()
      reads this
    {
      currentRecordIndex > 0 && |recordIds| > 0 && currentTableId != ""
    }

    predicate CanGoNext()
      reads this
    {
      currentRecordIndex < |recordIds| - 1 && |recordIds| > 0 && currentTableId != ""
    }

    /** Loads the sheet held by `fields` into the editor. */
    method ProcessJsonFields(fields: seq<FieldData>)
      modifies this`structuredData
      ensures structuredData == SheetsFrom(fields, parse)
    {
      match ChosenValue(fields) {
        case None =>
          structuredData := [];
        case Some(segs) =>
          var text := JoinSegments(segs);
          structuredData := parse(text).GetOr([]);
      }
    }

    /** A selection event. A failed one only clears the field data. Otherwise a new
        table id makes it the current table and refreshes the record list (kept when
        listing fails); a record id, with a non-empty list, sets the position to its
        index in the list (-1 when absent); and the record's fields are loaded. */
    method OnRowFields(row: RowData, listIds: string -> Option<seq<string>>)
      modifies this
      ensures row.RowFailed? ==>
        && allFieldsData == [] && structuredData == old(structuredData) && recordIds == old(recordIds)
        && currentRecordIndex == old(currentRecordIndex) && currentTableId == old(currentTableId)
      ensures row.Row? ==>
        var newTable := row.tableId != "" && row.tableId != old(currentTableId);
        && currentTableId == (if newTable then row.tableId else old(currentTableId))
        && recordIds == (if newTable && listIds(row.tableId).Some? then listIds(row.tableId).value else old(recordIds))
        && currentRecordIndex == (if row.recordId != "" && |recordIds| > 0 then IndexOf(recordIds, row.recordId)
                                  else old(currentRecordIndex))
        && allFieldsData == row.data
        && structuredData == (if row.data != [] then SheetsFrom(row.data, parse) else [])
      ensures row.Row? && row.recordId != "" && |recordIds| > 0 ==> IndexInRange()
      ensures old(IndexInRange()) && recordIds == old(recordIds) ==> IndexInRange()
    {
      if row.RowFailed? {
        allFieldsData := [];
        return;
      }
      if row.tableId != "" && row.tableId != currentTableId {
        currentTableId := row.tableId;
        var listed := listIds(row.tableId);
        if listed.Some? {
          recordIds := listed.value;
        }
      }
      if row.recordId != "" && |recordIds| > 0 {
        currentRecordIndex := IndexOf(recordIds, row.recordId);
      }
      if row.data != [] {
        allFieldsData := row.data;
        ProcessJsonFields(row.data);
      } else {
        allFieldsData := [];
        structuredData := [];
      }
    }

    /** The "previous record" button: when there is a previous record and its fields
        are read, it becomes the record on screen; otherwise nothing changes. */
    method Previous(fetch: (string, Option<string>) -> RowFetch)
      modifies this
      ensures recordIds == old(recordIds) && currentTableId == old(currentTableId)
      ensures old(IndexInRange()) ==> IndexInRange()
      ensures
        var got := fetch(old(currentTableId), RecordAt(old(recordIds), old(currentRecordIndex) - 1));
        if old(CanGoPrevious()) && got.Fetched? then
          && currentRecordIndex == old(currentRecordIndex) - 1
          && allFieldsData == got.data && structuredData == SheetsFrom(got.data, parse)
        else
          && currentRecordIndex == old(currentRecordIndex)
          && allFieldsData == old(allFieldsData) && structuredData == old(structuredData)
    {
      if CanGoPrevious() {
        var prevIndex := currentRecordIndex - 1;
        var got := fetch(currentTableId, RecordAt(recordIds, prevIndex));
        if got.Fetched? {
          currentRecordIndex := prevIndex;
          allFieldsData := got.data;
          ProcessJsonFields(got.data);
        }
      }
    }

    /** The "next record" button: when there is a next record (from -1 that is the
        first) and its fields are read, it becomes the record on screen; otherwise
        nothing changes. */
    method Next(fetch: (string, Option<string>) -> RowFetch)
      modifies this
      ensures recordIds == old(recordIds) && currentTableId == old(currentTableId)
      ensures old(IndexInRange()) ==> IndexInRange()
      ensures
        var got := fetch(old(currentTableId), RecordAt(old(recordIds), old(currentRecordIndex) + 1));
        if old(CanGoNext()) && got.Fetched? then
          && currentRecordIndex == old(currentRecordIndex) + 1
          && allFieldsData == got.data && structuredData == SheetsFrom(got.data, parse)
        else
          && currentRecordIndex == old(currentRecordIndex)
          && allFieldsData == old(allFieldsData) && structuredData == old(structuredData)
    {
      if CanGoNext() {
        var nextIndex := currentRecordIndex + 1;
        var got := fetch(currentTableId, RecordAt(recordIds, nextIndex));
        if got.Fetched? {
          currentRecordIndex := nextIndex;
          allFieldsData := got.data;
          ProcessJsonFields(got.data);
        }
      }
    }

    /** A report from the editor. The sheets are shown and written, as JSON, to the
        output field of the record on screen; level 1 also sets its status to "in
        progress", level 2 to "annotated" and then moves to the next record. */
    method DataChange(newData: seq<Sheet>, isComplete: int, fetch: (string, Option<string>) -> RowFetch)
      returns (writes: seq<Write>)
      modifies this
      ensures
        var target := RecordAt(old(recordIds), old(currentRecordIndex));
        writes == [Write(OUTPUT_JSON, old(currentTableId), target, stringify(newData))]
                  + (if isComplete == 1 then [Write(STATUS_FIELD, old(currentTableId), target, IN_PROGRESS)]
                     else if isComplete == 2 then [Write(STATUS_FIELD, old(currentTableId), target, ANNOTATED)]
                     else [])
      ensures recordIds == old(recordIds) && currentTableId == old(currentTableId)
      ensures old(IndexInRange()) ==> IndexInRange()
      ensures isComplete != 2 ==>
        && structuredData == newData
        && currentRecordIndex == old(currentRecordIndex) && allFieldsData == old(allFieldsData)
      ensures isComplete == 2 ==>
        var got := fetch(old(currentTableId), RecordAt(old(recordIds), old(currentRecordIndex) + 1));
        if old(CanGoNext()) && got.Fetched? then
          && currentRecordIndex == old(currentRecordIndex) + 1
          && allFieldsData == got.data && structuredData == SheetsFrom(got.data, parse)
        else
          && currentRecordIndex == old(currentRecordIndex)
          && allFieldsData == old(allFieldsData) && structuredData == newData
    {
      structuredData := newData;
      var target := RecordAt(recordIds, currentRecordIndex);
      writes := [Write(OUTPUT_JSON, currentTableId, target, stringify(newData))];
      if isComplete == 1 {
        writes := writes + [Write(STATUS_FIELD, currentTableId, target, IN_PROGRESS)];
      }
      if isComplete == 2 {
        writes := writes + [Write(STATUS_FIELD, currentTableId, target, ANNOTATED)];
        Next(fetch);
      }
    }
  }

  /** Confirming the last record writes "annotated" to it and stays on it. */
  method ConfirmLastScenario(parse: string -> Option<seq<Sheet>>, stringify: seq<Sheet> -> string,
                             fetch: (string, Option<string>) -> RowFetch, data: seq<Sheet>)
    returns (writes: seq<Write>, index: int)
    ensures index == 1 && |writes| == 2
    ensures writes[|writes| - 1] == Write(STATUS_FIELD, "t", Some("r1"), ANNOTATED)
  {
    var nav := new RowNavigator(parse, stringify);
    nav.currentTableId := "t";
    nav.recordIds := ["r0", "r1"];
    nav.currentRecordIndex := 1;
    writes := nav.DataChange(data, 2, fetch);
    index := nav.currentRecordIndex;
  }
}
