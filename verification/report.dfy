/** The text content of the report `generate_pdf` writes (app.py:159-176).

  The document holds a title and then one "key: value" block per record
  field, in record order. Page geometry, fonts and line wrapping are layout
  and are not modelled; the model is the sequence of text blocks.
 */
module Report {
  import opened Wrappers
  import opened Orchestrator

  const ReportTitle: string := "Cyber Law Report"

  /** The one fixed path every report is written to, overwriting the previous one */
  const ReportPath: string := "static/cyber_law_report.pdf"

  /** The block `f"{key}: {value}"` of one field (app.py:170) */
  function EntryLine(f: Field): string {
    f.key + ": " + f.value
  }

  /** The blocks of a report, title first */
  function ReportLines(record: Record): (lines: seq<string>)
    ensures |lines| == |record| + 1
    ensures lines[0] == ReportTitle
    ensures forall i :: 0 <= i < |record| ==> lines[i + 1] == EntryLine(record[i])
  {
    [ReportTitle] + seq(|record|, i requires 0 <= i < |record| => EntryLine(record[i]))
  }

  /** Text the core font "Arial" can encode: Latin-1, code points below 256 */
  predicate IsLatin1(s: string) {
    forall i :: 0 <= i < |s| ==> s[i] as int < 256
  }

  /** Every block of the record can be written with the core font (the title is ASCII) */
  predicate Encodable(record: Record) {
    forall i :: 0 <= i < |record| ==> IsLatin1(EntryLine(record[i]))
  }

  /** Writing a block with a character outside Latin-1 raises */
  datatype RenderError = NotLatin1(field: nat)

  /** `generate_pdf` (app.py:160-176): emits the title, then one block per field, in order,
      and returns the fixed path; the first block the core font cannot encode raises instead */
  method GeneratePdf(record: Record) returns (r: Result<(seq<string>, string), RenderError>)
    ensures r.Success? <==> Encodable(record)
    ensures r.Success? ==> r.value.0 == ReportLines(record) && r.value.1 == ReportPath
    ensures r.Failure? ==>
      && r.error.field < |record|
      && !IsLatin1(EntryLine(record[r.error.field]))
      && forall k :: 0 <= k < r.error.field ==> IsLatin1(EntryLine(record[k]))
  {
    var lines := [ReportTitle];
    var i := 0;
    while i < |record|
      invariant 0 <= i <= |record|
      invariant |lines| == i + 1
      invariant lines[0] == ReportTitle
      invariant forall k :: 0 <= k < i ==> lines[k + 1] == EntryLine(record[k])
      invariant forall k :: 0 <= k < i ==> IsLatin1(EntryLine(record[k]))
    {
      var block := EntryLine(record[i]);
      if !IsLatin1(block) {
        return Failure(NotLatin1(i));
      }
      lines := lines + [block];
      i := i + 1;
    }
    return Success((lines, ReportPath));
  }

  /** Position of the first ':' in a text */
  function FirstColon(s: string): (r: Option<nat>)
    ensures r.Some? ==> r.value < |s| && s[r.value] == ':' && ':' !in s[..r.value]
    ensures r.None? ==> ':' !in s
  {
    if |s| == 0 then None
    else if s[0] == ':' then Some(0)
    else
      match FirstColon(s[1..])
      case None => None
      case Some(k) =>
        assert s[..k + 1] == [s[0]] + s[1..][..k];
        Some(k + 1)
  }

  /** Reads a block back: the key runs up to the first ':', which must be followed by a space */
  function ParseEntry(line: string): (r: Option<Field>)
    ensures r.Some? ==> EntryLine(r.value) == line && ':' !in r.value.key
  {
    match FirstColon(line)
    case None => None
    case Some(k) =>
      if k + 1 < |line| && line[k + 1] == ' ' then
        var f := Field(line[..k], line[k + 2..]);
        assert line == line[..k] + ": " + line[k + 2..];
        Some(f)
      else None
  }

  function ParseEntries(lines: seq<string>): (r: Option<Record>)
    ensures r.Some? ==> |r.value| == |lines|
  {
    if |lines| == 0 then Some([])
    else
      match (ParseEntry(lines[0]), ParseEntries(lines[1..]))
      case (Some(f), Some(rest)) => Some([f] + rest)
      case _ => None
  }

  /** Reads a report back into the record it was made from */
  function ParseReport(lines: seq<string>): Option<Record> {
    if |lines| == 0 || lines[0] != ReportTitle then None else ParseEntries(lines[1..])
  }

  lemma {:induction false} FirstColonAfterKey(key: string, rest: string)
    requires ':' !in key
    ensures FirstColon(key + ":" + rest) == Some(|key|)
    decreases |key|
  {
    if |key| > 0 {
      assert (key + ":" + rest)[1..] == key[1..] + ":" + rest;
      FirstColonAfterKey(key[1..], rest);
    } else {
      assert (key + ":" + rest)[0] == ':';
    }
  }

  lemma ParseEntryRoundTrip(f: Field)
    requires ':' !in f.key
    ensures ParseEntry(EntryLine(f)) == Some(f)
  {
    var line := EntryLine(f);
    assert line == f.key + ":" + (" " + f.value);
    FirstColonAfterKey(f.key, " " + f.value);
    assert line[..|f.key|] == f.key;
    assert line[|f.key| + 2..] == f.value;
  }

  /** A record whose keys contain no ':' is recovered intact from its report */
  lemma ReportRoundTrip(record: Record)
    requires forall i :: 0 <= i < |record| ==> ':' !in record[i].key
    ensures ParseReport(ReportLines(record)) == Some(record)
  {
    EntriesRoundTrip(record);
  }

  lemma {:induction false} EntriesRoundTrip(record: Record)
    requires forall i :: 0 <= i < |record| ==> ':' !in record[i].key
    ensures ParseEntries(ReportLines(record)[1..]) == Some(record)
    decreases |record|
  {
    if |record| > 0 {
      var lines := ReportLines(record)[1..];
      ParseEntryRoundTrip(record[0]);
      EntriesRoundTrip(record[1..]);
      assert lines[1..] == ReportLines(record[1..])[1..];
      assert [record[0]] + record[1..] == record;
    } else {
      assert ReportLines(record)[1..] == [];
    }
  }

  /** The keys of a predicted record contain no ':', so its report reads back to it */
  lemma PredictedRecordRoundTrips(record: Record)
    requires Keys(record) == RecordKeys
    ensures ParseReport(ReportLines(record)) == Some(record)
  {
    forall i | 0 <= i < |record|
      ensures ':' !in record[i].key
    {
      assert record[i].key == RecordKeys[i];
    }
    ReportRoundTrip(record);
  }
}
