/** The reference table and the training corpus built from it (app.py:101-107, 115, 119-120, 147).

  The table is the CSV file loaded into a data frame: a sequence of rows whose
  Section values need not be distinct. Each training example pairs the
  normalised text "Section - Offense" of a row with that row's Section.
 */
module LawTable {
  import opened Wrappers
  import opened TextNormalizer

  /** One row of the reference table: the columns Section, Offense, Punishment and Case Type */
  datatype LawEntry = LawEntry(section: string, offense: string, punishment: string, caseType: string)

  type Table = seq<LawEntry>

  datatype TrainingExample = TrainingExample(text: string, section: string)

  /** Every Section value present in the table */
  function Sections(table: Table): set<string> {
    set i | 0 <= i < |table| :: table[i].section
  }

  /** The text columns the normaliser reads are ASCII */
  predicate TableIsAscii(table: Table) {
    forall i :: 0 <= i < |table| ==> IsAscii(table[i].section) && IsAscii(table[i].offense)
  }

  /** The raw training text of a row, `Section + " - " + Offense` (app.py:107) */
  function CombinedText(e: LawEntry): string {
    e.section + " - " + e.offense
  }

  /** The training example of one row */
  function Example(e: LawEntry): TrainingExample
    requires IsAscii(e.section) && IsAscii(e.offense)
  {
    assert IsAscii(CombinedText(e));
    TrainingExample(CleanText(CombinedText(e)), e.section)
  }

  /** The `clean_text` column with its label column (app.py:115, 119-120) */
  function Corpus(table: Table): (r: seq<TrainingExample>)
    requires TableIsAscii(table)
    ensures |r| == |table|
    ensures forall i :: 0 <= i < |table| ==> r[i].section == table[i].section
  {
    seq(|table|, i requires 0 <= i < |table| => Example(table[i]))
  }

  /** The set of labels of a corpus */
  function Labels(corpus: seq<TrainingExample>): set<string> {
    set i | 0 <= i < |corpus| :: corpus[i].section
  }

  /** The label set of the training data is exactly the set of Section values of the table */
  lemma CorpusLabelsAreSections(table: Table)
    requires TableIsAscii(table)
    ensures Labels(Corpus(table)) == Sections(table)
  {
    var c := Corpus(table);
    forall l | l in Labels(c)
      ensures l in Sections(table)
    {
      var i :| 0 <= i < |c| && c[i].section == l;
      assert table[i].section == l;
    }
    forall l | l in Sections(table)
      ensures l in Labels(c)
    {
      var i :| 0 <= i < |table| && table[i].section == l;
      assert c[i].section == l;
    }
  }

  /** Each training text is the normalised Section, three spaces, then the normalised Offense:
      the separator " - " is three non-word characters and none of them is collapsed */
  lemma CorpusTextShape(table: Table, i: nat)
    requires TableIsAscii(table)
    requires i < |table|
    ensures IsAscii(table[i].section) && IsAscii(table[i].offense)
    ensures Corpus(table)[i].text == CleanText(table[i].section) + "   " + CleanText(table[i].offense)
  {
    var e := table[i];
    CleanTextAppend(e.section, " - ");
    CleanTextAppend(e.section + " - ", e.offense);
    assert CleanText(" - ") == "   ";
  }

  /** The rows of `df[df["Section"] == section]`, in table order (app.py:147) */
  function Matching(table: Table, section: string): (r: Table)
    ensures forall e :: e in r ==> e in table && e.section == section
    ensures forall i :: 0 <= i < |table| && table[i].section == section ==> table[i] in r
    ensures |r| <= |table|
  {
    if |table| == 0 then []
    else if table[0].section == section then [table[0]] + Matching(table[1..], section)
    else Matching(table[1..], section)
  }

  /** Index of the first row with the given Section: the reference definition of the lookup */
  function FirstIndex(table: Table, section: string): (r: Option<nat>)
    ensures r.Some? ==> r.value < |table| && table[r.value].section == section
    ensures r.Some? ==> forall j :: 0 <= j < r.value ==> table[j].section != section
    ensures r.None? <==> section !in Sections(table)
  {
    if |table| == 0 then None
    else if table[0].section == section then Some(0)
    else
      match FirstIndex(table[1..], section)
      case None =>
        assert Sections(table) == {table[0].section} + Sections(table[1..]) by {
          assert forall i :: 1 <= i < |table| ==> table[i] == table[1..][i - 1];
          assert forall i :: 0 <= i < |table| - 1 ==> table[1..][i] == table[i + 1];
        }
        None
      case Some(k) => Some(k + 1)
  }

  /** The first matching row is the row at the first index that carries the Section */
  lemma {:induction false} MatchingHeadIsFirst(table: Table, section: string)
    ensures |Matching(table, section)| > 0 <==> FirstIndex(table, section).Some?
    ensures FirstIndex(table, section).Some? ==>
      Matching(table, section)[0] == table[FirstIndex(table, section).value]
    decreases |table|
  {
    if |table| > 0 && table[0].section != section {
      MatchingHeadIsFirst(table[1..], section);
    }
  }

  /** Row `i` is the first row of the table that carries the Section */
  predicate IsFirstRow(table: Table, section: string, i: int) {
    && 0 <= i < |table|
    && table[i].section == section
    && forall j :: 0 <= j < i ==> table[j].section != section
  }

  datatype LookupError = NoRowForLabel(section: string)

  /** `df[df["Section"] == section].iloc[0]`: the first row carrying the Section, or the
      IndexError `iloc[0]` raises on an empty selection (app.py:147) */
  function Lookup(table: Table, section: string): (r: Result<LawEntry, LookupError>)
    ensures r.Success? <==> section in Sections(table)
    ensures r.Failure? ==> r.error == NoRowForLabel(section)
    ensures r.Success? ==> r.value.section == section
    ensures r.Success? ==> exists i :: IsFirstRow(table, section, i) && table[i] == r.value
  {
    MatchingHeadIsFirst(table, section);
    var rows := Matching(table, section);
    if |rows| == 0 then Failure(NoRowForLabel(section))
    else
      assert rows[0] == table[FirstIndex(table, section).value];
      Success(rows[0])
  }
}
