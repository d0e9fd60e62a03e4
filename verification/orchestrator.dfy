/** The prediction orchestrator `predict_law` (app.py:142-157).

  A query is normalised, classified, looked up in the table, and enriched
  with the procedure text; the result is a record of five fields whose keys
  come in a fixed order (a Python dict keeps insertion order).
 */
module Orchestrator {
  import opened Wrappers
  import opened TextNormalizer
  import opened LawTable
  import opened Classifier
  import opened Procedure

  /** One key/value pair of a result record */
  datatype Field = Field(key: string, value: string)

  /** A result record, in key insertion order */
  type Record = seq<Field>

  const RecordKeys: seq<string> := ["Section", "Offense", "Punishment", "Case Type", "Procedure"]

  function Keys(record: Record): (r: seq<string>)
    ensures |r| == |record|
    ensures forall i :: 0 <= i < |record| ==> r[i] == record[i].key
  {
    seq(|record|, i requires 0 <= i < |record| => record[i].key)
  }

  /** `predict_law` (app.py:143-157). The lookup comes before the procedure call, so a
      missing row ends the prediction with the lookup's error. */
  function PredictLaw(query: string, model: Classifier, table: Table, provider: Provider)
    : (r: Result<Record, LookupError>)
    requires IsAscii(query)
    requires model.Valid()
    ensures var section := Predict(model, CleanText(query));
      && (r.Success? <==> section in Sections(table))
      && (r.Failure? ==> r.error == NoRowForLabel(section))
      && (r.Success? ==>
            && Keys(r.value) == RecordKeys
            && r.value[0].value == section
            && r.value[4].value == GetLegalProcedure(section, provider)
            && exists i :: IsFirstRow(table, section, i)
                 && r.value[1].value == table[i].offense
                 && r.value[2].value == table[i].punishment
                 && r.value[3].value == table[i].caseType)
  {
    var section := Predict(model, CleanText(query));
    match Lookup(table, section)
    case Failure(e) => Failure(e)
    case Success(details) =>
      var procedure := GetLegalProcedure(section, provider);
      Success([ Field("Section", section),
                Field("Offense", details.offense),
                Field("Punishment", details.punishment),
                Field("Case Type", details.caseType),
                Field("Procedure", procedure) ])
  }

  /** With a pipeline trained on the table it is queried against, every query finds its row */
  lemma FreshModelAlwaysFindsRow(query: string, table: Table, fit: Fit, provider: Provider)
    requires IsAscii(query)
    requires TableIsAscii(table)
    requires |Sections(table)| >= 2
    ensures LoadOrTrain(Absent, Corpus(table), fit).Success?
    ensures LoadOrTrain(Absent, Corpus(table), fit).value.1.Valid()
    ensures PredictLaw(query, LoadOrTrain(Absent, Corpus(table), fit).value.1, table, provider).Success?
  {
    FreshStartupIsConsistent(table, fit, CleanText(query));
  }

  /** Queries that normalise to the same text find the same row, whatever each request's
      provider answers: the outcome and the first four fields agree */
  lemma SameNormalFormSameLookup(q1: string, q2: string, model: Classifier, table: Table,
                                 p1: Provider, p2: Provider)
    requires IsAscii(q1) && IsAscii(q2)
    requires model.Valid()
    requires CleanText(q1) == CleanText(q2)
    ensures PredictLaw(q1, model, table, p1).Success? <==> PredictLaw(q2, model, table, p2).Success?
    ensures PredictLaw(q1, model, table, p1).Success? ==>
      PredictLaw(q1, model, table, p1).value[..4] == PredictLaw(q2, model, table, p2).value[..4]
  {
  }

  /** Queries that normalise to the same text get the same record when the two requests'
      providers give the same answer to the predicted Section's prompt */
  lemma SameNormalFormSameRecord(q1: string, q2: string, model: Classifier, table: Table,
                                 p1: Provider, p2: Provider)
    requires IsAscii(q1) && IsAscii(q2)
    requires model.Valid()
    requires CleanText(q1) == CleanText(q2)
    requires p1(Prompt(Predict(model, CleanText(q1)))) == p2(Prompt(Predict(model, CleanText(q1))))
    ensures PredictLaw(q1, model, table, p1) == PredictLaw(q2, model, table, p2)
  {
    ProcedureDependsOnlyOnPrompt(Predict(model, CleanText(q1)), p1, p2);
  }
}
