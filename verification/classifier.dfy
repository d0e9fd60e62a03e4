/** The text classifier and its on-disk cache (app.py:117-131, 145).

  The TF-IDF vectoriser and the logistic regression are library code whose
  numerics are not modelled. What the model keeps is the shape of the fitted
  pipeline: the class list is the set of distinct training labels, and a
  prediction always names one of those classes. How a query is scored is an
  uninterpreted `decide` function produced by an uninterpreted `fit`.
 */
module Classifier {
  import opened Wrappers
  import opened LawTable

  /** A fitted pipeline: its classes and the choice it makes among them for a query */
  datatype Classifier = Classifier(classes: seq<string>, decide: string -> nat) {

    /** A fitted logistic regression has at least two classes */
    predicate Valid() {
      |classes| >= 2
    }
  }

  /** What fitting computes from the training data, apart from the class list */
  type Fit = seq<TrainingExample> -> (string -> nat)

  datatype TrainError = TooFewClasses(count: nat)

  /** The labels of a corpus, in order */
  function LabelColumn(corpus: seq<TrainingExample>): (r: seq<string>)
    ensures |r| == |corpus|
    ensures forall i :: 0 <= i < |corpus| ==> r[i] == corpus[i].section
  {
    seq(|corpus|, i requires 0 <= i < |corpus| => corpus[i].section)
  }

  /** The distinct values of a sequence (the `classes_` of a fitted classifier) */
  function Distinct(xs: seq<string>): (r: seq<string>)
    ensures forall x :: x in r <==> x in xs
    ensures forall i, j :: 0 <= i < j < |r| ==> r[i] != r[j]
    ensures |r| == |set x | x in xs|
  {
    if |xs| == 0 then []
    else
      var rest := Distinct(xs[1..]);
      var tail := set x | x in xs[1..];
      assert (set x | x in xs) == {xs[0]} + tail by {
        assert forall x :: x in xs <==> x == xs[0] || x in xs[1..];
      }
      if xs[0] in rest then
        assert {xs[0]} + tail == tail;
        rest
      else [xs[0]] + rest
  }

  /** `pipeline.fit(X, y)` (app.py:119-125): the library refuses data with fewer than
      two classes; otherwise the classes are the distinct labels */
  function Train(corpus: seq<TrainingExample>, fit: Fit): (r: Result<Classifier, TrainError>)
    ensures r.Success? <==> |Labels(corpus)| >= 2
    ensures r.Failure? ==> r.error == TooFewClasses(|Labels(corpus)|)
    ensures r.Success? ==> r.value.Valid()
    ensures r.Success? ==> forall l :: l in r.value.classes <==> l in Labels(corpus)
  {
    var labels := LabelColumn(corpus);
    assert (set x | x in labels) == Labels(corpus) by {
      forall l | l in Labels(corpus) ensures l in labels {
        var i :| 0 <= i < |corpus| && corpus[i].section == l;
        assert labels[i] == l;
      }
    }
    var classes := Distinct(labels);
    if |classes| < 2 then Failure(TooFewClasses(|classes|))
    else Success(Classifier(classes, fit(corpus)))
  }

  /** `pipeline.predict([query])[0]` (app.py:145): one of the fitted classes */
  function Predict(model: Classifier, query: string): (r: string)
    requires model.Valid()
    ensures r in model.classes
  {
    model.classes[model.decide(query) % |model.classes|]
  }

  /** Training on a table's corpus succeeds exactly when the table has two distinct Sections,
      and the pipeline then only ever predicts Sections of that table */
  lemma TrainedOnTablePredictsSections(table: Table, fit: Fit, query: string)
    requires TableIsAscii(table)
    ensures Train(Corpus(table), fit).Success? <==> |Sections(table)| >= 2
    ensures Train(Corpus(table), fit).Success? ==>
      Predict(Train(Corpus(table), fit).value, query) in Sections(table)
  {
    CorpusLabelsAreSections(table);
  }

  /** The model artifact at the fixed path: absent, or a pickled pipeline */
  datatype Artifact = Absent | Stored(model: Classifier)

  /** Every stored artifact is a fitted pipeline */
  predicate ArtifactValid(a: Artifact) {
    a.Stored? ==> a.model.Valid()
  }

  /** Start-up (app.py:117-131): train and save only when no artifact exists, then always load.
      Returns the artifact as it is afterwards and the loaded pipeline. */
  function LoadOrTrain(artifact: Artifact, corpus: seq<TrainingExample>, fit: Fit)
    : (r: Result<(Artifact, Classifier), TrainError>)
    requires ArtifactValid(artifact)
    ensures r.Success? ==> r.value.0 == Stored(r.value.1) && r.value.1.Valid()
    ensures artifact.Stored? ==> r == Success((artifact, artifact.model))
    ensures artifact.Absent? ==> (r.Failure? <==> Train(corpus, fit).Failure?)
    ensures artifact.Absent? && r.Success? ==> r.value.1 == Train(corpus, fit).value
  {
    match artifact
    case Stored(m) => Success((artifact, m))
    case Absent =>
      match Train(corpus, fit)
      case Failure(e) => Failure(e)
      case Success(m) => Success((Stored(m), m))
  }

  /** Training happens at most once: a second start-up loads what the first one saved,
      whatever corpus and fitting it is given (the cache is never invalidated) */
  lemma SecondStartupLoadsFirstModel(artifact: Artifact, corpus: seq<TrainingExample>,
                                                        fit: Fit, corpus': seq<TrainingExample>, fit': Fit)
    requires ArtifactValid(artifact)
    requires LoadOrTrain(artifact, corpus, fit).Success?
    ensures var (a, m) := LoadOrTrain(artifact, corpus, fit).value;
            ArtifactValid(a) && LoadOrTrain(a, corpus', fit') == Success((a, m))
  {
    var (a, m) := LoadOrTrain(artifact, corpus, fit).value;
    assert a == Stored(m);
  }

  /** Start-up from an empty cache yields a pipeline whose every prediction is a Section of the table */
  lemma FreshStartupIsConsistent(table: Table, fit: Fit, query: string)
    requires TableIsAscii(table)
    requires |Sections(table)| >= 2
    ensures LoadOrTrain(Absent, Corpus(table), fit).Success?
    ensures Predict(LoadOrTrain(Absent, Corpus(table), fit).value.1, query) in Sections(table)
  {
    TrainedOnTablePredictsSections(table, fit, query);
  }
}
