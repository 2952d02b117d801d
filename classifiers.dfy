/**
 * The text to classify, the analyzer lookup and the choice of classifier in
 * `handleRequestBody`. The schema and the two Lucene classifiers are outside
 * this model: a field's query analyzer is an opaque value looked up by name,
 * and a classifier is described by the arguments its constructor receives.
 */
module Classifiers {
  import opened Wrappers
  import opened JavaLang
  import opened Queries

  /** The query analyzer of a field's type in the schema, as an opaque value. */
  datatype Analyzer = Analyzer(id: string)

  /** The schema's fields that can be looked up, each with its type's query analyzer. */
  type Schema = map<string, Analyzer>

  /** The arguments a Lucene classifier is constructed with. */
  datatype ClassifierConfig =
    | Knn(analyzer: Analyzer, query: Option<Query>, k: int32, minDf: int32, minTf: int32,
          targetField: Option<string>, trainFields: seq<string>)
    | Bayes(analyzer: Analyzer, query: Option<Query>, targetField: Option<string>, trainFields: seq<string>)

  /** The ways a request fails. */
  datatype Error =
    | NoTrainingField                 // `trainFields[0]` on an absent or empty `domain` list
    | UndefinedField(name: string)    // the schema has no field by that name
    | NoAlgorithm                     // `switch` on a null algorithm
    | UnsupportedAlgorithm(name: string)
    | ClassificationFailed            // the classifier threw

  /** `analyze` when present, otherwise `q`. */
  function AnalyzeText(q: Option<string>, analyze: Option<string>): Option<string> {
    if analyze.None? then q else analyze
  }

  /** The query analyzer of the first training field. */
  function FirstFieldAnalyzer(schema: Schema, trainFields: Option<seq<string>>): (r: Result<Analyzer, Error>)
    ensures r.Success? <==> trainFields.Some? && |trainFields.value| > 0 && trainFields.value[0] in schema
    ensures r.Success? ==> r.value == schema[trainFields.value[0]]
    ensures (trainFields.None? || |trainFields.value| == 0) ==> r == Failure(NoTrainingField)
    ensures trainFields.Some? && |trainFields.value| > 0 && trainFields.value[0] !in schema
            ==> r == Failure(UndefinedField(trainFields.value[0]))
  {
    if trainFields.None? || |trainFields.value| == 0 then Failure(NoTrainingField)
    else if trainFields.value[0] !in schema then Failure(UndefinedField(trainFields.value[0]))
    else Success(schema[trainFields.value[0]])
  }

  /** The `switch` on the configured algorithm name. */
  function SelectClassifier(algorithm: Option<string>, k: int32, minDf: int32, minTf: int32,
                            analyzer: Analyzer, query: Option<Query>,
                            targetField: Option<string>, trainFields: seq<string>): Result<ClassifierConfig, Error>
  {
    if algorithm.None? then Failure(NoAlgorithm)
    else if algorithm.value == "knn" then Success(Knn(analyzer, query, k, minDf, minTf, targetField, trainFields))
    else if algorithm.value == "bayes" then Success(Bayes(analyzer, query, targetField, trainFields))
    else Failure(UnsupportedAlgorithm(algorithm.value))
  }

  /** The analyzer lookup, which comes first, followed by the `switch`. */
  function BuildClassifier(algorithm: Option<string>, k: int32, minDf: int32, minTf: int32,
                           schema: Schema, query: Option<Query>,
                           targetField: Option<string>, trainFields: Option<seq<string>>): Result<ClassifierConfig, Error>
  {
    match FirstFieldAnalyzer(schema, trainFields)
    case Failure(e) => Failure(e)
    case Success(analyzer) => SelectClassifier(algorithm, k, minDf, minTf, analyzer, query, targetField, trainFields.value)
  }

  /** A knn name yields the handler's `k`, `minDf` and `minTf`; bayes yields none; any other name, or none, fails. */
  lemma SelectionByName(algorithm: Option<string>, k: int32, minDf: int32, minTf: int32,
                        schema: Schema, query: Option<Query>,
                        targetField: Option<string>, trainFields: Option<seq<string>>)
    requires FirstFieldAnalyzer(schema, trainFields).Success?
    ensures var r := BuildClassifier(algorithm, k, minDf, minTf, schema, query, targetField, trainFields);
      var analyzer := schema[trainFields.value[0]];
      && (algorithm == Some("knn") <==> r == Success(Knn(analyzer, query, k, minDf, minTf, targetField, trainFields.value)))
      && (algorithm == Some("bayes") <==> r == Success(Bayes(analyzer, query, targetField, trainFields.value)))
      && (algorithm.None? <==> r == Failure(NoAlgorithm))
      && (algorithm.Some? ==>
            (algorithm.value != "knn" && algorithm.value != "bayes" <==> r == Failure(UnsupportedAlgorithm(algorithm.value))))
  {
  }

  /** The training fields are checked before the algorithm name: their error wins whatever the name is. */
  lemma TrainingFieldsCheckedFirst(algorithm: Option<string>, k: int32, minDf: int32, minTf: int32,
                                   schema: Schema, query: Option<Query>,
                                   targetField: Option<string>, trainFields: Option<seq<string>>)
    requires FirstFieldAnalyzer(schema, trainFields).Failure?
    ensures BuildClassifier(algorithm, k, minDf, minTf, schema, query, targetField, trainFields)
         == Failure(FirstFieldAnalyzer(schema, trainFields).error)
  {
  }

  /** Only the first training field decides the analyzer and whether the lookup succeeds. */
  lemma AnalyzerFromFirstFieldOnly(algorithm: Option<string>, k: int32, minDf: int32, minTf: int32,
                                   schema: Schema, query: Option<Query>, targetField: Option<string>,
                                   fields1: seq<string>, fields2: seq<string>)
    requires |fields1| > 0 && |fields2| > 0 && fields1[0] == fields2[0]
    ensures var r1 := BuildClassifier(algorithm, k, minDf, minTf, schema, query, targetField, Some(fields1));
            var r2 := BuildClassifier(algorithm, k, minDf, minTf, schema, query, targetField, Some(fields2));
      && r1.Success? == r2.Success?
      && (r1.Success? ==> r1.value.analyzer == r2.value.analyzer && r1.value.trainFields == fields1)
  {
  }
}
