/**
 * The request handler: startup configuration (`init`) and one request
 * (`handleRequestBody`). The Solr request, the index searcher and the
 * classifier run are outside this model; a request is its parameters and the
 * classifier is a function from what it is constructed with, and the text it
 * is asked about, to its result list (absent when it throws).
 */
module Handler {
  import opened Wrappers
  import opened JavaLang
  import opened TieFilter
  import opened Queries
  import opened Classifiers

  /**
   * The startup parameters as `init` reads them. A numeric parameter is absent
   * when it is missing (unboxing a null `Integer` throws) or not an integer
   * (`getInt` throws).
   */
  datatype InitArgs = InitArgs(algorithm: Option<string>, k: Option<int32>, minDf: Option<int32>, minTf: Option<int32>)

  /** The handler's four configuration fields. */
  datatype Settings = Settings(algorithm: Option<string>, k: int32, minDf: int32, minTf: int32)

  /** The fields' initial values: null and zeros. */
  const Defaults: Settings := Settings(None, 0, 0, 0)

  /** The numeric parameters in the order `init` assigns them. */
  function NumericArgs(args: InitArgs): seq<Option<int32>> {
    [args.k, args.minDf, args.minTf]
  }

  /** The numeric fields in the same order. */
  function NumericFields(s: Settings): seq<int32> {
    [s.k, s.minDf, s.minTf]
  }

  /** How many values of `vals` parse, in order, before the first one that does not. */
  function ParsedCount(vals: seq<Option<int32>>): (n: nat)
    ensures n <= |vals|
    ensures forall i :: 0 <= i < n ==> vals[i].Some?
    ensures n < |vals| ==> vals[n].None?
  {
    if |vals| == 0 || vals[0].None? then 0 else 1 + ParsedCount(vals[1..])
  }

  /**
   * The fields after `init`, starting from `before`: the algorithm is always
   * assigned; then `k`, `minDf` and `minTf` are assigned in turn until one fails
   * to parse, and the exception leaves that one and the rest as they were.
   */
  function Initialized(before: Settings, args: InitArgs): (after: Settings)
    ensures after.algorithm == args.algorithm
    ensures var n := ParsedCount(NumericArgs(args));
      forall i :: 0 <= i < 3 ==>
        NumericFields(after)[i] == if i < n then NumericArgs(args)[i].value else NumericFields(before)[i]
  {
    var s := before.(algorithm := args.algorithm);
    match args.k
    case None => s
    case Some(k) =>
      match args.minDf
      case None => s.(k := k)
      case Some(minDf) =>
        match args.minTf
        case None => s.(k := k, minDf := minDf)
        case Some(minTf) => s.(k := k, minDf := minDf, minTf := minTf)
  }

  /** A missing `knn.k` leaves `k`, `minDf` and `minTf` at zero, whatever follows it. */
  lemma MissingKLeavesZeros(args: InitArgs)
    requires args.k.None?
    ensures Initialized(Defaults, args) == Settings(args.algorithm, 0, 0, 0)
  {
  }

  /** The request parameters the handler reads. */
  datatype Request = Request(
    q: Option<string>,                    // `q`
    analyze: Option<string>,              // `analyze`
    defType: Option<string>,              // `defType`
    fq: Option<seq<Option<string>>>,      // every `fq` value
    domain: Option<seq<string>>,          // every `domain` value: the training fields
    range: Option<string>)                // `range`: the target field

  /** What the classifier is built with and the text it is asked to classify. */
  datatype Invocation = Invocation(classifier: ClassifierConfig, text: Option<string>)

  /** The response: the algorithm name and the kept classes. */
  datatype Response = Response(algorithm: string, classes: seq<ClassResult>)

  /** Everything the handler does before it runs the classifier. */
  function Prepare(s: Settings, req: Request, schema: Schema): (r: Result<Invocation, Error>)
    ensures r.Success? ==> s.algorithm == Some("knn") || s.algorithm == Some("bayes")
  {
    var query := Combined(req.q, req.defType, req.fq);
    var text := AnalyzeText(req.q, req.analyze);
    match BuildClassifier(s.algorithm, s.k, s.minDf, s.minTf, schema, query, req.range, req.domain)
    case Failure(e) => Failure(e)
    case Success(c) => Success(Invocation(c, text))
  }

  /** One request from start to response. */
  function Handle(s: Settings, req: Request, schema: Schema,
                  classify: Invocation -> Option<seq<ClassResult>>): Result<Response, Error>
  {
    match Prepare(s, req, schema)
    case Failure(e) => Failure(e)
    case Success(inv) =>
      match classify(inv)
      case None => Failure(ClassificationFailed)
      case Some(results) => Success(Response(s.algorithm.value, TopTier(results)))
  }

  /**
   * A successful response names one of the two algorithms and lists exactly the
   * top tier of the classifier's results; an empty result list gives an empty
   * class list and no error.
   */
  lemma ResponseIsTopTier(s: Settings, req: Request, schema: Schema,
                          classify: Invocation -> Option<seq<ClassResult>>)
    ensures var r := Handle(s, req, schema, classify);
      && (r.Success? <==> Prepare(s, req, schema).Success? && classify(Prepare(s, req, schema).value).Some?)
      && (r.Success? ==>
            var results := classify(Prepare(s, req, schema).value).value;
            && (r.value.algorithm == "knn" || r.value.algorithm == "bayes")
            && Some(r.value.algorithm) == s.algorithm
            && IsTopTier(results, r.value.classes)
            && (r.value.classes == [] <==> results == []))
  {
    var r := Handle(s, req, schema, classify);
    if r.Success? {
      var results := classify(Prepare(s, req, schema).value).value;
      TopTierIsTopTier(results);
      TopTierEmptyIff(results);
    }
  }

  /** A request that fails before classification fails the same way whatever the classifier would do. */
  lemma NoClassifierOnEarlyError(s: Settings, req: Request, schema: Schema,
                                 c1: Invocation -> Option<seq<ClassResult>>,
                                 c2: Invocation -> Option<seq<ClassResult>>)
    requires Prepare(s, req, schema).Failure?
    ensures Handle(s, req, schema, c1) == Handle(s, req, schema, c2) == Failure(Prepare(s, req, schema).error)
  {
  }

  /** The text to classify is `analyze`, else `q`, and the `fq` values change neither it nor whether the request proceeds. */
  lemma AnalyzeTextIgnoresFilters(s: Settings, req: Request, schema: Schema, fq: Option<seq<Option<string>>>)
    ensures Prepare(s, req, schema).Success? == Prepare(s, req.(fq := fq), schema).Success?
    ensures Prepare(s, req, schema).Success? ==>
      && Prepare(s, req, schema).value.text == Prepare(s, req.(fq := fq), schema).value.text
      && Prepare(s, req, schema).value.text == (if req.analyze.Some? then req.analyze else req.q)
  {
  }

  /** With `bayes` and no `fq`, the classifier gets the parsed primary query unchanged. */
  lemma BayesWithoutFilters(s: Settings, req: Request, schema: Schema)
    requires s.algorithm == Some("bayes") && !HasFilters(req.fq)
    requires req.domain.Some? && |req.domain.value| > 0 && req.domain.value[0] in schema
    ensures Prepare(s, req, schema).Success?
    ensures Prepare(s, req, schema).value.classifier.Bayes?
    ensures Prepare(s, req, schema).value.classifier.query == PrimaryQuery(req.q, req.defType)
  {
  }

  /** An unsupported name such as `svm` fails without the classifier being consulted. */
  lemma UnsupportedNameFails(s: Settings, req: Request, schema: Schema,
                             classify: Invocation -> Option<seq<ClassResult>>)
    requires s.algorithm == Some("svm")
    requires req.domain.Some? && |req.domain.value| > 0 && req.domain.value[0] in schema
    ensures Handle(s, req, schema, classify) == Failure(UnsupportedAlgorithm("svm"))
  {
  }

  /** No training field fails before field 0 is touched, whatever the algorithm. */
  lemma NoTrainingFieldFails(s: Settings, req: Request, schema: Schema,
                             classify: Invocation -> Option<seq<ClassResult>>)
    requires req.domain.None? || req.domain.value == []
    ensures Handle(s, req, schema, classify) == Failure(NoTrainingField)
  {
  }

  /** The handler object with the four fields `init` sets. */
  class ClassifierHandler {
    var algorithm: Option<string>
    var k: int32
    var minDf: int32
    var minTf: int32

    /** The fields as a value. */
    function Current(): Settings
      reads this
    {
      Settings(algorithm, k, minDf, minTf)
    }

    /** A new handler has its fields at their defaults. */
    constructor ()
      ensures Current() == Defaults
    {
      algorithm := None;
      k, minDf, minTf := 0, 0, 0;
    }

    /** `init`: assign the fields in order; the first failing parse ends it silently. */
    method Init(args: InitArgs)
      modifies this
      ensures Current() == Initialized(old(Current()), args)
    {
      algorithm := args.algorithm;
      if args.k.None? { return; }
      k := args.k.value;
      if args.minDf.None? { return; }
      minDf := args.minDf.value;
      if args.minTf.None? { return; }
      minTf := args.minTf.value;
    }

    /** `handleRequestBody`, step by step in the order the handler takes them. */
    method HandleRequestBody(req: Request, schema: Schema, classify: Invocation -> Option<seq<ClassResult>>)
      returns (r: Result<Response, Error>)
      ensures r == Handle(Current(), req, schema, classify)
    {
      var query := BuildQuery(req.q, req.defType, req.fq);
      var analyzeQ := req.analyze;
      if analyzeQ.None? {
        analyzeQ := req.q;
      }
      var built := BuildClassifier(algorithm, k, minDf, minTf, schema, query, req.range, req.domain);
      if built.Failure? {
        return Failure(built.error);
      }
      var result := classify(Invocation(built.value, analyzeQ));
      if result.None? {
        return Failure(ClassificationFailed);
      }
      var classes := FilterTopTier(result.value);
      r := Success(Response(algorithm.value, classes));
    }
  }
}
