# solrml ClassifierHandler, modelled in Dafny

solrml is a Solr request handler, `ClassifierHandler`, that runs one of two Lucene text
classifiers (k-nearest-neighbour or naive Bayes) over an index and answers with the
top-scored classes. Most of the handler is glue over Solr and Lucene. This project models
the decision logic in it and proves the properties that logic promises:

- **Startup configuration** (`init`): the fields `algorithm`, `k`, `minDf` and `minTf` are
  assigned in that order. An exception is swallowed, so the first value that fails to parse
  leaves that field and every later one at its previous value (after construction: null and
  zeros).
- **Query combination**: without `fq` the parsed `q` (or null) passes through. With `fq` a
  boolean query is built: the primary query as its first and only SHOULD clause, then one
  FILTER clause per present, non-blank `fq` in input order. "Blank" means Java's
  `String.trim()` leaves nothing, i.e. every character is at or below U+0020.
- **Analyze text and classifier selection**: the classified text is `analyze`, else `q`.
  The analyzer comes from the first training field only, and that lookup happens before the
  algorithm name is checked. `knn` is built with the handler's `k`, `minDf` and `minTf`,
  `bayes` without them, and any other name (or none) fails.
- **Top-tier tie filtering**: the result list is walked with a best score that starts at the
  sentinel -1 and is replaced while it is negative. The handler stops at the first score
  that differs from it. So every leading negative result is kept, the first non-negative
  score fixes the best score, and results are kept while they equal it.

Modules, one per concern of `src/solrml/handler/ClassifierHandler.java`:

- `wrappers.dfy` (`Wrappers`): Option (Java null) and Result (a thrown exception).
- `java_lang.dfy` (`JavaLang`): Java `int`, and `String.trim` with its blank test.
- `tie_filter.dfy` (`TieFilter`): the result loop as a method, the function it is proved
  against, and an independent characterisation of that function.
- `queries.dfy` (`Queries`): the query builder loop and its specification.
- `classifiers.dfy` (`Classifiers`): the analyze fallback, the analyzer lookup and the
  algorithm switch.
- `handler.dfy` (`Handler`): the handler class with `Init` and `HandleRequestBody`, and the
  lemmas about a whole request.

Collaborators are inputs. A parsed query is `Parsed(text, dialect)`. The schema is a map
from field name to an opaque query analyzer. The classifier is a function from its
construction arguments and the text to its result list; it returns `None` when it throws.

Behaviour of the code that the model keeps:

- The handler does not check that `range` (the target field) is present. The model passes
  it on as an optional value.
- A missing `algorithm` makes the Java `switch` throw a NullPointerException. The model
  reports this as `NoAlgorithm`, separate from `UnsupportedAlgorithm`.
- `init` swallows every parse failure, and the model keeps that.
- Because of the `bestScore < 0` sentinel, the loop keeps every leading negative score as
  well as the results equal to the first non-negative one.

## Model

| member | source | states |
|---|---|---|
| `JavaLang.Trim` | src/solrml/handler/ClassifierHandler.java:64 | Java's `String.trim`: leading, then trailing characters at or below U+0020 removed; what an empty result means is stated by `BlankIffAllTrimmed` |
| `JavaLang.IsBlank` | src/solrml/handler/ClassifierHandler.java:64 | the test `fq.trim().length() == 0`; `BlankIffAllTrimmed` proves it holds exactly when every character is at or below U+0020 |
| `JavaLang.BlankIffAllTrimmed` | src/solrml/handler/ClassifierHandler.java:64 | `fq.trim().length() == 0` holds exactly when every character of `fq` is at or below U+0020 |
| `TieFilter.TopTier` | src/solrml/handler/ClassifierHandler.java:91-108 | the `classes` list the loop builds from the sentinel -1; its shape is stated by `TopTierIsTopTier` and `TopTierUnique`, its emptiness by `TopTierEmptyIff` |
| `TieFilter.FilterTopTier` | src/solrml/handler/ClassifierHandler.java:91-108 | the loop's `classes` list, built by updating `bestScore` and appending until the first mismatch, equals `TopTier` of the classifier's result list |
| `TieFilter.KeepTier` | src/solrml/handler/ClassifierHandler.java:92-108 | whatever the best score the loop enters with, what it keeps is a prefix of the results in their original order |
| `TieFilter.KeepFixed` | src/solrml/handler/ClassifierHandler.java:97-103 | once the best score is non-negative, every kept result has exactly that score and the first result not kept has a different one |
| `TieFilter.KeepFromNegative` | src/solrml/handler/ClassifierHandler.java:92-103 | while the best score is negative, all leading negative results are kept and the first non-negative score becomes the fixed best score |
| `TieFilter.TopTierIsTopTier` | src/solrml/handler/ClassifierHandler.java:91-108 | the output is a prefix of the results that holds all leading negatives; if a non-negative score exists, the output runs over the results equal to the first such score and stops at the first result that differs; with only negatives it is the whole list |
| `TieFilter.TopTierUnique` | src/solrml/handler/ClassifierHandler.java:91-108 | any list meeting that description is the loop's output, so the description determines the output |
| `TieFilter.TopTierEmptyIff` | src/solrml/handler/ClassifierHandler.java:92-107 | the output is empty exactly when the result list is, and otherwise starts with the first result |
| `TieFilter.AllNonNegative` | src/solrml/handler/ClassifierHandler.java:97-103 | with no negative scores the output is the longest prefix whose scores all equal the first score, and the next result, if any, has a different score |
| `TieFilter.AllNegative` | src/solrml/handler/ClassifierHandler.java:92-99 | when every score is negative, each one resets the best score and the whole list is returned |
| `TieFilter.TiedLeaders` | src/solrml/handler/ClassifierHandler.java:97-107 | scores 0.9, 0.9, 0.5 keep the two 0.9 entries |
| `TieFilter.DistinctScores` | src/solrml/handler/ClassifierHandler.java:97-107 | scores 0.9, 0.7, 0.5 keep only the first entry |
| `TieFilter.NegativesThenTie` | src/solrml/handler/ClassifierHandler.java:92-107 | scores -0.5, -0.2, 0.3, 0.3, 0.1 keep the first four entries |
| `Queries.FilterClauses` | src/solrml/handler/ClassifierHandler.java:63-68 | the FILTER clauses added for the `fq` values; which clauses and in what order is stated by `FilterClausesExactly`, `FilterClausesAppend` and `FilterClausesSnoc` |
| `Queries.Combined` | src/solrml/handler/ClassifierHandler.java:49-70 | the query handed to the classifier; the pass-through case is stated by `NoFiltersPassThrough`, the boolean case by `CombinedWithFilters` |
| `Queries.BuildQuery` | src/solrml/handler/ClassifierHandler.java:49-70 | the builder loop produces exactly `Combined(q, defType, fq)` |
| `Queries.FilterClausesSnoc` | src/solrml/handler/ClassifierHandler.java:63-68 | each `fq` adds at most one clause, at the end, and only when it is present and not blank |
| `Queries.FilterClausesAppend` | src/solrml/handler/ClassifierHandler.java:63-68 | the filter clauses of a concatenation of `fq` lists are the concatenation of their clauses, so input order is kept |
| `Queries.FilterClausesExactly` | src/solrml/handler/ClassifierHandler.java:63-68 | every filter clause is a FILTER clause parsed by the default parser from a present, non-blank `fq`; a string yields a clause exactly when it is a present, non-blank `fq`; there are no more clauses than `fq` values |
| `Queries.NoFiltersPassThrough` | src/solrml/handler/ClassifierHandler.java:49-60 | with `fq` absent or empty the query is the parsed `q` in the `defType` dialect, or null when `q` is absent |
| `Queries.CombinedWithFilters` | src/solrml/handler/ClassifierHandler.java:60-69 | with at least one `fq` the query is boolean; its first clause is the primary query as SHOULD, every later clause is a FILTER clause from a present, non-blank `fq`, and every such `fq` yields one |
| `Queries.BlankFilterSkipped` | src/solrml/handler/ClassifierHandler.java:60-69 | `q = "foo"` with `fq = ["bar", "  "]` gives SHOULD `foo` followed by one FILTER `bar` |
| `Classifiers.AnalyzeText` | src/solrml/handler/ClassifierHandler.java:55-57 | `analyze`, else `q`; stated, with its independence from `fq`, by `Handler.AnalyzeTextIgnoresFilters` |
| `Classifiers.SelectClassifier` | src/solrml/handler/ClassifierHandler.java:78-87 | the `switch` on the algorithm name; what each name yields is stated by `SelectionByName` |
| `Classifiers.BuildClassifier` | src/solrml/handler/ClassifierHandler.java:72-87 | the analyzer lookup followed by the `switch`; stated by `SelectionByName`, `TrainingFieldsCheckedFirst` and `AnalyzerFromFirstFieldOnly` |
| `Classifiers.FirstFieldAnalyzer` | src/solrml/handler/ClassifierHandler.java:72-75 | the query analyzer of `trainFields[0]`, or the lookup error; that only the first field matters is stated by `AnalyzerFromFirstFieldOnly`, that the lookup precedes the switch by `TrainingFieldsCheckedFirst`, and that an absent or empty list fails by `NoTrainingFieldFails` |
| `Classifiers.SelectionByName` | src/solrml/handler/ClassifierHandler.java:78-87 | after the lookup succeeds, `knn` yields exactly a knn configuration carrying the handler's `k`, `minDf`, `minTf`, the target field and all training fields; `bayes` yields exactly a bayes configuration without them; a missing name or any other name fails |
| `Classifiers.TrainingFieldsCheckedFirst` | src/solrml/handler/ClassifierHandler.java:72-87 | a training-field failure is reported whatever the algorithm name |
| `Classifiers.AnalyzerFromFirstFieldOnly` | src/solrml/handler/ClassifierHandler.java:75 | two training-field lists with the same first field give the same analyzer and the same success or failure |
| `Handler.Initialized` | src/solrml/handler/ClassifierHandler.java:123-131 | after `init` the algorithm is the given one; the i-th of `k`, `minDf`, `minTf` holds its parsed value when all values up to it parsed, and otherwise keeps its previous value |
| `Handler.MissingKLeavesZeros` | src/solrml/handler/ClassifierHandler.java:34-40 | on a fresh handler, a missing `knn.k` leaves `k`, `minDf` and `minTf` at 0 |
| `Handler.ClassifierHandler.constructor` | src/solrml/handler/ClassifierHandler.java:34-40 | a new handler has a null algorithm and zero `k`, `minDf`, `minTf` |
| `Handler.ClassifierHandler.Init` | src/solrml/handler/ClassifierHandler.java:119-132 | the fields after `init` are `Initialized` of the fields before it |
| `Handler.ClassifierHandler.HandleRequestBody` | src/solrml/handler/ClassifierHandler.java:42-112 | the method, step by step, returns exactly `Handle` of the handler's fields and the request |
| `Handler.Prepare` | src/solrml/handler/ClassifierHandler.java:44-88 | everything before the classifier runs; a success implies a `knn` or `bayes` algorithm, and its other properties are stated by `AnalyzeTextIgnoresFilters`, `BayesWithoutFilters`, `UnsupportedNameFails` and `NoTrainingFieldFails` |
| `Handler.Handle` | src/solrml/handler/ClassifierHandler.java:42-112 | one request from parameters to response; stated by `ResponseIsTopTier` and `NoClassifierOnEarlyError` |
| `Handler.ResponseIsTopTier` | src/solrml/handler/ClassifierHandler.java:89-111 | a request succeeds exactly when preparation and classification succeed; the response names `knn` or `bayes`, the configured algorithm, and lists exactly the top tier of the results, which is empty exactly when the results are |
| `Handler.NoClassifierOnEarlyError` | src/solrml/handler/ClassifierHandler.java:72-89 | a request that fails before classification gives the same error whatever the classifier would return |
| `Handler.AnalyzeTextIgnoresFilters` | src/solrml/handler/ClassifierHandler.java:47-57 | the classified text is `analyze`, else `q`; changing the `fq` values changes neither the text nor whether the request proceeds |
| `Handler.BayesWithoutFilters` | src/solrml/handler/ClassifierHandler.java:59-83 | with `bayes`, no `fq` and a known first training field, the classifier receives the parsed `q` unchanged |
| `Handler.UnsupportedNameFails` | src/solrml/handler/ClassifierHandler.java:85-86 | the name `svm` fails with `UnsupportedAlgorithm` and no classifier result is used |
| `Handler.NoTrainingFieldFails` | src/solrml/handler/ClassifierHandler.java:72-75 | an absent or empty training-field list fails with `NoTrainingField` for every algorithm |

## Left out

- Solr and Lucene plumbing: the request and response objects, `QParser` parsing, the index
  reader and the schema are inputs or opaque values. Query parse errors, an unknown parser
  name, and Solr's handling of `super.init` and `toSolrParams` are not modelled.
- The k-nearest-neighbour and naive Bayes algorithms are foreign library code. The model
  takes the classifier's result list as given, including its order. The `null` similarity
  passed to the knn constructor is not modelled.
- Response formatting (`utf8ToString` for labels, `Double.toString` for scores) is library
  code. The response carries the label bytes and the score.
- Scores are exact reals. NaN, infinities and rounding of `double` are not modelled.
  Ordering (`< 0`) and exact equality are modelled.
- Whether Lucene's `BooleanQuery.Builder` accepts a null SHOULD clause when `q` is absent is
  library behaviour. The model records the clause structure only.
- `getDescription` returns a constant string and is not modelled.
- Handler registration, lifecycle and concurrent requests are controlled by the host.
- Characters are Unicode scalar values, not UTF-16 code units. The trim test compares
  against U+0020 in the same way for both.
