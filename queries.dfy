/**
 * How `handleRequestBody` combines the primary query `q` with the filter
 * queries `fq`. Parsing belongs to Solr's query parsers; a parsed query is
 * recorded here only by the text and the parser dialect it came from.
 */
module Queries {
  import opened Wrappers
  import opened JavaLang

  /** The two Lucene `BooleanClause.Occur` values the handler uses. */
  datatype Occur = Should | Filter

  /** A parsed query, or a boolean query built from clauses in the order they were added. */
  datatype Query = Parsed(text: string, dialect: string) | Boolean(clauses: seq<Clause>)

  /** A clause of a boolean query; its query is absent when `q` was not given. */
  datatype Clause = Clause(query: Option<Query>, occur: Occur)

  /** Solr's default parser name, used for every `fq` and for `q` when `defType` is absent. */
  const DefaultDialect: string := "lucene"

  /** The parser dialect for `q`: the `defType` parameter, or the default one. */
  function Dialect(defType: Option<string>): string {
    if defType.Some? then defType.value else DefaultDialect
  }

  /** The parsed `q`, or null when `q` is absent. */
  function PrimaryQuery(q: Option<string>, defType: Option<string>): Option<Query> {
    if q.Some? then Some(Parsed(q.value, Dialect(defType))) else None
  }

  /** A filter clause is built from an `fq` value that is present and not blank. */
  predicate Contributes(fq: Option<string>) {
    fq.Some? && !IsBlank(fq.value)
  }

  /** The filter clause made from a contributing `fq` value. */
  function FilterClauseOf(text: string): Clause {
    Clause(Some(Parsed(text, DefaultDialect)), Filter)
  }

  /** The filter clauses added for `fqs`, in input order. */
  function FilterClauses(fqs: seq<Option<string>>): seq<Clause> {
    if |fqs| == 0 then []
    else
      var last := fqs[|fqs| - 1];
      FilterClauses(fqs[..|fqs| - 1]) + (if Contributes(last) then [FilterClauseOf(last.value)] else [])
  }

  /** `fq` was given with at least one value. */
  predicate HasFilters(fqs: Option<seq<Option<string>>>) {
    fqs.Some? && |fqs.value| != 0
  }

  /** The query handed to the classifier. */
  function Combined(q: Option<string>, defType: Option<string>, fqs: Option<seq<Option<string>>>): Option<Query> {
    if HasFilters(fqs) then Some(Boolean([Clause(PrimaryQuery(q, defType), Should)] + FilterClauses(fqs.value)))
    else PrimaryQuery(q, defType)
  }

  /** Filter clauses of a concatenation are the concatenation of the filter clauses: input order is kept. */
  lemma {:induction false} FilterClausesAppend(a: seq<Option<string>>, b: seq<Option<string>>)
    ensures FilterClauses(a + b) == FilterClauses(a) + FilterClauses(b)
  {
    if |b| != 0 {
      var front := b[..|b| - 1];
      assert (a + b)[..|a + b| - 1] == a + front;
      assert (a + b)[|a + b| - 1] == b[|b| - 1];
      FilterClausesAppend(a, front);
    } else {
      assert a + b == a;
    }
  }

  /** One more `fq` value adds its clause, if it has one, at the end. */
  lemma FilterClausesSnoc(fqs: seq<Option<string>>, fq: Option<string>)
    ensures FilterClauses(fqs + [fq]) == FilterClauses(fqs) + (if Contributes(fq) then [FilterClauseOf(fq.value)] else [])
  {
  }

  /** Every filter clause comes from an `fq` that is present and not blank, and every such `fq` gives one. */
  lemma {:induction false} FilterClausesExactly(fqs: seq<Option<string>>)
    ensures forall c :: c in FilterClauses(fqs) ==>
      && c.occur == Filter && c.query.Some? && c.query.value.Parsed?
      && c == FilterClauseOf(c.query.value.text)
      && Some(c.query.value.text) in fqs && !IsBlank(c.query.value.text)
    ensures forall s :: FilterClauseOf(s) in FilterClauses(fqs) <==> Some(s) in fqs && !IsBlank(s)
    ensures |FilterClauses(fqs)| <= |fqs|
  {
    if |fqs| != 0 {
      var front := fqs[..|fqs| - 1];
      FilterClausesExactly(front);
      assert fqs == front + [fqs[|fqs| - 1]];
    }
  }

  /** Without `fq`, or with an empty `fq` list, the primary query (or null) passes through and nothing is built. */
  lemma NoFiltersPassThrough(q: Option<string>, defType: Option<string>, fqs: Option<seq<Option<string>>>)
    requires fqs.None? || fqs.value == []
    ensures Combined(q, defType, fqs) == (if q.Some? then Some(Parsed(q.value, Dialect(defType))) else None)
  {
  }

  /**
   * With at least one `fq` the result is a boolean query whose first clause, and
   * only SHOULD clause, is the primary query; every later clause is a FILTER clause
   * from a present, non-blank `fq`, and each such `fq` yields a clause.
   */
  lemma CombinedWithFilters(q: Option<string>, defType: Option<string>, fqs: Option<seq<Option<string>>>)
    requires HasFilters(fqs)
    ensures var r := Combined(q, defType, fqs);
      && r.Some? && r.value.Boolean? && |r.value.clauses| >= 1
      && r.value.clauses[0] == Clause(PrimaryQuery(q, defType), Should)
      && (forall i :: 1 <= i < |r.value.clauses| ==>
            && r.value.clauses[i].occur == Filter
            && r.value.clauses[i].query.Some? && r.value.clauses[i].query.value.Parsed?
            && Some(r.value.clauses[i].query.value.text) in fqs.value
            && !IsBlank(r.value.clauses[i].query.value.text))
      && (forall s :: Some(s) in fqs.value && !IsBlank(s) ==> FilterClauseOf(s) in r.value.clauses[1..])
  {
    var cs := Combined(q, defType, fqs).value.clauses;
    FilterClausesExactly(fqs.value);
    assert cs[1..] == FilterClauses(fqs.value);
    forall i | 1 <= i < |cs|
      ensures cs[i] in FilterClauses(fqs.value)
    {
      assert cs[i] == cs[1..][i - 1];
    }
  }

  /** `"bar"` has a character above U+0020, so it yields a filter clause. */
  lemma BarContributes()
    ensures Contributes(Some("bar"))
  {
    BlankIffAllTrimmed("bar");
    assert !IsTrimmed("bar"[0]);
  }

  /** `"  "` trims to nothing, so it yields no clause. */
  lemma SpacesDoNotContribute()
    ensures !Contributes(Some("  "))
  {
    BlankIffAllTrimmed("  ");
  }

  /** `q = "foo"`, `fq = ["bar", "  "]`: the blank filter is skipped, leaving one FILTER clause after the SHOULD clause. */
  lemma BlankFilterSkipped()
    ensures Combined(Some("foo"), None, Some([Some("bar"), Some("  ")]))
         == Some(Boolean([Clause(Some(Parsed("foo", "lucene")), Should),
                          Clause(Some(Parsed("bar", "lucene")), Filter)]))
  {
    BarContributes();
    SpacesDoNotContribute();
    var fqs := [Some("bar"), Some("  ")];
    FilterClausesSnoc([], Some("bar"));
    FilterClausesSnoc([Some("bar")], Some("  "));
    assert [] + [Some("bar")] == [Some("bar")];
    assert [Some("bar")] + [Some("  ")] == fqs;
    assert FilterClauses(fqs) == [FilterClauseOf("bar")];
    assert [Clause(Some(Parsed("foo", "lucene")), Should)] + [FilterClauseOf("bar")]
        == [Clause(Some(Parsed("foo", "lucene")), Should), Clause(Some(Parsed("bar", "lucene")), Filter)];
  }

  /** The builder loop: a SHOULD clause for the primary query, then one FILTER clause per contributing `fq`. */
  method BuildQuery(q: Option<string>, defType: Option<string>, fqs: Option<seq<Option<string>>>)
    returns (query: Option<Query>)
    ensures query == Combined(q, defType, fqs)
  {
    query := PrimaryQuery(q, defType);
    if fqs.Some? && |fqs.value| != 0 {
      var all := fqs.value;
      var clauses := [Clause(query, Should)];
      var i := 0;
      while i < |all|
        invariant 0 <= i <= |all|
        invariant clauses == [Clause(query, Should)] + FilterClauses(all[..i])
      {
        var fq := all[i];
        assert all[..i + 1] == all[..i] + [fq];
        FilterClausesSnoc(all[..i], fq);
        if Contributes(fq) {
          clauses := clauses + [FilterClauseOf(fq.value)];
        }
        i := i + 1;
      }
      assert all[..|all|] == all;
      query := Some(Boolean(clauses));
    }
  }
}
