/**
 * The loop at the end of `handleRequestBody` that keeps only the leading
 * tier of equally scored classifier results. It starts from the sentinel
 * best score -1; while the best score is negative every result resets it,
 * so it becomes fixed at the first non-negative score.
 */
module TieFilter {

  /** The bytes of the class label Lucene assigns. */
  type Label = seq<bv8>

  /** One classification result: an assigned class and its score. */
  datatype ClassResult = ClassResult(assignedClass: Label, score: real)

  /** The value `bestScore` starts with. */
  const Unset: real := -1.0

  /** The best score once `score` has been looked at. */
  function NextBest(best: real, score: real): real {
    if best < 0.0 then score else best
  }

  /** The results the loop keeps from `rs` when it enters with best score `best`. */
  function KeepTier(rs: seq<ClassResult>, best: real): (out: seq<ClassResult>)
    ensures |out| <= |rs| && out == rs[..|out|]
  {
    if |rs| == 0 then []
    else
      var b := NextBest(best, rs[0].score);
      if rs[0].score != b then [] else [rs[0]] + KeepTier(rs[1..], b)
  }

  /** The `classes` list built from the classifier's result list `rs`. */
  function TopTier(rs: seq<ClassResult>): seq<ClassResult> {
    KeepTier(rs, Unset)
  }

  /** The number of results with a negative score before the first non-negative one. */
  function LeadingNegatives(rs: seq<ClassResult>): (n: nat)
    ensures n <= |rs|
    ensures forall i :: 0 <= i < n ==> rs[i].score < 0.0
    ensures n < |rs| ==> rs[n].score >= 0.0
  {
    if |rs| == 0 || rs[0].score >= 0.0 then 0 else 1 + LeadingNegatives(rs[1..])
  }

  /**
   * Independent description of the kept list: a prefix of `rs` that holds
   * every leading negative result; if there is a non-negative score, it also
   * holds the run of results scored like that first non-negative one and
   * stops at the first result scored otherwise.
   */
  predicate IsTopTier(rs: seq<ClassResult>, out: seq<ClassResult>) {
    var j := LeadingNegatives(rs);
    && |out| <= |rs| && out == rs[..|out|]
    && (j == |rs| ==> |out| == |rs|)
    && (j < |rs| ==>
          && j < |out|
          && (forall i :: j <= i < |out| ==> rs[i].score == rs[j].score)
          && (|out| < |rs| ==> rs[|out|].score != rs[j].score))
  }

  /** Once the best score is fixed, results are kept exactly while they match it. */
  lemma {:induction false} KeepFixed(rs: seq<ClassResult>, best: real)
    requires best >= 0.0
    ensures var out := KeepTier(rs, best);
      && (forall i :: 0 <= i < |out| ==> rs[i].score == best)
      && (|out| < |rs| ==> rs[|out|].score != best)
  {
    if |rs| != 0 && rs[0].score == best {
      KeepFixed(rs[1..], best);
    }
  }

  /** While the best score is negative, negative results are all kept and the first non-negative one fixes it. */
  lemma {:induction false} KeepFromNegative(rs: seq<ClassResult>, best: real)
    requires best < 0.0
    ensures var j := LeadingNegatives(rs);
      KeepTier(rs, best) == if j == |rs| then rs else rs[..j + 1] + KeepTier(rs[j + 1..], rs[j].score)
  {
    if |rs| == 0 {
    } else if rs[0].score >= 0.0 {
      assert KeepTier(rs, best) == [rs[0]] + KeepTier(rs[1..], rs[0].score);
      assert rs[..1] == [rs[0]];
    } else {
      var tail := rs[1..];
      var j' := LeadingNegatives(tail);
      assert LeadingNegatives(rs) == j' + 1;
      assert KeepTier(rs, best) == [rs[0]] + KeepTier(tail, rs[0].score);
      KeepFromNegative(tail, rs[0].score);
      if j' == |tail| {
        assert rs == [rs[0]] + tail;
      } else {
        assert tail[j'] == rs[j' + 1];
        assert tail[j' + 1..] == rs[j' + 2..];
        assert [rs[0]] + tail[..j' + 1] == rs[..j' + 2];
      }
    }
  }

  /** The loop's output is described by `IsTopTier`. */
  lemma TopTierIsTopTier(rs: seq<ClassResult>)
    ensures IsTopTier(rs, TopTier(rs))
  {
    var j := LeadingNegatives(rs);
    KeepFromNegative(rs, Unset);
    if j < |rs| {
      KeepFixed(rs[j + 1..], rs[j].score);
      var tail := KeepTier(rs[j + 1..], rs[j].score);
      assert TopTier(rs) == rs[..j + 1] + tail;
      forall i | j <= i < |TopTier(rs)|
        ensures rs[i].score == rs[j].score
      {
        if i > j {
          assert rs[i] == rs[j + 1..][i - j - 1];
        }
      }
    }
  }

  /** `IsTopTier` allows one list only, so it pins the loop's output down completely. */
  lemma TopTierUnique(rs: seq<ClassResult>, out: seq<ClassResult>)
    requires IsTopTier(rs, out)
    ensures out == TopTier(rs)
  {
    TopTierIsTopTier(rs);
  }

  /** The first result is always kept, so the list is empty exactly when the classifier returned nothing. */
  lemma TopTierEmptyIff(rs: seq<ClassResult>)
    ensures TopTier(rs) == [] <==> rs == []
    ensures rs != [] ==> TopTier(rs)[0] == rs[0]
  {
  }

  /** With no negative score the list is the longest prefix scored like the first result. */
  lemma AllNonNegative(rs: seq<ClassResult>)
    requires forall i :: 0 <= i < |rs| ==> rs[i].score >= 0.0
    ensures var out := TopTier(rs);
      && out == rs[..|out|]
      && (forall i :: 0 <= i < |out| ==> rs[i].score == rs[0].score)
      && (|out| < |rs| ==> rs[|out|].score != rs[0].score)
  {
    TopTierIsTopTier(rs);
  }

  /** When every score is negative, the whole list is returned. */
  lemma AllNegative(rs: seq<ClassResult>)
    requires forall i :: 0 <= i < |rs| ==> rs[i].score < 0.0
    ensures TopTier(rs) == rs
  {
    TopTierIsTopTier(rs);
  }

  /** Scores 0.9, 0.9, 0.5 keep the two tied leaders. */
  lemma TiedLeaders(a: Label, b: Label, c: Label)
    ensures TopTier([ClassResult(a, 0.9), ClassResult(b, 0.9), ClassResult(c, 0.5)])
         == [ClassResult(a, 0.9), ClassResult(b, 0.9)]
  {
    var rs := [ClassResult(a, 0.9), ClassResult(b, 0.9), ClassResult(c, 0.5)];
    assert rs[1..] == [ClassResult(b, 0.9), ClassResult(c, 0.5)];
    assert rs[1..][1..] == [ClassResult(c, 0.5)];
    assert KeepTier(rs[1..][1..], 0.9) == [];
    assert KeepTier(rs[1..], 0.9) == [rs[1]];
    assert KeepTier(rs, Unset) == [rs[0], rs[1]];
  }

  /** Scores 0.9, 0.7, 0.5 keep the top result only. */
  lemma DistinctScores(a: Label, b: Label, c: Label)
    ensures TopTier([ClassResult(a, 0.9), ClassResult(b, 0.7), ClassResult(c, 0.5)])
         == [ClassResult(a, 0.9)]
  {
    var rs := [ClassResult(a, 0.9), ClassResult(b, 0.7), ClassResult(c, 0.5)];
    assert rs[1..] == [ClassResult(b, 0.7), ClassResult(c, 0.5)];
    assert KeepTier(rs[1..], 0.9) == [];
    assert KeepTier(rs, Unset) == [rs[0]];
  }

  /** Scores -0.5, -0.2, 0.3, 0.3, 0.1: both negative results reset the best score and are kept. */
  lemma NegativesThenTie(a: Label, b: Label, c: Label, d: Label, e: Label)
    ensures TopTier([ClassResult(a, -0.5), ClassResult(b, -0.2), ClassResult(c, 0.3),
                     ClassResult(d, 0.3), ClassResult(e, 0.1)])
         == [ClassResult(a, -0.5), ClassResult(b, -0.2), ClassResult(c, 0.3), ClassResult(d, 0.3)]
  {
    var rs := [ClassResult(a, -0.5), ClassResult(b, -0.2), ClassResult(c, 0.3),
               ClassResult(d, 0.3), ClassResult(e, 0.1)];
    assert rs[1..] == [ClassResult(b, -0.2), ClassResult(c, 0.3), ClassResult(d, 0.3), ClassResult(e, 0.1)];
    assert rs[1..][1..] == [ClassResult(c, 0.3), ClassResult(d, 0.3), ClassResult(e, 0.1)];
    assert rs[1..][1..][1..] == [ClassResult(d, 0.3), ClassResult(e, 0.1)];
    assert rs[1..][1..][1..][1..] == [ClassResult(e, 0.1)];
    assert KeepTier(rs[1..][1..][1..][1..], 0.3) == [];
    assert KeepTier(rs[1..][1..][1..], 0.3) == [rs[3]];
    assert KeepTier(rs[1..][1..], -0.2) == [rs[2], rs[3]];
    assert KeepTier(rs[1..], -0.5) == [rs[1], rs[2], rs[3]];
    assert KeepTier(rs, Unset) == [rs[0], rs[1], rs[2], rs[3]];
  }

  /** The loop itself: `bestScore` and `classes` updated result by result, leaving at the first mismatch. */
  method FilterTopTier(result: seq<ClassResult>) returns (classes: seq<ClassResult>)
    ensures classes == TopTier(result)
  {
    classes := [];
    var bestScore := Unset;
    var i := 0;
    while i < |result|
      invariant 0 <= i <= |result|
      invariant TopTier(result) == classes + KeepTier(result[i..], bestScore)
    {
      var rest := result[i..];
      var res := result[i];
      var before := bestScore;
      var score := res.score;
      if bestScore < 0.0 {
        bestScore := score;
      }
      assert bestScore == NextBest(before, rest[0].score);
      if score != bestScore {
        assert KeepTier(rest, before) == [];
        break;
      }
      assert rest[1..] == result[i + 1..];
      assert KeepTier(rest, before) == [res] + KeepTier(result[i + 1..], bestScore);
      classes := classes + [res];
      i := i + 1;
    }
  }
}
