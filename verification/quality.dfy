/** The quality score of a document's concepts (localknow/core/quality.py):
    the mean confidence and the concepts below 0.6. Rounding to three
    decimal places is the parameter `round3`. */
module Quality {
  import opened Common
  import opened Types

  /** Concepts below this confidence are flagged. */
  const LowThreshold: real := 0.6

  function Confidences(cs: seq<Concept>): (r: seq<real>)
    ensures |r| == |cs| && forall i :: 0 <= i < |cs| ==> r[i] == cs[i].confidence
  {
    if cs == [] then [] else Confidences(cs[..|cs| - 1]) + [cs[|cs| - 1].confidence]
  }

  /** [c for c in concepts if c.confidence < 0.6]. */
  function LowConfidence(cs: seq<Concept>): (r: seq<Concept>)
    ensures |r| <= |cs|
    ensures forall k :: 0 <= k < |r| ==> r[k].confidence < LowThreshold
  {
    if cs == [] then []
    else
      var last := cs[|cs| - 1];
      LowConfidence(cs[..|cs| - 1]) + (if last.confidence < LowThreshold then [last] else [])
  }

  /** The flagged concepts are exactly the input's concepts below 0.6, and
      there are no more of them than concepts. */
  lemma {:induction false} LowConfidenceExact(cs: seq<Concept>)
    ensures forall c :: c in LowConfidence(cs) <==> c in cs && c.confidence < LowThreshold
    ensures |LowConfidence(cs)| <= |cs|
  {
    if cs != [] {
      LowConfidenceExact(cs[..|cs| - 1]);
      assert cs == cs[..|cs| - 1] + [cs[|cs| - 1]];
    }
  }

  /** The filter keeps input order: filtering a concatenation concatenates
      the filtered parts. */
  lemma {:induction false} LowConfidenceAppend(a: seq<Concept>, b: seq<Concept>)
    ensures LowConfidence(a + b) == LowConfidence(a) + LowConfidence(b)
  {
    if b != [] {
      assert (a + b)[..|a + b| - 1] == a + b[..|b| - 1];
      LowConfidenceAppend(a, b[..|b| - 1]);
    } else {
      assert a + b == a;
    }
  }

  /** calculate_quality. */
  function CalculateQuality(concepts: seq<Concept>, round3: real -> real): (r: QualityReport)
    ensures concepts == [] ==> r == QualityReport(0.0, [])
    ensures forall c :: c in r.lowConfidenceConcepts <==> c in concepts && c.confidence < LowThreshold
    ensures |r.lowConfidenceConcepts| <= |concepts|
  {
    LowConfidenceExact(concepts);
    if concepts == [] then QualityReport(0.0, [])
    else QualityReport(round3(Mean(Confidences(concepts))), LowConfidence(concepts))
  }

  /** Before rounding, the average lies between the smallest and the
      largest confidence: with every confidence in [lo, hi], so is the
      average. */
  lemma AverageBounds(concepts: seq<Concept>, lo: real, hi: real)
    requires concepts != []
    requires forall i :: 0 <= i < |concepts| ==> lo <= concepts[i].confidence <= hi
    ensures CalculateQuality(concepts, x => x).avgConceptConfidence == Mean(Confidences(concepts))
    ensures lo <= Mean(Confidences(concepts)) <= hi
  {
    MeanBounds(Confidences(concepts), lo, hi);
  }
}
