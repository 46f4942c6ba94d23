/** The record types shared by the pipeline (localknow/types.py), and the
    processing plan that the admission guardian fills in. */
module Types {
  import opened Common

  /** A document read from disk; `documentId` is uuid5 of the path. */
  datatype Document = Document(documentId: string, path: string, content: string, metadata: map<string, string>)

  datatype Concept = Concept(name: string, description: string, confidence: real, sources: seq<string>)

  datatype Principle = Principle(name: string, rationale: string, confidence: real)

  /** `viewpoints` holds whatever JSON value the detector returned for it. */
  datatype Controversy = Controversy(topic: string, viewpoints: Json, confidence: real)

  datatype QualityReport = QualityReport(avgConceptConfidence: real, lowConfidenceConcepts: seq<Concept>)

  /** The `action` string of a decision: "full", "limited" or "skip". */
  datatype Action = Full | Limited | Skip

  datatype ProcessingDecision = ProcessingDecision(path: string, action: Action, reason: Option<string>)

  /** An ordered list of decisions, appended to in place. */
  class ProcessingPlan {
    var decisions: seq<ProcessingDecision>

    constructor (decisions: seq<ProcessingDecision>)
      ensures this.decisions == decisions
    {
      this.decisions := decisions;
    }

    method AddFullProcessing(docPath: string)
      modifies this
      ensures decisions == old(decisions) + [ProcessingDecision(docPath, Full, None)]
    {
      decisions := decisions + [ProcessingDecision(docPath, Full, None)];
    }

    method AddLimitedProcessing(docPath: string)
      modifies this
      ensures decisions == old(decisions) + [ProcessingDecision(docPath, Limited, None)]
    {
      decisions := decisions + [ProcessingDecision(docPath, Limited, None)];
    }

    method AddSkipProcessing(docPath: string, reason: string)
      modifies this
      ensures decisions == old(decisions) + [ProcessingDecision(docPath, Skip, Some(reason))]
    {
      decisions := decisions + [ProcessingDecision(docPath, Skip, Some(reason))];
    }
  }
}
