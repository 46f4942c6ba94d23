/** The structured-data extractor (intellidoc/extract/extractor.py): a
    prompt built from the schemas and the text, then up to max_retries + 1
    model calls, each response going through the layered JSON loader and
    two schema validations; a failed attempt appends a corrective note to
    the prompt. The models, json.loads and both pydantic validations are
    parameters. */
module Extractor {
  import opened Common
  import opened JsonHelpers

  /** Both introductions begin with these words and part at the character
      after them. */
  const Opening: string := "You are an expert data extractor"

  const VisionIntro: string := Opening + " " + VisionRest

  const VisionRest: string :=
    "analyzing a document image. "
    + "Your task is to extract structured data from the image based on the "
    + "target schema, and then wrap it in the provided result schema. "
    + "The provided text is an OCR transcript of the image; use it to improve accuracy, "
    + "but trust the visual information in the image first. For justifications, briefly "
    + "describe the location of the data on the page (e.g., 'top right corner'). "
    + "Respond with ONLY the JSON object that matches the result schema."

  const TextIntro: string := Opening + "." + TextRest

  const TextRest: string :=
    " Your task is to extract structured data "
    + "from the provided text based on the target schema, and then wrap it in the "
    + "provided result schema. For justifications, briefly quote the text "
    + "that supports the extracted value. Respond with ONLY the JSON object that "
    + "matches the result schema."

  const ResultHeader: string := "\n\nResult Schema:\n---\n"
  const TargetHeader: string := "Target Data Schema (to be placed inside 'extracted_data' field):\n---\n"
  const TextHeader: string := "Text:\n---\n"
  const SectionEnd: string := "\n---\n\n"
  const OutputCue: string := "JSON Output:"

  /** Appended after a response that does not load as JSON. */
  const InvalidJsonNote: string :=
    "\n\nPrevious attempt failed. The output was not valid JSON. Please try again, "
    + "ensuring the output is a single, valid JSON object that conforms to the Result Schema."

  const ValidationLead: string := "\n\nPrevious attempt failed validation with the following errors:\n"
  const ValidationTail: string :=
    "\nPlease re-examine the document, target schema, and result schema, "
    + "then provide a corrected JSON object.\n\nJSON Output:"

  /** Appended after a response that fails validation with `error`. */
  function ValidationNote(error: string): string
  {
    ValidationLead + error + ValidationTail
  }

  function TextBlock(text: string): string
  {
    TextHeader + text + SectionEnd
  }

  /** The introduction and both schemas, each schema in its own section. */
  function Head(intro: string, schemaJson: string, wrapperSchema: string): string
  {
    intro + ResultHeader + wrapperSchema + SectionEnd + TargetHeader + schemaJson + SectionEnd
  }

  /** The prompt around a given introduction: the introduction first, the
      output cue last, and the text block just before the cue when the text
      is present and non-empty. */
  function Assemble(intro: string, schemaJson: string, wrapperSchema: string, text: Option<string>): (p: string)
    ensures intro <= p
    ensures |p| >= |OutputCue| && p[|p| - |OutputCue|..] == OutputCue
    ensures text.Some? && text.value != [] ==>
      |p| >= |OutputCue| + |TextBlock(text.value)| &&
      p[|p| - |OutputCue| - |TextBlock(text.value)|..|p| - |OutputCue|] == TextBlock(text.value)
  {
    var head := Head(intro, schemaJson, wrapperSchema);
    assert head[..|intro|] == intro;
    if text.Some? && text.value != [] then
      var p := head + TextBlock(text.value) + OutputCue;
      assert p[..|intro|] == intro;
      p
    else
      var p := head + OutputCue;
      assert p[..|intro|] == intro;
      p
  }

  /** The text block is the only difference the text makes: an empty text
      gives the prompt without text, and a non-empty one adds exactly its
      block. */
  lemma TextOnlyAddsItsBlock(intro: string, schemaJson: string, wrapperSchema: string, text: string)
    ensures Assemble(intro, schemaJson, wrapperSchema, Some(text)) == Assemble(intro, schemaJson, wrapperSchema, None) <==> text == []
    ensures |Assemble(intro, schemaJson, wrapperSchema, Some(text))|
      == |Assemble(intro, schemaJson, wrapperSchema, None)| + (if text == [] then 0 else |TextBlock(text)|)
  {
  }

  /** _generate_prompt: the vision introduction when an image is provided,
      the text introduction otherwise. */
  function GeneratePrompt(text: Option<string>, schemaJson: string, wrapperSchema: string, imageProvided: bool): (p: string)
    ensures Intro(imageProvided) <= p
    ensures |p| >= |OutputCue| && p[|p| - |OutputCue|..] == OutputCue
    ensures text.Some? && text.value != [] ==>
      |p| >= |OutputCue| + |TextBlock(text.value)| &&
      p[|p| - |OutputCue| - |TextBlock(text.value)|..|p| - |OutputCue|] == TextBlock(text.value)
  {
    Assemble(Intro(imageProvided), schemaJson, wrapperSchema, text)
  }

  function Intro(imageProvided: bool): string
  {
    if imageProvided then VisionIntro else TextIntro
  }

  /** The prompt opens with the vision introduction exactly when an image
      is provided. */
  lemma IntroTellsImage(text: Option<string>, schemaJson: string, wrapperSchema: string, imageProvided: bool)
    ensures VisionIntro <= GeneratePrompt(text, schemaJson, wrapperSchema, imageProvided) <==> imageProvided
  {
    var p := GeneratePrompt(text, schemaJson, wrapperSchema, imageProvided);
    if !imageProvided {
      var n := |Opening|;
      assert TextIntro <= p;
      assert p[n] == TextIntro[n] == '.';
      assert VisionIntro[n] == ' ';
    }
  }

  /** What pydantic's ExtractionResult.parse_obj makes of the loaded JSON:
      the wrapped result with its extracted_data, or the validation error. */
  datatype Validation = Valid(extractedData: Json) | Invalid(error: string)

  /** The collaborators of one extraction. */
  datatype Oracles = Oracles(
    generate: string -> Reply,
    generateWithImage: (string, string) -> Reply,
    parse: string -> Option<Json>,
    cleaner: string -> Reply,
    validateResult: Json -> Validation,
    validateTarget: Json -> Option<string>)

  /** How extract ends: the validated result, ValueError for JSON that
      never loaded, the last validation error, an exception from the model
      client, or the trailing ValueError after the loop. */
  datatype Outcome = Extracted(result: Json, data: Json) | InvalidJson | ValidationFailed(error: string) | ModelRaised(message: string) | Exhausted

  /** robust_json_load with the extractor's json.loads and cleaning model. */
  function Loader(o: Oracles): string -> Option<Json>
  {
    t => RobustJsonLoad(t, o.parse, o.cleaner)
  }

  /** The model call of one attempt: the vision call when the image path
      is non-empty, the text call otherwise. */
  function Call(o: Oracles, prompt: string, imagePath: Option<string>): Reply
  {
    if imagePath.Some? && imagePath.value != [] then o.generateWithImage(prompt, imagePath.value) else o.generate(prompt)
  }

  /** What one attempt ends with: a final outcome, or the note to append
      before the next attempt. `last` is true on the final attempt. */
  datatype Step = Done(outcome: Outcome) | Retry(note: string)

  function Attempt(o: Oracles, load: string -> Option<Json>, prompt: string, imagePath: Option<string>, last: bool): (s: Step)
    ensures s.Done? && s.outcome.Extracted? ==>
      o.validateResult(s.outcome.result) == Valid(s.outcome.data) && o.validateTarget(s.outcome.data).None?
    ensures s.Done? && s.outcome.Exhausted? ==> false
    ensures s.Retry? ==> !last
  {
    var reply := Call(o, prompt, imagePath);
    if reply.Raised? then Done(ModelRaised(reply.message))
    else
      var data := load(reply.text);
      if data.None? || data.value == JNull then
        if last then Done(InvalidJson) else Retry(InvalidJsonNote)
      else
        var v := o.validateResult(data.value);
        var error := if v.Invalid? then Some(v.error) else o.validateTarget(v.extractedData);
        if error.None? then Done(Extracted(data.value, v.extractedData))
        else if last then Done(ValidationFailed(error.value))
        else Retry(ValidationNote(error.value))
  }

  /** The attempts from `attempt` on: the outcome and the prompts sent. */
  function Run(o: Oracles, load: string -> Option<Json>, prompt: string, imagePath: Option<string>, attempt: nat, maxRetries: int): (r: (Outcome, seq<string>))
    ensures |r.1| <= Max(0, maxRetries + 1 - attempt)
    ensures attempt <= maxRetries <==> r.1 != []
    ensures r.1 != [] ==> r.1[0] == prompt
    decreases maxRetries + 1 - attempt
  {
    if attempt > maxRetries then (Exhausted, [])
    else
      var step := Attempt(o, load, prompt, imagePath, attempt >= maxRetries);
      if step.Done? then (step.outcome, [prompt])
      else
        var rest := Run(o, load, prompt + step.note, imagePath, attempt + 1, maxRetries);
        (rest.0, [prompt] + rest.1)
  }

  /** At most max_retries + 1 calls are made (none when it is negative),
      the first with the initial prompt, and each later prompt extends the
      one before it. */
  lemma {:induction false} RunCalls(o: Oracles, load: string -> Option<Json>, prompt: string, imagePath: Option<string>, attempt: nat, maxRetries: int)
    ensures var sent := Run(o, load, prompt, imagePath, attempt, maxRetries).1;
      && |sent| <= Max(0, maxRetries + 1 - attempt)
      && (attempt <= maxRetries ==> sent != [] && sent[0] == prompt)
      && (forall i, j :: 0 <= i <= j < |sent| ==> sent[i] <= sent[j])
    decreases maxRetries + 1 - attempt
  {
    if attempt <= maxRetries {
      var step := Attempt(o, load, prompt, imagePath, attempt >= maxRetries);
      if step.Retry? {
        var rest := Run(o, load, prompt + step.note, imagePath, attempt + 1, maxRetries).1;
        RunCalls(o, load, prompt + step.note, imagePath, attempt + 1, maxRetries);
        var sent := [prompt] + rest;
        assert forall i :: 1 <= i < |sent| ==> sent[i] == rest[i - 1];
        assert forall j :: 0 <= j < |rest| ==> prompt + step.note <= rest[j];
      }
    }
  }

  /** With max_retries >= 0 the loop always returns or raises inside, so
      the trailing ValueError is unreachable; with a negative value no call
      is made and that error is raised. */
  lemma {:induction false} TrailingRaise(o: Oracles, load: string -> Option<Json>, prompt: string, imagePath: Option<string>, attempt: nat, maxRetries: int)
    ensures attempt <= maxRetries ==> !Run(o, load, prompt, imagePath, attempt, maxRetries).0.Exhausted?
    ensures attempt > maxRetries ==> Run(o, load, prompt, imagePath, attempt, maxRetries) == (Exhausted, [])
    decreases maxRetries + 1 - attempt
  {
    if attempt <= maxRetries {
      var step := Attempt(o, load, prompt, imagePath, attempt >= maxRetries);
      if step.Retry? {
        TrailingRaise(o, load, prompt + step.note, imagePath, attempt + 1, maxRetries);
      }
    }
  }

  /** A returned result passed both validations. */
  lemma {:induction false} ExtractedIsValid(o: Oracles, load: string -> Option<Json>, prompt: string, imagePath: Option<string>, attempt: nat, maxRetries: int)
    ensures var out := Run(o, load, prompt, imagePath, attempt, maxRetries).0;
      out.Extracted? ==> o.validateResult(out.result) == Valid(out.data) && o.validateTarget(out.data).None?
    decreases maxRetries + 1 - attempt
  {
    if attempt <= maxRetries {
      var step := Attempt(o, load, prompt, imagePath, attempt >= maxRetries);
      if step.Retry? {
        ExtractedIsValid(o, load, prompt + step.note, imagePath, attempt + 1, maxRetries);
      }
    }
  }

  /** One pass of the loop body: the model call, the JSON load and the two
      validations. */
  method TryOnce(o: Oracles, load: string -> Option<Json>, prompt: string, imagePath: Option<string>, last: bool) returns (step: Step)
    ensures step == Attempt(o, load, prompt, imagePath, last)
  {
    var reply: Reply;
    if imagePath.Some? && imagePath.value != [] {
      reply := o.generateWithImage(prompt, imagePath.value);
    } else {
      reply := o.generate(prompt);
    }
    if reply.Raised? {
      return Done(ModelRaised(reply.message));
    }
    var data := load(reply.text);
    if data.None? || data.value == JNull {
      step := if last then Done(InvalidJson) else Retry(InvalidJsonNote);
    } else {
      var validated := o.validateResult(data.value);
      var error := if validated.Invalid? then Some(validated.error) else o.validateTarget(validated.extractedData);
      if error.None? {
        step := Done(Extracted(data.value, validated.extractedData));
      } else if last {
        step := Done(ValidationFailed(error.value));
      } else {
        step := Retry(ValidationNote(error.value));
      }
    }
  }

  /** extract: the prompt, then the retry loop. */
  method Extract(maxRetries: int, text: string, schemaJson: string, wrapperSchema: string, imagePath: Option<string>, o: Oracles)
    returns (outcome: Outcome, ghost sent: seq<string>)
    ensures outcome == Run(o, Loader(o), GeneratePrompt(Some(text), schemaJson, wrapperSchema, imagePath.Some?), imagePath, 0, maxRetries).0
    ensures (outcome, sent) == Run(o, Loader(o), GeneratePrompt(Some(text), schemaJson, wrapperSchema, imagePath.Some?), imagePath, 0, maxRetries)
    ensures |sent| <= Max(0, maxRetries + 1)
  {
    var prompt := GeneratePrompt(Some(text), schemaJson, wrapperSchema, imagePath.Some?);
    outcome, sent := RetryLoop(o, Loader(o), prompt, imagePath, maxRetries);
    RunCalls(o, Loader(o), prompt, imagePath, 0, maxRetries);
  }

  /** One step of Run, as the loop takes it. */
  lemma RunStep(o: Oracles, load: string -> Option<Json>, prompt: string, imagePath: Option<string>, attempt: nat, maxRetries: int, step: Step, sent: seq<string>)
    requires attempt <= maxRetries && step == Attempt(o, load, prompt, imagePath, attempt >= maxRetries)
    ensures step.Done? ==> Run(o, load, prompt, imagePath, attempt, maxRetries) == (step.outcome, [prompt])
    ensures step.Retry? ==>
      && Run(o, load, prompt, imagePath, attempt, maxRetries).0 == Run(o, load, prompt + step.note, imagePath, attempt + 1, maxRetries).0
      && sent + Run(o, load, prompt, imagePath, attempt, maxRetries).1 == sent + [prompt] + Run(o, load, prompt + step.note, imagePath, attempt + 1, maxRetries).1
  {
    if step.Retry? {
      var rest := Run(o, load, prompt + step.note, imagePath, attempt + 1, maxRetries).1;
      assert sent + ([prompt] + rest) == sent + [prompt] + rest;
    }
  }

  /** The loop over attempts 0 .. max_retries: each failed attempt extends
      the prompt by its note; at most max_retries + 1 prompts are sent. */
  method RetryLoop(o: Oracles, load: string -> Option<Json>, initial: string, imagePath: Option<string>, maxRetries: int)
    returns (outcome: Outcome, ghost sent: seq<string>)
    ensures outcome == Run(o, load, initial, imagePath, 0, maxRetries).0
    ensures (outcome, sent) == Run(o, load, initial, imagePath, 0, maxRetries)
  {
    var prompt := initial;
    sent := [];
    var attempt := 0;
    assert sent + Run(o, load, prompt, imagePath, attempt, maxRetries).1 == Run(o, load, prompt, imagePath, attempt, maxRetries).1;
    while attempt < maxRetries + 1
      invariant 0 <= attempt && (attempt <= maxRetries + 1 || attempt == 0)
      invariant Run(o, load, initial, imagePath, 0, maxRetries).0 == Run(o, load, prompt, imagePath, attempt, maxRetries).0
      invariant Run(o, load, initial, imagePath, 0, maxRetries).1 == sent + Run(o, load, prompt, imagePath, attempt, maxRetries).1
      decreases maxRetries + 1 - attempt
    {
      var step := TryOnce(o, load, prompt, imagePath, attempt >= maxRetries);
      RunStep(o, load, prompt, imagePath, attempt, maxRetries, step, sent);
      sent := sent + [prompt];
      if step.Done? {
        outcome := step.outcome;
        return;
      }
      prompt := prompt + step.note;
      attempt := attempt + 1;
    }
    TrailingRaise(o, load, prompt, imagePath, attempt, maxRetries);
    assert sent + [] == sent;
    outcome := Exhausted;
  }
}
