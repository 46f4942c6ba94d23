/** The memoising document-type classifier (intellidoc/extract/classifier.py).
    The classification model is the parameter `model`, a function of the
    prompt; the prompt template, which lives outside this file, is the
    parameter `template`, applied to the text sample. */
module Classifier {
  import opened Common

  /** Only this many leading characters of a document reach the prompt. */
  const SampleLength: nat := 2000

  /** The categories a classification can end in. */
  const Categories: set<string> := {"invoice", "resume", "other"}

  /** text[:2000]. */
  function Sample(text: string): (s: string)
    ensures |s| == Min(SampleLength, |text|) && s <= text
  {
    if |text| <= SampleLength then text else text[..SampleLength]
  }

  /** The model's answer, stripped and lower-cased; anything outside the
      three categories becomes "other". */
  function Normalize(answer: string): (c: string)
    ensures c in Categories
    ensures c == Lower(Strip(answer)) || (Lower(Strip(answer)) !in Categories && c == "other")
  {
    var category := Lower(Strip(answer));
    if category in Categories then category else "other"
  }

  /** A word of lower-case ASCII letters is its own stripped, lower-cased
      form. */
  lemma LowercaseWordIsNormal(w: string)
    requires w != [] && forall i :: 0 <= i < |w| ==> 'a' <= w[i] <= 'z'
    ensures Lower(Strip(w)) == w
  {
    assert Strip(w) == w;
    assert forall i :: 0 <= i < |w| ==> Lower(w)[i] == w[i];
  }

  /** A category name is its own normal form, so normalising twice changes
      nothing. */
  lemma NormalizeIdempotent(answer: string)
    ensures Normalize(Normalize(answer)) == Normalize(answer)
  {
    var c := Normalize(answer);
    CategoryIsNormal(c);
  }

  /** Each category name normalises to itself. */
  lemma CategoryIsNormal(c: string)
    requires c in Categories
    ensures Normalize(c) == c
  {
    if c == "invoice" {
      LowercaseWordIsNormal("invoice");
    } else if c == "resume" {
      LowercaseWordIsNormal("resume");
    } else {
      LowercaseWordIsNormal("other");
    }
  }

  /** One call of classify on a cache: the result (a category, or the
      model's exception) and the cache afterwards. */
  function Step(cache: map<string, string>, documentId: string, text: string,
                model: string -> Reply, template: string -> string): (r: (Reply, map<string, string>))
    ensures documentId in cache ==> r == (Answer(cache[documentId]), cache)
    ensures r.0.Raised? ==> r.1 == cache
    ensures r.0.Answer? ==> r.1 == cache[documentId := r.0.text]
  {
    if documentId in cache then (Answer(cache[documentId]), cache)
    else
      var reply := model(template(Sample(text)));
      if reply.Raised? then (reply, cache)
      else
        var category := Normalize(reply.text);
        (Answer(category), cache[documentId := category])
  }

  /** Every answer is a category, and the cache keeps only categories. */
  lemma StepInCategories(cache: map<string, string>, documentId: string, text: string,
                         model: string -> Reply, template: string -> string)
    requires forall id :: id in cache ==> cache[id] in Categories
    ensures var (r, after) := Step(cache, documentId, text, model, template);
      && (r.Answer? ==> r.text in Categories)
      && (forall id :: id in after ==> after[id] in Categories)
  {
  }

  /** After a successful call, the cache holds the answer for the id and a
      repeat call, with any text and any model, returns the same answer and
      leaves the cache as it is. */
  lemma {:induction false} RepeatAgrees(cache: map<string, string>, documentId: string, text: string, otherText: string,
                       model: string -> Reply, otherModel: string -> Reply, template: string -> string)
    ensures var (r, after) := Step(cache, documentId, text, model, template);
      r.Answer? ==>
        && documentId in after && after[documentId] == r.text
        && Step(after, documentId, otherText, otherModel, template) == (r, after)
  {
  }

  /** Two texts that agree on their first 2000 characters are classified
      alike. */
  lemma SampleDecides(cache: map<string, string>, documentId: string, text: string, otherText: string,
                      model: string -> Reply, template: string -> string)
    requires Sample(text) == Sample(otherText)
    ensures Step(cache, documentId, text, model, template) == Step(cache, documentId, otherText, model, template)
  {
  }

  /** A failing model call propagates its exception and caches nothing, so
      the next call asks the model again. */
  lemma FailureIsNotCached(cache: map<string, string>, documentId: string, text: string,
                           model: string -> Reply, template: string -> string)
    requires documentId !in cache && model(template(Sample(text))).Raised?
    ensures Step(cache, documentId, text, model, template) == (model(template(Sample(text))), cache)
  {
  }

  class DocumentClassifier {
    var cache: map<string, string>
    /** The prompts sent to the model, oldest first. */
    ghost var prompts: seq<string>

    ghost predicate Valid()
      reads this
    {
      forall id :: id in cache ==> cache[id] in Categories
    }

    constructor()
      ensures Valid() && cache == map[] && prompts == []
    {
      cache := map[];
      prompts := [];
    }

    /** classify: a cache hit returns the cached category without calling
        the model; a miss sends the prompt for the text sample, normalises
        the answer and caches it. */
    method Classify(documentId: string, text: string, model: string -> Reply, template: string -> string)
      returns (r: Reply)
      requires Valid()
      modifies this
      ensures Valid()
      ensures (r, cache) == Step(old(cache), documentId, text, model, template)
      ensures r.Answer? ==> r.text in Categories
      ensures prompts == old(prompts) + (if documentId in old(cache) then [] else [template(Sample(text))])
    {
      StepInCategories(cache, documentId, text, model, template);
      if documentId in cache {
        return Answer(cache[documentId]);
      }
      var sample := Sample(text);
      var prompt := template(sample);
      prompts := prompts + [prompt];
      r := model(prompt);
      if r.Raised? {
        return;
      }
      var category := Normalize(r.text);
      cache := cache[documentId := category];
      r := Answer(category);
    }
  }
}
