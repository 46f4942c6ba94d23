/** The layered JSON loader (intellidoc/utils/helpers.py): a direct parse,
    then a parse of what a cleaning model makes of the text, then a parse of
    the slice from the first '[' to the last ']'. json.loads is the
    parameter `parse` (None for a JSONDecodeError); the cleaning model is
    the parameter `cleaner`, a function of its prompt. */
module JsonHelpers {
  import opened Common

  const CleanerIntro: string :=
    "You are an expert JSON cleaning utility. Your sole task is to extract a valid, "
    + "parseable JSON array from the provided text. Respond with ONLY the JSON array and nothing else. "
    + "If no valid JSON array is found, return an empty array '[]'.\n\n"

  /** The prompt llm_json_sanitizer sends: the fixed instructions, then the
      text between two `---` lines. */
  function CleanerPrompt(text: string): (p: string)
    ensures |p| == |CleanerIntro| + 19 + |text| + 22
    ensures p[|CleanerIntro| + 19..|CleanerIntro| + 19 + |text|] == text
  {
    CleanerIntro + "Text to clean:\n---\n" + text + "\n---\nValid JSON array:"
  }

  /** llm_json_sanitizer: the cleaner's answer, or the text itself when the
      call raises. */
  function Sanitize(text: string, cleaner: string -> Reply): (r: string)
    ensures cleaner(CleanerPrompt(text)) == Answer(r) || (cleaner(CleanerPrompt(text)).Raised? && r == text)
  {
    var reply := cleaner(CleanerPrompt(text));
    if reply.Answer? then reply.text else text
  }

  /** The last-resort candidate: s[s.find('['):s.rfind(']') + 1] when both
      brackets occur; Python's slice is empty when the ']' comes first. */
  function BracketSlice(s: string): (r: Option<string>)
    ensures r.Some? <==> ('[' in s && ']' in s)
    ensures r.Some? && r.value != [] ==> r.value[0] == '[' && r.value[|r.value| - 1] == ']'
    ensures r.Some? && r.value != [] ==> exists a :: 0 <= a <= |s| - |r.value| && OccursAt(s, r.value, a)
  {
    var a := Find(s, '[');
    var b := RFind(s, ']');
    if a == -1 || b == -1 then
      assert '[' in s ==> a != -1 by {
        if '[' in s { var k :| 0 <= k < |s| && s[k] == '['; }
      }
      assert ']' in s ==> b != -1 by {
        if ']' in s { var k :| 0 <= k < |s| && s[k] == ']'; }
      }
      None
    else if a <= b then
      assert s[a..b + 1][0] == s[a] && s[a..b + 1][b - a] == s[b];
      assert OccursAt(s, s[a..b + 1], a);
      Some(s[a..b + 1])
    else Some("")
  }

  /** robust_json_load. Python's json.loads("null") returns None, which the
      caller cannot tell from a failure; here it is Some(JNull). */
  function RobustJsonLoad(text: string, parse: string -> Option<Json>, cleaner: string -> Reply): (r: Option<Json>)
    ensures parse(text).Some? ==> r == parse(text)
  {
    if parse(text).Some? then parse(text)
    else
      var sanitized := Sanitize(text, cleaner);
      if parse(sanitized).Some? then parse(sanitized)
      else
        var slice := BracketSlice(sanitized);
        if slice.Some? then parse(slice.value) else None
  }

  /** When the direct parse succeeds the cleaner is never consulted: any two
      cleaners give the same result. */
  lemma DirectParseIgnoresCleaner(text: string, parse: string -> Option<Json>, c1: string -> Reply, c2: string -> Reply)
    requires parse(text).Some?
    ensures RobustJsonLoad(text, parse, c1) == RobustJsonLoad(text, parse, c2) == parse(text)
  {
  }

  /** A cleaner that raises leaves the text as it was, so the later stages
      work on the original text: its parse failed already, and only the
      bracket slice of the original text can still rescue it. */
  lemma RaisingCleanerFallsBack(text: string, parse: string -> Option<Json>, cleaner: string -> Reply)
    requires parse(text).None? && cleaner(CleanerPrompt(text)).Raised?
    ensures RobustJsonLoad(text, parse, cleaner)
      == (if BracketSlice(text).Some? then parse(BracketSlice(text).value) else None)
  {
  }

  /** The three stages in order: the result is the first stage that parses;
      None exactly when every stage that runs fails, so no decode error
      escapes. */
  lemma StagesInOrder(text: string, parse: string -> Option<Json>, cleaner: string -> Reply)
    ensures var s := Sanitize(text, cleaner);
      var r := RobustJsonLoad(text, parse, cleaner);
      && (parse(text).None? && parse(s).Some? ==> r == parse(s))
      && (parse(text).None? && parse(s).None? && BracketSlice(s).Some? ==> r == parse(BracketSlice(s).value))
      && (r.None? <==> parse(text).None? && parse(s).None? && (BracketSlice(s).None? || parse(BracketSlice(s).value).None?))
  {
  }

  /** An object delimited only by braces is not rescued by the last stage:
      without a '[' or without a ']' in the sanitized text the slice stage
      does not run. */
  lemma BracesAloneAreNotRescued(text: string, parse: string -> Option<Json>, cleaner: string -> Reply)
    requires parse(text).None? && parse(Sanitize(text, cleaner)).None?
    requires '[' !in Sanitize(text, cleaner) || ']' !in Sanitize(text, cleaner)
    ensures RobustJsonLoad(text, parse, cleaner).None?
  {
  }
}
