/** The concept extractor (localknow/extract/concepts.py): each of two
    models is asked for a JSON list of concepts, the items are read with
    defaults, and the two lists are merged by lower-cased name, averaging
    the confidence of repeats. The models are functions of the prompt; the
    prompt template, json.loads, Python's str() of a non-string JSON value
    and float() of a string are the parameters in `Tools`. */
module Concepts {
  import opened Common
  import opened Types

  datatype Tools = Tools(
    prompt: string -> string,
    parse: string -> Option<Json>,
    render: Json -> string,
    toFloat: string -> Option<real>)

  /** What an extraction gives: the concepts, or the exception raised. */
  datatype Extraction = Found(concepts: seq<Concept>) | Failed(message: string)

  const DefaultConfidence: real := 0.5
  /** The TypeError of iterating a JSON number, boolean or null. */
  const NotIterable: string := "object is not iterable"

  /** A string without leading or trailing whitespace. */
  predicate Stripped(s: string)
  {
    s == [] || (!IsSpace(s[0]) && !IsSpace(s[|s| - 1]))
  }

  /** str(v). */
  function Text(v: Json, render: Json -> string): string
  {
    if v.JString? then v.s else render(v)
  }

  /** str(c.get(key, "")).strip(). */
  function TextField(fields: map<string, Json>, key: string, render: Json -> string): (r: string)
    ensures Stripped(r)
    ensures key !in fields ==> r == []
  {
    Strip(if key in fields then Text(fields[key], render) else [])
  }

  /** float(c.get("confidence", 0.5)); None where float() raises. */
  function ConfidenceField(fields: map<string, Json>, toFloat: string -> Option<real>): (r: Option<real>)
    ensures "confidence" !in fields ==> r == Some(DefaultConfidence)
    ensures "confidence" in fields && fields["confidence"].JNumber? ==> r == Some(fields["confidence"].n)
  {
    if "confidence" !in fields then Some(DefaultConfidence)
    else
      var v := fields["confidence"];
      if v.JNumber? then Some(v.n)
      else if v.JBool? then Some(if v.b then 1.0 else 0.0)
      else if v.JString? then toFloat(v.s)
      else None
  }

  /** One item of the response list: a concept, or None when the item is
      skipped (it is not an object, or its confidence does not convert). */
  function ItemConcept(item: Json, tools: Tools): (r: Option<Concept>)
    ensures r.Some? ==> item.JObject? && Stripped(r.value.name) && Stripped(r.value.description) && r.value.sources == []
  {
    if !item.JObject? then None
    else
      var confidence := ConfidenceField(item.fields, tools.toFloat);
      if confidence.None? then None
      else Some(Concept(TextField(item.fields, "name", tools.render),
                        TextField(item.fields, "description", tools.render),
                        confidence.value, []))
  }

  /** An object without any of the three fields reads as an unnamed concept
      of confidence 0.5. */
  lemma MissingFieldsDefault(fields: map<string, Json>, tools: Tools)
    requires "name" !in fields && "description" !in fields && "confidence" !in fields
    ensures ItemConcept(JObject(fields), tools) == Some(Concept("", "", DefaultConfidence, []))
  {
  }

  /** What `for c in data` walks over: a list's items; a string's
      characters or an object's keys, all strings and so all skipped; a
      TypeError (None) for numbers, booleans and null. */
  function Items(data: Json): (r: Option<seq<Json>>)
    ensures r.None? <==> data.JNull? || data.JBool? || data.JNumber?
  {
    if data.JArray? then Some(data.items)
    else if data.JString? || data.JObject? then Some([])
    else None
  }

  /** The concepts read from the items, in order. */
  function Collect(items: seq<Json>, tools: Tools): seq<Concept>
  {
    if items == [] then []
    else
      var c := ItemConcept(items[|items| - 1], tools);
      Collect(items[..|items| - 1], tools) + (if c.Some? then [c.value] else [])
  }

  /** Every collected concept comes from an object item, with stripped
      text and no sources, and there are no more concepts than items. */
  lemma {:induction false} CollectShape(items: seq<Json>, tools: Tools)
    ensures |Collect(items, tools)| <= |items|
    ensures forall c :: c in Collect(items, tools) ==>
      Stripped(c.name) && Stripped(c.description) && c.sources == []
  {
    if items != [] {
      CollectShape(items[..|items| - 1], tools);
    }
  }

  /** _extract as a function of the model's reply. */
  function ExtractSpec(text: string, client: string -> Reply, tools: Tools): Extraction
  {
    var reply := client(tools.prompt(text) + "\nJSON:");
    if reply.Raised? then Failed(reply.message)
    else
      var parsed := tools.parse(reply.text);
      var items := Items(if parsed.Some? then parsed.value else JArray([]));
      if items.None? then Failed(NotIterable) else Found(Collect(items.value, tools))
  }

  /** A reply that does not parse gives no concepts; a model exception is
      passed on. */
  lemma UnparseableGivesNothing(text: string, client: string -> Reply, tools: Tools)
    ensures client(tools.prompt(text) + "\nJSON:").Answer? && tools.parse(client(tools.prompt(text) + "\nJSON:").text).None? ==>
      ExtractSpec(text, client, tools) == Found([])
    ensures client(tools.prompt(text) + "\nJSON:").Raised? ==>
      ExtractSpec(text, client, tools) == Failed(client(tools.prompt(text) + "\nJSON:").message)
  {
  }

  /** _extract. */
  method Extract(text: string, client: string -> Reply, tools: Tools) returns (r: Extraction)
    ensures r == ExtractSpec(text, client, tools)
  {
    var reply := client(tools.prompt(text) + "\nJSON:");
    if reply.Raised? {
      return Failed(reply.message);
    }
    var parsed := tools.parse(reply.text);
    var data := if parsed.Some? then parsed.value else JArray([]);
    var items := Items(data);
    if items.None? {
      return Failed(NotIterable);
    }
    var concepts: seq<Concept> := [];
    var i := 0;
    while i < |items.value|
      invariant 0 <= i <= |items.value|
      invariant concepts == Collect(items.value[..i], tools)
    {
      assert items.value[..i + 1][..i] == items.value[..i];
      var c := ItemConcept(items.value[i], tools);
      if c.Some? {
        concepts := concepts + [c.value];
      }
      i := i + 1;
    }
    assert items.value[..i] == items.value;
    r := Found(concepts);
  }

  // ------------------------------------------------------------ consensus

  /** The by_name dict: its keys in insertion order and its entries. */
  datatype Merged = Merged(keys: seq<string>, byName: map<string, Concept>)

  function Key(c: Concept): string
  {
    Lower(c.name)
  }

  /** One iteration of the merge loop: unnamed concepts are skipped, a new
      key keeps the concept, a repeated key averages the confidence with
      the stored one, capped at 1.0. */
  function MergeStep(m: Merged, c: Concept): (r: Merged)
    ensures Key(c) == [] ==> r == m
    ensures Key(c) != [] && Key(c) !in m.byName ==> r.keys == m.keys + [Key(c)] && r.byName == m.byName[Key(c) := c]
    ensures Key(c) != [] && Key(c) in m.byName ==>
      r.keys == m.keys && r.byName.Keys == m.byName.Keys && r.byName[Key(c)] == m.byName[Key(c)].(confidence := MinReal(1.0, (m.byName[Key(c)].confidence + c.confidence) / 2.0))
    ensures forall k :: k in m.byName && k != Key(c) ==> k in r.byName && r.byName[k] == m.byName[k]
  {
    var key := Key(c);
    if key == [] then m
    else if key !in m.byName then Merged(m.keys + [key], m.byName[key := c])
    else
      var stored := m.byName[key];
      Merged(m.keys, m.byName[key := stored.(confidence := MinReal(1.0, (stored.confidence + c.confidence) / 2.0))])
  }

  function MergeAll(cs: seq<Concept>): (m: Merged)
    ensures |m.keys| <= |cs|
  {
    if cs == [] then Merged([], map[]) else MergeStep(MergeAll(cs[..|cs| - 1]), cs[|cs| - 1])
  }

  /** The insertion-ordered keys are distinct, non-empty and exactly the
      dict's keys. */
  ghost predicate WellFormed(m: Merged)
  {
    && (forall a, b :: 0 <= a < b < |m.keys| ==> m.keys[a] != m.keys[b])
    && (forall k :: k in m.byName <==> k in m.keys)
    && [] !in m.keys
  }

  lemma {:induction false} MergeAllWellFormed(cs: seq<Concept>)
    ensures WellFormed(MergeAll(cs))
  {
    if cs != [] {
      MergeAllWellFormed(cs[..|cs| - 1]);
    }
  }

  /** list(by_name.values()). */
  function Values(m: Merged): (r: seq<Concept>)
    requires forall k :: k in m.keys ==> k in m.byName
    ensures |r| == |m.keys| && forall i :: 0 <= i < |r| ==> r[i] == m.byName[m.keys[i]]
  {
    seq(|m.keys|, i requires 0 <= i < |m.keys| => m.byName[m.keys[i]])
  }

  /** The index of the first concept with the given key, or -1. */
  function FirstWithKey(cs: seq<Concept>, key: string): (j: int)
    ensures -1 <= j < |cs|
    ensures j >= 0 ==> Key(cs[j]) == key && forall i :: 0 <= i < j ==> Key(cs[i]) != key
    ensures j == -1 ==> forall i :: 0 <= i < |cs| ==> Key(cs[i]) != key
  {
    if cs == [] then -1
    else
      var j := FirstWithKey(cs[..|cs| - 1], key);
      if j >= 0 then j else if Key(cs[|cs| - 1]) == key then |cs| - 1 else -1
  }

  /** How the first position of a key moves when a concept is appended. */
  lemma FirstWithKeyAppend(init: seq<Concept>, c: Concept, k: string)
    ensures FirstWithKey(init + [c], k) ==
      if FirstWithKey(init, k) >= 0 then FirstWithKey(init, k) else if Key(c) == k then |init| else -1
  {
    assert (init + [c])[..|init|] == init;
  }

  /** The output has one entry for each non-empty lower-cased name of the
      input and no other. */
  lemma MergeAllKeys(cs: seq<Concept>)
    ensures forall k :: k in MergeAll(cs).byName <==> k != [] && FirstWithKey(cs, k) >= 0
  {
    forall k
      ensures k in MergeAll(cs).byName <==> k != [] && FirstWithKey(cs, k) >= 0
    {
      KeyPresent(cs, k);
    }
  }

  /** MergeAllKeys for one key. */
  lemma {:induction false} KeyPresent(cs: seq<Concept>, k: string)
    ensures k in MergeAll(cs).byName <==> k != [] && FirstWithKey(cs, k) >= 0
  {
    if cs != [] {
      var init, c := cs[..|cs| - 1], cs[|cs| - 1];
      assert cs == init + [c];
      KeyPresent(init, k);
      FirstWithKeyAppend(init, c, k);
    }
  }

  /** Each entry is the first concept with its key, with only its
      confidence changed. */
  lemma {:induction false} MergeAllEntry(cs: seq<Concept>, k: string)
    requires k in MergeAll(cs).byName
    ensures 0 <= FirstWithKey(cs, k)
    ensures MergeAll(cs).byName[k] == cs[FirstWithKey(cs, k)].(confidence := MergeAll(cs).byName[k].confidence)
  {
    KeyPresent(cs, k);
    var init, c := cs[..|cs| - 1], cs[|cs| - 1];
    assert cs == init + [c];
    KeyPresent(init, k);
    FirstWithKeyAppend(init, c, k);
    if k in MergeAll(init).byName {
      MergeAllEntry(init, k);
      assert cs[FirstWithKey(init, k)] == init[FirstWithKey(init, k)];
    }
  }

  /** Each entry is stored under its own lower-cased name. */
  lemma {:induction false} MergeAllNamed(cs: seq<Concept>)
    ensures forall k :: k in MergeAll(cs).byName ==> Key(MergeAll(cs).byName[k]) == k
  {
    if cs != [] {
      MergeAllNamed(cs[..|cs| - 1]);
    }
  }

  /** The output keys follow the order of their first occurrence. */
  lemma {:induction false} MergeAllOrder(cs: seq<Concept>)
    ensures forall a, b :: 0 <= a < b < |MergeAll(cs).keys| ==>
      FirstWithKey(cs, MergeAll(cs).keys[a]) < FirstWithKey(cs, MergeAll(cs).keys[b])
  {
    if cs != [] {
      var init, c := cs[..|cs| - 1], cs[|cs| - 1];
      assert cs == init + [c];
      MergeAllOrder(init);
      var m0 := MergeAll(init);
      forall a | 0 <= a < |m0.keys|
        ensures FirstWithKey(cs, m0.keys[a]) == FirstWithKey(init, m0.keys[a]) < |init|
      {
        KeyListed(init, a);
        KeyPresent(init, m0.keys[a]);
        FirstWithKeyAppend(init, c, m0.keys[a]);
      }
      if Key(c) != [] && Key(c) !in m0.byName {
        KeyPresent(init, Key(c));
        FirstWithKeyAppend(init, c, Key(c));
      }
    }
  }

  /** Every listed key has an entry. */
  lemma {:induction false} KeyListed(cs: seq<Concept>, a: int)
    requires 0 <= a < |MergeAll(cs).keys|
    ensures MergeAll(cs).keys[a] in MergeAll(cs).byName
  {
    var init := cs[..|cs| - 1];
    if a < |MergeAll(init).keys| {
      KeyListed(init, a);
    }
  }

  /** A key seen once keeps its concept's confidence unchanged. */
  lemma {:induction false} SingleOccurrenceUnchanged(cs: seq<Concept>, j: int)
    requires 0 <= j < |cs| && Key(cs[j]) != []
    requires forall i :: 0 <= i < |cs| && i != j ==> Key(cs[i]) != Key(cs[j])
    ensures Key(cs[j]) in MergeAll(cs).byName && MergeAll(cs).byName[Key(cs[j])] == cs[j]
  {
    var init := cs[..|cs| - 1];
    if j < |cs| - 1 {
      SingleOccurrenceUnchanged(init, j);
    } else {
      MergeAllKeys(init);
      assert FirstWithKey(init, Key(cs[j])) == -1;
    }
  }

  /** The confidences given for key `k`, in input order. */
  function ConfidencesOf(cs: seq<Concept>, k: string): (r: seq<real>)
    ensures |r| <= |cs|
    ensures r == [] <==> FirstWithKey(cs, k) == -1
  {
    if cs == [] then []
    else ConfidencesOf(cs[..|cs| - 1], k) + (if Key(cs[|cs| - 1]) == k then [cs[|cs| - 1].confidence] else [])
  }

  /** "If both present, average confidence", read left to right: the first
      value, then each later value averaged in and capped at 1.0. */
  function RunningAverage(xs: seq<real>): real
    requires xs != []
  {
    if |xs| == 1 then xs[0] else MinReal(1.0, (RunningAverage(xs[..|xs| - 1]) + xs[|xs| - 1]) / 2.0)
  }

  /** Every merged confidence is the running capped average of the
      confidences given for its name, in input order. */
  lemma {:induction false} MergeAllConfidence(cs: seq<Concept>, k: string)
    requires k in MergeAll(cs).byName
    ensures ConfidencesOf(cs, k) != []
    ensures MergeAll(cs).byName[k].confidence == RunningAverage(ConfidencesOf(cs, k))
  {
    var init, c := cs[..|cs| - 1], cs[|cs| - 1];
    var m0 := MergeAll(init);
    assert MergeAll(cs) == MergeStep(m0, c);
    var prev := ConfidencesOf(init, k);
    KeyPresent(cs, k);
    if k in m0.byName {
      MergeAllConfidence(init, k);
      if Key(c) == k {
        var xs := prev + [c.confidence];
        assert ConfidencesOf(cs, k) == xs;
        assert |xs| > 1 && xs[..|xs| - 1] == prev && xs[|xs| - 1] == c.confidence;
        assert RunningAverage(xs) == MinReal(1.0, (RunningAverage(prev) + c.confidence) / 2.0);
        assert MergeAll(cs).byName[k].confidence == MinReal(1.0, (m0.byName[k].confidence + c.confidence) / 2.0);
      } else {
        assert ConfidencesOf(cs, k) == prev;
      }
    } else {
      assert Key(c) == k;
      KeyPresent(init, k);
      assert prev == [];
      assert ConfidencesOf(cs, k) == [c.confidence];
    }
  }

  /** A name given exactly twice gets the capped average of its two
      confidences. */
  lemma {:induction false} TwiceAveraged(cs: seq<Concept>, i: int, j: int)
    requires 0 <= i < j < |cs| && Key(cs[i]) != [] && Key(cs[j]) == Key(cs[i])
    requires forall n :: 0 <= n < |cs| && n != i && n != j ==> Key(cs[n]) != Key(cs[i])
    ensures Key(cs[i]) in MergeAll(cs).byName
    ensures MergeAll(cs).byName[Key(cs[i])].confidence == MinReal(1.0, (cs[i].confidence + cs[j].confidence) / 2.0)
  {
    var init := cs[..|cs| - 1];
    if j < |cs| - 1 {
      TwiceAveraged(init, i, j);
    } else {
      SingleOccurrenceUnchanged(init, i);
    }
  }

  /** With every input confidence in [lo, hi], every merged confidence lies
      in [min(lo, 1.0), hi]: the pairwise average stays between its
      operands and the cap only lowers it. */
  lemma {:induction false} MergedConfidenceBounds(cs: seq<Concept>, lo: real, hi: real)
    requires forall i :: 0 <= i < |cs| ==> lo <= cs[i].confidence <= hi
    ensures forall k :: k in MergeAll(cs).byName ==> MinReal(lo, 1.0) <= MergeAll(cs).byName[k].confidence <= hi
  {
    if cs != [] {
      MergedConfidenceBounds(cs[..|cs| - 1], lo, hi);
    }
  }

  /** The consensus of the two extractions. */
  function ConsensusSpec(text: string, primary: string -> Reply, validation: string -> Reply, tools: Tools): (r: Extraction)
    ensures r.Failed? <==> ExtractSpec(text, primary, tools).Failed? || ExtractSpec(text, validation, tools).Failed?
    ensures ExtractSpec(text, primary, tools).Failed? ==> r == ExtractSpec(text, primary, tools)
    ensures r.Found? ==>
      |r.concepts| <= |ExtractSpec(text, primary, tools).concepts| + |ExtractSpec(text, validation, tools).concepts|
  {
    var c1 := ExtractSpec(text, primary, tools);
    if c1.Failed? then c1
    else
      var c2 := ExtractSpec(text, validation, tools);
      if c2.Failed? then c2
      else
        var m := MergeAll(c1.concepts + c2.concepts);
        MergeAllWellFormed(c1.concepts + c2.concepts);
        Found(Values(m))
  }

  /** The consensus has at most one concept per lower-cased name and none
      without a name. */
  lemma ConsensusUniqueNames(text: string, primary: string -> Reply, validation: string -> Reply, tools: Tools)
    requires ConsensusSpec(text, primary, validation, tools).Found?
    ensures var out := ConsensusSpec(text, primary, validation, tools).concepts;
      && (forall a, b :: 0 <= a < b < |out| ==> Key(out[a]) != Key(out[b]))
      && (forall a :: 0 <= a < |out| ==> Key(out[a]) != [])
  {
    var cs := ExtractSpec(text, primary, tools).concepts + ExtractSpec(text, validation, tools).concepts;
    MergeAllWellFormed(cs);
    MergeAllNamed(cs);
  }

  /** A name each list holds exactly once is merged into one entry: the
      first list's concept with the capped average of the two confidences. */
  lemma MergedPairAverage(p: seq<Concept>, v: seq<Concept>, i: int, j: int)
    requires 0 <= i < |p| && 0 <= j < |v| && Key(p[i]) != [] && Key(v[j]) == Key(p[i])
    requires forall n :: 0 <= n < |p| && n != i ==> Key(p[n]) != Key(p[i])
    requires forall n :: 0 <= n < |v| && n != j ==> Key(v[n]) != Key(p[i])
    ensures var m := MergeAll(p + v);
      && Key(p[i]) in m.keys && Key(p[i]) in m.byName
      && m.byName[Key(p[i])] == p[i].(confidence := MinReal(1.0, (p[i].confidence + v[j].confidence) / 2.0))
  {
    var cs := p + v;
    var key := Key(p[i]);
    assert cs[i] == p[i] && cs[|p| + j] == v[j];
    forall n | 0 <= n < |cs| && n != i && n != |p| + j
      ensures Key(cs[n]) != key
    {
      if n < |p| { assert cs[n] == p[n]; } else { assert cs[n] == v[n - |p|]; }
    }
    TwiceAveraged(cs, i, |p| + j);
    MergeAllEntry(cs, key);
    assert FirstWithKey(cs, key) == i by {
      assert Key(cs[i]) == key;
    }
    MergeAllWellFormed(cs);
  }

  /** A name each model reports exactly once appears in the consensus as
      the primary model's concept with the capped average of the two
      confidences. */
  lemma ConsensusAverages(text: string, primary: string -> Reply, validation: string -> Reply, tools: Tools, i: int, j: int)
    requires ConsensusSpec(text, primary, validation, tools).Found?
    requires var p, v := ExtractSpec(text, primary, tools).concepts, ExtractSpec(text, validation, tools).concepts;
      && 0 <= i < |p| && 0 <= j < |v| && Key(p[i]) != [] && Key(v[j]) == Key(p[i])
      && (forall n :: 0 <= n < |p| && n != i ==> Key(p[n]) != Key(p[i]))
      && (forall n :: 0 <= n < |v| && n != j ==> Key(v[n]) != Key(p[i]))
    ensures var p, v := ExtractSpec(text, primary, tools).concepts, ExtractSpec(text, validation, tools).concepts;
      var out := ConsensusSpec(text, primary, validation, tools).concepts;
      exists n :: 0 <= n < |out| && out[n] == p[i].(confidence := MinReal(1.0, (p[i].confidence + v[j].confidence) / 2.0))
  {
    var p, v := ExtractSpec(text, primary, tools).concepts, ExtractSpec(text, validation, tools).concepts;
    MergedPairAverage(p, v, i, j);
    var m := MergeAll(p + v);
    MergeAllWellFormed(p + v);
    var key := Key(p[i]);
    var n :| 0 <= n < |m.keys| && m.keys[n] == key;
    assert ConsensusSpec(text, primary, validation, tools).concepts == Values(m);
    assert Values(m)[n] == m.byName[key];
  }

  /** extract_with_validation. */
  method ExtractWithValidation(text: string, primary: string -> Reply, validation: string -> Reply, tools: Tools)
    returns (r: Extraction)
    ensures r == ConsensusSpec(text, primary, validation, tools)
  {
    var c1 := Extract(text, primary, tools);
    if c1.Failed? {
      return c1;
    }
    var c2 := Extract(text, validation, tools);
    if c2.Failed? {
      return c2;
    }
    var keys, byName := MergeConcepts(c1.concepts + c2.concepts);
    MergeAllWellFormed(c1.concepts + c2.concepts);
    r := Found(Values(Merged(keys, byName)));
  }

  /** The merge loop of extract_with_validation, over the concatenation of
      both lists. */
  method MergeConcepts(all: seq<Concept>) returns (keys: seq<string>, byName: map<string, Concept>)
    ensures Merged(keys, byName) == MergeAll(all)
  {
    keys, byName := [], map[];
    var i := 0;
    while i < |all|
      invariant 0 <= i <= |all|
      invariant Merged(keys, byName) == MergeAll(all[..i])
    {
      assert all[..i + 1][..i] == all[..i];
      var c := all[i];
      var key := Lower(c.name);
      if key != [] {
        if key !in byName {
          keys := keys + [key];
          byName := byName[key := c];
        } else {
          byName := byName[key := byName[key].(confidence := MinReal(1.0, (byName[key].confidence + c.confidence) / 2.0))];
        }
      }
      i := i + 1;
    }
    assert all[..i] == all;
  }
}
