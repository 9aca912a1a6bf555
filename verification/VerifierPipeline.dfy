/** The analysis -> verifier -> synthesis -> verifier pipeline: what a second verification pass over the
    fused output does to the verdict of the first. */
module VerifierPipeline {
  import opened Optional

  datatype Confidence = High | Medium | Low

  /** Values of a result dictionary. */
  datatype Value = Text(text: string) | Dict(entries: map<string, Value>) | Other(n: int)

  datatype Citation = Citation(sourceId: string, connector: string, excerpt: string, reference: string)

  datatype Output = Output(result: map<string, Value>, citations: seq<Citation>, confidence: Confidence,
                           warnings: seq<string>)

  /** The detection engines, each as the warnings it raises: for the conflicts of a case ([] for a case
      that is not stored), and for a narrative text. */
  datatype Engines = Engines(conflicts: string -> seq<string>, hallucinations: string -> seq<string>,
                             biases: string -> seq<string>)

  const KEYS: seq<string> := ["narrative", "synthesis_note", "executive_summary"]
  const SYNTHESIS := "synthesis"

  // ---------- the four checks ----------

  function CitationWarnings(citations: seq<Citation>): seq<string> {
    if citations == [] then []
    else
      (if citations[0].excerpt == "" || citations[0].reference == "" then [citations[0].sourceId] else [])
      + CitationWarnings(citations[1..])
  }

  /** The case named by the first citation of the case store. */
  function CaseId(citations: seq<Citation>): Option<string> {
    if citations == [] then None
    else if citations[0].connector == "case_store" then Some(citations[0].sourceId)
    else CaseId(citations[1..])
  }

  function ConflictWarnings(engines: Engines, citations: seq<Citation>): seq<string> {
    var id := CaseId(citations);
    if id.Some? then engines.conflicts(id.value) else []
  }

  predicate IsNarrative(entries: map<string, Value>, key: string) {
    key in entries && entries[key].Text? && entries[key].text != ""
  }

  function TextsUnder(entries: map<string, Value>, keys: seq<string>): seq<string> {
    if keys == [] then []
    else
      TextsUnder(entries, keys[..|keys| - 1])
      + if IsNarrative(entries, keys[|keys| - 1]) then [entries[keys[|keys| - 1]].text] else []
  }

  function Nested(result: map<string, Value>): map<string, Value> {
    if SYNTHESIS in result && result[SYNTHESIS].Dict? then result[SYNTHESIS].entries else map[]
  }

  function NarrativeTexts(result: map<string, Value>): seq<string> {
    TextsUnder(result, KEYS) + TextsUnder(Nested(result), KEYS)
  }

  function Scan(texts: seq<string>, engine: string -> seq<string>): seq<string> {
    if texts == [] then [] else engine(texts[0]) + Scan(texts[1..], engine)
  }

  datatype Category = Citations | Conflicts | Hallucinations | Biases

  function WarningsOf(engines: Engines, output: Output, category: Category): seq<string> {
    match category
    case Citations => CitationWarnings(output.citations)
    case Conflicts => ConflictWarnings(engines, output.citations)
    case Hallucinations => Scan(NarrativeTexts(output.result), engines.hallucinations)
    case Biases => Scan(NarrativeTexts(output.result), engines.biases)
  }

  function Flag(engines: Engines, output: Output, category: Category): set<Category> {
    if WarningsOf(engines, output, category) != [] then {category} else {}
  }

  /** The categories that raise at least one warning. */
  function Signals(engines: Engines, output: Output): set<Category> {
    Flag(engines, output, Citations) + Flag(engines, output, Conflicts)
    + Flag(engines, output, Hallucinations) + Flag(engines, output, Biases)
  }

  // ---------- one pass ----------

  function Degrade(confidence: Confidence, signals: int): Confidence {
    var c := if signals >= 1 && confidence == High then Medium else confidence;
    if signals >= 2 && c == Medium then Low else c
  }

  lemma {:induction false} TextsUnderNext(entries: map<string, Value>, keys: seq<string>, i: nat)
    requires i < |keys|
    ensures TextsUnder(entries, keys[..i + 1]) ==
            TextsUnder(entries, keys[..i]) + if IsNarrative(entries, keys[i]) then [entries[keys[i]].text] else []
  {
    assert keys[..i + 1][..i] == keys[..i];
  }

  method ExtractNarrativeTexts(result: map<string, Value>) returns (texts: seq<string>)
    ensures texts == NarrativeTexts(result)
  {
    NothingUnder(KEYS);
    texts := [];
    var keys := KEYS;
    assert TextsUnder(result, keys[..0]) == [] && TextsUnder(Nested(result), keys[..0]) == [];
    hide TextsUnder, KEYS;
    for i := 0 to |keys|
      invariant texts == TextsUnder(result, keys[..i])
    {
      TextsUnderNext(result, keys, i);
      if IsNarrative(result, keys[i]) {
        texts := texts + [result[keys[i]].text];
      }
    }
    assert keys[..|keys|] == keys;
    ghost var outer := texts;
    if SYNTHESIS in result && result[SYNTHESIS].Dict? {
      var nested := result[SYNTHESIS].entries;
      for i := 0 to |keys|
        invariant texts == outer + TextsUnder(nested, keys[..i])
      {
        TextsUnderNext(nested, keys, i);
        if IsNarrative(nested, keys[i]) {
          texts := texts + [nested[keys[i]].text];
        }
      }
    }
  }

  lemma {:induction false} NothingUnder(keys: seq<string>)
    ensures TextsUnder(map[], keys) == []
  {
    if keys != [] { NothingUnder(keys[..|keys| - 1]); }
  }

  function One(b: bool): nat {
    if b then 1 else 0
  }

  lemma {:induction false} SignalCount(engines: Engines, output: Output)
    ensures |Signals(engines, output)| ==
            One(WarningsOf(engines, output, Citations) != []) + One(WarningsOf(engines, output, Conflicts) != [])
            + One(WarningsOf(engines, output, Hallucinations) != []) + One(WarningsOf(engines, output, Biases) != [])
  {
    hide WarningsOf;
    var c, f, h, b := Flag(engines, output, Citations), Flag(engines, output, Conflicts),
                      Flag(engines, output, Hallucinations), Flag(engines, output, Biases);
    DisjointUnion(c, f);
    DisjointUnion(c + f, h);
    DisjointUnion(c + f + h, b);
  }

  lemma {:induction false} InSignals(engines: Engines, output: Output, c: Category)
    ensures c in Signals(engines, output) <==> WarningsOf(engines, output, c) != []
  {
    hide WarningsOf;
  }

  lemma {:induction false} DisjointUnion(a: set<Category>, b: set<Category>)
    requires a !! b
    ensures |a + b| == |a| + |b|
  {
  }

  // ---------- what the signals mean ----------

  /** The warnings name the citations that lack an excerpt or a reference. */
  lemma {:induction false} CitationWarningsMean(citations: seq<Citation>, id: string)
    ensures id in CitationWarnings(citations) <==>
            exists c :: c in citations && (c.excerpt == "" || c.reference == "") && c.sourceId == id
  {
    if citations != [] {
      CitationWarningsMean(citations[1..], id);
      assert citations == [citations[0]] + citations[1..];
    }
  }

  /** The case is that of the first citation of the case store. */
  lemma {:induction false} CaseIdMeans(citations: seq<Citation>, id: string)
    ensures CaseId(citations) == Some(id) <==>
            exists i :: 0 <= i < |citations| && citations[i].connector == "case_store" && citations[i].sourceId == id
                        && forall j :: 0 <= j < i ==> citations[j].connector != "case_store"
  {
    if citations != [] {
      var rest := citations[1..];
      CaseIdMeans(rest, id);
      assert forall i :: 0 <= i < |rest| ==> rest[i] == citations[i + 1];
      assert forall i :: 0 < i < |citations| ==> citations[i] == rest[i - 1];
      if i :| 0 < i < |citations| && citations[i].connector == "case_store" && citations[i].sourceId == id
              && forall j :: 0 <= j < i ==> citations[j].connector != "case_store" {
        assert rest[i - 1].sourceId == id;
      }
    }
  }

  /** A non-empty text under one of the three keys. */
  ghost predicate Narrates(entries: map<string, Value>, t: string) {
    && t != ""
    && exists key ::
         (key == "narrative" || key == "synthesis_note" || key == "executive_summary")
         && key in entries && entries[key] == Text(t)
  }

  /** Each text is scanned once, in order, and all that the engine says of it becomes a warning. */
  lemma {:induction false} ScanParts(before: seq<string>, text: string, after: seq<string>,
                                     engine: string -> seq<string>)
    ensures Scan([], engine) == []
    ensures Scan(before + [text] + after, engine) == Scan(before, engine) + engine(text) + Scan(after, engine)
  {
    var texts := before + [text] + after;
    if before == [] {
      assert texts[0] == text && texts[1..] == after;
    } else {
      ScanParts(before[1..], text, after, engine);
      assert texts[0] == before[0] && texts[1..] == before[1..] + [text] + after;
    }
  }

  lemma {:induction false} TextsUnderMember(entries: map<string, Value>, keys: seq<string>, t: string)
    ensures t in TextsUnder(entries, keys) <==>
            t != "" && exists key :: key in keys && key in entries && entries[key] == Text(t)
  {
    if keys != [] {
      TextsUnderMember(entries, keys[..|keys| - 1], t);
      assert keys == keys[..|keys| - 1] + [keys[|keys| - 1]];
    }
  }

  /** A narrative of the result or of the dictionary nested in it. */
  ghost predicate Narrative(result: map<string, Value>, t: string) {
    Narrates(result, t)
    || ("synthesis" in result && result["synthesis"].Dict? && Narrates(result["synthesis"].entries, t))
  }

  lemma {:induction false} NarrativeTextsMean(result: map<string, Value>, t: string)
    ensures t in NarrativeTexts(result) <==> Narrative(result, t)
  {
    TextsUnderMember(result, KEYS, t);
    TextsUnderMember(Nested(result), KEYS, t);
    hide TextsUnder;
    assert forall key :: key in KEYS <==>
                         key == "narrative" || key == "synthesis_note" || key == "executive_summary";
  }

  ghost predicate Objects(result: map<string, Value>, engine: string -> seq<string>) {
    exists t :: Narrative(result, t) && engine(t) != []
  }

  lemma {:induction false} ScanMeans(result: map<string, Value>, engine: string -> seq<string>)
    ensures Scan(NarrativeTexts(result), engine) != [] <==> Objects(result, engine)
  {
    ScanRaises(NarrativeTexts(result), engine);
    hide Scan, NarrativeTexts, Narrative;
    forall t ensures t in NarrativeTexts(result) <==> Narrative(result, t) { NarrativeTextsMean(result, t); }
  }

  lemma {:induction false} ConflictsMean(engines: Engines, citations: seq<Citation>)
    ensures ConflictWarnings(engines, citations) != [] <==>
            exists i :: 0 <= i < |citations| && citations[i].connector == "case_store"
                        && (forall j :: 0 <= j < i ==> citations[j].connector != "case_store")
                        && engines.conflicts(citations[i].sourceId) != []
  {
    hide CaseId;
    if ConflictWarnings(engines, citations) != [] {
      CaseIdMeans(citations, CaseId(citations).value);
    } else if i :| 0 <= i < |citations| && citations[i].connector == "case_store"
                        && (forall j :: 0 <= j < i ==> citations[j].connector != "case_store")
                        && engines.conflicts(citations[i].sourceId) != [] {
      CaseIdMeans(citations, citations[i].sourceId);
    }
  }

  /** When each category signals: a citation lacks an excerpt or a reference; the case of the first citation of
      the case store has conflicts; the engine objects to some narrative. */
  lemma {:induction false} SignalsMean(engines: Engines, output: Output)
    ensures Citations in Signals(engines, output) <==>
            exists c :: c in output.citations && (c.excerpt == "" || c.reference == "")
    ensures Conflicts in Signals(engines, output) <==>
            exists i :: 0 <= i < |output.citations| && output.citations[i].connector == "case_store"
                        && (forall j :: 0 <= j < i ==> output.citations[j].connector != "case_store")
                        && engines.conflicts(output.citations[i].sourceId) != []
    ensures Hallucinations in Signals(engines, output) <==> Objects(output.result, engines.hallucinations)
    ensures Biases in Signals(engines, output) <==> Objects(output.result, engines.biases)
  {
    hide Signals, CitationWarnings, ConflictWarnings, NarrativeTexts, Objects, Scan;
    forall c ensures c in Signals(engines, output) <==> WarningsOf(engines, output, c) != [] {
      InSignals(engines, output, c);
    }
    SomeIncomplete(output.citations);
    ConflictsMean(engines, output.citations);
    ScanMeans(output.result, engines.hallucinations);
    ScanMeans(output.result, engines.biases);
  }

  lemma {:induction false} SomeIncomplete(citations: seq<Citation>)
    ensures CitationWarnings(citations) != [] <==>
            exists c :: c in citations && (c.excerpt == "" || c.reference == "")
  {
    forall id ensures id in CitationWarnings(citations) <==>
        exists c :: c in citations && (c.excerpt == "" || c.reference == "") && c.sourceId == id
    {
      CitationWarningsMean(citations, id);
    }
    if CitationWarnings(citations) != [] { assert CitationWarnings(citations)[0] in CitationWarnings(citations); }
    hide CitationWarnings;
    if c :| c in citations && (c.excerpt == "" || c.reference == "") {
      assert c.sourceId in CitationWarnings(citations);
    }
  }

  method Verify(engines: Engines, output: Output) returns (verified: Output)
    ensures verified.result == output.result && verified.citations == output.citations
    ensures Lowered(output.confidence, |Signals(engines, output)|, verified.confidence)
    ensures verified.warnings == output.warnings
              + WarningsOf(engines, output, Citations) + WarningsOf(engines, output, Conflicts)
              + WarningsOf(engines, output, Hallucinations) + WarningsOf(engines, output, Biases)
  {
    hide Signals, CitationWarnings, ConflictWarnings, NarrativeTexts, Scan;
    var warnings, categories := output.warnings, 0;

    var citationWarnings := CitationWarnings(output.citations);
    if citationWarnings != [] {
      categories := categories + 1;
    }
    warnings := warnings + citationWarnings;

    var conflictWarnings := ConflictWarnings(engines, output.citations);
    if conflictWarnings != [] {
      categories := categories + 1;
    }
    warnings := warnings + conflictWarnings;

    var texts := ExtractNarrativeTexts(output.result);
    var hallucinationWarnings := Scan(texts, engines.hallucinations);
    if hallucinationWarnings != [] {
      categories := categories + 1;
    }
    warnings := warnings + hallucinationWarnings;

    var biasWarnings := Scan(texts, engines.biases);
    if biasWarnings != [] {
      categories := categories + 1;
    }
    warnings := warnings + biasWarnings;

    SignalCount(engines, output);
    DegradeIsLowered(output.confidence, categories);
    verified := Output(output.result, output.citations, Degrade(output.confidence, categories), warnings);
  }

  // ---------- fusing and the pipeline ----------

  function Fuse(previous: Output, synthesis: Output): Output {
    Output(previous.result[SYNTHESIS := Dict(synthesis.result)], previous.citations + synthesis.citations,
           previous.confidence, previous.warnings + synthesis.warnings)
  }

  /** The output the second pass sees. */
  function Fused(analysis: Output, synthesis: Output): Output {
    Output(analysis.result[SYNTHESIS := Dict(synthesis.result)], analysis.citations + synthesis.citations,
           analysis.confidence, [])
  }

  lemma {:induction false} SignalsIgnoreWarnings(engines: Engines, a: Output, b: Output)
    requires a.result == b.result && a.citations == b.citations
    ensures Signals(engines, a) == Signals(engines, b)
  {
  }

  function Max(a: int, b: int): int {
    if a >= b then a else b
  }

  function ConfidenceRank(c: Confidence): int {
    match c
    case High => 2
    case Medium => 1
    case Low => 0
  }

  function Min(a: int, b: int): int {
    if a <= b then a else b
  }

  /** What `n` signalling categories make of a confidence: none keeps it, one leaves at most Medium, and more
      leave Low. */
  ghost predicate Lowered(before: Confidence, n: int, after: Confidence) {
    && (n <= 0 ==> after == before)
    && (n == 1 ==> after == if before == High then Medium else before)
    && (n >= 2 ==> after == Low)
  }

  lemma {:induction false} DegradeIsLowered(c: Confidence, n: int)
    ensures Lowered(c, n, Degrade(c, n))
  {
  }

  /** In ranks: the lower of the rank there was and the rank that so many signals leave. */
  lemma {:induction false} LoweredRank(before: Confidence, n: nat, after: Confidence)
    ensures Lowered(before, n, after) <==>
            ConfidenceRank(after) == Min(ConfidenceRank(before), 2 - Min(n, 2))
  {
  }

  /** Lowered twice is lowered once, by the larger count. */
  lemma {:induction false} LoweredTwice(before: Confidence, m: nat, between: Confidence, n: nat, after: Confidence)
    requires Lowered(before, m, between) && Lowered(between, n, after)
    ensures Lowered(before, Max(m, n), after)
  {
  }

  /** For any analysis and synthesis, the pipeline degrades the confidence of the analysis once, by the
      larger of the two signal counts, and only adds to what the analysis reported. */
  method Pipeline(engines: Engines, analysis: Output, synthesis: Output) returns (final: Output)
    ensures Lowered(analysis.confidence,
                    Max(|Signals(engines, analysis)|, |Signals(engines, Fused(analysis, synthesis))|),
                    final.confidence)
    ensures analysis.warnings <= final.warnings && analysis.citations <= final.citations
    ensures final.result == analysis.result[SYNTHESIS := Dict(synthesis.result)]
    ensures Nested(analysis.result) == map[] ==>
              Lowered(analysis.confidence, |Signals(engines, Fused(analysis, synthesis))|, final.confidence)
  {
    hide Signals, WarningsOf, NarrativesKept;
    var verified := Verify(engines, analysis);
    var fused := Fuse(verified, synthesis);
    final := Verify(engines, fused);
    SignalsIgnoreWarnings(engines, fused, Fused(analysis, synthesis));
    LoweredTwice(analysis.confidence, |Signals(engines, analysis)|, verified.confidence, |Signals(engines, fused)|,
                 final.confidence);
    if Nested(analysis.result) == map[] {
      NothingNested(analysis, synthesis);
      SignalsAreKept(engines, analysis, synthesis);
      SubsetSize(Signals(engines, analysis), Signals(engines, Fused(analysis, synthesis)));
    }
    assert analysis.warnings <= verified.warnings <= fused.warnings <= final.warnings;
  }

  lemma {:induction false} NothingNested(analysis: Output, synthesis: Output)
    requires Nested(analysis.result) == map[]
    ensures NarrativesKept(analysis, synthesis)
  {
    NothingUnder(KEYS);
  }

  lemma {:induction false} SubsetSize(a: set<Category>, b: set<Category>)
    requires a <= b
    ensures |a| <= |b|
  {
    assert b == a + (b - a);
  }

  // ---------- which signals survive the fusion ----------

  lemma {:induction false} CitationWarningsKept(a: seq<Citation>, b: seq<Citation>)
    ensures CitationWarnings(a + b) == CitationWarnings(a) + CitationWarnings(b)
  {
    if a == [] {
      assert a + b == b;
    } else {
      assert (a + b)[1..] == a[1..] + b;
      CitationWarningsKept(a[1..], b);
    }
  }

  lemma {:induction false} CaseIdKept(a: seq<Citation>, b: seq<Citation>)
    ensures CaseId(a).Some? ==> CaseId(a + b) == CaseId(a)
  {
    if a != [] {
      assert (a + b)[1..] == a[1..] + b;
      CaseIdKept(a[1..], b);
    }
  }

  lemma {:induction false} ScanRaises(texts: seq<string>, engine: string -> seq<string>)
    ensures Scan(texts, engine) != [] <==> exists t :: t in texts && engine(t) != []
  {
    if texts != [] {
      ScanRaises(texts[1..], engine);
      assert texts == [texts[0]] + texts[1..];
    }
  }

  lemma {:induction false} TextsUnderOther(entries: map<string, Value>, value: Value, keys: seq<string>)
    requires SYNTHESIS !in keys
    ensures TextsUnder(entries[SYNTHESIS := value], keys) == TextsUnder(entries, keys)
  {
    if keys != [] { TextsUnderOther(entries, value, keys[..|keys| - 1]); }
  }

  /** Fusion keeps the analysis's own narratives, replaces its nested ones by the synthesis's. */
  lemma {:induction false} FusedTexts(analysis: Output, synthesis: Output)
    ensures NarrativeTexts(Fused(analysis, synthesis).result)
            == TextsUnder(analysis.result, KEYS) + TextsUnder(synthesis.result, KEYS)
  {
    assert SYNTHESIS !in KEYS;
    TextsUnderOther(analysis.result, Dict(synthesis.result), KEYS);
  }

  /** Every narrative of the analysis is still there after the fusion; a caller can tell beforehand. */
  predicate NarrativesKept(analysis: Output, synthesis: Output) {
    forall t :: t in TextsUnder(Nested(analysis.result), KEYS) ==>
      t in TextsUnder(analysis.result, KEYS) || t in TextsUnder(synthesis.result, KEYS)
  }

  /** If the narratives are kept, and in particular if the analysis nests none, every signal of the
      first pass is raised again in the second. */
  lemma {:induction false} SignalsAreKept(engines: Engines, analysis: Output, synthesis: Output)
    requires NarrativesKept(analysis, synthesis)
    ensures Signals(engines, analysis) <= Signals(engines, Fused(analysis, synthesis))
  {
    hide Signals, TextsUnder, Scan, CitationWarnings, CaseId, NarrativeTexts, NarrativesKept;
    var fused := Fused(analysis, synthesis);
    CitationWarningsKept(analysis.citations, synthesis.citations);
    CaseIdKept(analysis.citations, synthesis.citations);
    NarrativesStay(analysis, synthesis);
    ScanKept(NarrativeTexts(analysis.result), NarrativeTexts(fused.result), engines.hallucinations);
    ScanKept(NarrativeTexts(analysis.result), NarrativeTexts(fused.result), engines.biases);
    forall c | c in Signals(engines, analysis) ensures c in Signals(engines, fused) {
      InSignals(engines, analysis, c);
      InSignals(engines, fused, c);
    }
  }

  lemma {:induction false} NarrativesStay(analysis: Output, synthesis: Output)
    requires NarrativesKept(analysis, synthesis)
    ensures forall t :: t in NarrativeTexts(analysis.result) ==> t in NarrativeTexts(Fused(analysis, synthesis).result)
  {
    hide TextsUnder, KEYS, Nested, Fused;
    FusedTexts(analysis, synthesis);
  }

  lemma {:induction false} ScanKept(a: seq<string>, b: seq<string>, engine: string -> seq<string>)
    requires forall t :: t in a ==> t in b
    ensures Scan(a, engine) != [] ==> Scan(b, engine) != []
  {
    ScanRaises(a, engine);
    ScanRaises(b, engine);
  }

  ghost predicate KeptForAll(analysis: Output, synthesis: Output) {
    forall engines: Engines :: Signals(engines, analysis) <= Signals(engines, Fused(analysis, synthesis))
  }

  lemma {:induction false} LostNarrative(analysis: Output, synthesis: Output, t: string) returns (engines: Engines)
    requires t in TextsUnder(Nested(analysis.result), KEYS)
    requires t !in TextsUnder(analysis.result, KEYS) && t !in TextsUnder(synthesis.result, KEYS)
    ensures Hallucinations in Signals(engines, analysis)
            && Hallucinations !in Signals(engines, Fused(analysis, synthesis))
  {
    var picky := (s: string) => if s == t then ["objection"] else [];
    engines := Engines((s: string) => [], picky, (s: string) => []);
    var texts, fusedTexts := NarrativeTexts(analysis.result), NarrativeTexts(Fused(analysis, synthesis).result);
    FusedTexts(analysis, synthesis);
    assert t in texts && t !in fusedTexts;
    ScanRaises(texts, picky);
    ScanRaises(fusedTexts, picky);
    InSignals(engines, analysis, Hallucinations);
    InSignals(engines, Fused(analysis, synthesis), Hallucinations);
    hide TextsUnder, Scan, NarrativeTexts, CitationWarnings, ConflictWarnings, Nested, Fused, Signals;
    assert picky(t) != [];
  }

  /** Exactly then: if a narrative is lost, an engine that objects to just that text is silent in the
      second pass. */
  lemma {:induction false} SignalsAreKeptIff(analysis: Output, synthesis: Output)
    ensures KeptForAll(analysis, synthesis) <==> NarrativesKept(analysis, synthesis)
  {
    hide Signals, TextsUnder, Nested, Fused;
    if NarrativesKept(analysis, synthesis) {
      forall engines: Engines ensures Signals(engines, analysis) <= Signals(engines, Fused(analysis, synthesis)) {
        SignalsAreKept(engines, analysis, synthesis);
      }
    } else {
      var t :| t in TextsUnder(Nested(analysis.result), KEYS) &&
               t !in TextsUnder(analysis.result, KEYS) && t !in TextsUnder(synthesis.result, KEYS);
      var engines := LostNarrative(analysis, synthesis, t);
    }
  }
}
