/**
 * The earlier draft of the memory manager (raven_memory_management.py): a
 * per-depth cache whose budget is `max_tokens - token_buffer` and whose
 * `add_memory` reports overflow, the prompt choice of
 * `generate_memory_elements`, the post-processing of a completion, and the
 * two memory formats.
 */
module DraftMemory {
  import opened Text
  import opened MemoryManagement

  /** A draft memory record: the fields the formats read. */
  datatype DraftRecord = DraftRecord(
    id: string,
    speaker: string,
    originalTimestring: string,
    content: string,
    originalSummary: string)

  /** The contents of one draft cache. */
  datatype DraftState = DraftState(memories: seq<DraftRecord>, tokenCount: int)

  /** `has_memory_space`: `n` more tokens stay within the budget. */
  predicate Fits(s: DraftState, budget: int, n: int) {
    s.tokenCount + n <= budget
  }

  /** `add_memory` on values: append and count, without checking space. */
  function Added(s: DraftState, m: DraftRecord, n: int): (r: DraftState)
    ensures r.memories == s.memories + [m] && r.tokenCount == s.tokenCount + n
  {
    DraftState(s.memories + [m], s.tokenCount + n)
  }

  /**
   * The overflow flag of `add_memory` (no space left for nothing more) is
   * raised exactly when the space check for the same tokens, made before the
   * add, would have failed.
   */
  lemma OverflowMeansNoSpace(s: DraftState, budget: int, m: DraftRecord, n: int)
    ensures !Fits(Added(s, m, n), budget, 0) <==> !Fits(s, budget, n)
  {
  }

  /** The tokens of a sequence of adds. */
  function Tokens(items: seq<(DraftRecord, int)>): int {
    if items == [] then 0 else Tokens(items[..|items| - 1]) + items[|items| - 1].1
  }

  /** The records of a sequence of adds. */
  function Records(items: seq<(DraftRecord, int)>): (ms: seq<DraftRecord>)
    ensures |ms| == |items|
    ensures forall i :: 0 <= i < |items| ==> ms[i] == items[i].0
  {
    seq(|items|, i requires 0 <= i < |items| => items[i].0)
  }

  /** The adds, one after the other. */
  function AddAll(s: DraftState, items: seq<(DraftRecord, int)>): DraftState {
    if items == [] then s
    else
      var last := items[|items| - 1];
      Added(AddAll(s, items[..|items| - 1]), last.0, last.1)
  }

  /**
   * After a flush, the cache holds exactly what was added since, in order,
   * and its token count is the sum of the counts passed in.
   */
  lemma {:induction false} AddAllAfterFlush(items: seq<(DraftRecord, int)>)
    ensures AddAll(DraftState([], 0), items) == DraftState(Records(items), Tokens(items))
  {
    if items != [] {
      var init := items[..|items| - 1];
      AddAllAfterFlush(init);
      assert Records(items) == Records(init) + [items[|items| - 1].0];
    }
  }

  /** `MemoryManager.MemoryCache` of the draft. */
  class DraftMemoryCache {
    const depth: int
    const tokenBuffer: int
    const maxTokens: int
    var memories: seq<DraftRecord>
    var tokenCount: int

    function State(): DraftState
      reads this
    {
      DraftState(memories, tokenCount)
    }

    function Budget(): int {
      maxTokens - tokenBuffer
    }

    constructor(depth: int, tokenBuffer: int, maxTokens: int)
      ensures this.depth == depth && this.tokenBuffer == tokenBuffer && this.maxTokens == maxTokens
      ensures State() == DraftState([], 0)
    {
      this.depth := depth;
      this.tokenBuffer := tokenBuffer;
      this.maxTokens := maxTokens;
      memories := [];
      tokenCount := 0;
    }

    /** `memory_count`: the number of memories `memories` hands out. */
    function MemoryCount(): (n: nat)
      reads this
      ensures n == |State().memories|
    {
      |memories|
    }

    method HasMemorySpace(n: int) returns (b: bool)
      ensures b <==> Fits(State(), Budget(), n)
    {
      b := tokenCount + n <= maxTokens - tokenBuffer;
    }

    /** Appends without checking space; answers whether the cache is now full. */
    method AddMemory(m: DraftRecord, n: int) returns (overflow: bool)
      modifies this
      ensures State() == Added(old(State()), m, n)
      ensures overflow <==> !Fits(State(), Budget(), 0)
    {
      tokenCount := tokenCount + n;
      memories := memories + [m];
      var space := HasMemorySpace(0);
      overflow := !space;
    }

    method FlushMemoryCache()
      modifies this
      ensures State() == DraftState([], 0)
    {
      memories := [];
      tokenCount := 0;
    }
  }

  /** The deepest cache `create_state` makes. */
  const MaxEpisodicDepth: nat := 2

  /** `create_state`: one empty cache per depth `0..MaxEpisodicDepth`, in depth order. */
  method CreateState(tokenBuffer: int, maxTokens: int) returns (caches: seq<DraftMemoryCache>)
    ensures |caches| == MaxEpisodicDepth + 1
    ensures forall i :: 0 <= i < |caches| ==>
              fresh(caches[i]) && caches[i].depth == i && caches[i].State() == DraftState([], 0) &&
              caches[i].Budget() == maxTokens - tokenBuffer
  {
    caches := [];
    for i := 0 to MaxEpisodicDepth + 1
      invariant |caches| == i
      invariant forall j :: 0 <= j < i ==>
                  fresh(caches[j]) && caches[j].depth == j && caches[j].State() == DraftState([], 0) &&
                  caches[j].Budget() == maxTokens - tokenBuffer
    {
      var cache := new DraftMemoryCache(i, tokenBuffer, maxTokens);
      caches := caches + [cache];
    }
  }

  /** Which of its two prompts a memory-elements request is for. */
  datatype Part = Summary | Keywords

  /** The `response` field of a completion: text or a list of strings. */
  datatype ResponseField = Text(s: string) | Items(items: seq<string>)

  /** Each character of `s` as a one-character string, as `list(s)` gives them. */
  function Chars(s: string): (cs: seq<string>)
    ensures |cs| == |s| && forall i :: 0 <= i < |s| ==> cs[i] == [s[i]]
  {
    seq(|s|, i requires 0 <= i < |s| => [s[i]])
  }

  /**
   * The text `process_gpt_memory_response` picks before cleaning it up:
   * the response for "string", its items joined by line breaks for "list",
   * nothing for any other type. `None`: the string branch met a list, on
   * which `strip` fails.
   */
  function RawText(response: ResponseField, expectedReturnType: string): (r: Option<string>)
    ensures r.None? <==> expectedReturnType == "string" && response.Items?
    ensures expectedReturnType != "string" && expectedReturnType != "list" ==> r == Some("")
    ensures expectedReturnType == "string" && response.Text? ==> r == Some(response.s)
    ensures expectedReturnType == "list" && response.Items? ==> r == Some(Join(response.items, "\n"))
    ensures expectedReturnType == "list" && response.Text? ==> r == Some(Join(Chars(response.s), "\n"))
  {
    if expectedReturnType == "string" then
      if response.Text? then Some(response.s) else None
    else if expectedReturnType == "list" then
      Some(Join(if response.Items? then response.items else Chars(response.s), "\n"))
    else Some("")
  }

  /** What the clean-up of a completion guarantees of its result. */
  predicate Cleaned(r: string) {
    && '\r' !in r && '\t' !in r
    && NoAdjacent(r, {'\n'}) && NoAdjacent(r, {' '})
    && (r == [] || (!IsSpace(r[0]) && !IsSpace(r[|r| - 1])))
  }

  /**
   * `process_gpt_memory_response`: the picked text, stripped, with runs of
   * line breaks and runs of blanks collapsed. The result is clean, keeps
   * every non-whitespace character of the picked text, and is any maximal
   * cut of the stripped text into line-break runs, blank runs and single
   * other characters, with each run written as one newline or one space.
   */
  function ProcessGptMemoryResponse(response: ResponseField, expectedReturnType: string): (r: Option<string>)
    ensures r.None? <==> RawText(response, expectedReturnType).None?
    ensures r.Some? ==> Cleaned(r.value) && NonSpace(r.value) == NonSpace(RawText(response, expectedReturnType).value)
    ensures r.Some? ==> forall parts :: Cut(Strip(RawText(response, expectedReturnType).value), parts) ==> r.value == Squashed(parts)
  {
    match RawText(response, expectedReturnType)
    case None => None
    case Some(raw) =>
      CleanupResponseSpec(raw);
      CleanupRuns(raw);
      Some(CleanupResponse(raw))
  }

  /** A completion: its `response` field and the `total_tokens` it reports. */
  datatype Completion = Completion(response: ResponseField, totalTokens: nat)

  /**
   * What `generate_memory_elements` returns: the two completions, cleaned
   * up, and the `total_tokens` of the last one.
   */
  datatype MemoryElements = MemoryElements(summary: string, keywords: string, totalTokens: nat)

  /**
   * `generate_memory_elements`: both completions use the prompt chosen by
   * depth; `complete` stands for the language model and `returnType` for
   * the expected return type the prompt file declares for each part.
   * `None`: a clean-up raised.
   */
  function GenerateMemoryElements(
    complete: (PromptName, Part, string) -> Completion,
    returnType: (PromptName, Part) -> string,
    content: string,
    depth: int): (r: Option<MemoryElements>)
    ensures var p := PromptFor(depth);
            var summary := ProcessGptMemoryResponse(complete(p, Summary, content).response, returnType(p, Summary));
            var keywords := ProcessGptMemoryResponse(complete(p, Keywords, content).response, returnType(p, Keywords));
            && (r.Some? <==> summary.Some? && keywords.Some?)
            && (r.Some? ==> r.value == MemoryElements(summary.value, keywords.value, complete(p, Keywords, content).totalTokens))
    ensures r.Some? ==> Cleaned(r.value.summary) && Cleaned(r.value.keywords)
  {
    var p := PromptFor(depth);
    var summary := ProcessGptMemoryResponse(complete(p, Summary, content).response, returnType(p, Summary));
    var keywords := ProcessGptMemoryResponse(complete(p, Keywords, content).response, returnType(p, Keywords));
    if summary.Some? && keywords.Some? then
      Some(MemoryElements(summary.value, keywords.value, complete(p, Keywords, content).totalTokens))
    else None
  }

  /** `"speaker: timestring - message"`: the eidetic format of the draft and of raven.py. */
  function SpeakerLine(speaker: string, timestring: string, message: string): (r: string)
    ensures StartsWith(r, speaker + ": " + timestring + " - ") && EndsWith(r, message)
    ensures |r| == |speaker| + |timestring| + |message| + 5
  {
    speaker + ": " + timestring + " - " + message
  }

  /** `format_eidetic_memory`. */
  function FormatEideticMemory(m: DraftRecord): (r: string)
    ensures StartsWith(r, m.speaker + ": " + m.originalTimestring + " - ") && EndsWith(r, m.content)
    ensures |r| == |m.speaker| + |m.originalTimestring| + |m.content| + 5
  {
    SpeakerLine(m.speaker, m.originalTimestring, m.content)
  }

  /** `format_episodic_memory`: `"timestring: summary"`. */
  function FormatEpisodicMemory(m: DraftRecord): (r: string)
    ensures StartsWith(r, m.originalTimestring + ": ") && EndsWith(r, m.originalSummary)
    ensures |r| == |m.originalTimestring| + 2 + |m.originalSummary|
  {
    m.originalTimestring + ": " + m.originalSummary
  }
}
