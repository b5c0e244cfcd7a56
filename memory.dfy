/**
 * The per-depth memory caches of MemoryManagement.py.
 *
 * Depth 0 holds eidetic memories (one per message); depth d + 1 holds
 * episodic memories, each the summary of a whole depth-d cache. A cache is
 * a token-budgeted buffer: a memory is added when it fits, otherwise the
 * cache is summarised into one depth + 1 memory (which may cascade upward),
 * flushed, and the memory is added to the emptied cache.
 *
 * The language model, the token estimator and uuid4() are oracles carried
 * by an `Oracles` value; time() is a `now` parameter.
 */
module MemoryManagement {
  import opened Text

  /** An eidetic (depth 0) or episodic (depth >= 1) memory record. */
  datatype Memory =
    | Eidetic(id: string, parentId: string, speaker: string, content: string,
              contentTokens: int, summary: string, summaryTokens: int, timestamp: int, depth: int)
    | Episodic(id: string, parentId: string, lowerMemoryIds: seq<string>,
               summary: string, summaryTokens: int, timestamp: int, depth: int)

  /** The ids of `ms`, in order (the `memory_ids` list). */
  function Ids(ms: seq<Memory>): (r: seq<string>)
    ensures |r| == |ms| && forall i :: 0 <= i < |ms| ==> r[i] == ms[i].id
  {
    seq(|ms|, i requires 0 <= i < |ms| => ms[i].id)
  }

  /** Sum of the summary token counts of `ms`. */
  function SummaryTokenSum(ms: seq<Memory>): int {
    if ms == [] then 0 else SummaryTokenSum(ms[..|ms| - 1]) + ms[|ms| - 1].summaryTokens
  }

  /** The summaries of `ms`, each followed by a line break. */
  function Transcript(ms: seq<Memory>): string {
    if ms == [] then "" else Transcript(ms[..|ms| - 1]) + ms[|ms| - 1].summary + "\n"
  }

  lemma {:induction false} TranscriptLength(ms: seq<Memory>)
    ensures |Transcript(ms)| == |ms| + SumLengths(SummariesOf(ms))
  {
    if ms != [] {
      var k := |ms| - 1;
      TranscriptLength(ms[..k]);
      assert SummariesOf(ms) == SummariesOf(ms[..k]) + [ms[k].summary];
      SumLengthsAppend(SummariesOf(ms[..k]), ms[k].summary);
    }
  }

  function SummariesOf(ms: seq<Memory>): (r: seq<string>)
    ensures |r| == |ms| && forall i :: 0 <= i < |ms| ==> r[i] == ms[i].summary
  {
    seq(|ms|, i requires 0 <= i < |ms| => ms[i].summary)
  }

  lemma {:induction false} SumLengthsAppend(parts: seq<string>, s: string)
    ensures SumLengths(parts + [s]) == SumLengths(parts) + |s|
  {
    if parts != [] {
      assert (parts + [s])[1..] == parts[1..] + [s];
      SumLengthsAppend(parts[1..], s);
    }
  }

  /** The three memory-processing prompt files. */
  datatype PromptName = EideticMemory | EideticToEpisodicMemory | EpisodicToEpisodicMemory

  /** The prompt used to summarise content destined for `depth`. */
  function PromptFor(depth: int): (r: PromptName)
    ensures r == EideticMemory <==> depth == 0
    ensures r == EideticToEpisodicMemory <==> depth == 1
    ensures r == EpisodicToEpisodicMemory <==> depth != 0 && depth != 1
  {
    if depth == 0 then EideticMemory
    else if depth == 1 then EideticToEpisodicMemory
    else EpisodicToEpisodicMemory
  }

  /** What is sent to the language model for one summary. */
  datatype SummaryRequest = SummaryRequest(prompt: PromptName, speaker: string, content: string, responseTokens: int)

  /**
   * The services the manager calls: a fresh-id supply (uuid4, indexed by
   * how many ids have been drawn), the completion model, the clean-up
   * applied to each completion (`CleanupResponse` in a manager, see
   * `MemoryManager.constructor`), the token estimator, each prompt file's
   * `response_tokens`, and the model's input limit `max_tokens`.
   */
  datatype Oracles = Oracles(
    uuid: nat -> string,
    complete: SummaryRequest -> string,
    cleanup: string -> string,
    estimate: string -> nat,
    promptTokens: PromptName -> int,
    maxTokens: int)

  /** The prompt choice and the response budget of `summarize_content`. */
  function SummaryPlan(o: Oracles, content: string, depth: int, speaker: string, contentTokens: int): (r: SummaryRequest)
    ensures r.prompt == PromptFor(depth) && r.content == content && r.speaker == speaker
    ensures r.responseTokens <= o.maxTokens
    ensures r.responseTokens <= o.promptTokens(r.prompt) + contentTokens
    ensures r.responseTokens == o.maxTokens || r.responseTokens == o.promptTokens(r.prompt) + contentTokens
  {
    var name := PromptFor(depth);
    var wanted := o.promptTokens(name) + contentTokens;
    SummaryRequest(name, speaker, content, if wanted > o.maxTokens then o.maxTokens else wanted)
  }

  /** `summarize_content` followed by `cleanup_response`. */
  function Summarize(o: Oracles, content: string, depth: int, speaker: string, contentTokens: int): string {
    o.cleanup(o.complete(SummaryPlan(o, content, depth, speaker, contentTokens)))
  }

  /** `generate_eidetic_memory`: the record for one message. */
  function NewEidetic(o: Oracles, id: string, speaker: string, content: string, now: int): (m: Memory)
    ensures m.Eidetic? && m.id == id && m.depth == 0 && m.speaker == speaker && m.content == content
    ensures m.contentTokens == o.estimate(content) && m.summaryTokens == o.estimate(m.summary)
    ensures m.summary == o.cleanup(o.complete(SummaryPlan(o, speaker + ": " + content, 0, speaker, o.estimate(content))))
  {
    var contentTokens := o.estimate(content);
    var summary := Summarize(o, speaker + ": " + content, 0, speaker, contentTokens);
    Eidetic(id, "", speaker, content, contentTokens, summary, o.estimate(summary), now, 0)
  }

  /** `generate_episodic_memory`: the record summarising `memories` at `depth`. */
  function NewEpisodic(o: Oracles, id: string, memories: seq<Memory>, depth: int, now: int): (m: Memory)
    ensures m.Episodic? && m.id == id && m.depth == depth
    ensures m.lowerMemoryIds == Ids(memories) && m.summaryTokens == o.estimate(m.summary)
    ensures m.summary == o.cleanup(o.complete(SummaryPlan(o, Transcript(memories), depth, "", SummaryTokenSum(memories))))
  {
    var summary := Summarize(o, Transcript(memories), depth, "", SummaryTokenSum(memories));
    Episodic(id, "", Ids(memories), summary, o.estimate(summary), now, depth)
  }

  /**
   * The aggregation loop of `generate_episodic_memory`: the summaries
   * joined line by line, their token total, and the ids in order.
   */
  method AggregateMemories(memories: seq<Memory>) returns (content: string, contentTokens: int, memoryIds: seq<string>)
    ensures content == Transcript(memories)
    ensures contentTokens == SummaryTokenSum(memories)
    ensures memoryIds == Ids(memories)
  {
    content, contentTokens, memoryIds := "", 0, [];
    for i := 0 to |memories|
      invariant content == Transcript(memories[..i])
      invariant contentTokens == SummaryTokenSum(memories[..i])
      invariant memoryIds == Ids(memories[..i])
    {
      assert memories[..i + 1][..i] == memories[..i];
      content := content + memories[i].summary + "\n";
      contentTokens := contentTokens + memories[i].summaryTokens;
      memoryIds := memoryIds + [memories[i].id];
    }
    assert memories[..|memories|] == memories;
  }

  // ---------------------------------------------------------------------
  // The state of one cache and the four operations on it.

  datatype CacheState = CacheState(
    id: string, depth: int, cacheTokenLimit: int, maxTokens: int, tokenCount: int,
    memories: seq<Memory>, currentMemoryIds: seq<string>, previousMemoryIds: seq<string>)

  /** `has_memory_space` */
  predicate HasSpace(c: CacheState, n: int) {
    c.tokenCount + n <= c.cacheTokenLimit
  }

  /** `add_memory`: no space check of its own. */
  function Add(c: CacheState, m: Memory, n: int): CacheState {
    c.(tokenCount := c.tokenCount + n, memories := c.memories + [m],
       currentMemoryIds := c.currentMemoryIds + [m.id])
  }

  /** `transfer_memory_ids` */
  function Transfer(c: CacheState): CacheState {
    c.(previousMemoryIds := c.currentMemoryIds, currentMemoryIds := [])
  }

  /** `flush_memory_cache`: the id lists are left alone. */
  function Flush(c: CacheState, newId: string): CacheState {
    c.(id := newId, memories := [], tokenCount := 0)
  }

  /**
   * The bookkeeping a cache keeps between operations: the current id list
   * is the ids of the memories, and the token count is their summary tokens.
   */
  predicate Accounted(c: CacheState) {
    c.currentMemoryIds == Ids(c.memories) && c.tokenCount == SummaryTokenSum(c.memories)
  }

  lemma AddAccounted(c: CacheState, m: Memory)
    requires Accounted(c)
    ensures Accounted(Add(c, m, m.summaryTokens))
  {
    var ms := c.memories + [m];
    assert ms[..|ms| - 1] == c.memories;
  }

  lemma FlushAccounted(c: CacheState, newId: string)
    requires c.currentMemoryIds == []
    ensures Accounted(Flush(c, newId))
  {
  }

  /** The JSON object produced by the `cache` property. */
  datatype CacheRecord = CacheRecord(
    id: string, depth: int, cacheTokenLimit: int, maxTokens: int, tokenCount: int,
    memories: seq<Memory>, currentMemoryIds: seq<string>, previousMemoryIds: seq<string>,
    timestamp: int)

  function ToRecord(c: CacheState, timestamp: int): (r: CacheRecord)
    ensures r.timestamp == timestamp && FromRecord(r) == c
  {
    CacheRecord(c.id, c.depth, c.cacheTokenLimit, c.maxTokens, c.tokenCount,
                c.memories, c.currentMemoryIds, c.previousMemoryIds, timestamp)
  }

  /** What `load_cache` restores from a record. */
  function FromRecord(r: CacheRecord): CacheState {
    CacheState(r.id, r.depth, r.cacheTokenLimit, r.maxTokens, r.tokenCount,
               r.memories, r.currentMemoryIds, r.previousMemoryIds)
  }

  /** `MemoryManager.MemoryCache` */
  class MemoryCache {
    var id: string
    var depth: int
    var cacheTokenLimit: int
    var maxTokens: int
    var tokenCount: int
    var memories: seq<Memory>
    var currentMemoryIds: seq<string>
    var previousMemoryIds: seq<string>

    function State(): CacheState
      reads this
    {
      CacheState(id, depth, cacheTokenLimit, maxTokens, tokenCount, memories, currentMemoryIds, previousMemoryIds)
    }

    constructor(depth: int, cacheTokenLimit: int, maxTokens: int, id: string)
      ensures State() == CacheState(id, depth, cacheTokenLimit, maxTokens, 0, [], [], [])
    {
      this.id := id;
      this.depth := depth;
      this.cacheTokenLimit := cacheTokenLimit;
      this.maxTokens := maxTokens;
      tokenCount := 0;
      memories := [];
      currentMemoryIds := [];
      previousMemoryIds := [];
    }

    /** The `memory_ids` property. */
    function MemoryIds(): (r: seq<string>)
      reads this
      ensures |r| == |memories| && forall i :: 0 <= i < |memories| ==> r[i] == memories[i].id
    {
      Ids(memories)
    }

    /** The `cache` property; the time stamp is supplied. */
    function Cache(timestamp: int): (r: CacheRecord)
      reads this
      ensures r.timestamp == timestamp && FromRecord(r) == State()
    {
      ToRecord(State(), timestamp)
    }

    method LoadCache(r: CacheRecord)
      modifies this
      ensures State() == FromRecord(r)
    {
      id := r.id;
      depth := r.depth;
      cacheTokenLimit := r.cacheTokenLimit;
      maxTokens := r.maxTokens;
      tokenCount := r.tokenCount;
      memories := r.memories;
      currentMemoryIds := r.currentMemoryIds;
      previousMemoryIds := r.previousMemoryIds;
    }

    method HasMemorySpace(n: int) returns (b: bool)
      ensures b <==> tokenCount + n <= cacheTokenLimit
      ensures b == HasSpace(State(), n)
    {
      b := tokenCount + n <= cacheTokenLimit;
    }

    method AddMemory(m: Memory, n: int)
      modifies this
      ensures State() == Add(old(State()), m, n)
    {
      tokenCount := tokenCount + n;
      memories := memories + [m];
      currentMemoryIds := currentMemoryIds + [m.id];
    }

    method TransferMemoryIds()
      modifies this
      ensures State() == Transfer(old(State()))
    {
      previousMemoryIds := currentMemoryIds;
      currentMemoryIds := [];
    }

    method FlushMemoryCache(newId: string)
      modifies this
      ensures State() == Flush(old(State()), newId)
    {
      memories := [];
      tokenCount := 0;
      id := newId;
    }
  }

  /** Serialising a cache and loading the record back restores its state. */
  lemma CacheRoundTrip(c: CacheState, timestamp: int)
    ensures FromRecord(ToRecord(c, timestamp)) == c
    ensures ToRecord(c, timestamp).timestamp == timestamp
  {
  }

  // ---------------------------------------------------------------------
  // The manager: all caches plus the number of ids drawn so far.

  datatype World = World(caches: seq<CacheState>, issued: nat)

  /** The outcome of `cache_memory`; `ok` is false when the cascade raised IndexError. */
  datatype Cached = Cached(world: World, ok: bool)

  /** The outcome of `compress_memory_cache`, with the new depth d + 1 memory. */
  datatype Compressed = Compressed(world: World, episodic: Memory, ok: bool)

  /** The outcome of `create_new_memory`, with the depth-1 memory made on overflow. */
  datatype Created = Created(world: World, ok: bool, memory: Memory, episodic: Option<Memory>)

  function UpdateAt(w: World, d: nat, c: CacheState): (r: World)
    requires d < |w.caches|
    ensures |r.caches| == |w.caches| && r.caches[d] == c && r.issued == w.issued
  {
    w.(caches := w.caches[d := c])
  }

  function AddAt(w: World, d: nat, m: Memory, n: int): (r: World)
    requires d < |w.caches|
    ensures |r.caches| == |w.caches| && r.caches[d] == Add(w.caches[d], m, n) && r.issued == w.issued
  {
    UpdateAt(w, d, Add(w.caches[d], m, n))
  }

  function TransferAt(w: World, d: nat): (r: World)
    requires d < |w.caches|
    ensures |r.caches| == |w.caches| && r.caches[d] == Transfer(w.caches[d]) && r.issued == w.issued
  {
    UpdateAt(w, d, Transfer(w.caches[d]))
  }

  /** Flushes cache `d` under the next fresh id. */
  function FlushAt(o: Oracles, w: World, d: nat): (r: World)
    requires d < |w.caches|
    ensures |r.caches| == |w.caches| && r.caches[d] == Flush(w.caches[d], o.uuid(w.issued))
    ensures r.issued == w.issued + 1
  {
    UpdateAt(w, d, Flush(w.caches[d], o.uuid(w.issued))).(issued := w.issued + 1)
  }

  /** The depth d + 1 memory a compression of cache `d` builds. */
  function Episode(o: Oracles, w: World, d: nat, now: int): Memory
    requires d < |w.caches|
  {
    NewEpisodic(o, o.uuid(w.issued), w.caches[d].memories, d + 1, now)
  }

  /** The world once cache `d` has transferred its ids and the new memory has drawn its id. */
  function Prepared(w: World, d: nat): (r: World)
    requires d < |w.caches|
    ensures |r.caches| == |w.caches| && r.caches[d] == Transfer(w.caches[d]) && r.issued == w.issued + 1
  {
    TransferAt(w, d).(issued := w.issued + 1)
  }

  /**
   * `cache_memory(memory, tokens, d)`: add when it fits, otherwise compress
   * cache `d`, flush it and add to the emptied cache.
   */
  function CacheSpec(o: Oracles, w: World, m: Memory, n: int, d: nat, now: int): (r: Cached)
    ensures |r.world.caches| == |w.caches|
    decreases |w.caches| - d, 1
  {
    if d >= |w.caches| then Cached(w, false)
    else if HasSpace(w.caches[d], n) then Cached(AddAt(w, d, m, n), true)
    else
      var c := CompressSpec(o, w, d, now);
      if !c.ok then Cached(c.world, false)
      else Cached(AddAt(FlushAt(o, c.world, d), d, m, n), true)
  }

  /**
   * `compress_memory_cache(d)`: summarise cache `d` into a depth d + 1
   * memory, cache that memory one level up, then flush cache `d`.
   */
  function CompressSpec(o: Oracles, w: World, d: nat, now: int): (r: Compressed)
    requires d < |w.caches|
    ensures |r.world.caches| == |w.caches| && r.episodic == Episode(o, w, d, now)
    decreases |w.caches| - d, 0
  {
    var ep := Episode(o, w, d, now);
    var up := CacheSpec(o, Prepared(w, d), ep, ep.summaryTokens, d + 1, now);
    if !up.ok then Compressed(up.world, ep, false)
    else Compressed(FlushAt(o, up.world, d), ep, true)
  }

  /**
   * `create_new_memory(speaker, content)`: the eidetic memory is built
   * (drawing one id) and cached at depth 0, reporting the depth-1 memory
   * made when depth 0 overflowed.
   */
  function CreateSpec(o: Oracles, w: World, speaker: string, content: string, now: int): (r: Created)
    ensures |r.world.caches| == |w.caches|
    ensures r.memory == NewEidetic(o, o.uuid(w.issued), speaker, content, now)
  {
    var m := NewEidetic(o, o.uuid(w.issued), speaker, content, now);
    var w1 := w.(issued := w.issued + 1);
    if |w1.caches| == 0 then Created(w1, false, m, None)
    else if HasSpace(w1.caches[0], m.summaryTokens) then Created(AddAt(w1, 0, m, m.summaryTokens), true, m, None)
    else
      var c := CompressSpec(o, w1, 0, now);
      if !c.ok then Created(c.world, false, m, Some(c.episodic))
      else Created(AddAt(FlushAt(o, c.world, 0), 0, m, m.summaryTokens), true, m, Some(c.episodic))
  }

  /**
   * `create_new_memory` caches its memory exactly as `cache_memory` at
   * depth 0 would, and reports a depth-1 memory exactly when depth 0 was full.
   */
  lemma CreateIsCacheAtDepthZero(o: Oracles, w: World, speaker: string, content: string, now: int)
    ensures var r := CreateSpec(o, w, speaker, content, now);
            var c := CacheSpec(o, w.(issued := w.issued + 1), r.memory, r.memory.summaryTokens, 0, now);
            && r.world == c.world && r.ok == c.ok
            && (r.episodic.Some? <==> |w.caches| > 0 && !HasSpace(w.caches[0], r.memory.summaryTokens))
  {
  }

  /** Caching at depth `d` never touches the caches below `d`. */
  lemma {:induction false} CacheKeepsLower(o: Oracles, w: World, m: Memory, n: int, d: nat, now: int)
    ensures forall i :: 0 <= i < d && i < |w.caches| ==> CacheSpec(o, w, m, n, d, now).world.caches[i] == w.caches[i]
    decreases |w.caches| - d, 1
  {
    if d < |w.caches| && !HasSpace(w.caches[d], n) {
      CompressKeepsLower(o, w, d, now);
    }
  }

  /** Compressing depth `d` never touches the caches below `d`. */
  lemma {:induction false} CompressKeepsLower(o: Oracles, w: World, d: nat, now: int)
    requires d < |w.caches|
    ensures forall i :: 0 <= i < d ==> CompressSpec(o, w, d, now).world.caches[i] == w.caches[i]
    decreases |w.caches| - d, 0
  {
    var ep := Episode(o, w, d, now);
    var p := Prepared(w, d);
    var up := CacheSpec(o, p, ep, ep.summaryTokens, d + 1, now);
    CacheKeepsLower(o, p, ep, ep.summaryTokens, d + 1, now);
    var r := CompressSpec(o, w, d, now);
    assert r.world == if up.ok then FlushAt(o, up.world, d) else up.world;
    forall i | 0 <= i < d ensures r.world.caches[i] == w.caches[i] {
      assert up.world.caches[i] == p.caches[i];
    }
  }

  /**
   * The effect of a compression of cache `d`: the new memory lists the
   * pre-flush ids of depth `d` in order and depth `d` keeps its former
   * current ids as the previous ones; on success depth `d` is empty and the
   * new memory is the last memory of depth d + 1.
   */
  lemma CompressEffect(o: Oracles, w: World, d: nat, now: int)
    requires d < |w.caches|
    ensures var r := CompressSpec(o, w, d, now);
            && r.episodic.Episodic? && r.episodic.depth == d + 1
            && r.episodic.lowerMemoryIds == Ids(w.caches[d].memories)
            && r.world.caches[d].previousMemoryIds == w.caches[d].currentMemoryIds
            && r.world.caches[d].currentMemoryIds == []
    ensures var r := CompressSpec(o, w, d, now);
            r.ok ==> && d + 1 < |w.caches|
                     && r.world.caches[d].memories == [] && r.world.caches[d].tokenCount == 0
                     && r.world.caches[d + 1].memories != []
                     && Last(r.world.caches[d + 1].memories) == r.episodic
  {
    var ep := Episode(o, w, d, now);
    CacheKeepsLower(o, Prepared(w, d), ep, ep.summaryTokens, d + 1, now);
    CacheLast(o, Prepared(w, d), ep, ep.summaryTokens, d + 1, now);
  }

  function Last(ms: seq<Memory>): Memory
    requires ms != []
  {
    ms[|ms| - 1]
  }

  /** A `cache_memory` that ends normally leaves `m` as the last memory at depth `d`. */
  lemma CacheLast(o: Oracles, w: World, m: Memory, n: int, d: nat, now: int)
    ensures var r := CacheSpec(o, w, m, n, d, now);
            r.ok ==> d < |w.caches| && r.world.caches[d].memories != [] && Last(r.world.caches[d].memories) == m
  {
  }

  /** When `m` fits, it is simply appended to cache `d`. */
  lemma CacheFits(o: Oracles, w: World, m: Memory, n: int, d: nat, now: int)
    requires d < |w.caches| && HasSpace(w.caches[d], n)
    ensures var r := CacheSpec(o, w, m, n, d, now);
            && r.ok && r.world.caches[d].memories == w.caches[d].memories + [m]
            && r.world.caches[d].tokenCount == w.caches[d].tokenCount + n
            && r.world.caches[d].tokenCount <= w.caches[d].cacheTokenLimit
  {
  }

  /**
   * When `m` does not fit and the cascade ends normally, cache `d` holds
   * `m` alone with `n` tokens and remembers its former ids as the previous ones.
   */
  lemma CacheOverflows(o: Oracles, w: World, m: Memory, n: int, d: nat, now: int)
    requires d < |w.caches| && !HasSpace(w.caches[d], n)
    ensures var r := CacheSpec(o, w, m, n, d, now);
            r.ok ==> && r.world.caches[d].memories == [m] && r.world.caches[d].tokenCount == n
                     && r.world.caches[d].currentMemoryIds == [m.id]
                     && r.world.caches[d].previousMemoryIds == w.caches[d].currentMemoryIds
  {
    CompressEffect(o, w, d, now);
  }

  /** Every cache from depth `k` on is accounted. */
  predicate AccountedFrom(w: World, k: nat) {
    forall i :: k <= i < |w.caches| ==> Accounted(w.caches[i])
  }

  /**
   * A cascade that ends normally keeps the caches accounted, given that each
   * memory is added with its own summary token count, as both callers of
   * `cache_memory` do.
   */
  lemma {:induction false} CacheKeepsAccounted(o: Oracles, w: World, m: Memory, d: nat, now: int)
    requires AccountedFrom(w, d)
    ensures var r := CacheSpec(o, w, m, m.summaryTokens, d, now);
            r.ok ==> AccountedFrom(r.world, d)
    decreases |w.caches| - d, 1
  {
    var n := m.summaryTokens;
    if d < |w.caches| {
      if HasSpace(w.caches[d], n) {
        AddAccounted(w.caches[d], m);
        UpdateAccounted(w, d, Add(w.caches[d], m, n));
      } else {
        var c := CompressSpec(o, w, d, now);
        if c.ok {
          CompressKeepsAccounted(o, w, d, now);
          var f := FlushAt(o, c.world, d);
          UpdateAccounted(c.world, d, f.caches[d]);
          AddAccounted(f.caches[d], m);
          UpdateAccounted(f, d, Add(f.caches[d], m, n));
        }
      }
    }
  }

  /** Replacing cache `d` by an accounted cache keeps the caches from `d` on accounted. */
  lemma UpdateAccounted(w: World, d: nat, c: CacheState)
    requires d < |w.caches| && AccountedFrom(w, d + 1) && Accounted(c)
    ensures AccountedFrom(UpdateAt(w, d, c), d)
  {
  }

  lemma {:induction false} CompressKeepsAccounted(o: Oracles, w: World, d: nat, now: int)
    requires d < |w.caches| && AccountedFrom(w, d + 1)
    ensures var r := CompressSpec(o, w, d, now);
            r.ok ==> AccountedFrom(r.world, d)
    decreases |w.caches| - d, 0
  {
    var ep := Episode(o, w, d, now);
    var p := Prepared(w, d);
    var up := CacheSpec(o, p, ep, ep.summaryTokens, d + 1, now);
    if up.ok {
      CacheKeepsAccounted(o, p, ep, d + 1, now);
      CacheKeepsLower(o, p, ep, ep.summaryTokens, d + 1, now);
      FlushAccounted(up.world.caches[d], o.uuid(up.world.issued));
    }
  }

  /** So a normal `cache_memory` keeps every cache of an accounted manager accounted. */
  lemma CacheKeepsAllAccounted(o: Oracles, w: World, m: Memory, d: nat, now: int)
    requires AccountedFrom(w, 0)
    ensures var r := CacheSpec(o, w, m, m.summaryTokens, d, now);
            r.ok ==> AccountedFrom(r.world, 0)
  {
    CacheKeepsAccounted(o, w, m, d, now);
    CacheKeepsLower(o, w, m, m.summaryTokens, d, now);
  }

  /**
   * The overflow example: with a limit of 100, four 25-token memories fill
   * an empty depth-0 cache exactly; the fifth overflows it, so the four are
   * summarised into one depth-1 memory listing their ids, and depth 0 then
   * holds the fifth memory alone.
   */
  lemma FiveMemoryScenario(o: Oracles, w: World, ms: seq<Memory>, now: int)
    requires |w.caches| == 3 && |ms| == 5
    requires forall i :: 0 <= i < 3 ==> w.caches[i].cacheTokenLimit == 100
    requires w.caches[0].memories == [] && w.caches[0].currentMemoryIds == [] && w.caches[0].tokenCount == 0
    requires w.caches[1].tokenCount == 0
    requires forall i :: 0 <= i < 5 ==> ms[i].summaryTokens == 25
    requires forall s :: o.estimate(s) <= 100
    ensures var r1 := CacheSpec(o, w, ms[0], 25, 0, now);
            var r2 := CacheSpec(o, r1.world, ms[1], 25, 0, now);
            var r3 := CacheSpec(o, r2.world, ms[2], 25, 0, now);
            var r4 := CacheSpec(o, r3.world, ms[3], 25, 0, now);
            var r5 := CacheSpec(o, r4.world, ms[4], 25, 0, now);
            && r4.world.caches[0].memories == ms[..4] && r4.world.caches[0].tokenCount == 100
            && r5.ok && r5.world.caches[0].memories == [ms[4]] && r5.world.caches[0].tokenCount == 25
            && r5.world.caches[0].previousMemoryIds == Ids(ms[..4])
            && r5.world.caches[1].memories != []
            && Last(r5.world.caches[1].memories).Episodic?
            && Last(r5.world.caches[1].memories).lowerMemoryIds == Ids(ms[..4])
  {
    var r1 := CacheSpec(o, w, ms[0], 25, 0, now);
    CacheFits(o, w, ms[0], 25, 0, now);
    var r2 := CacheSpec(o, r1.world, ms[1], 25, 0, now);
    CacheFits(o, r1.world, ms[1], 25, 0, now);
    var r3 := CacheSpec(o, r2.world, ms[2], 25, 0, now);
    CacheFits(o, r2.world, ms[2], 25, 0, now);
    var r4 := CacheSpec(o, r3.world, ms[3], 25, 0, now);
    CacheFits(o, r3.world, ms[3], 25, 0, now);
    assert r4.world.caches[0].memories == ms[..4];
    assert r4.world.caches[0].currentMemoryIds == Ids(ms[..4]);
    // The caches above depth 0 are untouched by the four fitting adds.
    assert r4.world.caches[1] == w.caches[1];
    var ep := Episode(o, r4.world, 0, now);
    var p := Prepared(r4.world, 0);
    assert HasSpace(p.caches[1], ep.summaryTokens);
    CacheFits(o, p, ep, ep.summaryTokens, 1, now);
    CompressEffect(o, r4.world, 0, now);
    CacheOverflows(o, r4.world, ms[4], 25, 0, now);
  }

  /** `get_cache_memory_count` as written: the guard `depth > len` lets `depth == len` through. */
  datatype Lookup = Found(count: int) | IndexError

  function CacheMemoryCountAsWritten(w: World, depth: int): (r: Lookup)
    ensures depth > |w.caches| ==> r == Found(-1)
    ensures 0 <= depth < |w.caches| ==> r == Found(|w.caches[depth].memories|)
    ensures depth == |w.caches| ==> r == IndexError
  {
    if depth > |w.caches| then Found(-1)
    else if 0 <= depth < |w.caches| then Found(|w.caches[depth].memories|)
    // Python's negative indexing counts from the end.
    else if -|w.caches| <= depth < 0 then Found(|w.caches[|w.caches| + depth].memories|)
    else IndexError
  }

  /** `get_cache_memory_count` as intended: -1 exactly when there is no cache at `depth`. */
  function CacheMemoryCount(w: World, depth: int): (r: int)
    ensures r == -1 <==> !(0 <= depth < |w.caches|)
    ensures 0 <= depth < |w.caches| ==> r == |w.caches[depth].memories|
  {
    if 0 <= depth < |w.caches| then |w.caches[depth].memories| else -1
  }

  /** The two agree wherever the written guard is right. */
  lemma CountAgrees(w: World, depth: int)
    requires 0 <= depth < |w.caches| || depth > |w.caches|
    ensures CacheMemoryCountAsWritten(w, depth) == Found(CacheMemoryCount(w, depth))
  {
  }

  /** The caches `create_state` builds: empty caches for depths 0 .. count - 1, ids drawn in order. */
  function InitialCaches(o: Oracles, limit: int, first: nat, count: nat): (r: seq<CacheState>)
    ensures |r| == count
    ensures forall i :: 0 <= i < count ==>
              r[i] == CacheState(o.uuid(first + i), i, limit, o.maxTokens, 0, [], [], [])
  {
    seq(count, i requires 0 <= i < count => CacheState(o.uuid(first + i), i, limit, o.maxTokens, 0, [], [], []))
  }

  class MemoryManager {
    const oracles: Oracles
    const cacheTokenLimit: int
    const maxEpisodicDepth: nat
    var caches: seq<MemoryCache>
    var issued: nat

    ghost predicate Valid()
      reads this`caches
    {
      forall i, j :: 0 <= i < j < |caches| ==> caches[i] != caches[j]
    }

    function Snapshot(): World
      reads this, caches
    {
      World(seq(|caches|, i requires 0 <= i < |caches| reads this, caches => caches[i].State()), issued)
    }

    /**
     * A manager with no saved state: `create_state` runs at once. Every
     * completion is passed through `cleanup_response`.
     */
    constructor(uuid: nat -> string, complete: SummaryRequest -> string, estimate: string -> nat,
                promptTokens: PromptName -> int, maxTokens: int, cacheTokenLimit: int)
      ensures oracles == Oracles(uuid, complete, CleanupResponse, estimate, promptTokens, maxTokens)
      ensures Valid() && fresh(caches) && maxEpisodicDepth == 2
      ensures Snapshot() == World(InitialCaches(oracles, cacheTokenLimit, 0, 3), 3)
    {
      oracles := Oracles(uuid, complete, CleanupResponse, estimate, promptTokens, maxTokens);
      this.cacheTokenLimit := cacheTokenLimit;
      maxEpisodicDepth := 2;
      caches := [];
      issued := 0;
      new;
      CreateState();
    }

    method NewUuid() returns (id: string)
      modifies this`issued
      ensures id == oracles.uuid(old(issued)) && issued == old(issued) + 1
    {
      id := oracles.uuid(issued);
      issued := issued + 1;
    }

    /** `create_state`: one empty cache per depth 0 .. maxEpisodicDepth, in depth order. */
    method CreateState()
      requires caches == []
      modifies this
      ensures Valid() && fresh(caches)
      ensures Snapshot() == World(InitialCaches(oracles, cacheTokenLimit, old(issued), maxEpisodicDepth + 1),
                                  old(issued) + maxEpisodicDepth + 1)
    {
      var i: nat := 0;
      while i < maxEpisodicDepth + 1
        invariant i <= maxEpisodicDepth + 1 && |caches| == i && issued == old(issued) + i
        invariant Valid() && fresh(caches)
        invariant Snapshot().caches == InitialCaches(oracles, cacheTokenLimit, old(issued), i)
      {
        ghost var before := Snapshot().caches;
        var id := NewUuid();
        var c := new MemoryCache(i, cacheTokenLimit, oracles.maxTokens, id);
        caches := caches + [c];
        assert Snapshot().caches == before + [c.State()];
        i := i + 1;
      }
    }

    method AddToCache(d: nat, m: Memory, n: int)
      requires Valid() && d < |caches|
      modifies caches[d]
      ensures Snapshot() == AddAt(old(Snapshot()), d, m, n)
    {
      caches[d].AddMemory(m, n);
      assert Snapshot().caches == AddAt(old(Snapshot()), d, m, n).caches;
    }

    method TransferCache(d: nat)
      requires Valid() && d < |caches|
      modifies caches[d]
      ensures Snapshot() == TransferAt(old(Snapshot()), d)
    {
      caches[d].TransferMemoryIds();
      assert Snapshot().caches == TransferAt(old(Snapshot()), d).caches;
    }

    method FlushCache(d: nat)
      requires Valid() && d < |caches|
      modifies this`issued, caches[d]
      ensures Snapshot() == FlushAt(oracles, old(Snapshot()), d)
    {
      var id := NewUuid();
      caches[d].FlushMemoryCache(id);
      assert Snapshot().caches == FlushAt(oracles, old(Snapshot()), d).caches;
    }

    /** `cache_memory`, proved against `CacheSpec`. */
    method CacheMemory(m: Memory, n: int, d: nat, now: int) returns (ok: bool)
      requires Valid()
      modifies this`issued, caches
      ensures Cached(Snapshot(), ok) == CacheSpec(oracles, old(Snapshot()), m, n, d, now)
      decreases |caches| - d, 1
    {
      if d >= |caches| {
        return false;
      }
      var space := caches[d].HasMemorySpace(n);
      if space {
        AddToCache(d, m, n);
        ok := true;
      } else {
        var ep, epTokens;
        ok, ep, epTokens := CompressMemoryCache(d, now);
        if ok {
          FlushCache(d);
          AddToCache(d, m, n);
        }
      }
    }

    /** `compress_memory_cache`, proved against `CompressSpec`. */
    method CompressMemoryCache(d: nat, now: int) returns (ok: bool, ep: Memory, epTokens: int)
      requires Valid() && d < |caches|
      modifies this`issued, caches
      ensures Compressed(Snapshot(), ep, ok) == CompressSpec(oracles, old(Snapshot()), d, now)
      ensures epTokens == ep.summaryTokens
      decreases |caches| - d, 0
    {
      var memories := caches[d].memories;
      TransferCache(d);
      ep, epTokens := GenerateEpisodicMemory(memories, d + 1, now);
      assert Snapshot() == Prepared(old(Snapshot()), d);
      ok := CacheMemory(ep, epTokens, d + 1, now);
      if ok {
        FlushCache(d);
      }
    }

    /** `generate_episodic_memory`: draws one id and aggregates `memories`. */
    method GenerateEpisodicMemory(memories: seq<Memory>, depth: int, now: int) returns (ep: Memory, tokens: int)
      modifies this`issued
      ensures ep == NewEpisodic(oracles, oracles.uuid(old(issued)), memories, depth, now)
      ensures tokens == ep.summaryTokens && issued == old(issued) + 1
    {
      var id := NewUuid();
      var content, contentTokens, memoryIds := AggregateMemories(memories);
      var summary := Summarize(oracles, content, depth, "", contentTokens);
      tokens := oracles.estimate(summary);
      ep := Episodic(id, "", memoryIds, summary, tokens, now, depth);
    }

    /** `create_new_memory`, proved against `CreateSpec`. */
    method CreateNewMemory(speaker: string, content: string, now: int)
      returns (ok: bool, memory: Memory, tokens: int, episodic: Option<Memory>)
      requires Valid()
      modifies this`issued, caches
      ensures Created(Snapshot(), ok, memory, episodic) == CreateSpec(oracles, old(Snapshot()), speaker, content, now)
      ensures tokens == memory.summaryTokens
    {
      var id := NewUuid();
      assert Snapshot() == old(Snapshot()).(issued := old(issued) + 1);
      memory := NewEidetic(oracles, id, speaker, content, now);
      tokens := memory.summaryTokens;
      episodic := None;
      if |caches| == 0 {
        return false, memory, tokens, episodic;
      }
      var space := caches[0].HasMemorySpace(tokens);
      if space {
        AddToCache(0, memory, tokens);
        ok := true;
      } else {
        var ep, epTokens;
        ok, ep, epTokens := CompressMemoryCache(0, now);
        episodic := Some(ep);
        if ok {
          FlushCache(0);
          AddToCache(0, memory, tokens);
        }
      }
    }

    /**
     * `get_cache_memory_count` as written: the `>` guard lets the depth one
     * past the last cache through to an `IndexError`.
     */
    function GetCacheMemoryCountAsWritten(depth: int): (r: Lookup)
      reads this, caches
      ensures r == CacheMemoryCountAsWritten(Snapshot(), depth)
    {
      if depth > |caches| then Found(-1)
      else if 0 <= depth < |caches| then Found(|caches[depth].memories|)
      else if -|caches| <= depth < 0 then Found(|caches[|caches| + depth].memories|)
      else IndexError
    }

    /** `get_cache_memory_count` with the guard its -1 result evidently intends. */
    function GetCacheMemoryCount(depth: int): (r: int)
      reads this, caches
      ensures r == CacheMemoryCount(Snapshot(), depth)
    {
      if 0 <= depth < |caches| then |caches[depth].memories| else -1
    }
  }
}
