/**
 * The memory summariser of raven.py: recalled records put back in
 * chronological order (`load_conversation`), the one-line rendering of a
 * memory (`format_summary_memory`) and the token-budget chunker
 * (`chunk_memories`), which cuts a list of memories into chunks that each
 * fit the model's input once the response space is set aside, and groups
 * the chunks into blocks.
 */
module Raven {
  import opened Text
  import opened Sorting
  import DraftMemory

  /** A recalled record (`nexus/<id>.json`): its time and its message. */
  datatype Recalled = Recalled(time: int, message: string)

  function TimeOf(r: Recalled): int {
    r.time
  }

  function Messages(rs: seq<Recalled>): seq<string> {
    seq(|rs|, i requires 0 <= i < |rs| => rs[i].message)
  }

  /** What `load_conversation` hands back: the text, and the records in recall order. */
  datatype Loaded = Loaded(conversation: string, recalled: seq<Recalled>)

  /**
   * `load_conversation`: the messages in ascending time (ties keep their
   * recall order), joined by newlines and stripped; the records themselves
   * come back in the order they were recalled.
   */
  function LoadConversation(recalled: seq<Recalled>): (r: Loaded)
    ensures r.recalled == recalled
    ensures r.conversation == [] || (!IsSpace(r.conversation[0]) && !IsSpace(r.conversation[|r.conversation| - 1]))
  {
    var text := Join(Messages(SortBy(recalled, TimeOf, false)), "\n");
    StripSpec(text);
    Loaded(Strip(text), recalled)
  }

  /**
   * The conversation is built from a chronological permutation of the
   * records, and records recalled in chronological order are used in that
   * order.
   */
  lemma LoadConversationOrder(recalled: seq<Recalled>)
    ensures exists ordered: seq<Recalled> ::
      && multiset(ordered) == multiset(recalled)
      && Sorted(ordered, TimeOf, false)
      && LoadConversation(recalled).conversation == Strip(Join(Messages(ordered), "\n"))
    ensures Sorted(recalled, TimeOf, false) ==>
      LoadConversation(recalled).conversation == Strip(Join(Messages(recalled), "\n"))
  {
    var ordered := SortBy(recalled, TimeOf, false);
    assert LoadConversation(recalled).conversation == Strip(Join(Messages(ordered), "\n"));
    if Sorted(recalled, TimeOf, false) {
      SortBySorted(recalled, TimeOf, false);
    }
  }

  /** A memory as the summariser sees it. */
  datatype SummaryMemory = SummaryMemory(speaker: string, timestring: string, message: string)

  /** `format_summary_memory`: `"speaker: timestring - message"`. */
  function FormatSummaryMemory(m: SummaryMemory): (r: string)
    ensures StartsWith(r, m.speaker + ": " + m.timestring + " - ") && EndsWith(r, m.message)
    ensures |r| == |m.speaker| + |m.timestring| + |m.message| + 5
  {
    DraftMemory.SpeakerLine(m.speaker, m.timestring, m.message)
  }

  /** `math.ceil(n / d)` for a positive `d`. */
  function CeilDiv(n: nat, d: nat): nat
    requires d > 0
  {
    (n + d - 1) / d
  }

  /** The rounded-up quotient is the least multiple of `d` that reaches `n`. */
  lemma CeilDivSpec(n: nat, d: nat)
    requires d > 0
    ensures n <= CeilDiv(n, d) * d < n + d
  {
    var q := (n + d - 1) / d;
    assert q * d + (n + d - 1) % d == n + d - 1;
  }

  /** The estimated tokens of one memory: its formatted length over the characters per token, rounded up. */
  function MessageTokens(m: SummaryMemory, tokenPerCharacter: nat): nat
    requires tokenPerCharacter > 0
  {
    CeilDiv(|FormatSummaryMemory(m)|, tokenPerCharacter)
  }

  type Chunk = seq<SummaryMemory>
  type Chunks = seq<Chunk>
  type Blocks = seq<Chunks>

  /** The per-memory estimate `chunk_memories` uses, for `token_per_character` = `tpc`. */
  function Estimate(tpc: nat): SummaryMemory -> nat
    requires tpc > 0
  {
    m => MessageTokens(m, tpc)
  }

  /** The estimated tokens of a chunk. */
  function Total(c: Chunk, tokens: SummaryMemory -> nat): nat {
    if c == [] then 0 else Total(c[..|c| - 1], tokens) + tokens(c[|c| - 1])
  }

  /** The memories of the chunks, one after the other. */
  function Flatten(cs: Chunks): Chunk {
    if cs == [] then [] else Flatten(cs[..|cs| - 1]) + cs[|cs| - 1]
  }

  /**
   * The settings of one run: `max_token_input` and `token_per_character`
   * from the configuration, and the `token_response_limit` argument.
   */
  datatype Limits = Limits(maxTokenInput: int, tokenResponseLimit: nat, tokenPerCharacter: nat)

  /** How one pass of the `for` loop ends. */
  datatype Outcome =
    | Spin                 // the range was empty: nothing ends the pass, and the same pass repeats
    | BlockFull            // the first memory alone overflows: a new block is opened
    | ChunkFull(at: nat)   // the memory at `at` overflows a non-empty chunk, which is closed
    | EndOfInput           // the last scanned memory fits: chunking is over

  /**
   * One pass from `start` with the running `length` of the memories before
   * `i`; the pass scans the indices below `stop` (`memory_count`).
   */
  function Scan(ms: seq<SummaryMemory>, tokens: SummaryMemory -> nat, start: nat, i: nat, length: int, remaining: int, stop: int): (o: Outcome)
    requires start <= i && stop <= |ms|
    ensures o.BlockFull? ==> i == start < stop
    ensures o.ChunkFull? ==> start < o.at < stop && i <= o.at
    ensures o.EndOfInput? ==> start < stop
    ensures o.Spin? <==> i >= stop
    decreases |ms| - i
  {
    if i >= stop then Spin
    else
      var length' := length + tokens(ms[i]);
      if length' > remaining && i == start then BlockFull
      else if length' > remaining then ChunkFull(i)
      else if i == stop - 1 then EndOfInput
      else Scan(ms, tokens, start, i + 1, length', remaining, stop)
  }

  lemma TotalStep(ms: seq<SummaryMemory>, tokens: SummaryMemory -> nat, start: nat, i: nat)
    requires start <= i < |ms|
    ensures Total(ms[start..i + 1], tokens) == Total(ms[start..i], tokens) + tokens(ms[i])
  {
    assert ms[start..i + 1][..i - start] == ms[start..i];
  }

  /**
   * What a pass finds: a memory that alone exceeds the budget, a chunk that
   * fits while one more memory would not, or a last chunk that fits.
   */
  lemma {:induction false} ScanSpec(ms: seq<SummaryMemory>, tokens: SummaryMemory -> nat, start: nat, i: nat, length: int, remaining: int, stop: int)
    requires start <= i <= |ms| && stop <= |ms|
    requires length == Total(ms[start..i], tokens)
    requires i == start || length <= remaining
    ensures var o := Scan(ms, tokens, start, i, length, remaining, stop);
      && (o.BlockFull? ==> tokens(ms[start]) > remaining)
      && (o.ChunkFull? ==> Total(ms[start..o.at], tokens) <= remaining < Total(ms[start..o.at + 1], tokens))
      && (o.EndOfInput? ==> Total(ms[start..stop], tokens) <= remaining)
    decreases |ms| - i
  {
    if i < stop {
      TotalStep(ms, tokens, start, i);
      if i == start {
        assert ms[start..i] == [];
      }
      var next := length + tokens(ms[i]);
      if next <= remaining && i != stop - 1 {
        ScanSpec(ms, tokens, start, i + 1, next, remaining, stop);
      }
    }
  }

  /**
   * The chunker's variables between passes: `blocks`, `chunks`,
   * `block_count` and `current_memory_index`. Every pass starts from the
   * budget of its block: when a pass closes a chunk it lowers
   * `remaining_chunk_tokens`, but it also ends the inner loop, and the
   * outer loop sets the budget afresh before the next pass reads it.
   */
  datatype Chunker = Chunker(blocks: Blocks, chunks: Chunks, blockCount: nat, current: nat)

  /** `remaining_chunk_tokens` at the start of block `blockCount`. */
  function BlockBudget(lim: Limits, blockCount: nat): int {
    lim.maxTokenInput - 2 * blockCount * lim.tokenResponseLimit
  }

  function Start(lim: Limits): Chunker {
    Chunker([], [], 0, 0)
  }

  /** What a pass leaves: the variables for the next pass, or the returned blocks. */
  datatype Step = Continue(next: Chunker) | Done(blocks: Blocks)

  /**
   * One pass of the `for` loop with the budget of the current block: a
   * memory that alone overflows opens a new block and is scanned again; a
   * closed chunk is kept and the next pass starts at the memory that
   * overflowed; the last memory ends both loops.
   */
  function Pass(ms: seq<SummaryMemory>, tokens: SummaryMemory -> nat, lim: Limits, stop: int, st: Chunker): (r: Step)
    requires stop <= |ms| && st.current <= |ms|
    ensures r.Continue? ==> r.next.current <= |ms|
  {
    match Scan(ms, tokens, st.current, st.current, 0, BlockBudget(lim, st.blockCount), stop)
    case Spin => Continue(st)
    case BlockFull => Continue(Chunker(st.blocks + [st.chunks], st.chunks, st.blockCount + 1, st.current))
    case ChunkFull(at) => Continue(Chunker(st.blocks, st.chunks + [ms[st.current..at]], st.blockCount, at))
    case EndOfInput =>
      Done(st.blocks + [st.chunks + [ms[st.current..stop]]])
  }

  /**
   * The chunker run for at most `fuel` passes; `None` when it has not
   * returned by then.
   */
  function Run(ms: seq<SummaryMemory>, tokens: SummaryMemory -> nat, lim: Limits, stop: int, fuel: nat, st: Chunker): Option<Blocks>
    requires stop <= |ms| && st.current <= |ms|
    decreases fuel
  {
    if fuel == 0 then None
    else
      match Pass(ms, tokens, lim, stop, st)
      case Done(blocks) => Some(blocks)
      case Continue(next) => Run(ms, tokens, lim, stop, fuel - 1, next)
  }

  lemma RunStep(ms: seq<SummaryMemory>, tokens: SummaryMemory -> nat, lim: Limits, stop: int, fuel: nat, st: Chunker)
    requires stop <= |ms| && st.current <= |ms| && fuel > 0
    ensures Run(ms, tokens, lim, stop, fuel, st) ==
      match Pass(ms, tokens, lim, stop, st)
      case Done(blocks) => Some(blocks)
      case Continue(next) => Run(ms, tokens, lim, stop, fuel - 1, next)
  {
  }

  /** `chunk_memories` as written: `memory_count` is `len(memories) - 1`. */
  function ChunkMemoriesAsWritten(ms: seq<SummaryMemory>, lim: Limits, fuel: nat): Option<Blocks>
    requires lim.tokenPerCharacter > 0
  {
    Run(ms, Estimate(lim.tokenPerCharacter), lim, |ms| - 1, fuel, Start(lim))
  }

  /** `chunk_memories` scanning every memory. */
  function ChunkAll(ms: seq<SummaryMemory>, lim: Limits, fuel: nat): Option<Blocks>
    requires lim.tokenPerCharacter > 0
  {
    Run(ms, Estimate(lim.tokenPerCharacter), lim, |ms|, fuel, Start(lim))
  }

  /** Every chunk is non-empty and its estimate is within the input limit. */
  predicate Fits(cs: Chunks, tokens: SummaryMemory -> nat, lim: Limits) {
    forall k :: 0 <= k < |cs| ==> cs[k] != [] && Total(cs[k], tokens) <= lim.maxTokenInput
  }

  /** What holds between passes. */
  predicate Inv(ms: seq<SummaryMemory>, tokens: SummaryMemory -> nat, lim: Limits, st: Chunker)
    requires st.current <= |ms|
  {
    && Flatten(st.chunks) == ms[..st.current]
    && |st.blocks| == st.blockCount
    && (forall b :: 0 <= b < |st.blocks| ==> st.blocks[b] <= st.chunks)
    && Fits(st.chunks, tokens, lim)
    && Later(st.blocks, st.chunks, tokens, lim)
  }

  /**
   * Every chunk made after block `b` was closed fits the budget of block
   * `b + 1`, the budget in force when it was made or a larger one.
   */
  predicate Later(blocks: Blocks, chunks: Chunks, tokens: SummaryMemory -> nat, lim: Limits) {
    forall b, k :: 0 <= b < |blocks| && |blocks[b]| <= k < |chunks| ==>
      Total(chunks[k], tokens) <= BlockBudget(lim, b + 1)
  }

  /**
   * A returned list of blocks: the last block's chunks hold the memories
   * below `stop` in order, every earlier block is a prefix of it (the
   * `chunks` list is never emptied), every chunk is non-empty and fits
   * the input limit, and a chunk made after block `b` was closed fits the
   * budget of block `b + 1`.
   */
  predicate Good(ms: seq<SummaryMemory>, tokens: SummaryMemory -> nat, lim: Limits, stop: int, blocks: Blocks) {
    && blocks != []
    && 0 < stop <= |ms|
    && var last := blocks[|blocks| - 1];
    && Flatten(last) == ms[..stop]
    && (forall b :: 0 <= b < |blocks| ==> blocks[b] <= last)
    && Fits(last, tokens, lim)
    && Later(blocks[..|blocks| - 1], last, tokens, lim)
  }

  lemma FlattenAppend(cs: Chunks, c: Chunk)
    ensures Flatten(cs + [c]) == Flatten(cs) + c
  {
    assert (cs + [c])[..|cs|] == cs;
  }

  /** A new chunk of memories `current..at` keeps the invariant. */
  lemma ChunkStep(ms: seq<SummaryMemory>, tokens: SummaryMemory -> nat, lim: Limits, st: Chunker, at: nat)
    requires st.current < at <= |ms|
    requires Inv(ms, tokens, lim, st)
    requires Total(ms[st.current..at], tokens) <= BlockBudget(lim, st.blockCount)
    ensures Inv(ms, tokens, lim, Chunker(st.blocks, st.chunks + [ms[st.current..at]], st.blockCount, at))
  {
    BudgetBound(lim, st.blockCount);
    var c := ms[st.current..at];
    FlattenAppend(st.chunks, c);
    assert ms[..st.current] + c == ms[..at];
    var chunks' := st.chunks + [c];
    forall b | 0 <= b < |st.blocks| ensures st.blocks[b] <= chunks' {
      assert st.blocks[b] <= st.chunks;
    }
    forall b, k | 0 <= b < |st.blocks| && |st.blocks[b]| <= k < |chunks'|
      ensures Total(chunks'[k], tokens) <= BlockBudget(lim, b + 1)
    {
      if k == |st.chunks| {
        BudgetFalls(lim, b + 1, st.blockCount);
      } else {
        assert chunks'[k] == st.chunks[k];
      }
    }
  }

  /** Budgets fall from block to block. */
  lemma BudgetFalls(lim: Limits, b: nat, c: nat)
    requires b <= c
    ensures BlockBudget(lim, c) <= BlockBudget(lim, b)
  {
    assert c * lim.tokenResponseLimit == b * lim.tokenResponseLimit + (c - b) * lim.tokenResponseLimit;
  }

  /** Opening a new block keeps the invariant. */
  lemma BlockStep(ms: seq<SummaryMemory>, tokens: SummaryMemory -> nat, lim: Limits, st: Chunker)
    requires st.current <= |ms|
    requires Inv(ms, tokens, lim, st)
    ensures Inv(ms, tokens, lim, Chunker(st.blocks + [st.chunks], st.chunks, st.blockCount + 1, st.current))
  {
    var blocks' := st.blocks + [st.chunks];
    forall b, k | 0 <= b < |blocks'| && |blocks'[b]| <= k < |st.chunks|
      ensures Total(st.chunks[k], tokens) <= BlockBudget(lim, b + 1)
    {
      assert b < |st.blocks| && blocks'[b] == st.blocks[b];
    }
  }

  /** Each block's budget is at most the one before it, and the first is the whole input limit. */
  lemma BudgetBound(lim: Limits, blockCount: nat)
    ensures BlockBudget(lim, blockCount + 1) <= BlockBudget(lim, blockCount) <= BlockBudget(lim, 0) == lim.maxTokenInput
  {
    assert blockCount * lim.tokenResponseLimit >= 0;
  }

  /** The last chunk completes a `Good` list of blocks. */
  lemma EndStep(ms: seq<SummaryMemory>, tokens: SummaryMemory -> nat, lim: Limits, stop: int, st: Chunker)
    requires st.current < stop <= |ms|
    requires Inv(ms, tokens, lim, st)
    requires Total(ms[st.current..stop], tokens) <= BlockBudget(lim, st.blockCount)
    ensures Good(ms, tokens, lim, stop, st.blocks + [st.chunks + [ms[st.current..stop]]])
  {
    ChunkStep(ms, tokens, lim, st, stop);
    var blocks := st.blocks + [st.chunks + [ms[st.current..stop]]];
    var last := blocks[|blocks| - 1];
    forall b | 0 <= b < |blocks| ensures blocks[b] <= last {
      if b < |st.blocks| {
        assert st.blocks[b] <= st.chunks;
      }
    }
    assert blocks[..|blocks| - 1] == st.blocks;
  }

  /** A pass keeps the invariant, and what it returns is `Good`. */
  lemma PassSpec(ms: seq<SummaryMemory>, tokens: SummaryMemory -> nat, lim: Limits, stop: int, st: Chunker)
    requires stop <= |ms| && st.current <= |ms|
    requires Inv(ms, tokens, lim, st)
    ensures match Pass(ms, tokens, lim, stop, st)
      case Continue(next) => Inv(ms, tokens, lim, next)
      case Done(blocks) => Good(ms, tokens, lim, stop, blocks)
  {
    assert ms[st.current..st.current] == [];
    ScanSpec(ms, tokens, st.current, st.current, 0, BlockBudget(lim, st.blockCount), stop);
    match Scan(ms, tokens, st.current, st.current, 0, BlockBudget(lim, st.blockCount), stop)
    case Spin =>
    case BlockFull => BlockStep(ms, tokens, lim, st);
    case ChunkFull(at) => ChunkStep(ms, tokens, lim, st, at);
    case EndOfInput => EndStep(ms, tokens, lim, stop, st);
  }

  /** Every run that returns gives a `Good` list of blocks. */
  lemma {:induction false} RunSpec(ms: seq<SummaryMemory>, tokens: SummaryMemory -> nat, lim: Limits, stop: int, fuel: nat, st: Chunker)
    requires stop <= |ms| && st.current <= |ms|
    requires Inv(ms, tokens, lim, st)
    ensures var r := Run(ms, tokens, lim, stop, fuel, st);
      r.Some? ==> Good(ms, tokens, lim, stop, r.value)
    decreases fuel
  {
    if fuel > 0 {
      PassSpec(ms, tokens, lim, stop, st);
      match Pass(ms, tokens, lim, stop, st)
      case Done(_) =>
      case Continue(next) => RunSpec(ms, tokens, lim, stop, fuel - 1, next);
    }
  }

  /**
   * As written, the last memory is never chunked: whatever returns holds
   * every memory but the last, and a single memory never returns.
   */
  lemma LastMemoryNeverChunked(ms: seq<SummaryMemory>, lim: Limits, fuel: nat)
    requires lim.tokenPerCharacter > 0
    ensures var r := ChunkMemoriesAsWritten(ms, lim, fuel);
      r.Some? ==> r.value != [] && |ms| >= 2 && Flatten(r.value[|r.value| - 1]) == ms[..|ms| - 1]
  {
    assert Inv(ms, Estimate(lim.tokenPerCharacter), lim, Start(lim));
    RunSpec(ms, Estimate(lim.tokenPerCharacter), lim, |ms| - 1, fuel, Start(lim));
  }

  /**
   * Scanning every memory, what returns chunks all of them, in order, with
   * every chunk within the input limit.
   */
  lemma AllMemoriesChunked(ms: seq<SummaryMemory>, lim: Limits, fuel: nat)
    requires lim.tokenPerCharacter > 0
    ensures var r := ChunkAll(ms, lim, fuel);
      r.Some? ==> ms != [] && Good(ms, Estimate(lim.tokenPerCharacter), lim, |ms|, r.value) && Flatten(r.value[|r.value| - 1]) == ms
  {
    assert Inv(ms, Estimate(lim.tokenPerCharacter), lim, Start(lim));
    RunSpec(ms, Estimate(lim.tokenPerCharacter), lim, |ms|, fuel, Start(lim));
  }

  /** A single memory that fits comes back as one block of one chunk. */
  lemma SingleMemoryChunked(m: SummaryMemory, lim: Limits, fuel: nat)
    requires lim.tokenPerCharacter > 0 && fuel >= 1
    requires MessageTokens(m, lim.tokenPerCharacter) <= lim.maxTokenInput
    ensures ChunkAll([m], lim, fuel) == Some([[[m]]])
    ensures ChunkMemoriesAsWritten([m], lim, fuel) == None
  {
    var tokens := Estimate(lim.tokenPerCharacter);
    BudgetBound(lim, 0);
    assert tokens(m) == MessageTokens(m, lim.tokenPerCharacter);
    assert Scan([m], tokens, 0, 0, 0, BlockBudget(lim, 0), 1) == EndOfInput;
    assert [m][0..1] == [m];
    assert Start(lim).current == 0 && Start(lim).blockCount == 0;
    var chunks := Start(lim).chunks + [[m][0..1]];
    assert Start(lim).chunks == [] && Start(lim).blocks == [];
    assert chunks == [[m]];
    assert Start(lim).blocks + [chunks] == [[[m]]];
    assert Pass([m], tokens, lim, 1, Start(lim)) == Done([[[m]]]);
    RunStep([m], tokens, lim, 1, fuel, Start(lim));
    LastMemoryNeverChunked([m], lim, fuel);
  }

  /**
   * One pass of the `for` loop of `chunk_memories`, on the variables it
   * updates: it does what `Pass` says.
   */
  method ChunkPass(memories: seq<SummaryMemory>, lim: Limits, memoryCount: int, remainingChunkTokens: int,
                   blocks: Blocks, chunks: Chunks, blockCount: nat, currentMemoryIndex: nat)
    returns (blocks': Blocks, chunks': Chunks, blockCount': nat, currentMemoryIndex': nat, chunkingDone: bool, blockingDone: bool)
    requires lim.tokenPerCharacter > 0 && memoryCount <= |memories| && currentMemoryIndex <= |memories|
    requires remainingChunkTokens == BlockBudget(lim, blockCount)
    ensures currentMemoryIndex' <= |memories|
    ensures blockingDone ==> chunkingDone
    ensures Pass(memories, Estimate(lim.tokenPerCharacter), lim, memoryCount, Chunker(blocks, chunks, blockCount, currentMemoryIndex))
      == if blockingDone then Done(blocks') else Continue(Chunker(blocks', chunks', blockCount', currentMemoryIndex'))
    ensures !chunkingDone ==> blocks' == blocks && chunks' == chunks && blockCount' == blockCount && currentMemoryIndex' == currentMemoryIndex
  {
    var tpc := lim.tokenPerCharacter;
    ghost var tokens := Estimate(tpc);
    ghost var outcome := Scan(memories, tokens, currentMemoryIndex, currentMemoryIndex, 0, remainingChunkTokens, memoryCount);
    blocks', chunks', blockCount', currentMemoryIndex' := blocks, chunks, blockCount, currentMemoryIndex;
    chunkingDone, blockingDone := false, false;
    var remaining := remainingChunkTokens;
    var chunkLength := 0;
    var chunk: Chunk := [];
    var memoriesThisChunk := 0;
    var i := currentMemoryIndex;
    while i < memoryCount
      invariant currentMemoryIndex <= i && (i <= memoryCount || i == currentMemoryIndex)
      invariant memoriesThisChunk == i - currentMemoryIndex
      invariant chunk == memories[currentMemoryIndex..i]
      invariant Scan(memories, tokens, currentMemoryIndex, i, chunkLength, remainingChunkTokens, memoryCount) == outcome
    {
      var mem := memories[i];
      var messageLength := MessageTokens(mem, tpc);
      assert messageLength == tokens(mem);
      chunkLength := chunkLength + messageLength;
      if chunkLength > remaining && memoriesThisChunk == 0 {
        // the memory alone does not fit: a new block, the same memory again
        currentMemoryIndex' := i;
        blockCount' := blockCount' + 1;
        blocks' := blocks' + [chunks'];
        chunkingDone := true;
        return;
      } else if chunkLength > remaining {
        // the chunk is closed; the next one starts at this memory
        currentMemoryIndex' := i;
        remaining := remaining - lim.tokenResponseLimit;
        chunks' := chunks' + [chunk];
        chunkingDone := true;
        return;
      } else if i == memoryCount - 1 {
        // the last memory: this index ends the range
        chunk := chunk + [mem];
        chunks' := chunks' + [chunk];
        blocks' := blocks' + [chunks'];
        chunkingDone := true;
        blockingDone := true;
        assert memories[currentMemoryIndex..i + 1] == chunk;
        return;
      } else {
        chunk := chunk + [mem];
        memoriesThisChunk := memoriesThisChunk + 1;
      }
      i := i + 1;
    }
  }

  /**
   * The two `while` loops of `chunk_memories` around `ChunkPass`, scanning
   * the memories below `memoryCount`; `finished` is false when `fuel`
   * passes were not enough for the loops to end.
   */
  method RunChunker(memories: seq<SummaryMemory>, lim: Limits, memoryCount: int, fuel: nat) returns (blocks: Blocks, finished: bool)
    requires lim.tokenPerCharacter > 0 && memoryCount <= |memories|
    ensures finished <==> Run(memories, Estimate(lim.tokenPerCharacter), lim, memoryCount, fuel, Start(lim)).Some?
    ensures finished ==> blocks == Run(memories, Estimate(lim.tokenPerCharacter), lim, memoryCount, fuel, Start(lim)).value
  {
    ghost var tokens := Estimate(lim.tokenPerCharacter);
    ghost var result := Run(memories, tokens, lim, memoryCount, fuel, Start(lim));
    blocks := [];
    var chunks: Chunks := [];
    var blockCount: nat := 0;
    var currentMemoryIndex: nat := 0;
    var passes: nat := 0;
    var blockingDone := false;
    finished := false;
    while !blockingDone && passes < fuel
      invariant passes <= fuel && currentMemoryIndex <= |memories|
      invariant blockingDone ==> finished && result == Some(blocks)
      invariant !blockingDone ==> (!finished &&
        Run(memories, tokens, lim, memoryCount, fuel - passes, Chunker(blocks, chunks, blockCount, currentMemoryIndex)) == result)
      decreases fuel - passes
    {
      var blockTokenResponseLimit := 2 * blockCount * lim.tokenResponseLimit;
      var remainingChunkTokens := lim.maxTokenInput - blockTokenResponseLimit;
      var chunkingDone := false;
      ghost var passes0 := passes;
      while !chunkingDone && passes < fuel
        invariant passes0 <= passes <= fuel && currentMemoryIndex <= |memories|
        invariant chunkingDone ==> passes > passes0
        invariant !chunkingDone ==> remainingChunkTokens == BlockBudget(lim, blockCount)
        invariant blockingDone ==> chunkingDone && finished && result == Some(blocks)
        invariant !blockingDone ==> (!finished &&
          Run(memories, tokens, lim, memoryCount, fuel - passes, Chunker(blocks, chunks, blockCount, currentMemoryIndex)) == result)
        decreases fuel - passes
      {
        RunStep(memories, tokens, lim, memoryCount, fuel - passes, Chunker(blocks, chunks, blockCount, currentMemoryIndex));
        passes := passes + 1;
        blocks, chunks, blockCount, currentMemoryIndex, chunkingDone, blockingDone :=
          ChunkPass(memories, lim, memoryCount, remainingChunkTokens, blocks, chunks, blockCount, currentMemoryIndex);
        finished := blockingDone;
      }
    }
  }

  /**
   * `chunk_memories` as written, with `memory_count = len(memories) - 1`:
   * whatever it returns leaves out the last memory (`LastMemoryNeverChunked`).
   */
  method ChunkMemories(memories: seq<SummaryMemory>, lim: Limits, fuel: nat) returns (blocks: Blocks, finished: bool)
    requires lim.tokenPerCharacter > 0
    ensures finished <==> ChunkMemoriesAsWritten(memories, lim, fuel).Some?
    ensures finished ==> blocks == ChunkMemoriesAsWritten(memories, lim, fuel).value
    ensures finished ==> blocks != [] && |memories| >= 2 && Flatten(blocks[|blocks| - 1]) == memories[..|memories| - 1]
  {
    LastMemoryNeverChunked(memories, lim, fuel);
    var memoryCount := |memories| - 1;
    blocks, finished := RunChunker(memories, lim, memoryCount, fuel);
  }

  /**
   * `chunk_memories` with `memory_count = len(memories)`, as evidently
   * intended: whatever it returns chunks every memory (`AllMemoriesChunked`).
   */
  method ChunkEveryMemory(memories: seq<SummaryMemory>, lim: Limits, fuel: nat) returns (blocks: Blocks, finished: bool)
    requires lim.tokenPerCharacter > 0
    ensures finished <==> ChunkAll(memories, lim, fuel).Some?
    ensures finished ==> blocks == ChunkAll(memories, lim, fuel).value
    ensures finished ==> (Good(memories, Estimate(lim.tokenPerCharacter), lim, |memories|, blocks)
                          && Flatten(blocks[|blocks| - 1]) == memories)
  {
    AllMemoriesChunked(memories, lim, fuel);
    var memoryCount := |memories|;
    blocks, finished := RunChunker(memories, lim, memoryCount, fuel);
  }
}
