/**
 * The conversation memory logs of ConversationManagement.py: a bounded,
 * recency-ordered window over eidetic or episodic memories, trimmed to a
 * token budget while always keeping a minimum number of the newest entries.
 */
module ConversationManagement {
  import opened Text
  import opened Sorting
  import opened MemoryManagement

  /** One log entry: a memory and the token weight it was logged with. */
  datatype Entry = Entry(memory: Memory, tokens: int)

  /** The creation time the trim sorts on. */
  function CreatedOn(e: Entry): int {
    e.memory.timestamp
  }

  function Timestamp(m: Memory): int {
    m.timestamp
  }

  function TokenSum(es: seq<Entry>): int {
    if es == [] then 0 else es[0].tokens + TokenSum(es[1..])
  }

  lemma {:induction false} TokenSumAppend(es: seq<Entry>, e: Entry)
    ensures TokenSum(es + [e]) == TokenSum(es) + e.tokens
  {
    if es != [] {
      assert (es + [e])[1..] == es[1..] + [e];
      TokenSumAppend(es[1..], e);
    }
  }

  /** The first `i + 1` entries are the first `i` and the next one. */
  lemma PrefixSnoc(es: seq<Entry>, i: nat)
    requires i < |es|
    ensures es[..i + 1] == es[..i] + [es[i]]
  {
  }

  lemma {:induction false} TokenSumReverse(es: seq<Entry>)
    ensures TokenSum(Reverse(es)) == TokenSum(es)
  {
    if es != [] {
      TokenSumReverse(es[1..]);
      TokenSumAppend(Reverse(es[1..]), es[0]);
    }
  }

  /**
   * How many of the newest-first entries `desc` the trim keeps, given that
   * the first `k` are kept: the first `minCount` unconditionally, then each
   * next one while the running total stays within `maxTokens`, stopping at
   * the first that does not fit.
   */
  function KeepCount(desc: seq<Entry>, k: nat, minCount: int, maxTokens: int): (c: nat)
    requires k <= |desc|
    ensures k <= c <= |desc|
    decreases |desc| - k
  {
    if k == |desc| then k
    else if k < minCount || TokenSum(desc[..k]) + desc[k].tokens <= maxTokens then
      KeepCount(desc, k + 1, minCount, maxTokens)
    else k
  }

  /** The entries kept, newest first. */
  function Kept(desc: seq<Entry>, minCount: int, maxTokens: int): seq<Entry> {
    desc[..KeepCount(desc, 0, minCount, maxTokens)]
  }

  /** The state of a `MemoryLog`. */
  datatype LogState = LogState(memories: seq<Entry>, tokenCount: int, memoryString: string)

  /**
   * `__check_memory_log`: when the stored token count is over budget and
   * there are more than `minCount` entries, keep the greedy newest-first
   * prefix, put it back in chronological order and recount.
   */
  function Trim(s: LogState, minCount: int, maxTokens: int): LogState {
    if s.tokenCount > maxTokens && |s.memories| > minCount then
      var kept := Kept(SortBy(s.memories, CreatedOn, true), minCount, maxTokens);
      s.(memories := Reverse(kept), tokenCount := TokenSum(kept))
    else s
  }

  /** The line a log entry contributes to the memory string. */
  function Line(m: Memory, eidetic: bool): string {
    if eidetic && m.Eidetic? then m.speaker + ": " + m.content else m.summary
  }

  function Lines(es: seq<Entry>, eidetic: bool): (r: seq<string>)
    ensures |r| == |es| && forall i :: 0 <= i < |es| ==> r[i] == Line(es[i].memory, eidetic)
  {
    seq(|es|, i requires 0 <= i < |es| => Line(es[i].memory, eidetic))
  }

  /**
   * `__generate_memory_string`: one line per entry, "speaker: content" for
   * an eidetic log and the summary otherwise; an empty log keeps the old string.
   */
  function MemoryString(es: seq<Entry>, previous: string): (r: string)
    ensures es == [] ==> r == previous
    ensures es != [] ==> |r| == SumLengths(Lines(es, es[0].memory.depth == 0)) + |es| - 1
    ensures es != [] && (forall i :: 0 <= i < |es| ==> '\n' !in Line(es[i].memory, es[0].memory.depth == 0)) ==>
              Split(r, '\n') == Lines(es, es[0].memory.depth == 0)
  {
    if es == [] then previous
    else
      var lines := Lines(es, es[0].memory.depth == 0);
      JoinLength(lines, "\n");
      if forall i :: 0 <= i < |lines| ==> '\n' !in lines[i] then
        SplitJoin(lines, '\n');
        Join(lines, "\n")
      else
        Join(lines, "\n")
  }

  /** `add`: append, count, trim, regenerate the string. */
  function AddSpec(s: LogState, m: Memory, tokens: int, minCount: int, maxTokens: int): LogState {
    var t := Trim(LogState(s.memories + [Entry(m, tokens)], s.tokenCount + tokens, s.memoryString), minCount, maxTokens);
    t.(memoryString := MemoryString(t.memories, t.memoryString))
  }

  /** The weight a reloaded memory is logged with: content tokens at depth 0, summary tokens above. */
  function Weighted(ms: seq<Memory>): (r: seq<Entry>)
    requires ms != []
    ensures |r| == |ms|
    ensures forall i :: 0 <= i < |ms| ==> r[i].memory == ms[i]
    ensures forall i :: 0 <= i < |ms| ==>
              r[i].tokens == if ms[0].depth == 0 && ms[i].Eidetic? then ms[i].contentTokens else ms[i].summaryTokens
  {
    seq(|ms|, i requires 0 <= i < |ms| =>
      Entry(ms[i], if ms[0].depth == 0 && ms[i].Eidetic? then ms[i].contentTokens else ms[i].summaryTokens))
  }

  /** `load_memory_list` as written: the token count is left as it was. */
  function LoadAsWritten(s: LogState, ms: seq<Memory>, minCount: int, maxTokens: int): LogState {
    if ms == [] then s
    else
      var t := Trim(s.(memories := Weighted(ms)), minCount, maxTokens);
      t.(memoryString := MemoryString(t.memories, t.memoryString))
  }

  /** `load_memory_list` with the token count recomputed for the new list. */
  function LoadSpec(s: LogState, ms: seq<Memory>, minCount: int, maxTokens: int): LogState {
    if ms == [] then s
    else
      var t := Trim(s.(memories := Weighted(ms), tokenCount := TokenSum(Weighted(ms))), minCount, maxTokens);
      t.(memoryString := MemoryString(t.memories, t.memoryString))
  }

  /**
   * What a log promises between calls: its token count is the sum of its
   * entries' weights, and it is within budget unless it holds no more than
   * the minimum number of entries.
   */
  predicate LogValid(s: LogState, minCount: int, maxTokens: int) {
    s.tokenCount == TokenSum(s.memories) && (|s.memories| <= minCount || s.tokenCount <= maxTokens)
  }

  // ---------------------------------------------------------------------
  // What the greedy trim keeps.

  lemma {:induction false} KeepCountAtLeastMin(desc: seq<Entry>, k: nat, minCount: int, maxTokens: int)
    requires k <= |desc|
    ensures var c := KeepCount(desc, k, minCount, maxTokens);
            c >= minCount || c == |desc|
    decreases |desc| - k
  {
    if k < |desc| && (k < minCount || TokenSum(desc[..k]) + desc[k].tokens <= maxTokens) {
      KeepCountAtLeastMin(desc, k + 1, minCount, maxTokens);
    }
  }

  lemma {:induction false} KeepCountFits(desc: seq<Entry>, k: nat, minCount: int, maxTokens: int)
    requires k <= |desc| && (k <= minCount || TokenSum(desc[..k]) <= maxTokens)
    ensures var c := KeepCount(desc, k, minCount, maxTokens);
            c <= minCount || TokenSum(desc[..c]) <= maxTokens
    decreases |desc| - k
  {
    if k < |desc| && (k < minCount || TokenSum(desc[..k]) + desc[k].tokens <= maxTokens) {
      assert desc[..k + 1] == desc[..k] + [desc[k]];
      TokenSumAppend(desc[..k], desc[k]);
      KeepCountFits(desc, k + 1, minCount, maxTokens);
    }
  }

  lemma {:induction false} KeepCountStops(desc: seq<Entry>, k: nat, minCount: int, maxTokens: int)
    requires k <= |desc|
    ensures var c := KeepCount(desc, k, minCount, maxTokens);
            c < |desc| ==> c >= minCount && TokenSum(desc[..c]) + desc[c].tokens > maxTokens
    decreases |desc| - k
  {
    if k < |desc| && (k < minCount || TokenSum(desc[..k]) + desc[k].tokens <= maxTokens) {
      KeepCountStops(desc, k + 1, minCount, maxTokens);
    }
  }

  /**
   * The kept entries are a prefix of the newest-first order (so the newest
   * `minCount` are always among them), more than `minCount` of them fit the
   * budget, and the entry after them would not have fitted.
   */
  lemma KeptSpec(desc: seq<Entry>, minCount: int, maxTokens: int)
    requires minCount >= 0
    ensures var kept := Kept(desc, minCount, maxTokens);
            && kept <= desc
            && (|kept| >= minCount || kept == desc)
            && (|kept| > minCount ==> TokenSum(kept) <= maxTokens)
            && (|kept| < |desc| ==> TokenSum(kept) + desc[|kept|].tokens > maxTokens)
  {
    KeepCountAtLeastMin(desc, 0, minCount, maxTokens);
    KeepCountFits(desc, 0, minCount, maxTokens);
    KeepCountStops(desc, 0, minCount, maxTokens);
  }

  /**
   * A trim that runs leaves the entries in chronological order, drawn
   * unaltered from the entries before it, with the newest `minCount` among
   * them; the string is untouched.
   */
  lemma TrimOrder(s: LogState, minCount: int, maxTokens: int)
    requires minCount >= 0 && s.tokenCount > maxTokens && |s.memories| > minCount
    ensures var t := Trim(s, minCount, maxTokens);
            && Sorted(t.memories, CreatedOn, false)
            && multiset(t.memories) <= multiset(s.memories)
            && t.memoryString == s.memoryString
    ensures var t := Trim(s, minCount, maxTokens);
            var desc := SortBy(s.memories, CreatedOn, true);
            forall i :: 0 <= i < minCount ==> desc[i] in t.memories
  {
    var desc := SortBy(s.memories, CreatedOn, true);
    var kept := Kept(desc, minCount, maxTokens);
    KeptSpec(desc, minCount, maxTokens);
    assert kept == desc[..|kept|];
    PrefixReversed(desc, |kept|, CreatedOn);
    forall i | 0 <= i < minCount ensures desc[i] in Reverse(kept) {
      assert desc[i] == kept[i];
      assert kept[i] in multiset(kept);
    }
  }

  /**
   * A trim that runs recounts the tokens of what it keeps, which stay within
   * budget whenever more than `minCount` entries are kept.
   */
  lemma TrimCount(s: LogState, minCount: int, maxTokens: int)
    requires minCount >= 0 && s.tokenCount > maxTokens && |s.memories| > minCount
    ensures var t := Trim(s, minCount, maxTokens);
            && t.tokenCount == TokenSum(t.memories)
            && (|t.memories| > minCount ==> t.tokenCount <= maxTokens)
  {
    var desc := SortBy(s.memories, CreatedOn, true);
    var kept := Kept(desc, minCount, maxTokens);
    KeptSpec(desc, minCount, maxTokens);
    TokenSumReverse(kept);
  }

  /** A trim makes valid any log whose count is accurate. */
  lemma TrimMakesValid(s: LogState, minCount: int, maxTokens: int)
    requires minCount >= 0 && s.tokenCount == TokenSum(s.memories)
    ensures LogValid(Trim(s, minCount, maxTokens), minCount, maxTokens)
  {
    if s.tokenCount > maxTokens && |s.memories| > minCount {
      TrimCount(s, minCount, maxTokens);
    }
  }

  /** `add` keeps the log's promise. */
  lemma AddKeepsValid(s: LogState, m: Memory, tokens: int, minCount: int, maxTokens: int)
    requires minCount >= 0 && LogValid(s, minCount, maxTokens)
    ensures LogValid(AddSpec(s, m, tokens, minCount, maxTokens), minCount, maxTokens)
  {
    TokenSumAppend(s.memories, Entry(m, tokens));
    TrimMakesValid(LogState(s.memories + [Entry(m, tokens)], s.tokenCount + tokens, s.memoryString), minCount, maxTokens);
  }

  /** The corrected `load_memory_list` always leaves a valid log. */
  lemma LoadKeepsValid(s: LogState, ms: seq<Memory>, minCount: int, maxTokens: int)
    requires minCount >= 0 && LogValid(s, minCount, maxTokens)
    ensures LogValid(LoadSpec(s, ms, minCount, maxTokens), minCount, maxTokens)
  {
    if ms != [] {
      TrimMakesValid(s.(memories := Weighted(ms), tokenCount := TokenSum(Weighted(ms))), minCount, maxTokens);
    }
  }

  /**
   * As written, loading five 200-token messages into an empty (750, 4) log
   * trims nothing: the stale count of 0 hides 1000 tokens over five entries.
   */
  lemma LoadAsWrittenOverBudget(m: Memory)
    requires m.Eidetic? && m.depth == 0 && m.contentTokens == 200
    ensures var t := LoadAsWritten(LogState([], 0, ""), [m, m, m, m, m], 4, 750);
            && |t.memories| == 5 && t.tokenCount == 0 && TokenSum(t.memories) == 1000
            && !LogValid(t, 4, 750)
  {
    var w := Weighted([m, m, m, m, m]);
    var e := Entry(m, 200);
    assert w == [e, e, e, e, e];
    assert TokenSum([e]) == 200;
    assert TokenSum([e, e]) == 400 by { assert [e, e][1..] == [e]; }
    assert TokenSum([e, e, e]) == 600 by { assert [e, e, e][1..] == [e, e]; }
    assert TokenSum([e, e, e, e]) == 800 by { assert [e, e, e, e][1..] == [e, e, e]; }
    assert TokenSum(w) == 1000 by { assert w[1..] == [e, e, e, e]; }
  }

  /**
   * `get_recent_messages(n)`: the `min(n, count)` newest logged memories in
   * chronological order, or none when that minimum is not positive.
   */
  function RecentMessages(es: seq<Entry>, n: int): (r: seq<Memory>)
    ensures |r| == if n < |es| then (if n <= 0 then 0 else n) else |es|
  {
    var count := if n < |es| then n else |es|;
    if count <= 0 then []
    else
      var desc := SortBy(MemoriesOf(es), Timestamp, true);
      Reverse(desc[..count])
  }

  function MemoriesOf(es: seq<Entry>): (r: seq<Memory>)
    ensures |r| == |es| && forall i :: 0 <= i < |es| ==> r[i] == es[i].memory
  {
    seq(|es|, i requires 0 <= i < |es| => es[i].memory)
  }

  /** The recent messages are logged memories, in chronological order. */
  lemma RecentMessagesOrder(es: seq<Entry>, n: int)
    ensures Sorted(RecentMessages(es, n), Timestamp, false)
    ensures multiset(RecentMessages(es, n)) <= multiset(MemoriesOf(es))
  {
    var count := if n < |es| then n else |es|;
    if count > 0 {
      PrefixReversed(SortBy(MemoriesOf(es), Timestamp, true), count, Timestamp);
    }
  }

  /** None of the logged memories left out is newer than a recent message. */
  lemma RecentMessagesNewest(es: seq<Entry>, n: int)
    ensures var r := RecentMessages(es, n);
            forall x, y :: x in r && y in multiset(MemoriesOf(es)) - multiset(r) ==> y.timestamp <= x.timestamp
  {
    var count := if n < |es| then n else |es|;
    if count > 0 {
      var desc := SortBy(MemoriesOf(es), Timestamp, true);
      PrefixReversed(desc, count, Timestamp);
      PrefixDominates(desc, count, Timestamp);
      var r := RecentMessages(es, n);
      assert multiset(MemoriesOf(es)) - multiset(r) == multiset(desc[count..]);
      forall x, y | x in r && y in multiset(MemoriesOf(es)) - multiset(r) ensures y.timestamp <= x.timestamp {
        assert x in multiset(r);
        assert x in desc[..count] && y in desc[count..];
        assert Timestamp(y) <= Timestamp(x);
      }
    }
  }

  /** `ConversationManager.MemoryLog` */
  class MemoryLog {
    const maxLogTokens: int
    const minLogCount: int
    var memories: seq<Entry>
    var tokenCount: int
    var memoryString: string

    function State(): LogState
      reads this
    {
      LogState(memories, tokenCount, memoryString)
    }

    constructor(maxLogTokens: int, minLogCount: int)
      ensures this.maxLogTokens == maxLogTokens && this.minLogCount == minLogCount
      ensures State() == LogState([], 0, "")
    {
      this.maxLogTokens := maxLogTokens;
      this.minLogCount := minLogCount;
      memories := [];
      tokenCount := 0;
      memoryString := "";
    }

    method Add(m: Memory, tokens: int)
      modifies this
      ensures State() == AddSpec(old(State()), m, tokens, minLogCount, maxLogTokens)
    {
      memories := memories + [Entry(m, tokens)];
      tokenCount := tokenCount + tokens;
      CheckMemoryLog();
      GenerateMemoryString();
    }

    /**
     * `load_memory_list` as written: the entries are replaced but the
     * token count is left as it was (`LoadAsWrittenOverBudget`).
     */
    method LoadMemoryListAsWritten(ms: seq<Memory>)
      modifies this
      ensures State() == LoadAsWritten(old(State()), ms, minLogCount, maxLogTokens)
    {
      if |ms| > 0 {
        memories := Weighted(ms);
        CheckMemoryLog();
        GenerateMemoryString();
      }
    }

    /** `load_memory_list`, recounting the tokens of the loaded list. */
    method LoadMemoryList(ms: seq<Memory>)
      modifies this
      ensures State() == LoadSpec(old(State()), ms, minLogCount, maxLogTokens)
    {
      if |ms| > 0 {
        memories := Weighted(ms);
        tokenCount := TokenSum(memories);
        CheckMemoryLog();
        GenerateMemoryString();
      }
    }

    /** The trimming loop of `__check_memory_log`. */
    method CheckMemoryLog()
      modifies this
      ensures State() == Trim(old(State()), minLogCount, maxLogTokens)
    {
      if tokenCount > maxLogTokens && |memories| > minLogCount {
        var desc := SortBy(memories, CreatedOn, true);
        var kept: seq<Entry> := [];
        var total := 0;
        var i := 0;
        while i < |desc|
          invariant 0 <= i <= |desc| && kept == desc[..i] && total == TokenSum(kept)
          invariant KeepCount(desc, i, minLogCount, maxLogTokens) == KeepCount(desc, 0, minLogCount, maxLogTokens)
          invariant State() == old(State())
        {
          if |kept| < minLogCount || total + desc[i].tokens <= maxLogTokens {
            PrefixSnoc(desc, i);
            TokenSumAppend(kept, desc[i]);
            total := total + desc[i].tokens;
            kept := kept + [desc[i]];
          } else {
            assert KeepCount(desc, i, minLogCount, maxLogTokens) == i;
            break;
          }
          i := i + 1;
        }
        assert kept == Kept(desc, minLogCount, maxLogTokens);
        memories := Reverse(kept);
        tokenCount := total;
      }
    }

    method GenerateMemoryString()
      modifies this
      ensures State() == old(State()).(memoryString := MemoryString(memories, old(memoryString)))
    {
      if |memories| > 0 {
        memoryString := MemoryString(memories, memoryString);
      }
    }
  }

  /** `ConversationManager`: the memory manager and the two logs it feeds. */
  class ConversationManager {
    const memoryManager: MemoryManager
    const eideticLog: MemoryLog
    const episodicLog: MemoryLog

    ghost predicate Valid()
      reads this, memoryManager
    {
      memoryManager.Valid() && eideticLog != episodicLog
    }

    constructor(manager: MemoryManager)
      requires manager.Valid()
      ensures Valid() && memoryManager == manager && fresh(eideticLog) && fresh(episodicLog)
      ensures eideticLog.State() == LogState([], 0, "") && episodicLog.State() == LogState([], 0, "")
      ensures eideticLog.maxLogTokens == 750 && eideticLog.minLogCount == 4
      ensures episodicLog.maxLogTokens == 750 && episodicLog.minLogCount == 4
    {
      memoryManager := manager;
      eideticLog := new MemoryLog(750, 4);
      episodicLog := new MemoryLog(750, 4);
    }

    /**
     * `log_message`: store the message as a memory, then log it and any
     * depth-1 memory its caching produced; nothing is logged when caching
     * raised.
     */
    method LogMessage(speaker: string, content: string, now: int) returns (ok: bool)
      requires Valid()
      modifies memoryManager`issued, memoryManager.caches, eideticLog, episodicLog
      ensures Valid()
      ensures var c := CreateSpec(memoryManager.oracles, old(memoryManager.Snapshot()), speaker, content, now);
              && memoryManager.Snapshot() == c.world && ok == c.ok
              && eideticLog.State() == (if c.ok then AddSpec(old(eideticLog.State()), c.memory, c.memory.summaryTokens,
                                                             eideticLog.minLogCount, eideticLog.maxLogTokens)
                                        else old(eideticLog.State()))
              && episodicLog.State() == (if c.ok && c.episodic.Some?
                                         then AddSpec(old(episodicLog.State()), c.episodic.value, c.episodic.value.summaryTokens,
                                                      episodicLog.minLogCount, episodicLog.maxLogTokens)
                                         else old(episodicLog.State()))
    {
      ghost var c := CreateSpec(memoryManager.oracles, memoryManager.Snapshot(), speaker, content, now);
      var memory, tokens, episodic;
      ok, memory, tokens, episodic := memoryManager.CreateNewMemory(speaker, content, now);
      assert c.world == memoryManager.Snapshot() && c.ok == ok && c.memory == memory && c.episodic == episodic;
      LogCreated(ok, memory, episodic);
    }

    /** The logging half of `log_message`: the new memory, then any depth-1 memory. */
    method LogCreated(ok: bool, memory: Memory, episodic: Option<Memory>)
      requires eideticLog != episodicLog
      modifies eideticLog, episodicLog
      ensures eideticLog.State() == (if ok then AddSpec(old(eideticLog.State()), memory, memory.summaryTokens,
                                                        eideticLog.minLogCount, eideticLog.maxLogTokens)
                                     else old(eideticLog.State()))
      ensures episodicLog.State() == (if ok && episodic.Some?
                                      then AddSpec(old(episodicLog.State()), episodic.value, episodic.value.summaryTokens,
                                                   episodicLog.minLogCount, episodicLog.maxLogTokens)
                                      else old(episodicLog.State()))
    {
      if ok {
        eideticLog.Add(memory, memory.summaryTokens);
        if episodic.Some? {
          episodicLog.Add(episodic.value, episodic.value.summaryTokens);
        }
      }
    }
  }
}
