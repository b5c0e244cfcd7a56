/**
 * `ThemeManager` (ThemeManagement.py and its earlier copy under
 * conversation_management/): the validation of the theme-extraction reply
 * and the merge-or-create loop that files each extracted phrase under a
 * theme. The theme files and the vector index are values of `ThemeState`;
 * the embedding-and-query round trip, `uuid4()` and `time()` are fields of
 * `ThemeEnv`.
 */
module Themes {
  import opened Text
  import opened JsonValue

  /**
   * The reply handed to `cleanup_theme_response`: a list already, or text
   * together with what `json.loads` makes of it (`None`: it does not parse).
   */
  datatype Reply = ListReply(items: seq<Json>) | TextReply(parsed: Option<Json>)

  /** The exceptions the modelled code lets escape. */
  datatype PyError = AttributeError | IndexError | FileNotFoundError

  /** `cleanup_theme_response` returns `(themes, has_error)` or raises. */
  datatype Cleanup = Returned(themes: seq<Json>, hasError: bool) | Raised(error: PyError)

  /** `j` is an object with exactly one key, whose value is the list `items`. */
  predicate SingleList(j: Json, items: seq<Json>) {
    j.JObj? && |j.members| == 1 && j.members[0].1 == JArr(items)
  }

  /** A parsed object with more than one key, or one key whose value is not a list. */
  predicate Malformed(j: Json) {
    j.JObj? && (|j.members| > 1 || (|j.members| == 1 && !j.members[0].1.JArr?))
  }

  function CleanupThemeResponse(reply: Reply): (r: Cleanup)
    // a list is accepted as it is
    ensures reply.ListReply? ==> r == Returned(reply.items, false)
    // an error always comes with an empty theme list
    ensures r.Returned? && r.hasError ==> r.themes == []
    // the error cases: text that does not parse, or an object of the wrong shape
    ensures r.Returned? && r.hasError <==>
              reply.TextReply? && (reply.parsed.None? || Malformed(reply.parsed.value))
    // text is accepted only as a one-key object holding a list, and yields that list
    ensures r.Returned? && !r.hasError && reply.TextReply? ==>
              reply.parsed.Some? && SingleList(reply.parsed.value, r.themes)
    // something other than an object has no `keys()`; an empty object has no first key
    ensures r.Raised? <==>
              reply.TextReply? && reply.parsed.Some? &&
              (!reply.parsed.value.JObj? || reply.parsed.value.members == [])
  {
    match reply
    case ListReply(items) => Returned(items, false)
    case TextReply(None) => Returned([], true)
    case TextReply(Some(obj)) =>
      if !obj.JObj? then Raised(AttributeError)
      else if |obj.members| > 1 then Returned([], true)
      else if obj.members == [] then Raised(IndexError)
      else if obj.members[0].1.JArr? then Returned(obj.members[0].1.items, false)
      else Returned([], true)
  }

  /** A theme file. */
  datatype Theme = Theme(
    id: string,
    themes: seq<string>,
    themeCount: int,
    links: seq<string>,
    timestamp: int,
    updateEmbedding: bool)

  /** A link record between a theme and a memory. */
  datatype ThemeLink = ThemeLink(
    id: string,
    themeId: string,
    memoryId: string,
    depth: int,
    weight: real,
    cooldownCount: int,
    repeatThemeCount: int)

  predicate NoDup<T(==)>(s: seq<T>) {
    forall i, j :: 0 <= i < j < |s| ==> s[i] != s[j]
  }

  /** A theme's count is the number of its phrases, none of them repeated. */
  predicate ThemeValid(t: Theme) {
    NoDup(t.themes) && t.themeCount == |t.themes|
  }

  predicate StoreValid(store: map<string, Theme>) {
    forall id :: id in store ==> ThemeValid(store[id])
  }

  /** `generate_theme`: an empty theme, stamped with `now`. */
  function GenerateTheme(id: string, now: int): (t: Theme)
    ensures ThemeValid(t) && t.themes == [] && t.links == []
    ensures t.id == id && t.timestamp == now && !t.updateEmbedding
  {
    Theme(id, [], 0, [], now, false)
  }

  /** `generate_theme_link`: a link of weight 0 that has never been cooled down or repeated. */
  function GenerateThemeLink(id: string, themeId: string, memoryId: string, memoryDepth: int): (l: ThemeLink)
    ensures l.id == id && l.themeId == themeId && l.memoryId == memoryId && l.depth == memoryDepth
    ensures l.weight == 0.0 && l.cooldownCount == 0 && l.repeatThemeCount == 0
  {
    ThemeLink(id, themeId, memoryId, memoryDepth, 0.0, 0, 0)
  }

  /** One match of a vector query: the id of the stored vector and its similarity score. */
  datatype Match = Match(id: string, score: real)

  /** What the top-1 query answered: nothing at all, or its matches, best first. */
  datatype QueryResult = NoResponse | Matches(matches: seq<Match>)

  /**
   * What the loop asks of the outside world. `query(p, index)` embeds the
   * phrase `p` and asks the index for its nearest stored vector; `uuid(k)`
   * is the k-th id drawn; `render` is `str()` of a non-string list item;
   * `indexing` is the pinecone-indexing switch that guards every write to
   * the index; `now` is the time the new themes are stamped with.
   */
  datatype ThemeEnv = ThemeEnv(
    threshold: real,
    indexing: bool,
    query: (string, map<string, string>) -> QueryResult,
    uuid: nat -> string,
    render: Json -> string,
    now: int)

  /**
   * The theme files by id, the vector index (each id with the text whose
   * embedding is stored under it), and the number of ids drawn so far.
   */
  datatype ThemeState = ThemeState(store: map<string, Theme>, index: map<string, string>, issued: nat)

  /** The loop either finishes with the extracted ids or raises part-way, keeping what it saved. */
  datatype Extraction = Done(ids: seq<string>, state: ThemeState) | Failed(error: PyError, state: ThemeState)

  /** `str(theme)` of one list item. */
  function Phrase(env: ThemeEnv, j: Json): (p: string)
    ensures j.JStr? ==> p == j.s
  {
    if j.JStr? then j.s else env.render(j)
  }

  function Phrases(env: ThemeEnv, items: seq<Json>): (ps: seq<string>)
    ensures |ps| == |items|
    ensures forall i :: 0 <= i < |items| ==> ps[i] == Phrase(env, items[i])
  {
    seq(|items|, i requires 0 <= i < |items| => Phrase(env, items[i]))
  }

  /** The theme the phrase merges into: the top match when it scores at least the threshold. */
  function MergeTarget(env: ThemeEnv, q: QueryResult): (r: Option<string>)
    ensures r.Some? <==> q.Matches? && |q.matches| > 0 && q.matches[0].score >= env.threshold
    ensures r.Some? ==> r.value == q.matches[0].id
  {
    if q.Matches? && |q.matches| > 0 && q.matches[0].score >= env.threshold
    then Some(q.matches[0].id)
    else None
  }

  /** The merge of `phrase` into the stored theme `t`: appended only when absent. */
  function Merged(t: Theme, phrase: string): Theme {
    if phrase in t.themes then t
    else t.(themes := t.themes + [phrase], themeCount := |t.themes| + 1)
  }

  /** The one-phrase theme created for `phrase` under `id`. */
  function Created(env: ThemeEnv, id: string, phrase: string): Theme {
    GenerateTheme(id, env.now).(themes := [phrase], themeCount := 1)
  }

  /** One pass of the loop over the phrases, from state `s` with `ids` extracted so far. */
  function Step(env: ThemeEnv, s: ThemeState, ids: seq<string>, phrase: string): Extraction {
    match MergeTarget(env, env.query(phrase, s.index))
    case Some(id) =>
      if id !in s.store then Failed(FileNotFoundError, s)
      else
        var t := s.store[id];
        var ids' := if id in ids then ids else ids + [id];
        if phrase in t.themes then Done(ids', s)
        else
          var t' := Merged(t, phrase);
          var index' := if env.indexing then s.index[id := Join(t'.themes, ",")] else s.index;
          Done(ids', s.(store := s.store[id := t'], index := index'))
    case None =>
      var id := env.uuid(s.issued);
      var index' := if env.indexing then s.index[id := phrase] else s.index;
      Done(ids + [id], ThemeState(s.store[id := Created(env, id, phrase)], index', s.issued + 1))
  }

  /** The loop over `phrases`, one `Step` each, stopping at the first exception. */
  function Run(env: ThemeEnv, st: ThemeState, phrases: seq<string>): Extraction {
    if phrases == [] then Done([], st)
    else
      var prev := Run(env, st, phrases[..|phrases| - 1]);
      if prev.Failed? then prev
      else Step(env, prev.state, prev.ids, phrases[|phrases| - 1])
  }

  /** `extract_themes`, given the reply to the extraction prompt. */
  function ExtractSpec(env: ThemeEnv, st: ThemeState, reply: Reply): Extraction {
    match CleanupThemeResponse(reply)
    case Raised(e) => Failed(e, st)
    case Returned(items, hasError) =>
      if hasError then Done([], st) else Run(env, st, Phrases(env, items))
  }

  /** `extract_themes`: validate the reply, then merge or create a theme for each phrase. */
  method ExtractThemes(env: ThemeEnv, st: ThemeState, reply: Reply) returns (r: Extraction)
    ensures r == ExtractSpec(env, st, reply)
    ensures CleanupThemeResponse(reply).Returned? && CleanupThemeResponse(reply).hasError ==> r == Done([], st)
  {
    var cleaned := CleanupThemeResponse(reply);
    if cleaned.Raised? {
      return Failed(cleaned.error, st);
    }
    if cleaned.hasError {
      return Done([], st);
    }
    var phrases := Phrases(env, cleaned.themes);
    var extracted: seq<string> := [];
    var s := st;
    var i := 0;
    while i < |phrases|
      invariant 0 <= i <= |phrases|
      invariant Run(env, st, phrases[..i]) == Done(extracted, s)
    {
      assert phrases[..i + 1][..i] == phrases[..i];
      var next := ExtractPhrase(env, s, extracted, phrases[i]);
      if next.Failed? {
        RunStaysFailed(env, st, phrases, i + 1);
        assert phrases[..|phrases|] == phrases;
        return next;
      }
      extracted, s := next.ids, next.state;
      i := i + 1;
    }
    assert phrases[..i] == phrases;
    r := Done(extracted, s);
  }

  /** One pass of the loop of `extract_themes`: merge `theme` into its match or create a theme for it. */
  method ExtractPhrase(env: ThemeEnv, s: ThemeState, extracted: seq<string>, theme: string) returns (r: Extraction)
    ensures r == Step(env, s, extracted, theme)
  {
    var matches := env.query(theme, s.index);
    if matches.Matches? && |matches.matches| > 0 && matches.matches[0].score >= env.threshold {
      var existingId := matches.matches[0].id;
      if existingId !in s.store {
        return Failed(FileNotFoundError, s);
      }
      var existing := s.store[existingId];
      var s' := s;
      if theme !in existing.themes {
        existing := existing.(themes := existing.themes + [theme]);
        if env.indexing {
          s' := s'.(index := s'.index[existingId := Join(existing.themes, ",")]);
        }
        existing := existing.(themeCount := |existing.themes|);
        assert existing == Merged(s.store[existingId], theme);
        s' := s'.(store := s'.store[existingId := existing]);
      }
      var ids := extracted;
      if existingId !in ids {
        ids := ids + [existingId];
      }
      r := Done(ids, s');
    } else {
      var uniqueId := env.uuid(s.issued);
      var s' := s.(issued := s.issued + 1);
      if env.indexing {
        s' := s'.(index := s'.index[uniqueId := theme]);
      }
      var newTheme := GenerateTheme(uniqueId, env.now);
      newTheme := newTheme.(themes := newTheme.themes + [theme], themeCount := 1);
      assert newTheme == Created(env, uniqueId, theme);
      s' := s'.(store := s'.store[uniqueId := newTheme]);
      r := Done(extracted + [uniqueId], s');
    }
  }

  /** Once the loop has raised, the remaining phrases are not looked at. */
  lemma {:induction false} RunStaysFailed(env: ThemeEnv, st: ThemeState, phrases: seq<string>, k: nat)
    requires k <= |phrases| && Run(env, st, phrases[..k]).Failed?
    ensures Run(env, st, phrases) == Run(env, st, phrases[..k])
    decreases |phrases| - k
  {
    if k < |phrases| {
      assert phrases[..k + 1][..k] == phrases[..k];
      RunStaysFailed(env, st, phrases, k + 1);
    } else {
      assert phrases[..k] == phrases;
    }
  }

  /** Merging a phrase the theme already holds changes no theme and touches no vector. */
  lemma MergeIdempotent(env: ThemeEnv, s: ThemeState, ids: seq<string>, phrase: string)
    requires MergeTarget(env, env.query(phrase, s.index)).Some?
    requires var id := MergeTarget(env, env.query(phrase, s.index)).value;
             id in s.store && phrase in s.store[id].themes
    ensures Step(env, s, ids, phrase).Done? && Step(env, s, ids, phrase).state == s
  {
  }

  /** A phrase below the threshold, or without a match, becomes a new one-phrase theme. */
  lemma CreateOnePhrase(env: ThemeEnv, s: ThemeState, ids: seq<string>, phrase: string)
    requires MergeTarget(env, env.query(phrase, s.index)).None?
    ensures var r := Step(env, s, ids, phrase);
            var id := env.uuid(s.issued);
            r.Done? && r.ids == ids + [id] &&
            r.state.store[id].themes == [phrase] && r.state.store[id].themeCount == 1 &&
            (env.indexing ==> r.state.index[id] == phrase)
  {
  }

  /** Every theme the loop writes stays consistent. */
  lemma {:induction false} RunKeepsValid(env: ThemeEnv, st: ThemeState, phrases: seq<string>)
    requires StoreValid(st.store)
    ensures StoreValid(Run(env, st, phrases).state.store)
  {
    if phrases != [] {
      var prev := Run(env, st, phrases[..|phrases| - 1]);
      RunKeepsValid(env, st, phrases[..|phrases| - 1]);
      if prev.Done? {
        var s := prev.state;
        var phrase := phrases[|phrases| - 1];
        var target := MergeTarget(env, env.query(phrase, s.index));
        if target.Some? && target.value in s.store {
          var t := s.store[target.value];
          assert ThemeValid(t);
          assert ThemeValid(Merged(t, phrase));
        }
      }
    }
  }

  /** With indexing switched off the vector index is never written. */
  lemma {:induction false} RunWithoutIndexing(env: ThemeEnv, st: ThemeState, phrases: seq<string>)
    requires !env.indexing
    ensures Run(env, st, phrases).state.index == st.index
  {
    if phrases != [] {
      RunWithoutIndexing(env, st, phrases[..|phrases| - 1]);
    }
  }

  /** Ids drawn from now on are new: distinct from each other and from every stored or indexed id. */
  ghost predicate FreshIds(env: ThemeEnv, s: ThemeState) {
    (forall i, j :: env.uuid(i) == env.uuid(j) ==> i == j) &&
    (forall k :: k >= s.issued ==> env.uuid(k) !in s.store && env.uuid(k) !in s.index)
  }

  /**
   * The extracted ids are distinct and each names a stored theme; the
   * loop keeps the fresh-id condition, and a theme is never removed nor
   * loses a phrase.
   */
  lemma {:induction false} RunInvariant(env: ThemeEnv, st: ThemeState, phrases: seq<string>)
    requires FreshIds(env, st)
    ensures var r := Run(env, st, phrases);
            FreshIds(env, r.state) &&
            (forall id :: id in st.store ==> id in r.state.store && st.store[id].themes <= r.state.store[id].themes) &&
            (r.Done? ==> NoDup(r.ids) && forall id :: id in r.ids ==> id in r.state.store)
  {
    if phrases != [] {
      var prev := Run(env, st, phrases[..|phrases| - 1]);
      RunInvariant(env, st, phrases[..|phrases| - 1]);
      if prev.Done? {
        StepInvariant(env, prev.state, prev.ids, phrases[|phrases| - 1]);
        var r := Run(env, st, phrases);
        forall id | id in st.store
          ensures id in r.state.store && st.store[id].themes <= r.state.store[id].themes
        {
          assert id in prev.state.store;
        }
      }
    }
  }

  lemma StepInvariant(env: ThemeEnv, s: ThemeState, ids: seq<string>, phrase: string)
    requires FreshIds(env, s)
    requires NoDup(ids) && forall id :: id in ids ==> id in s.store
    ensures var r := Step(env, s, ids, phrase);
            FreshIds(env, r.state) &&
            (forall id :: id in s.store ==> id in r.state.store && s.store[id].themes <= r.state.store[id].themes) &&
            (r.Done? ==> NoDup(r.ids) && forall id :: id in r.ids ==> id in r.state.store)
  {
    var r := Step(env, s, ids, phrase);
    var target := MergeTarget(env, env.query(phrase, s.index));
    if target.None? {
      var newId := env.uuid(s.issued);
      assert newId !in ids;
      forall k | k >= r.state.issued
        ensures env.uuid(k) !in r.state.store && env.uuid(k) !in r.state.index
      {
        assert env.uuid(k) != newId;
      }
    } else if target.value in s.store {
      var id := target.value;
      forall k | k >= r.state.issued
        ensures env.uuid(k) !in r.state.store && env.uuid(k) !in r.state.index
      {
        assert env.uuid(k) != id;
      }
    }
  }

  /** Every extracted id names a distinct theme that is on file once the loop is done. */
  lemma ExtractedIdsDistinct(env: ThemeEnv, st: ThemeState, reply: Reply)
    requires FreshIds(env, st)
    ensures var r := ExtractSpec(env, st, reply);
            r.Done? ==> NoDup(r.ids) && forall id :: id in r.ids ==> id in r.state.store
  {
    var cleaned := CleanupThemeResponse(reply);
    if cleaned.Returned? && !cleaned.hasError {
      RunInvariant(env, st, Phrases(env, cleaned.themes));
    }
  }
}
