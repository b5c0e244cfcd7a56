/**
 * String helpers shared by the model: Python's `str.strip`, the two
 * whitespace-collapsing regular-expression substitutions applied to every
 * language-model response, `str.join`, `startswith`/`endswith`, substring
 * tests and single-quote escaping.
 */
module Text {

  /**
   * The characters Python's argument-less `str.strip()` removes: those for
   * which `str.isspace()` holds, that is U+0009..U+000D, U+001C..U+0020,
   * U+0085, U+00A0, U+1680, U+2000..U+200A, U+2028, U+2029, U+202F, U+205F
   * and U+3000.
   */
  predicate IsSpace(c: char) {
    ('\U{0009}' <= c <= '\U{000D}') || ('\U{001C}' <= c <= '\U{0020}')
    || c == '\U{0085}' || c == '\U{00A0}' || c == '\U{1680}'
    || ('\U{2000}' <= c <= '\U{200A}')
    || c == '\U{2028}' || c == '\U{2029}' || c == '\U{202F}' || c == '\U{205F}' || c == '\U{3000}'
  }

  /** The character class of the pattern `[\r\n]+`. */
  const LineBreaks: set<char> := {'\r', '\n'}

  /** The character class of the pattern `[\t ]+`. */
  const Blanks: set<char> := {'\t', ' '}

  predicate StartsWith(s: string, prefix: string) {
    |prefix| <= |s| && s[..|prefix|] == prefix
  }

  predicate EndsWith(s: string, suffix: string) {
    |suffix| <= |s| && s[|s| - |suffix|..] == suffix
  }

  /** Python's `sub in s`. */
  predicate Contains(s: string, sub: string)
    decreases |s|
  {
    StartsWith(s, sub) || (s != [] && Contains(s[1..], sub))
  }

  /** The characters of `s` that are not whitespace, in order. */
  function NonSpace(s: string): string {
    if s == [] then [] else (if IsSpace(s[0]) then [] else [s[0]]) + NonSpace(s[1..])
  }

  lemma {:induction false} NonSpaceAppend(a: string, b: string)
    ensures NonSpace(a + b) == NonSpace(a) + NonSpace(b)
  {
    if a != [] {
      assert (a + b)[1..] == a[1..] + b;
      NonSpaceAppend(a[1..], b);
    } else {
      assert a + b == b;
    }
  }

  function StripLeft(s: string): (r: string)
    ensures |r| <= |s| && r == s[|s| - |r|..]
    ensures r == [] || !IsSpace(r[0])
  {
    if s != [] && IsSpace(s[0]) then StripLeft(s[1..]) else s
  }

  function StripRight(s: string): (r: string)
    ensures |r| <= |s| && r == s[..|r|]
    ensures r == [] || !IsSpace(r[|r| - 1])
  {
    if s != [] && IsSpace(s[|s| - 1]) then StripRight(s[..|s| - 1]) else s
  }

  /** What `StripLeft` removes is whitespace. */
  lemma {:induction false} StripLeftSkipped(s: string)
    ensures forall i :: 0 <= i < |s| - |StripLeft(s)| ==> IsSpace(s[i])
  {
    if s != [] && IsSpace(s[0]) {
      StripLeftSkipped(s[1..]);
    }
  }

  /** What `StripRight` removes is whitespace. */
  lemma {:induction false} StripRightSkipped(s: string)
    ensures forall i :: |StripRight(s)| <= i < |s| ==> IsSpace(s[i])
  {
    if s != [] && IsSpace(s[|s| - 1]) {
      StripRightSkipped(s[..|s| - 1]);
    }
  }

  /** Python's `s.strip()`: `s` minus its leading and trailing whitespace. */
  function Strip(s: string): string {
    StripRight(StripLeft(s))
  }

  /** Stripping removes whitespace only at the two ends and nothing else. */
  lemma {:induction false} StripSpec(s: string)
    ensures var r := Strip(s);
      && (r == [] || (!IsSpace(r[0]) && !IsSpace(r[|r| - 1])))
      && NonSpace(r) == NonSpace(s)
  {
    StripLeftKeeps(s);
    StripRightKeeps(StripLeft(s));
    var l := StripLeft(s);
    var r := StripRight(l);
    if r != [] {
      assert r[0] == l[0];
    }
  }

  lemma {:induction false} StripLeftKeeps(s: string)
    ensures NonSpace(StripLeft(s)) == NonSpace(s)
  {
    var l := StripLeft(s);
    var i := |s| - |l|;
    assert forall k :: 0 <= k < i ==> IsSpace(s[..i][k]) by {
      StripLeftSkipped(s);
    }
    AllSpace(s[..i]);
    assert s == s[..i] + l;
    NonSpaceAppend(s[..i], l);
  }

  lemma {:induction false} StripRightKeeps(l: string)
    ensures NonSpace(StripRight(l)) == NonSpace(l)
  {
    var r := StripRight(l);
    StripRightSkipped(l);
    AllSpace(l[|r|..]);
    assert l == r + l[|r|..];
    NonSpaceAppend(r, l[|r|..]);
  }

  lemma {:induction false} AllSpace(s: string)
    requires forall i :: 0 <= i < |s| ==> IsSpace(s[i])
    ensures NonSpace(s) == []
  {
    if s != [] {
      AllSpace(s[1..]);
    }
  }

  /** The longest suffix of `s` that does not start with a character of `cls`. */
  function SkipRun(s: string, cls: set<char>): (r: string)
    ensures |r| <= |s| && r == s[|s| - |r|..]
    ensures r == [] || r[0] !in cls
  {
    if s != [] && s[0] in cls then SkipRun(s[1..], cls) else s
  }

  /** What `SkipRun` skips belongs to the class. */
  lemma {:induction false} SkipRunSkipped(s: string, cls: set<char>)
    ensures forall i :: 0 <= i < |s| - |SkipRun(s, cls)| ==> s[i] in cls
  {
    if s != [] && s[0] in cls {
      SkipRunSkipped(s[1..], cls);
    }
  }

  /** The character a collapse writes for the head of a run or a lone character. */
  function Lead(c: char, cls: set<char>, rep: char): char {
    if c in cls then rep else c
  }

  /** What a collapse goes on with after its first character. */
  function Rest(s: string, cls: set<char>): (t: string)
    requires s != []
    ensures |t| < |s| && t == s[|s| - |t|..]
    ensures s[0] in cls ==> t == [] || t[0] !in cls
    ensures s[0] !in cls ==> t == s[1..]
  {
    if s[0] in cls then SkipRun(s, cls) else s[1..]
  }

  /**
   * `re.sub('[...]+', rep, s)`: every maximal run of characters of `cls`
   * becomes the single character `rep`.
   */
  function Collapse(s: string, cls: set<char>, rep: char): string
    decreases |s|
  {
    if s == [] then [] else [Lead(s[0], cls, rep)] + Collapse(Rest(s, cls), cls, rep)
  }

  /** No two neighbours of `s` both belong to `cls`. */
  predicate NoAdjacent(s: string, cls: set<char>) {
    forall i :: 0 <= i < |s| - 1 ==> !(s[i] in cls && s[i + 1] in cls)
  }

  /** The first character of a collapse: a class character becomes `rep`, any other is kept. */
  lemma CollapseHead(s: string, cls: set<char>, rep: char)
    requires s != []
    ensures var r := Collapse(s, cls, rep);
      r != [] && r[0] == (if s[0] in cls then rep else s[0])
  {
  }

  /** The last character of a collapse: a class character becomes `rep`, any other is kept. */
  lemma {:induction false} CollapseLast(s: string, cls: set<char>, rep: char)
    requires s != []
    ensures var r := Collapse(s, cls, rep);
      r != [] && r[|r| - 1] == (if s[|s| - 1] in cls then rep else s[|s| - 1])
    decreases |s|
  {
    var t := Rest(s, cls);
    if t != [] {
      CollapseLast(t, cls, rep);
      assert t[|t| - 1] == s[|s| - 1];
    } else if s[0] in cls {
      SkipRunSkipped(s, cls);
      assert s[|s| - 1] in cls;
    }
  }

  /** Every class character in a collapse is `rep`. */
  lemma {:induction false} CollapseClass(s: string, cls: set<char>, rep: char)
    ensures forall i :: 0 <= i < |Collapse(s, cls, rep)| && Collapse(s, cls, rep)[i] in cls ==>
      Collapse(s, cls, rep)[i] == rep
    decreases |s|
  {
    if s != [] {
      var t := Rest(s, cls);
      CollapseClass(t, cls, rep);
      var rt := Collapse(t, cls, rep);
      var r := Collapse(s, cls, rep);
      forall i | 0 <= i < |r| && r[i] in cls ensures r[i] == rep {
        if i > 0 {
          assert r[i] == rt[i - 1];
        }
      }
    }
  }

  /** A collapse invents no character other than `rep`. */
  lemma {:induction false} CollapseSubset(s: string, cls: set<char>, rep: char)
    ensures forall c :: c in Collapse(s, cls, rep) ==> c in s || c == rep
    decreases |s|
  {
    if s != [] {
      var t := Rest(s, cls);
      CollapseSubset(t, cls, rep);
      SuffixMembers(s, |s| - |t|);
    }
  }

  lemma SuffixMembers(s: string, k: nat)
    requires k <= |s|
    ensures forall c :: c in s[k..] ==> c in s
  {
    assert s == s[..k] + s[k..];
  }

  /** After collapsing a class that contains `rep`, no two class characters are neighbours. */
  lemma {:induction false} CollapseNoAdjacent(s: string, cls: set<char>, rep: char)
    requires rep in cls
    ensures NoAdjacent(Collapse(s, cls, rep), cls)
    decreases |s|
  {
    if s != [] {
      var t := Rest(s, cls);
      CollapseNoAdjacent(t, cls, rep);
      if s[0] in cls && t != [] {
        CollapseHead(t, cls, rep);
      }
    }
  }

  /** Collapsing whitespace keeps every non-whitespace character, in order. */
  lemma {:induction false} CollapseKeepsNonSpace(s: string, cls: set<char>, rep: char)
    requires IsSpace(rep) && forall c :: c in cls ==> IsSpace(c)
    ensures NonSpace(Collapse(s, cls, rep)) == NonSpace(s)
    decreases |s|
  {
    if s != [] {
      var t := Rest(s, cls);
      CollapseKeepsNonSpace(t, cls, rep);
      RestKeepsNonSpace(s, cls, rep);
      NonSpaceAppend([Lead(s[0], cls, rep)], Collapse(t, cls, rep));
    }
  }

  /** The first character a collapse writes stands for the part of the input it skips. */
  lemma {:induction false} RestKeepsNonSpace(s: string, cls: set<char>, rep: char)
    requires s != [] && IsSpace(rep) && forall c :: c in cls ==> IsSpace(c)
    ensures NonSpace(s) == NonSpace([Lead(s[0], cls, rep)]) + NonSpace(Rest(s, cls))
  {
    var t := Rest(s, cls);
    var skipped := s[..|s| - |t|];
    assert s == skipped + t;
    NonSpaceAppend(skipped, t);
    if s[0] in cls {
      SkipRunSkipped(s, cls);
      AllSpace(skipped);
      assert NonSpace([rep]) == [];
    } else {
      assert skipped == [s[0]];
    }
  }

  /**
   * Collapsing one class leaves adjacency of characters of another,
   * disjoint class unchanged.
   */
  lemma {:induction false} CollapseKeepsNoAdjacent(s: string, cls: set<char>, rep: char, other: set<char>)
    requires rep in cls && rep !in other && cls !! other
    requires NoAdjacent(s, other)
    ensures NoAdjacent(Collapse(s, cls, rep), other)
    decreases |s|
  {
    if s != [] {
      var t := Rest(s, cls);
      NoAdjacentSuffix(s, |s| - |t|, other);
      CollapseKeepsNoAdjacent(t, cls, rep, other);
      var rt := Collapse(t, cls, rep);
      if t != [] {
        CollapseHead(t, cls, rep);
        assert !(Lead(s[0], cls, rep) in other && rt[0] in other) by {
          if s[0] !in cls && t[0] !in cls {
            assert t[0] == s[1];
          }
        }
      }
      NoAdjacentCons(Lead(s[0], cls, rep), rt, other);
    }
  }

  lemma NoAdjacentCons(h: char, s: string, cls: set<char>)
    requires NoAdjacent(s, cls) && (s != [] ==> !(h in cls && s[0] in cls))
    ensures NoAdjacent([h] + s, cls)
  {
    var r := [h] + s;
    forall i | 0 <= i < |r| - 1 ensures !(r[i] in cls && r[i + 1] in cls) {
      if i > 0 {
        assert r[i] == s[i - 1] && r[i + 1] == s[i];
      }
    }
  }

  lemma NoAdjacentSuffix(s: string, k: nat, cls: set<char>)
    requires k <= |s| && NoAdjacent(s, cls)
    ensures NoAdjacent(s[k..], cls)
  {
    var t := s[k..];
    forall i | 0 <= i < |t| - 1 ensures !(t[i] in cls && t[i + 1] in cls) {
      assert t[i] == s[k + i] && t[i + 1] == s[k + i + 1];
    }
  }

  /**
   * The response clean-up of MemoryManagement.py `cleanup_response` and of the
   * tail of raven_memory_management.py `process_gpt_memory_response`:
   * strip, then `[\r\n]+` to a newline, then `[\t ]+` to a space.
   */
  function CleanupResponse(s: string): string {
    Collapse(Collapse(Strip(s), LineBreaks, '\n'), Blanks, ' ')
  }

  /**
   * A cleaned response has no carriage return or tab, no blank line, no
   * double space, no whitespace at either end, and the same non-whitespace
   * characters as the raw response.
   */
  lemma {:induction false} CleanupResponseSpec(s: string)
    ensures var r := CleanupResponse(s);
      && '\r' !in r && '\t' !in r
      && NoAdjacent(r, {'\n'}) && NoAdjacent(r, {' '})
      && (r == [] || (!IsSpace(r[0]) && !IsSpace(r[|r| - 1])))
      && NonSpace(r) == NonSpace(s)
  {
    var a := Strip(s);
    StripSpec(s);
    CleanupChars(a);
    CleanupAdjacency(a);
    CleanupEnds(a);
    CleanupKeepsNonSpace(a);
  }

  /** The two collapses keep the non-whitespace characters. */
  lemma {:induction false} CleanupKeepsNonSpace(a: string)
    ensures NonSpace(Collapse(Collapse(a, LineBreaks, '\n'), Blanks, ' ')) == NonSpace(a)
  {
    assert forall c :: c in LineBreaks ==> IsSpace(c);
    assert forall c :: c in Blanks ==> IsSpace(c);
    CollapseKeepsNonSpace(a, LineBreaks, '\n');
    CollapseKeepsNonSpace(Collapse(a, LineBreaks, '\n'), Blanks, ' ');
  }

  /** The two collapses leave no carriage return and no tab. */
  lemma {:induction false} CleanupChars(a: string)
    ensures var r := Collapse(Collapse(a, LineBreaks, '\n'), Blanks, ' ');
      '\r' !in r && '\t' !in r
  {
    var b := Collapse(a, LineBreaks, '\n');
    var r := Collapse(b, Blanks, ' ');
    CollapseClass(a, LineBreaks, '\n');
    CollapseClass(b, Blanks, ' ');
    CollapseSubset(b, Blanks, ' ');
    assert '\r' !in b by {
      forall i | 0 <= i < |b| ensures b[i] != '\r' {
        assert b[i] in LineBreaks ==> b[i] == '\n';
      }
    }
    forall i | 0 <= i < |r| ensures r[i] != '\t' && r[i] != '\r' {
      assert r[i] in Blanks ==> r[i] == ' ';
      assert r[i] !in Blanks ==> r[i] in b;
    }
  }

  /** The two collapses leave no two neighbouring line breaks and no two neighbouring blanks. */
  lemma {:induction false} CleanupAdjacency(a: string)
    ensures var r := Collapse(Collapse(a, LineBreaks, '\n'), Blanks, ' ');
      NoAdjacent(r, {'\n'}) && NoAdjacent(r, {' '})
  {
    var b := Collapse(a, LineBreaks, '\n');
    var r := Collapse(b, Blanks, ' ');
    CollapseNoAdjacent(a, LineBreaks, '\n');
    CollapseNoAdjacent(b, Blanks, ' ');
    CollapseKeepsNoAdjacent(b, Blanks, ' ', LineBreaks);
  }

  /** On a stripped text, the two collapses begin and end on non-whitespace. */
  lemma {:induction false} CleanupEnds(a: string)
    requires a == [] || (!IsSpace(a[0]) && !IsSpace(a[|a| - 1]))
    ensures var r := Collapse(Collapse(a, LineBreaks, '\n'), Blanks, ' ');
      r == [] || (!IsSpace(r[0]) && !IsSpace(r[|r| - 1]))
  {
    if a != [] {
      var b := Collapse(a, LineBreaks, '\n');
      assert b != [] && !IsSpace(b[0]) && !IsSpace(b[|b| - 1]) by {
        assert a[0] !in LineBreaks && a[|a| - 1] !in LineBreaks;
        CollapseHead(a, LineBreaks, '\n');
        CollapseLast(a, LineBreaks, '\n');
      }
      assert b[0] !in Blanks && b[|b| - 1] !in Blanks;
      CollapseHead(b, Blanks, ' ');
      CollapseLast(b, Blanks, ' ');
    }
  }

  // An independent account of the clean-up: cut the stripped text into
  // maximal runs of line breaks, maximal runs of blanks and single other
  // characters; each line-break run becomes one newline, each blank run
  // one space, and every other character stays.

  predicate AllIn(p: string, cls: set<char>) {
    forall i :: 0 <= i < |p| ==> p[i] in cls
  }

  /** One piece of the cut: a run of line breaks, a run of blanks, or one other character. */
  predicate Piece(p: string) {
    p != [] && (AllIn(p, LineBreaks) || AllIn(p, Blanks) || (|p| == 1 && p[0] !in LineBreaks && p[0] !in Blanks))
  }

  function Concat(parts: seq<string>): string {
    if parts == [] then [] else parts[0] + Concat(parts[1..])
  }

  /** `parts` cuts `a` into pieces, and no two neighbouring pieces are runs of the same class. */
  predicate Cut(a: string, parts: seq<string>) {
    && Concat(parts) == a
    && (forall i :: 0 <= i < |parts| ==> Piece(parts[i]))
    && (forall i :: 0 <= i < |parts| - 1 ==>
          !(parts[i][0] in LineBreaks && parts[i + 1][0] in LineBreaks)
          && !(parts[i][0] in Blanks && parts[i + 1][0] in Blanks))
  }

  /** What the clean-up writes for one piece. */
  function Squash(p: string): string
    requires p != []
  {
    if p[0] in LineBreaks then "\n" else if p[0] in Blanks then " " else p
  }

  function Squashed(parts: seq<string>): string
    requires forall i :: 0 <= i < |parts| ==> parts[i] != []
  {
    if parts == [] then [] else Squash(parts[0]) + Squashed(parts[1..])
  }

  /** The class of runs a character starts: line breaks, blanks, or none. */
  function RunClass(c: char): set<char> {
    if c in LineBreaks then LineBreaks else if c in Blanks then Blanks else {}
  }

  /** The length of the first piece of the maximal cut of `a`. */
  function PieceLength(a: string): (k: nat)
    requires a != []
    ensures 0 < k <= |a|
    ensures RunClass(a[0]) == {} ==> k == 1
    ensures RunClass(a[0]) != {} ==> a[k..] == SkipRun(a, RunClass(a[0]))
  {
    if RunClass(a[0]) == {} then 1 else |a| - |SkipRun(a, RunClass(a[0]))|
  }

  /** The maximal cut of `a`. */
  function Pieces(a: string): seq<string>
    decreases |a|
  {
    if a == [] then [] else [a[..PieceLength(a)]] + Pieces(a[PieceLength(a)..])
  }

  /** `Pieces` is a maximal cut, so one always exists. */
  lemma {:induction false} PiecesCut(a: string)
    ensures Cut(a, Pieces(a))
    decreases |a|
  {
    if a != [] {
      var k := PieceLength(a);
      var p, t := a[..k], a[k..];
      PiecesCut(t);
      assert a == p + t;
      FirstPiece(a);
      CutCons(p, t, Pieces(t));
    }
  }

  /** The first piece of the maximal cut is a piece, of the class of its first character. */
  lemma FirstPiece(a: string)
    requires a != []
    ensures var p := a[..PieceLength(a)];
      Piece(p) && p[0] == a[0]
  {
    var cls := RunClass(a[0]);
    var p := a[..PieceLength(a)];
    if cls != {} {
      SkipRunSkipped(a, cls);
      assert forall i :: 0 <= i < |p| ==> p[i] == a[i];
      assert AllIn(p, cls);
    }
  }

  /** A piece in front of a cut, not continuing its first run, gives a cut. */
  lemma CutCons(p: string, t: string, rest: seq<string>)
    requires Piece(p) && Cut(t, rest)
    requires t != [] ==> !(p[0] in LineBreaks && t[0] in LineBreaks) && !(p[0] in Blanks && t[0] in Blanks)
    ensures Cut(p + t, [p] + rest)
  {
    var parts := [p] + rest;
    assert parts[1..] == rest;
    if rest != [] {
      assert t == rest[0] + Concat(rest[1..]);
      assert rest[0][0] == t[0];
    }
    forall i | 0 <= i < |parts| ensures Piece(parts[i]) {
      if i > 0 {
        assert parts[i] == rest[i - 1];
      }
    }
    forall i | 0 <= i < |parts| - 1
      ensures !(parts[i][0] in LineBreaks && parts[i + 1][0] in LineBreaks)
           && !(parts[i][0] in Blanks && parts[i + 1][0] in Blanks)
    {
      if i > 0 {
        assert parts[i] == rest[i - 1] && parts[i + 1] == rest[i];
      }
    }
  }

  /** Taking the first piece off a cut leaves a cut of the rest, which does not continue that piece's run. */
  lemma CutTail(a: string, parts: seq<string>)
    requires Cut(a, parts) && parts != []
    ensures var p, rest := parts[0], Concat(parts[1..]);
      && Piece(p) && a == p + rest && Cut(rest, parts[1..])
      && (rest != [] ==> !(p[0] in LineBreaks && rest[0] in LineBreaks) && !(p[0] in Blanks && rest[0] in Blanks))
  {
    var ps := parts[1..];
    assert Piece(parts[0]);
    forall i | 0 <= i < |ps| ensures Piece(ps[i]) {
      assert ps[i] == parts[i + 1];
    }
    forall i | 0 <= i < |ps| - 1
      ensures !(ps[i][0] in LineBreaks && ps[i + 1][0] in LineBreaks)
           && !(ps[i][0] in Blanks && ps[i + 1][0] in Blanks)
    {
      assert ps[i] == parts[i + 1] && ps[i + 1] == parts[i + 2];
    }
    if Concat(ps) != [] {
      assert ps != [];
      assert Concat(ps) == ps[0] + Concat(ps[1..]);
      assert Concat(ps)[0] == ps[0][0];
      assert ps[0] == parts[1];
    }
  }

  /**
   * For every maximal cut of the stripped response, the cleaned response is
   * the cut with each line-break run written as one newline and each blank
   * run as one space (such a cut always exists: `PiecesCut`).
   */
  lemma CleanupRuns(s: string)
    ensures forall parts :: Cut(Strip(s), parts) ==> CleanupResponse(s) == Squashed(parts)
  {
    forall parts | Cut(Strip(s), parts) ensures CleanupResponse(s) == Squashed(parts) {
      CollapseCut(Strip(s), parts);
    }
  }

  lemma {:induction false} CollapseCut(a: string, parts: seq<string>)
    requires Cut(a, parts)
    ensures Collapse(Collapse(a, LineBreaks, '\n'), Blanks, ' ') == Squashed(parts)
    decreases |parts|
  {
    if parts != [] {
      var p, ps := parts[0], parts[1..];
      var rest := Concat(ps);
      CutTail(a, parts);
      CollapseCut(rest, ps);
      CollapsePiece(p, rest);
    }
  }

  /** Both collapses on one piece followed by text that does not continue its run. */
  lemma CollapsePiece(p: string, rest: string)
    requires Piece(p)
    requires rest != [] ==> !(p[0] in LineBreaks && rest[0] in LineBreaks) && !(p[0] in Blanks && rest[0] in Blanks)
    ensures Collapse(Collapse(p + rest, LineBreaks, '\n'), Blanks, ' ')
         == Squash(p) + Collapse(Collapse(rest, LineBreaks, '\n'), Blanks, ' ')
  {
    if p[0] in LineBreaks {
      assert AllIn(p, LineBreaks) by {
        assert !AllIn(p, Blanks) by { assert p[0] !in Blanks; }
      }
      CollapseBreaks(p, rest);
    } else if p[0] in Blanks {
      assert AllIn(p, Blanks) by {
        assert !AllIn(p, LineBreaks) by { assert p[0] !in LineBreaks; }
      }
      CollapseBlanks(p, rest);
    } else {
      assert p == [p[0]];
      CollapseFree(p, rest, LineBreaks, '\n');
      CollapseFree(p, Collapse(rest, LineBreaks, '\n'), Blanks, ' ');
    }
  }

  /** A run of line breaks becomes one newline, which the blank collapse keeps. */
  lemma CollapseBreaks(p: string, rest: string)
    requires p != [] && AllIn(p, LineBreaks) && (rest == [] || rest[0] !in LineBreaks)
    ensures Collapse(Collapse(p + rest, LineBreaks, '\n'), Blanks, ' ')
         == "\n" + Collapse(Collapse(rest, LineBreaks, '\n'), Blanks, ' ')
  {
    var y := Collapse(rest, LineBreaks, '\n');
    SkipRunConcat(p, rest, LineBreaks);
    assert Collapse(p + rest, LineBreaks, '\n') == ['\n'] + y;
    CollapseFree(['\n'], y, Blanks, ' ');
  }

  /** A run of blanks passes the line-break collapse and becomes one space. */
  lemma CollapseBlanks(p: string, rest: string)
    requires p != [] && AllIn(p, Blanks) && (rest == [] || rest[0] !in Blanks)
    ensures Collapse(Collapse(p + rest, LineBreaks, '\n'), Blanks, ' ')
         == " " + Collapse(Collapse(rest, LineBreaks, '\n'), Blanks, ' ')
  {
    var y := Collapse(rest, LineBreaks, '\n');
    CollapseFree(p, rest, LineBreaks, '\n');
    if rest != [] {
      CollapseHead(rest, LineBreaks, '\n');
    }
    SkipRunConcat(p, y, Blanks);
  }

  /** A run of class characters followed by a non-class character is skipped whole. */
  lemma {:induction false} SkipRunConcat(p: string, x: string, cls: set<char>)
    requires AllIn(p, cls) && (x == [] || x[0] !in cls)
    ensures SkipRun(p + x, cls) == x
  {
    if p != [] {
      assert (p + x)[1..] == p[1..] + x;
      SkipRunConcat(p[1..], x, cls);
    } else {
      assert p + x == x;
    }
  }

  /** Text without class characters passes a collapse unchanged. */
  lemma {:induction false} CollapseFree(p: string, x: string, cls: set<char>, rep: char)
    requires forall i :: 0 <= i < |p| ==> p[i] !in cls
    ensures Collapse(p + x, cls, rep) == p + Collapse(x, cls, rep)
  {
    if p != [] {
      var c, q := p[0], p[1..];
      assert p == [c] + q;
      ConsAppend(c, q, x);
      CollapseCons(c, q + x, cls, rep);
      assert forall i :: 0 <= i < |q| ==> q[i] == p[i + 1];
      CollapseFree(q, x, cls, rep);
      ConsAppend(c, q, Collapse(x, cls, rep));
    } else {
      assert p + x == x;
    }
  }

  /** Prepending a character to a concatenation prepends it to its first part. */
  lemma ConsAppend(c: char, q: string, y: string)
    ensures [c] + (q + y) == ([c] + q) + y
  {
  }

  /** A character outside the class is copied and the collapse goes on after it. */
  lemma CollapseCons(c: char, x: string, cls: set<char>, rep: char)
    requires c !in cls
    ensures Collapse([c] + x, cls, rep) == [c] + Collapse(x, cls, rep)
  {
    assert ([c] + x)[0] == c && ([c] + x)[1..] == x;
  }

  /** Python's `sep.join(parts)`. */
  function Join(parts: seq<string>, sep: string): (r: string)
    ensures parts == [] ==> r == []
    ensures |parts| == 1 ==> r == parts[0]
  {
    if parts == [] then []
    else if |parts| == 1 then parts[0]
    else parts[0] + sep + Join(parts[1..], sep)
  }

  /** The length of a join: every part plus one separator between neighbours. */
  lemma {:induction false} JoinLength(parts: seq<string>, sep: string)
    requires parts != []
    ensures |Join(parts, sep)| == SumLengths(parts) + (|parts| - 1) * |sep|
  {
    if |parts| > 1 {
      JoinLength(parts[1..], sep);
    }
  }

  /** Python's `s.split(sep)` on a one-character separator. */
  function Split(s: string, sep: char): (r: seq<string>)
    ensures r != []
  {
    if s == [] then [[]]
    else
      var rest := Split(s[1..], sep);
      if s[0] == sep then [[]] + rest else [[s[0]] + rest[0]] + rest[1..]
  }

  /** Text without the separator joins the first field of what follows it. */
  lemma {:induction false} SplitPlain(p: string, x: string, sep: char)
    requires sep !in p
    ensures Split(p + x, sep) == [p + Split(x, sep)[0]] + Split(x, sep)[1..]
  {
    if p != [] {
      assert (p + x)[0] == p[0] && (p + x)[1..] == p[1..] + x;
      SplitPlain(p[1..], x, sep);
      assert [p[0]] + (p[1..] + Split(x, sep)[0]) == p + Split(x, sep)[0];
    } else {
      var r := Split(x, sep);
      assert p + x == x && p + r[0] == r[0];
      assert [r[0]] + r[1..] == r;
    }
  }

  /** Splitting a join on its one-character separator gives the parts back, when no part holds it. */
  lemma {:induction false} SplitJoin(parts: seq<string>, sep: char)
    requires parts != [] && forall i :: 0 <= i < |parts| ==> sep !in parts[i]
    ensures Split(Join(parts, [sep]), sep) == parts
  {
    if |parts| == 1 {
      SplitPlain(parts[0], [], sep);
      assert parts[0] + [] == parts[0];
    } else {
      var j := Join(parts[1..], [sep]);
      SplitJoin(parts[1..], sep);
      assert ([sep] + j)[1..] == j;
      assert Split([sep] + j, sep) == [[]] + parts[1..];
      assert parts[0] + [sep] + j == parts[0] + ([sep] + j);
      SplitPlain(parts[0], [sep] + j, sep);
      assert parts[0] + [] == parts[0];
      assert [parts[0]] + parts[1..] == parts;
    }
  }

  function SumLengths(parts: seq<string>): nat {
    if parts == [] then 0 else |parts[0]| + SumLengths(parts[1..])
  }

  /** Python's `s.replace("'", "''")`. */
  function EscapeQuotes(s: string): (r: string)
    ensures |r| == |s| + Count(s, '\'')
  {
    if s == [] then []
    else (if s[0] == '\'' then "''" else [s[0]]) + EscapeQuotes(s[1..])
  }

  function Count(s: string, c: char): nat {
    if s == [] then 0 else (if s[0] == c then 1 else 0) + Count(s[1..], c)
  }

  lemma {:induction false} CountConcat(a: string, b: string, c: char)
    ensures Count(a + b, c) == Count(a, c) + Count(b, c)
  {
    if a != [] {
      CountConcat(a[1..], b, c);
      assert (a + b)[0] == a[0];
      assert (a + b)[1..] == a[1..] + b;
    } else {
      assert a + b == b;
    }
  }

  /** Reads back a doubled-quote body: the inverse of `EscapeQuotes`. */
  function UnescapeQuotes(s: string): Option<string>
  {
    if s == [] then Some([])
    else if s[0] != '\'' then
      match UnescapeQuotes(s[1..]) case Some(t) => Some([s[0]] + t) case None => None
    else if |s| >= 2 && s[1] == '\'' then
      match UnescapeQuotes(s[2..]) case Some(t) => Some(['\''] + t) case None => None
    else None
  }

  /** Escaping then reading back gives the original text. */
  lemma {:induction false} EscapeRoundTrip(s: string)
    ensures UnescapeQuotes(EscapeQuotes(s)) == Some(s)
  {
    if s != [] {
      EscapeRoundTrip(s[1..]);
      if s[0] == '\'' {
        UnescapeDoubled(EscapeQuotes(s[1..]));
      } else {
        UnescapePlain(s[0], EscapeQuotes(s[1..]));
      }
      assert [s[0]] + s[1..] == s;
    }
  }

  /** A doubled quote reads back as one. */
  lemma UnescapeDoubled(rest: string)
    ensures UnescapeQuotes("''" + rest) ==
              match UnescapeQuotes(rest) case Some(t) => Some(['\''] + t) case None => None
  {
    var e := "''" + rest;
    assert e[0] == '\'' && e[1] == '\'' && e[2..] == rest;
  }

  /** Any other character reads back as itself. */
  lemma UnescapePlain(c: char, rest: string)
    requires c != '\''
    ensures UnescapeQuotes([c] + rest) ==
              match UnescapeQuotes(rest) case Some(t) => Some([c] + t) case None => None
  {
    var e := [c] + rest;
    assert e[0] == c && e[1..] == rest;
  }

  datatype Option<+T> = None | Some(value: T)
}
