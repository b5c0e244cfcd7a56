/**
 * The SQLite row helpers of sqlite3_test.py and querytest.py: rows as
 * Python dictionaries, the row factory that decodes JSON-looking text, the
 * SELECT, UPDATE and INSERT OR REPLACE statements they build, the table
 * template and the row object filled from keyword arguments.
 */
module SqlRows {
  import opened Text
  import opened JsonValue
  import opened Sorting

  /**
   * A Python value held in a row. `VJson` stands for every other object
   * `json.dumps` can write: an int, a bool, a list or a dict.
   */
  datatype Value =
    | VNone
    | VStr(s: string)
    | VReal(r: real)
    | VBytes(b: seq<bv8>)
    | VJson(j: Json)

  /** Text that is never empty, as Python's `repr` of a float is. */
  type NonEmptyText = s: string | s != [] witness "0"

  /**
   * The renderings the model does not spell out: `repr` of a float (which
   * `str` and `json.dumps` also write), `str` of a bytes object and `str`
   * of a list or dict.
   */
  datatype Render = Render(
    floatRepr: real -> NonEmptyText,
    bytesRepr: seq<bv8> -> string,
    pyRepr: Json -> string)

  /** Python's `str(v)`, as an f-string writes a value. */
  function PyStr(v: Value, rd: Render): string {
    match v
    case VNone => "None"
    case VStr(s) => s
    case VReal(r) => rd.floatRepr(r)
    case VBytes(b) => rd.bytesRepr(b)
    case VJson(j) =>
      match j
      case JNull => "None"
      case JBool(b) => if b then "True" else "False"
      case JNum(n) => IntToString(n)
      case JStr(s) => s
      case _ => rd.pyRepr(j)
  }

  /** `json.dumps(v)`; `None` when it raises `TypeError` (a bytes object). */
  function JsonText(v: Value, rd: Render): (r: Option<string>)
    ensures r.None? <==> v.VBytes?
    ensures r.Some? ==> r.value != []
  {
    match v
    case VNone => Some("null")
    case VStr(s) => Some(Quote(s))
    case VReal(r) => Some(rd.floatRepr(r))
    case VBytes(_) => None
    case VJson(j) => Some(Dumps(j))
  }

  // ---------------------------------------------------------------------
  // Rows as dictionaries

  /** A dictionary: its items in insertion order. */
  type Row = seq<(string, Value)>

  function Keys(row: Row): (ks: seq<string>)
    ensures |ks| == |row| && forall i :: 0 <= i < |row| ==> ks[i] == row[i].0
  {
    seq(|row|, i requires 0 <= i < |row| => row[i].0)
  }

  /** No key occurs twice, as in every Python dictionary. */
  predicate DistinctKeys(row: Row) {
    forall i, j :: 0 <= i < j < |row| ==> row[i].0 != row[j].0
  }

  /** The position of the first `k` in `ks`. */
  function Find(ks: seq<string>, k: string): (i: nat)
    requires k in ks
    ensures i < |ks| && ks[i] == k && k !in ks[..i]
  {
    if ks[0] == k then 0
    else
      var i := Find(ks[1..], k);
      assert ks[..i + 1] == [ks[0]] + ks[1..][..i];
      i + 1
  }

  /** The first occurrence is the only index before which `k` does not occur. */
  lemma FindUnique(ks: seq<string>, k: string, i: nat)
    requires i < |ks| && ks[i] == k && k !in ks[..i]
    ensures Find(ks, k) == i
  {
  }

  /** `d.get(k)`: the value stored under `k`, if any. */
  function Get(row: Row, k: string): (r: Option<Value>)
    ensures r.None? <==> k !in Keys(row)
  {
    if k in Keys(row) then Some(row[Find(Keys(row), k)].1) else None
  }

  /**
   * `d[k] = v`: a key already present keeps its place and takes the new
   * value; a new key goes at the end. No other key changes.
   */
  function Put(row: Row, k: string, v: Value): (r: Row)
    ensures Keys(r) == if k in Keys(row) then Keys(row) else Keys(row) + [k]
    ensures Get(r, k) == Some(v)
    ensures forall k' :: k' != k ==> Get(r, k') == Get(row, k')
    ensures DistinctKeys(row) ==> DistinctKeys(r)
  {
    if k in Keys(row) then
      var i := Find(Keys(row), k);
      var r := row[i := (k, v)];
      assert Keys(r) == Keys(row);
      r
    else
      var r := row + [(k, v)];
      assert Keys(r) == Keys(row) + [k];
      PutNewKey(row, k, v);
      r
  }

  /** Appending a new key leaves the first occurrence of every other key where it was. */
  lemma PutNewKey(row: Row, k: string, v: Value)
    requires k !in Keys(row)
    ensures var r := row + [(k, v)];
      && Get(r, k) == Some(v)
      && (forall k' :: k' != k ==> Get(r, k') == Get(row, k'))
  {
    var r := row + [(k, v)];
    var ks := Keys(row);
    assert Keys(r) == ks + [k];
    assert (ks + [k])[..|ks|] == ks;
    FindUnique(ks + [k], k, |ks|);
    forall k' | k' != k ensures Get(r, k') == Get(row, k') {
      if k' in ks {
        var j := Find(ks, k');
        assert (ks + [k])[..j] == ks[..j];
        FindUnique(ks + [k], k', j);
      }
    }
  }

  /** The dictionary built by storing the pairs one after the other, as `d[k] = v` does. */
  function FromPairs(pairs: Row): Row {
    if pairs == [] then []
    else
      var last := pairs[|pairs| - 1];
      Put(FromPairs(pairs[..|pairs| - 1]), last.0, last.1)
  }

  /** The keys of the dictionary are the keys of the pairs, each once. */
  lemma {:induction false} FromPairsKeys(pairs: Row)
    ensures DistinctKeys(FromPairs(pairs))
    ensures forall k :: k in Keys(FromPairs(pairs)) <==> k in Keys(pairs)
  {
    if pairs != [] {
      var init := pairs[..|pairs| - 1];
      FromPairsKeys(init);
      assert Keys(pairs) == Keys(init) + [pairs[|pairs| - 1].0];
    }
  }

  /** Pairs whose keys are already distinct are the dictionary itself, in the same order. */
  lemma {:induction false} FromPairsDistinct(pairs: Row)
    requires DistinctKeys(pairs)
    ensures FromPairs(pairs) == pairs
  {
    if pairs != [] {
      var init := pairs[..|pairs| - 1];
      var last := pairs[|pairs| - 1];
      FromPairsDistinct(init);
      assert last.0 !in Keys(init);
      assert init + [last] == pairs;
    }
  }

  /** Under a repeated key the dictionary holds the last value stored. */
  lemma {:induction false} FromPairsLastWins(pairs: Row, i: nat)
    requires i < |pairs| && pairs[i].0 !in Keys(pairs[i + 1..])
    ensures Get(FromPairs(pairs), pairs[i].0) == Some(pairs[i].1)
  {
    var init := pairs[..|pairs| - 1];
    var last := pairs[|pairs| - 1];
    if i < |pairs| - 1 {
      assert last.0 in Keys(pairs[i + 1..]) by {
        assert pairs[i + 1..][|pairs| - i - 2] == last;
      }
      assert pairs[i].0 !in Keys(init[i + 1..]) by {
        var tail := init[i + 1..];
        forall j | 0 <= j < |tail| ensures tail[j].0 != pairs[i].0 {
          assert tail[j] == pairs[i + 1..][j];
        }
      }
      assert init[i] == pairs[i];
      FromPairsLastWins(init, i);
    }
  }

  /** Python's `d = {}; for idx, col in ...: d[col] = decode(row[idx])`. */
  function Pairs(columns: seq<string>, row: seq<Value>, decode: Value -> Value): (ps: Row)
    requires |columns| == |row|
    ensures |ps| == |columns| && forall i :: 0 <= i < |ps| ==> ps[i] == (columns[i], decode(row[i]))
  {
    seq(|columns|, i requires 0 <= i < |columns| => (columns[i], decode(row[i])))
  }

  /**
   * The row factory: one entry per column name, holding the decoded value
   * of the last column of that name; with distinct names, the columns in
   * order.
   */
  method DictFactory(columns: seq<string>, row: seq<Value>, decode: Value -> Value) returns (d: Row)
    requires |columns| == |row|
    ensures d == FromPairs(Pairs(columns, row, decode))
    ensures DistinctKeys(d) && forall k :: k in Keys(d) <==> k in columns
    ensures forall i :: 0 <= i < |columns| && columns[i] !in columns[i + 1..] ==> Get(d, columns[i]) == Some(decode(row[i]))
  {
    ghost var pairs := Pairs(columns, row, decode);
    d := [];
    for idx := 0 to |columns|
      invariant d == FromPairs(pairs[..idx])
    {
      assert pairs[..idx + 1][..idx] == pairs[..idx];
      var value := decode(row[idx]);
      d := Put(d, columns[idx], value);
    }
    assert pairs[..|columns|] == pairs;
    FromPairsSpec(pairs);
    assert Keys(pairs) == columns;
  }

  /**
   * The dictionary built from pairs has each of their keys once, and under
   * each key the value of its last pair.
   */
  lemma FromPairsSpec(pairs: Row)
    ensures DistinctKeys(FromPairs(pairs))
    ensures forall k :: k in Keys(FromPairs(pairs)) <==> k in Keys(pairs)
    ensures forall i :: 0 <= i < |pairs| && pairs[i].0 !in Keys(pairs)[i + 1..] ==> Get(FromPairs(pairs), pairs[i].0) == Some(pairs[i].1)
  {
    FromPairsKeys(pairs);
    forall i | 0 <= i < |pairs| && pairs[i].0 !in Keys(pairs)[i + 1..]
      ensures Get(FromPairs(pairs), pairs[i].0) == Some(pairs[i].1)
    {
      assert Keys(pairs[i + 1..]) == Keys(pairs)[i + 1..];
      FromPairsLastWins(pairs, i);
    }
  }

  /** A string `dict_factory` tries to parse: `[...]` or `{...}`. */
  predicate LooksJson(s: string) {
    (StartsWith(s, "[") && EndsWith(s, "]")) || (StartsWith(s, "{") && EndsWith(s, "}"))
  }

  /** The Python object `json.loads` gives back. */
  function ValueOf(j: Json): Value {
    match j
    case JNull => VNone
    case JStr(s) => VStr(s)
    case _ => VJson(j)
  }

  /**
   * The value `dict_factory` of sqlite3_test.py stores: JSON-looking text
   * parsed with `loads` (`None` when it raises `JSONDecodeError`, and the
   * text is kept), anything else as it is.
   */
  function Decoded(v: Value, loads: string -> Option<Json>): (r: Value)
    ensures !(v.VStr? && LooksJson(v.s)) ==> r == v
    ensures v.VStr? && LooksJson(v.s) && loads(v.s).None? ==> r == v
    ensures v.VStr? && LooksJson(v.s) && loads(v.s).Some? ==> r == ValueOf(loads(v.s).value)
  {
    if v.VStr? && LooksJson(v.s) then
      match loads(v.s)
      case Some(j) => ValueOf(j)
      case None => v
    else v
  }

  // ---------------------------------------------------------------------
  // SELECT by ids

  /** A statement and the parameters bound to its `?` placeholders. */
  datatype Query = Query(sql: string, params: seq<Value>)

  /** The `ids` argument of `sql_query_by_ids`: `None`, a single id string, or a list. */
  datatype Ids = AllRows | OneId(id: string) | IdList(ids: seq<Value>)

  /** `sep.join('?' for _ in range(n))`. */
  function Marks(n: nat, sep: string): string {
    Join(seq(n, _ => "?"), sep)
  }

  /** One `?` per id, when the separator holds none. */
  lemma {:induction false} MarksCount(n: nat, sep: string)
    requires '?' !in sep
    ensures Count(Marks(n, sep), '?') == n
  {
    if n > 1 {
      var parts := seq(n, _ => "?");
      assert parts[1..] == seq(n - 1, _ => "?");
      MarksCount(n - 1, sep);
      CountConcat("?", sep, '?');
      CountConcat("?" + sep, Marks(n - 1, sep), '?');
      CountNone(sep, '?');
    }
  }

  lemma {:induction false} CountNone(s: string, c: char)
    requires c !in s
    ensures Count(s, c) == 0
  {
    if s != [] {
      CountNone(s[1..], c);
    }
  }

  /** A placeholder-free prefix, then `n` placeholders and a closing parenthesis. */
  lemma InListCount(prefix: string, n: nat)
    requires '?' !in prefix
    ensures Count(prefix + Marks(n, ",") + ")", '?') == n
  {
    CountNone(prefix, '?');
    MarksCount(n, ",");
    CountConcat(prefix, Marks(n, ","), '?');
    CountConcat(prefix + Marks(n, ","), ")", '?');
  }

  /** The statement of `sql_query_by_ids` for a list of ids (also querytest.py's `sql_query_by_ids`). */
  function InQuery(table: string, pk: string, ids: seq<Value>): (q: Query)
    ensures q.params == ids
    ensures '?' !in table + pk ==> Count(q.sql, '?') == |ids|
  {
    var prefix := "SELECT * FROM " + table + " WHERE " + pk + " IN (";
    assert '?' !in table + pk ==> Count(prefix + Marks(|ids|, ",") + ")", '?') == |ids| by {
      if '?' !in table + pk {
        InListCount(prefix, |ids|);
      }
    }
    Query(prefix + Marks(|ids|, ",") + ")", ids)
  }

  /**
   * `sql_query_by_ids` of sqlite3_test.py: every row when no ids are given;
   * otherwise one placeholder per id, a single id string counting as a
   * one-element list.
   */
  function QueryByIds(table: string, pk: string, ids: Ids): (q: Query)
    ensures ids.AllRows? ==> q == Query("SELECT * FROM " + table, [])
    ensures ids.OneId? ==> q == InQuery(table, pk, [VStr(ids.id)])
    ensures ids.IdList? ==> q == InQuery(table, pk, ids.ids)
    ensures !ids.AllRows? && '?' !in table + pk ==> Count(q.sql, '?') == |q.params|
  {
    match ids
    case AllRows => Query("SELECT * FROM " + table, [])
    case OneId(id) => InQuery(table, pk, [VStr(id)])
    case IdList(xs) => InQuery(table, pk, xs)
  }

  /**
   * `get_memories_by_id` of querytest.py: the IN query on the Memories
   * table, of which only the first row fetched is returned (`None` when
   * there is none).
   */
  function GetMemoriesById(ids: seq<Value>, fetched: seq<Row>): (r: (Query, Option<Row>))
    ensures r.0.params == ids && Count(r.0.sql, '?') == |ids|
    ensures r.1.None? <==> fetched == []
    ensures r.1.Some? ==> r.1.value == fetched[0]
  {
    var prefix := "select * from Memories where id in (";
    assert '?' !in prefix;
    InListCount(prefix, |ids|);
    (Query(prefix + Marks(|ids|, ",") + ")", ids), if fetched == [] then None else Some(fetched[0]))
  }

  // ---------------------------------------------------------------------
  // UPDATE

  /** The one representation of each Python value: `None` and strings are never `VJson`. */
  function Canonical(v: Value): (c: Value)
    ensures !c.VJson? || !(c.j.JNull? || c.j.JStr?)
    ensures c.VJson? ==> c == v
  {
    if v.VJson? then ValueOf(v.j) else v
  }

  /** The canonical value prints and dumps as the value does. */
  lemma CanonicalRenders(v: Value, rd: Render)
    ensures PyStr(Canonical(v), rd) == PyStr(v, rd) && JsonText(Canonical(v), rd) == JsonText(v, rd)
  {
  }

  /** A single-quoted SQL string literal around `body`. */
  function Literal(body: string): string {
    "'" + body + "'"
  }

  /**
   * The text SQLite reads from the right-hand side of a SET clause written
   * as a string literal: the body with each doubled quote read as one;
   * `None` when it is not a literal or a lone quote ends it early.
   */
  function SqlText(t: string): Option<string> {
    if |t| >= 2 && t[0] == '\'' && t[|t| - 1] == '\'' then UnescapeQuotes(t[1..|t| - 1]) else None
  }

  lemma LiteralText(body: string)
    ensures SqlText(Literal(body)) == UnescapeQuotes(body)
  {
    assert Literal(body)[1..|Literal(body)| - 1] == body;
  }

  /**
   * The right-hand side `sql_update_row` of sqlite3_test.py evidently means
   * to write for one value: `NULL` for `None` and `''`; an escaped literal
   * for any other string; for any other object its JSON dump, escaped like
   * a string. The source quotes the dump without escaping it
   * (`ClauseRhsAsWritten`). `None`: `json.dumps` raised.
   */
  function ClauseRhs(v: Value, rd: Render): (r: Option<string>)
    ensures r.None? <==> v.VBytes?
  {
    var c := Canonical(v);
    if c == VNone || c == VStr("") then Some("NULL")
    else if c.VStr? then Some(Literal(EscapeQuotes(c.s)))
    else
      match JsonText(c, rd)
      case None => None
      case Some(t) => Some(Literal(EscapeQuotes(t)))
  }

  /** The same right-hand side as the source writes it: a JSON dump is quoted without escaping. */
  function ClauseRhsAsWritten(v: Value, rd: Render): (r: Option<string>)
    ensures r.None? <==> v.VBytes?
  {
    var c := Canonical(v);
    if c == VNone || c == VStr("") then Some("NULL")
    else if c.VStr? then Some(Literal(EscapeQuotes(c.s)))
    else
      match JsonText(c, rd)
      case None => None
      case Some(t) => Some(Literal(t))
  }

  /**
   * The right-hand side `sql_update_row` of querytest.py writes: `str` of
   * the value, escaped and always quoted. `None`: `bytes.replace` raised.
   */
  function QuickRhs(v: Value, rd: Render): (r: Option<string>)
    ensures r.None? <==> v.VBytes?
  {
    if v.VBytes? then None else Some(Literal(EscapeQuotes(PyStr(v, rd))))
  }

  /** Which of the two `sql_update_row` functions writes the clauses. */
  datatype Style = NullAware | AlwaysQuoted

  function Rhs(style: Style, v: Value, rd: Render): (r: Option<string>)
    ensures r.None? <==> v.VBytes?
  {
    match style
    case NullAware => ClauseRhs(v, rd)
    case AlwaysQuoted => QuickRhs(v, rd)
  }

  /** The items other than the primary key, in row order. */
  function NonKey(items: Row, pk: string): (r: Row)
    ensures forall i :: 0 <= i < |r| ==> r[i].0 != pk
  {
    if items == [] then []
    else
      var last := items[|items| - 1];
      NonKey(items[..|items| - 1], pk) + (if last.0 == pk then [] else [last])
  }

  /** The SET clauses, one per item other than the key; `None` once a value raises. */
  function Clauses(items: Row, pk: string, style: Style, rd: Render): Option<seq<string>> {
    if items == [] then Some([])
    else
      var last := items[|items| - 1];
      match Clauses(items[..|items| - 1], pk, style, rd)
      case None => None
      case Some(cs) =>
        if last.0 == pk then Some(cs)
        else
          match Rhs(style, last.1, rd)
          case None => None
          case Some(t) => Some(cs + [last.0 + " = " + t])
  }

  /**
   * The clauses are built exactly when no value other than the key raises,
   * and then there is one `column = rhs` clause per non-key item, in row order.
   */
  lemma {:induction false} ClausesSpec(items: Row, pk: string, style: Style, rd: Render)
    ensures Clauses(items, pk, style, rd).Some? <==>
              forall i :: 0 <= i < |items| && items[i].0 != pk ==> !items[i].1.VBytes?
    ensures Clauses(items, pk, style, rd).Some? ==>
              var cs := Clauses(items, pk, style, rd).value;
              var nk := NonKey(items, pk);
              |cs| == |nk| &&
              forall i :: 0 <= i < |nk| ==>
                Rhs(style, nk[i].1, rd).Some? && cs[i] == nk[i].0 + " = " + Rhs(style, nk[i].1, rd).value
  {
    if items != [] {
      var init := items[..|items| - 1];
      var last := items[|items| - 1];
      ClausesSpec(init, pk, style, rd);
      assert forall i :: 0 <= i < |init| ==> init[i] == items[i];
    }
  }

  /** Once a value has raised, the rest of the row is not looked at. */
  lemma {:induction false} ClausesStaysNone(items: Row, pk: string, style: Style, rd: Render, k: nat)
    requires k <= |items| && Clauses(items[..k], pk, style, rd).None?
    ensures Clauses(items, pk, style, rd).None?
    decreases |items| - k
  {
    if k < |items| {
      assert items[..k + 1][..k] == items[..k];
      ClausesStaysNone(items, pk, style, rd, k + 1);
    } else {
      assert items[..k] == items;
    }
  }

  /** The statement around the clauses; the key is written with `str` and quoted. */
  function UpdateText(table: string, pk: string, clauses: seq<string>, key: Value, rd: Render): string {
    "UPDATE " + table + " SET " + Join(clauses, ", ") + " WHERE " + pk + " = '" + PyStr(key, rd) + "'"
  }

  /** `modified_on` set to the time text `now` when the row has that column. */
  function Stamp(row: Row, now: string): (r: Row)
    ensures Keys(r) == Keys(row)
    ensures Get(r, "modified_on") == if "modified_on" in Keys(row) then Some(VStr(now)) else None
    ensures forall k :: k != "modified_on" ==> Get(r, k) == Get(row, k)
    ensures DistinctKeys(row) ==> DistinctKeys(r)
  {
    if "modified_on" in Keys(row) then Put(row, "modified_on", VStr(now)) else row
  }

  /** Stamping replaces at most the `modified_on` item, in place. */
  lemma StampInPlace(row: Row, now: string)
    ensures var r := Stamp(row, now);
            |r| == |row| && forall i :: 0 <= i < |row| ==> r[i] == row[i] || r[i] == ("modified_on", VStr(now))
  {
    if "modified_on" in Keys(row) {
      assert Put(row, "modified_on", VStr(now)) == row[Find(Keys(row), "modified_on") := ("modified_on", VStr(now))];
    }
  }

  /**
   * The statement `sql_update_row` of sqlite3_test.py builds: `None` when a
   * value raises or the key is missing (`KeyError`).
   */
  function UpdateStatement(table: string, pk: string, row: Row, now: string, rd: Render): Option<string> {
    var stamped := Stamp(row, now);
    match Clauses(stamped, pk, NullAware, rd)
    case None => None
    case Some(cs) =>
      match Get(stamped, pk)
      case None => None
      case Some(key) => Some(UpdateText(table, pk, cs, key, rd))
  }

  /** The loop of both `sql_update_row` functions: one clause per non-key item, in row order. */
  method BuildClauses(items: Row, pk: string, style: Style, rd: Render) returns (clauses: Option<seq<string>>)
    ensures clauses == Clauses(items, pk, style, rd)
  {
    var built: seq<string> := [];
    for i := 0 to |items|
      invariant Clauses(items[..i], pk, style, rd) == Some(built)
    {
      assert items[..i + 1][..i] == items[..i];
      var (column, value) := items[i];
      if column != pk {
        var rhs := Rhs(style, value, rd);
        if rhs.None? {
          ClausesStaysNone(items, pk, style, rd, i + 1);
          return None;
        }
        built := built + [column + " = " + rhs.value];
      }
    }
    assert items[..|items|] == items;
    clauses := Some(built);
  }

  /**
   * `sql_update_row` of sqlite3_test.py, up to running the statement: the
   * row is stamped in place, then one clause is built per non-key column.
   */
  method SqlUpdateRow(table: string, pk: string, row: Row, now: string, rd: Render)
    returns (stamped: Row, sql: Option<string>)
    ensures stamped == Stamp(row, now)
    ensures sql == UpdateStatement(table, pk, row, now, rd)
  {
    stamped := row;
    if "modified_on" in Keys(stamped) {
      stamped := Put(stamped, "modified_on", VStr(now));
    }
    var clauses := BuildClauses(stamped, pk, NullAware, rd);
    var key := Get(stamped, pk);
    if clauses.None? || key.None? {
      return stamped, None;
    }
    sql := Some(UpdateText(table, pk, clauses.value, key.value, rd));
  }

  /** The statement `sql_update_row` of querytest.py builds; it stamps nothing. */
  function QuickUpdateStatement(table: string, pk: string, row: Row, rd: Render): Option<string> {
    match Clauses(row, pk, AlwaysQuoted, rd)
    case None => None
    case Some(cs) =>
      match Get(row, pk)
      case None => None
      case Some(key) => Some(UpdateText(table, pk, cs, key, rd))
  }

  /** `sql_update_row` of querytest.py, up to running the statement. */
  method QuickUpdateRow(table: string, pk: string, row: Row, rd: Render) returns (sql: Option<string>)
    ensures sql == QuickUpdateStatement(table, pk, row, rd)
  {
    var clauses := BuildClauses(row, pk, AlwaysQuoted, rd);
    var key := Get(row, pk);
    if clauses.None? || key.None? {
      return None;
    }
    sql := Some(UpdateText(table, pk, clauses.value, key.value, rd));
  }

  // ---------------------------------------------------------------------
  // What an UPDATE stores, read back

  /**
   * The NULL-aware clause writes `NULL` exactly for `None` and the empty
   * string; any other value becomes a literal.
   */
  lemma ClauseRhsNull(v: Value, rd: Render)
    ensures ClauseRhs(v, rd) == Some("NULL") <==> Canonical(v) == VNone || Canonical(v) == VStr("")
  {
    var c := Canonical(v);
    if !(c == VNone || c == VStr("")) && !v.VBytes? {
      assert ClauseRhs(v, rd).value[0] == '\'';
    }
  }

  /**
   * A value written as a literal reads back, quotes and all: a string as
   * itself, any other object as its JSON dump.
   */
  lemma ClauseRhsReadsBack(v: Value, rd: Render)
    requires Canonical(v) != VNone && Canonical(v) != VStr("") && !v.VBytes?
    ensures SqlText(ClauseRhs(v, rd).value) == if Canonical(v).VStr? then Some(Canonical(v).s) else JsonText(v, rd)
  {
    var c := Canonical(v);
    CanonicalRenders(v, rd);
    var t := if c.VStr? then c.s else JsonText(c, rd).value;
    LiteralText(EscapeQuotes(t));
    EscapeRoundTrip(t);
  }

  /**
   * The clause of querytest.py always writes a literal, which reads back as
   * `str` of the value: `None` is stored as the text `None`, never as NULL.
   */
  lemma QuickRhsReadsBack(v: Value, rd: Render)
    requires !v.VBytes?
    ensures QuickRhs(v, rd).value != "NULL"
    ensures SqlText(QuickRhs(v, rd).value) == Some(PyStr(v, rd))
  {
    var t := PyStr(v, rd);
    assert QuickRhs(v, rd).value[0] == '\'';
    LiteralText(EscapeQuotes(t));
    EscapeRoundTrip(t);
  }

  lemma DumpsBrackets(j: Json)
    requires j.JArr? || j.JObj?
    ensures LooksJson(Dumps(j))
  {
    var d := Dumps(j);
    if j.JArr? {
      assert d[..1] == "[" && d[|d| - 1..] == "]";
    } else {
      assert d[..1] == "{" && d[|d| - 1..] == "}";
    }
  }

  /**
   * The update and the row factory of sqlite3_test.py are inverse on the
   * values they are meant for: a non-empty string that does not look like
   * JSON, and a list or dict whose dump `loads` parses back, are read back
   * as the value written.
   */
  lemma StoredValueReadsBack(v: Value, rd: Render, loads: string -> Option<Json>)
    requires v.VStr? ==> v.s != "" && !LooksJson(v.s)
    requires v.VJson? ==> (v.j.JArr? || v.j.JObj?) && loads(Dumps(v.j)) == Some(v.j)
    requires v.VStr? || v.VJson?
    ensures var t := SqlText(ClauseRhs(v, rd).value); t.Some? && Decoded(VStr(t.value), loads) == v
  {
    ClauseRhsReadsBack(v, rd);
    if v.VJson? {
      DumpsBrackets(v.j);
    }
  }

  /** `json.dumps(["'"])`, the dump of a list holding one apostrophe. */
  lemma DumpOfApostrophe()
    ensures Dumps(JArr([JStr("'")])) == "[\"'\"]"
  {
    var items := [JStr("'")];
    assert EscapeString("'") == "'" by {
      assert "'"[1..] == [];
    }
    assert seq(|items|, i requires 0 <= i < |items| => Dumps(items[i])) == [Quote("'")];
  }

  /**
   * As written, a dumped object goes into the literal without its
   * apostrophes doubled: for `["'"]` the literal ends early and SQLite
   * cannot read it, while the escaped clause reads back as the dump.
   */
  lemma DumpNotEscaped(rd: Render)
    ensures SqlText(ClauseRhsAsWritten(VJson(JArr([JStr("'")])), rd).value) == None
    ensures SqlText(ClauseRhs(VJson(JArr([JStr("'")])), rd).value) == Some("[\"'\"]")
  {
    var v := VJson(JArr([JStr("'")]));
    DumpOfApostrophe();
    var d := "[\"'\"]";
    LiteralText(d);
    assert d[1..][1..] == "'\"]";
    assert UnescapeQuotes("'\"]") == None;
    ClauseRhsReadsBack(v, rd);
  }

  // ---------------------------------------------------------------------
  // INSERT OR REPLACE

  /** The sort key `lambda x: x != primary_key_name`: the key column sorts first. */
  function PkFirst(pk: string): string -> int {
    k => if k == pk then 0 else 1
  }

  /** `sorted(row.keys(), key=lambda x: x != primary_key_name)`. */
  function ColumnOrder(keys: seq<string>, pk: string): (cols: seq<string>)
    ensures |cols| == |keys| && multiset(cols) == multiset(keys)
  {
    SortBy(keys, PkFirst(pk), false)
  }

  lemma KeysConcat(a: Row, b: Row)
    ensures Keys(a + b) == Keys(a) + Keys(b)
  {
  }

  /** The keys of the non-key items are the keys other than the primary key, in order. */
  lemma {:induction false} NonKeyKeys(items: Row, pk: string)
    ensures Keys(NonKey(items, pk)) == Where(Keys(items), PkFirst(pk), 1)
  {
    if items != [] {
      var init := items[..|items| - 1];
      var last := items[|items| - 1];
      var extra: Row := if last.0 == pk then [] else [last];
      NonKeyKeys(init, pk);
      assert items == init + [last];
      KeysConcat(init, [last]);
      KeysConcat(NonKey(init, pk), extra);
      WhereAppend(Keys(init), last.0, PkFirst(pk), 1);
      assert Keys(extra) == if PkFirst(pk)(last.0) == 1 then [last.0] else [];
      assert NonKey(items, pk) == NonKey(init, pk) + extra;
      assert Keys([last]) == [last.0];
      assert Keys(items) == Keys(init) + [last.0];
    }
  }

  lemma {:induction false} WhereAbsent(ks: seq<string>, pk: string)
    requires pk !in ks
    ensures Where(ks, PkFirst(pk), 0) == []
  {
    if ks != [] {
      WhereAbsent(ks[1..], pk);
    }
  }

  /** A key that occurs once is the one column of sort key 0. */
  lemma {:induction false} WhereKeyOnce(ks: seq<string>, pk: string)
    requires pk in ks && forall i, j :: 0 <= i < j < |ks| ==> ks[i] != ks[j]
    ensures Where(ks, PkFirst(pk), 0) == [pk]
  {
    if ks[0] == pk {
      assert pk !in ks[1..];
      WhereAbsent(ks[1..], pk);
    } else {
      WhereKeyOnce(ks[1..], pk);
    }
  }

  /**
   * The columns of the INSERT: the primary key first, then the other
   * columns in dictionary order (the sort is stable).
   */
  lemma ColumnOrderKeyFirst(row: Row, pk: string)
    requires DistinctKeys(row) && pk in Keys(row)
    ensures ColumnOrder(Keys(row), pk) == [pk] + Keys(NonKey(row, pk))
  {
    var ks := Keys(row);
    SortByTwoKeys(ks, PkFirst(pk));
    WhereKeyOnce(ks, pk);
    NonKeyKeys(row, pk);
  }

  /**
   * The INSERT OR REPLACE of `sql_insert_row` and `sql_upsert_row`: every
   * column named, the key bound to the first placeholder and NULL to the
   * others. `None`: the key is missing (`KeyError`).
   */
  function InsertStatement(table: string, pk: string, row: Row): (r: Option<Query>)
    ensures r.None? <==> pk !in Keys(row)
    ensures r.Some? ==>
              && |r.value.params| == |row|
              && r.value.params[0] == Get(row, pk).value
              && forall i :: 1 <= i < |row| ==> r.value.params[i] == VNone
  {
    match Get(row, pk)
    case None => None
    case Some(key) =>
      var cols := ColumnOrder(Keys(row), pk);
      var values := seq(|cols|, i => if i == 0 then key else VNone);
      Some(Query("INSERT OR REPLACE INTO " + table + " (" + Join(cols, ", ") + ") VALUES (" + Marks(|row|, ", ") + ")", values))
  }

  lemma {:induction false} JoinAbsent(parts: seq<string>, sep: string, c: char)
    requires c !in sep && forall i :: 0 <= i < |parts| ==> c !in parts[i]
    ensures c !in Join(parts, sep)
  {
    if |parts| > 1 {
      JoinAbsent(parts[1..], sep, c);
    }
  }

  /** A character in none of the keys is in none of the column names the INSERT lists. */
  lemma ColumnsAbsent(row: Row, pk: string, c: char)
    requires c !in ", " && forall i :: 0 <= i < |row| ==> c !in row[i].0
    ensures c !in Join(ColumnOrder(Keys(row), pk), ", ")
  {
    var cols := ColumnOrder(Keys(row), pk);
    forall i | 0 <= i < |cols| ensures c !in cols[i] {
      assert cols[i] in multiset(Keys(row));
      var j :| 0 <= j < |row| && Keys(row)[j] == cols[i];
    }
    JoinAbsent(cols, ", ", c);
  }

  /** With no `?` in the names, the INSERT has one placeholder per bound value. */
  lemma InsertPlaceholders(table: string, pk: string, row: Row)
    requires pk in Keys(row) && '?' !in table && forall i :: 0 <= i < |row| ==> '?' !in row[i].0
    ensures Count(InsertStatement(table, pk, row).value.sql, '?') == |InsertStatement(table, pk, row).value.params|
  {
    var cols := ColumnOrder(Keys(row), pk);
    ColumnsAbsent(row, pk, '?');
    var prefix := "INSERT OR REPLACE INTO " + table + " (" + Join(cols, ", ") + ") VALUES (";
    CountNone(prefix, '?');
    MarksCount(|row|, ", ");
    CountConcat(prefix, Marks(|row|, ", "), '?');
    CountConcat(prefix + Marks(|row|, ", "), ")", '?');
  }

  /** No value other than the key's is a bytes object, on which the clause writers raise. */
  predicate Writable(row: Row, pk: string) {
    forall i :: 0 <= i < |row| && row[i].0 != pk ==> !row[i].1.VBytes?
  }

  /** The statements a call sends: the INSERT, then the UPDATE (`None`: building it raised). */
  datatype Sent = Sent(insert: Query, update: Option<string>)

  /**
   * `sql_insert_row` of sqlite3_test.py: the INSERT of the key alone, then
   * `sql_update_row` on the row. `None`: the key is missing, and the
   * `KeyError` reaches the caller; an UPDATE that raises is caught and the
   * insert reports failure.
   */
  function SqlInsertRow(table: string, pk: string, row: Row, now: string, rd: Render): (r: Option<Sent>)
    ensures r.None? <==> pk !in Keys(row)
    ensures r.Some? ==> r.value.insert == InsertStatement(table, pk, row).value
    ensures r.Some? ==> (r.value.update.Some? <==> Writable(Stamp(row, now), pk))
  {
    match InsertStatement(table, pk, row)
    case None => None
    case Some(insert) =>
      ClausesSpec(Stamp(row, now), pk, NullAware, rd);
      assert Get(Stamp(row, now), pk).Some?;
      Some(Sent(insert, UpdateStatement(table, pk, row, now, rd)))
  }

  /**
   * `sql_upsert_row` of querytest.py: the same INSERT, then querytest.py's
   * `sql_update_row`, whose exceptions are caught.
   */
  function SqlUpsertRow(table: string, pk: string, row: Row, rd: Render): (r: Option<Sent>)
    ensures r.None? <==> pk !in Keys(row)
    ensures r.Some? ==> r.value.insert == InsertStatement(table, pk, row).value
    ensures r.Some? ==> (r.value.update.Some? <==> Writable(row, pk))
  {
    match InsertStatement(table, pk, row)
    case None => None
    case Some(insert) =>
      ClausesSpec(row, pk, AlwaysQuoted, rd);
      Some(Sent(insert, QuickUpdateStatement(table, pk, row, rd)))
  }

  lemma StartsWithConcat(a: string, b: string)
    ensures StartsWith(a + b, a)
  {
    assert (a + b)[..|a|] == a;
  }

  /** The clauses name the non-key columns in order, and these follow the key in the INSERT. */
  lemma ClausesFollowInsert(row: Row, pk: string, style: Style, rd: Render)
    requires DistinctKeys(row) && pk in Keys(row) && Clauses(row, pk, style, rd).Some?
    ensures var cols := ColumnOrder(Keys(row), pk);
            var cs := Clauses(row, pk, style, rd).value;
            && cols[0] == pk
            && |cs| == |cols| - 1
            && forall i :: 0 <= i < |cs| ==> StartsWith(cs[i], cols[i + 1] + " = ")
  {
    var cs := Clauses(row, pk, style, rd).value;
    var nk := NonKey(row, pk);
    ColumnOrderKeyFirst(row, pk);
    ClausesSpec(row, pk, style, rd);
    ClausesName(cs, nk, style, rd);
    var cols := ColumnOrder(Keys(row), pk);
    assert forall i :: 0 <= i < |cs| ==> cols[i + 1] == Keys(nk)[i];
  }

  lemma ClausesName(cs: seq<string>, nk: Row, style: Style, rd: Render)
    requires |cs| == |nk|
    requires forall i :: 0 <= i < |nk| ==>
               Rhs(style, nk[i].1, rd).Some? && cs[i] == nk[i].0 + " = " + Rhs(style, nk[i].1, rd).value
    ensures forall i :: 0 <= i < |cs| ==> StartsWith(cs[i], Keys(nk)[i] + " = ")
  {
    forall i | 0 <= i < |cs| ensures StartsWith(cs[i], Keys(nk)[i] + " = ") {
      StartsWithConcat(nk[i].0 + " = ", Rhs(style, nk[i].1, rd).value);
    }
  }

  /**
   * After the INSERT of `sql_insert_row`, the UPDATE (when it can be built)
   * sets exactly the columns the INSERT left NULL, in the INSERT's order,
   * and selects the row by the key the INSERT bound.
   */
  lemma InsertThenUpdate(table: string, pk: string, row: Row, now: string, rd: Render)
    requires DistinctKeys(row) && pk in Keys(row) && pk != "modified_on" && Writable(row, pk)
    ensures var sent := SqlInsertRow(table, pk, row, now, rd).value;
            var cols := ColumnOrder(Keys(row), pk);
            var cs := Clauses(Stamp(row, now), pk, NullAware, rd).value;
            && sent.insert.params[0] == Get(row, pk).value
            && sent.update == Some(UpdateText(table, pk, cs, Get(row, pk).value, rd))
            && cols[0] == pk && |cs| == |cols| - 1
            && forall i :: 0 <= i < |cs| ==> StartsWith(cs[i], cols[i + 1] + " = ")
  {
    var stamped := Stamp(row, now);
    StampInPlace(row, now);
    assert Writable(stamped, pk);
    ClausesSpec(stamped, pk, NullAware, rd);
    ClausesFollowInsert(stamped, pk, NullAware, rd);
  }

  /** The same for `sql_upsert_row`, whose UPDATE does not stamp the row. */
  lemma UpsertThenUpdate(table: string, pk: string, row: Row, rd: Render)
    requires DistinctKeys(row) && pk in Keys(row) && Writable(row, pk)
    ensures var sent := SqlUpsertRow(table, pk, row, rd).value;
            var cols := ColumnOrder(Keys(row), pk);
            var cs := Clauses(row, pk, AlwaysQuoted, rd).value;
            && sent.insert.params[0] == Get(row, pk).value
            && sent.update == Some(UpdateText(table, pk, cs, Get(row, pk).value, rd))
            && cols[0] == pk && |cs| == |cols| - 1
            && forall i :: 0 <= i < |cs| ==> StartsWith(cs[i], cols[i + 1] + " = ")
  {
    ClausesSpec(row, pk, AlwaysQuoted, rd);
    ClausesFollowInsert(row, pk, AlwaysQuoted, rd);
  }

  // ---------------------------------------------------------------------
  // Table template and row objects

  /** One row of `PRAGMA table_info`: a column's name and declared type. */
  datatype ColumnInfo = ColumnInfo(name: string, declType: string)

  /**
   * The template value of a column: `None` for `id`, then the first of
   * INTEGER (-1), REAL (-1.0), TEXT (`None`) and BLOB (`b""`) that the
   * declared type contains; `None` otherwise.
   */
  function DefaultFor(c: ColumnInfo): (v: Value)
    ensures c.name == "id" ==> v == VNone
    ensures v == VNone || v == VJson(JNum(-1)) || v == VReal(-1.0) || v == VBytes([])
    ensures v == VJson(JNum(-1)) <==> c.name != "id" && Contains(c.declType, "INTEGER")
    ensures v == VReal(-1.0) <==>
              c.name != "id" && !Contains(c.declType, "INTEGER") && Contains(c.declType, "REAL")
    ensures v == VBytes([]) <==>
              c.name != "id" && !Contains(c.declType, "INTEGER") && !Contains(c.declType, "REAL")
              && !Contains(c.declType, "TEXT") && Contains(c.declType, "BLOB")
  {
    if c.name == "id" then VNone
    else if Contains(c.declType, "INTEGER") then VJson(JNum(-1))
    else if Contains(c.declType, "REAL") then VReal(-1.0)
    else if Contains(c.declType, "TEXT") then VNone
    else if Contains(c.declType, "BLOB") then VBytes([])
    else VNone
  }

  function Names(info: seq<ColumnInfo>): (ns: seq<string>)
    ensures |ns| == |info| && forall i :: 0 <= i < |info| ==> ns[i] == info[i].name
  {
    seq(|info|, i requires 0 <= i < |info| => info[i].name)
  }

  /** Each column with its template value, in table order. */
  function Defaults(info: seq<ColumnInfo>): (ps: Row)
    ensures |ps| == |info| && forall i :: 0 <= i < |info| ==> ps[i] == (info[i].name, DefaultFor(info[i]))
  {
    seq(|info|, i requires 0 <= i < |info| => (info[i].name, DefaultFor(info[i])))
  }

  /**
   * `get_table_template`, given the table's `PRAGMA table_info` rows: one
   * entry per column, in table order, holding its template value.
   */
  method GetTableTemplate(info: seq<ColumnInfo>) returns (template: Row)
    ensures template == FromPairs(Defaults(info))
  {
    ghost var pairs := Defaults(info);
    template := [];
    for idx := 0 to |info|
      invariant template == FromPairs(pairs[..idx])
    {
      assert pairs[..idx + 1][..idx] == pairs[..idx];
      var column := info[idx];
      template := Put(template, column.name, DefaultFor(column));
    }
    assert pairs[..|info|] == pairs;
  }

  /** The template has one entry per column name, holding the default of its last column. */
  lemma TemplateSpec(info: seq<ColumnInfo>)
    ensures var template := FromPairs(Defaults(info));
            && DistinctKeys(template) && (forall k :: k in Keys(template) <==> k in Names(info))
            && forall i :: 0 <= i < |info| && info[i].name !in Names(info)[i + 1..] ==>
                 Get(template, info[i].name) == Some(DefaultFor(info[i]))
  {
    FromPairsSpec(Defaults(info));
    assert Keys(Defaults(info)) == Names(info);
  }

  /**
   * The loop of `create_row_object`: each keyword argument whose name is a
   * column of the row replaces that column's value; any other is ignored.
   */
  function Overwrite(row: Row, kwargs: Row): Row {
    if kwargs == [] then row
    else
      var last := kwargs[|kwargs| - 1];
      var acc := Overwrite(row, kwargs[..|kwargs| - 1]);
      if last.0 in Keys(acc) then Put(acc, last.0, last.1) else acc
  }

  /**
   * The row keeps its columns, in order; a column named by a keyword
   * argument takes its value, every other column keeps the template's.
   */
  lemma {:induction false} OverwriteSpec(row: Row, kwargs: Row)
    requires DistinctKeys(kwargs)
    ensures Keys(Overwrite(row, kwargs)) == Keys(row)
    ensures forall k :: Get(Overwrite(row, kwargs), k) ==
              if k in Keys(row) && k in Keys(kwargs) then Get(kwargs, k) else Get(row, k)
  {
    if kwargs != [] {
      var init := kwargs[..|kwargs| - 1];
      var last := kwargs[|kwargs| - 1];
      assert DistinctKeys(init);
      OverwriteSpec(row, init);
      assert last.0 !in Keys(init);
      assert init + [last] == kwargs;
      PutNewKey(init, last.0, last.1);
      assert Keys(kwargs) == Keys(init) + [last.0];
    }
  }

  /**
   * `create_row_object`: the table's template, overwritten by the keyword
   * arguments that name its columns.
   */
  method CreateRowObject(info: seq<ColumnInfo>, kwargs: Row) returns (row: Row)
    ensures row == Overwrite(FromPairs(Defaults(info)), kwargs)
  {
    row := GetTableTemplate(info);
    ghost var template := row;
    for idx := 0 to |kwargs|
      invariant row == Overwrite(template, kwargs[..idx])
    {
      assert kwargs[..idx + 1][..idx] == kwargs[..idx];
      var (key, value) := kwargs[idx];
      if key in Keys(row) {
        row := Put(row, key, value);
      }
    }
    assert kwargs[..|kwargs|] == kwargs;
  }

  /**
   * The row object has one entry per column of the table; a column named
   * by a keyword argument holds that argument, every other column its
   * template value.
   */
  lemma RowObjectSpec(info: seq<ColumnInfo>, kwargs: Row)
    requires DistinctKeys(kwargs)
    ensures var template := FromPairs(Defaults(info));
            var row := Overwrite(template, kwargs);
            && DistinctKeys(row) && (forall k :: k in Keys(row) <==> k in Names(info))
            && (forall k :: k in Keys(kwargs) && k in Names(info) ==> Get(row, k) == Get(kwargs, k))
            && (forall k :: k !in Keys(kwargs) ==> Get(row, k) == Get(template, k))
  {
    var template := FromPairs(Defaults(info));
    TemplateSpec(info);
    OverwriteSpec(template, kwargs);
    assert Keys(Overwrite(template, kwargs)) == Keys(template);
  }
}
