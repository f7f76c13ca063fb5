/** The statement construction of `Database.update_whale` and the error handling of
    `Database.execute_query` (app/db.py). The sqlite connection is a parameter. */
module Db {
  import opened Base

  /** A value bound to a `?` placeholder. */
  datatype SqlValue = Text(text: string) | Integer(n: int)

  /** Python's `sep.join(parts)`. */
  function Join(parts: seq<string>, sep: string): string
  {
    if parts == [] then ""
    else if |parts| == 1 then parts[0]
    else parts[0] + sep + Join(parts[1..], sep)
  }

  /** The number of occurrences of c in s. */
  function Count(s: string, c: char): nat
  {
    if s == [] then 0 else (if s[0] == c then 1 else 0) + Count(s[1..], c)
  }

  lemma {:induction false} CountConcat(a: string, b: string, c: char)
    ensures Count(a + b, c) == Count(a, c) + Count(b, c)
  {
    if a == [] {
      assert a + b == b;
    } else {
      assert (a + b)[1..] == a[1..] + b;
      CountConcat(a[1..], b, c);
    }
  }

  lemma {:induction false} CountAbsent(s: string, c: char)
    requires forall i :: 0 <= i < |s| ==> s[i] != c
    ensures Count(s, c) == 0
  {
    if s != [] {
      CountAbsent(s[1..], c);
    }
  }

  /** A text that ends in c and has no other c holds c once. */
  lemma CountOnce(s: string, c: char)
    requires |s| > 0 && s[|s| - 1] == c
    requires forall i :: 0 <= i < |s| - 1 ==> s[i] != c
    ensures Count(s, c) == 1
  {
    var init := s[..|s| - 1];
    CountAbsent(init, c);
    assert s == init + [c];
    CountConcat(init, [c], c);
  }

  /** Joining k parts with one c each, by a separator without c, gives k occurrences of c. */
  lemma {:induction false} JoinCount(parts: seq<string>, sep: string, c: char)
    requires Count(sep, c) == 0
    requires forall k :: 0 <= k < |parts| ==> Count(parts[k], c) == 1
    ensures Count(Join(parts, sep), c) == |parts|
  {
    if |parts| > 1 {
      JoinCount(parts[1..], sep, c);
      CountConcat(parts[0], sep, c);
      CountConcat(parts[0] + sep, Join(parts[1..], sep), c);
    }
  }

  /** `f"UPDATE whales SET {', '.join(fields)} WHERE whale_id = ?"`. */
  function UpdateQuery(fields: seq<string>): string
  {
    "UPDATE whales SET " + Join(fields, ", ") + " WHERE whale_id = ?"
  }

  lemma UpdateHeadPlaceholders()
    ensures Count("UPDATE whales SET ", '?') == 0
  {
    CountAbsent("UPDATE whales SET ", '?');
  }

  lemma WhereClausePlaceholders()
    ensures Count(" WHERE whale_id = ?", '?') == 1
  {
    CountOnce(" WHERE whale_id = ?", '?');
  }

  lemma SeparatorPlaceholders()
    ensures Count(", ", '?') == 0
  {
    CountAbsent(", ", '?');
  }

  lemma TypeFieldPlaceholders()
    ensures Count("type = ?", '?') == 1
  {
    CountOnce("type = ?", '?');
  }

  lemma FamilyFieldPlaceholders()
    ensures Count("family_id = ?", '?') == 1
  {
    CountOnce("family_id = ?", '?');
  }

  /** The placeholders of a text in three parts. */
  lemma CountThree(a: string, b: string, d: string, c: char)
    ensures Count(a + b + d, c) == Count(a, c) + Count(b, c) + Count(d, c)
  {
    CountConcat(a, b, c);
    CountConcat(a + b, d, c);
  }

  /** One placeholder per SET field plus the one of the WHERE clause. */
  lemma UpdateQueryPlaceholders(fields: seq<string>)
    requires forall k :: 0 <= k < |fields| ==> Count(fields[k], '?') == 1
    ensures Count(UpdateQuery(fields), '?') == |fields| + 1
  {
    UpdateHeadPlaceholders();
    WhereClausePlaceholders();
    SeparatorPlaceholders();
    JoinCount(fields, ", ", '?');
    CountThree("UPDATE whales SET ", Join(fields, ", "), " WHERE whale_id = ?", '?');
  }

  /** The value of an optional argument, as a list of zero or one parameters. */
  function Present(v: Option<SqlValue>): seq<SqlValue>
  {
    if v.Some? then [v.value] else []
  }

  /** The SET assignments for the arguments that are not None: `type` first, then
      `family_id`. */
  function SetFields(whaleType: Option<SqlValue>, familyId: Option<SqlValue>): seq<string>
  {
    if whaleType.Some? && familyId.Some? then ["type = ?", "family_id = ?"]
    else if whaleType.Some? then ["type = ?"]
    else if familyId.Some? then ["family_id = ?"]
    else []
  }

  /** The statement for one or two fields of one placeholder each. */
  lemma FieldListPlaceholders(a: string, b: string)
    requires Count(a, '?') == 1 && Count(b, '?') == 1
    ensures Count(UpdateQuery([a]), '?') == 2
    ensures Count(UpdateQuery([a, b]), '?') == 3
  {
    UpdateQueryPlaceholders([a]);
    UpdateQueryPlaceholders([a, b]);
  }

  /** One placeholder per SET field and one for the whale id. */
  lemma SetFieldsPlaceholders(whaleType: Option<SqlValue>, familyId: Option<SqlValue>)
    ensures Count(UpdateQuery(SetFields(whaleType, familyId)), '?') == |SetFields(whaleType, familyId)| + 1
  {
    TypeFieldPlaceholders();
    FamilyFieldPlaceholders();
    FieldListPlaceholders("type = ?", "family_id = ?");
    FieldListPlaceholders("family_id = ?", "type = ?");
    UpdateQueryPlaceholders([]);
  }

  /** `update_whale` up to `execute_query`: the parameters are type and family_id, each only
      when not None, then the whale id; the SET clause lists the same fields in the same
      order, and there is one placeholder per parameter. */
  method UpdateWhale(whaleId: SqlValue, whaleType: Option<SqlValue>, familyId: Option<SqlValue>)
    returns (query: string, params: seq<SqlValue>)
    ensures params == Present(whaleType) + Present(familyId) + [whaleId]
    ensures query == UpdateQuery(SetFields(whaleType, familyId))
    ensures |SetFields(whaleType, familyId)| == |params| - 1
    ensures Count(query, '?') == |params|
  {
    var fields: seq<string> := [];
    params := [];
    if whaleType.Some? {
      fields := fields + ["type = ?"];
      params := params + [whaleType.value];
    }
    if familyId.Some? {
      fields := fields + ["family_id = ?"];
      params := params + [familyId.value];
    }
    params := params + [whaleId];
    query := UpdateQuery(fields);
    SetFieldsPlaceholders(whaleType, familyId);
  }

  /** With neither type nor family_id the SET clause is empty, which leaves two spaces
      after SET: the statement is not valid SQL. */
  lemma UpdateQueryNoFields()
    ensures UpdateQuery(SetFields(None, None)) == "UPDATE whales SET  WHERE whale_id = ?"
  {
    assert SetFields(None, None) == [];
  }

  /** A single field stands alone between SET and WHERE. */
  lemma UpdateQueryOneField(v: SqlValue)
    ensures UpdateQuery(SetFields(Some(v), None)) == "UPDATE whales SET " + "type = ?" + " WHERE whale_id = ?"
    ensures UpdateQuery(SetFields(None, Some(v))) == "UPDATE whales SET " + "family_id = ?" + " WHERE whale_id = ?"
  {
    assert SetFields(Some(v), None) == ["type = ?"];
    assert SetFields(None, Some(v)) == ["family_id = ?"];
  }

  lemma JoinTwo(a: string, b: string, sep: string)
    ensures Join([a, b], sep) == a + sep + b
  {
    assert [a, b][1..] == [b];
  }

  lemma BothFieldsJoined()
    ensures "type = ?" + ", " + "family_id = ?" == "type = ?, family_id = ?"
  {
  }

  /** Both fields are separated by a comma, type first. */
  lemma UpdateQueryBothFields(t: SqlValue, f: SqlValue)
    ensures UpdateQuery(SetFields(Some(t), Some(f)))
         == "UPDATE whales SET " + "type = ?, family_id = ?" + " WHERE whale_id = ?"
  {
    assert SetFields(Some(t), Some(f)) == ["type = ?", "family_id = ?"];
    JoinTwo("type = ?", "family_id = ?", ", ");
    BothFieldsJoined();
  }

  /** `execute_query`: missing parameters default to none; an `sqlite3.Error` raised by the
      statement is reported and turned into None instead of propagating. */
  function ExecuteQuery<C>(query: string, params: Option<seq<SqlValue>>,
                           run: (string, seq<SqlValue>) -> Result<C, string>): (r: Option<C>)
    ensures r.None? <==> run(query, if params.None? then [] else params.value).Failure?
    ensures r.Some? ==> r.value == run(query, if params.None? then [] else params.value).value
  {
    var bound := if params.None? then [] else params.value;
    match run(query, bound)
    case Success(cursor) => Some(cursor)
    case Failure(_) => None
  }
}
