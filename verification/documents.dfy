/**
 * Admin search documents: the SQL rows the indexers read, the flat
 * `{id, text}` documents built from them, the composite `_id` under which a
 * document is stored, and the fixed schema of the `admin_search` index.
 */
module Documents {
  import opened Wrappers
  import opened PhpArray

  /** A SQL result cell: NULL (a left join without a match, GROUP_CONCAT over nothing) or a string. */
  datatype SqlValue = Null | Str(s: string)

  /** PHP's string conversion as `implode` applies it: NULL becomes "". */
  function PhpString(v: SqlValue): string {
    match v
    case Null => ""
    case Str(s) => s
  }

  /**
   * One grouped SQL row: the `LOWER(HEX(<table>.id)) as id` column, which
   * every query selects first, and the remaining columns in select order.
   */
  datatype Row = Row(id: string, columns: seq<SqlValue>)

  /** The values of `$row` in select order, as `implode` sees them. */
  function RowValues(row: Row): seq<string> {
    [row.id] + seq(|row.columns|, i requires 0 <= i < |row.columns| => PhpString(row.columns[i]))
  }

  /** `implode(' ', $row)`. */
  function RowText(row: Row): string {
    Implode(" ", RowValues(row))
  }

  /** A search document: a PHP array of string fields. */
  type Doc = Dict<string>

  /** `['id' => $id, 'text' => implode(' ', $row)]`. */
  function RowDoc(row: Row): Doc {
    [Entry("id", row.id), Entry("text", RowText(row))]
  }

  /** Every fetched document has exactly the keys `id` and `text`, and `id` is the row id. */
  lemma RowDocShape(row: Row)
    ensures Keys(RowDoc(row)) == ["id", "text"] && DistinctKeys(RowDoc(row))
    ensures Has(RowDoc(row), "id") && Get(RowDoc(row), "id") == row.id
    ensures Has(RowDoc(row), "text") && Get(RowDoc(row), "text") == RowText(row)
  {
    var d := RowDoc(row);
    GetAt(d, 0);
    GetAt(d, 1);
  }

  /** The text starts with the id, followed by the other columns, each after one space. */
  lemma {:induction false} RowTextLayout(row: Row)
    ensures row.columns == [] ==> RowText(row) == row.id
    ensures row.columns != [] ==>
      RowText(row) == row.id + " " + RowText(Row(PhpString(row.columns[0]), row.columns[1..]))
  {
    if row.columns != [] {
      var tail := Row(PhpString(row.columns[0]), row.columns[1..]);
      assert RowValues(row)[1..] == RowValues(tail);
    }
  }

  /** For the two-column queries (`id`, translated `name`) the text is `id . ' ' . name`. */
  lemma IdNameText(id: string, name: SqlValue)
    ensures RowText(Row(id, [name])) == id + " " + PhpString(name)
  {
    RowTextLayout(Row(id, [name]));
    assert RowValues(Row(PhpString(name), [])) == [PhpString(name)];
  }

  predicate IsHexDigit(c: char) {
    '0' <= c <= '9' || 'a' <= c <= 'f'
  }

  /** Ids as `LOWER(HEX(...))` produces them. */
  predicate IsLowerHex(s: string) {
    forall i :: 0 <= i < |s| ==> IsHexDigit(s[i])
  }

  predicate AllLowerHex(ids: seq<string>) {
    forall i :: 0 <= i < |ids| ==> IsLowerHex(ids[i])
  }

  lemma LowerHexHasNoUnderscore(s: string)
    requires IsLowerHex(s)
    ensures '_' !in s
  {
    forall i | 0 <= i < |s| ensures s[i] != '_' {
      assert IsHexDigit(s[i]);
    }
  }

  /** `self::id($type, $id)`: the index `_id` of a document. */
  function CompositeId(entityType: string, id: string): string {
    entityType + "_" + id
  }

  /** Position of the last `_`, if any. */
  function LastUnderscore(s: string): (r: Option<nat>)
    ensures r.Some? ==> r.value < |s| && s[r.value] == '_' && forall j :: r.value < j < |s| ==> s[j] != '_'
    ensures r.None? ==> '_' !in s
  {
    if s == [] then None
    else if s[|s| - 1] == '_' then Some(|s| - 1)
    else
      var r := LastUnderscore(s[..|s| - 1]);
      assert s == s[..|s| - 1] + [s[|s| - 1]];
      r
  }

  /** Reads an index `_id` back as `(type, id)`, splitting at the last `_`. */
  function SplitCompositeId(key: string): Option<(string, string)> {
    match LastUnderscore(key)
    case None => None
    case Some(i) => Some((key[..i], key[i + 1..]))
  }

  /**
   * The composite key recovers the entity type and the id whenever the id has
   * no `_`; entity names such as `cms_page` may contain `_`, hex ids never do.
   */
  lemma CompositeIdRoundTrip(entityType: string, id: string)
    requires '_' !in id
    ensures SplitCompositeId(CompositeId(entityType, id)) == Some((entityType, id))
  {
    var key := CompositeId(entityType, id);
    var n := |entityType|;
    assert key[n] == '_';
    forall j | n < j < |key| ensures key[j] != '_' {
      assert key[j] == id[j - n - 1];
    }
    var r := LastUnderscore(key);
    assert r.Some? && r.value == n;
    assert key[..n] == entityType;
    assert key[n + 1..] == id;
  }

  /** Different `(type, id)` pairs never share an index `_id`. */
  lemma CompositeIdInjective(t1: string, id1: string, t2: string, id2: string)
    requires '_' !in id1 && '_' !in id2
    ensures CompositeId(t1, id1) == CompositeId(t2, id2) ==> t1 == t2 && id1 == id2
  {
    CompositeIdRoundTrip(t1, id1);
    CompositeIdRoundTrip(t2, id2);
  }

  /** The index `_id` belongs to documents of `entityType`. */
  predicate OwnedBy(key: string, entityType: string) {
    var s := SplitCompositeId(key);
    s.Some? && s.value.0 == entityType
  }

  /** `$document['entity_name'] = $type`. */
  function StampEntityName(doc: Doc, entityType: string): Doc {
    Set(doc, "entity_name", entityType)
  }

  /**
   * A stamped document names its entity type under `entity_name` and keeps
   * every other field of the fetched document as it was.
   */
  lemma StampedDocument(doc: Doc, entityType: string)
    ensures var r := StampEntityName(doc, entityType);
      && Has(r, "entity_name") && Get(r, "entity_name") == entityType
      && (forall f :: f != "entity_name" ==> (Has(r, f) <==> Has(doc, f)))
      && (forall f :: f != "entity_name" && Has(doc, f) ==> Get(r, f) == Get(doc, f))
      && (DistinctKeys(doc) ==> DistinctKeys(r))
  {
    SetSpec(doc, "entity_name", entityType);
  }

  /** Field types of the index mapping. */
  datatype FieldType = Keyword | Text

  const AdminSearchIndex: string := "admin_search"

  /** The mapping `createIndex` sends: three keyword fields and one full-text field. */
  const AdminIndexMapping: seq<(string, FieldType)> :=
    [("id", Keyword), ("entity_id", Keyword), ("entity_name", Keyword), ("text", Text)]
}
