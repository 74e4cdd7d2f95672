/**
 * The per-entity admin search indexers: each names its entity, pages over the
 * entity's primary keys 150 at a time, and turns a batch of ids into
 * `{id, text}` documents keyed by id.
 *
 * The SQL is not modelled as text. A query is described by its base table,
 * its selected columns and its joins, and what the database answers is
 * constrained by the facts the query text fixes (`RowsSatisfy`).
 */
module Indexers {
  import opened PhpArray
  import opened Documents
  import opened Paging

  datatype JoinKind = InnerJoin | LeftJoin

  /** A join from the base table (directly or through another joined table). */
  datatype Join = Join(table: string, kind: JoinKind)

  /** The shape of a fetch query: `FROM table`, the select list in order, the joins. */
  datatype QuerySpec = QuerySpec(table: string, columns: seq<string>, joins: seq<Join>)

  /**
   * The part of the relational store the fetch queries see: the primary keys
   * of each table in key order (`HexKeys` says they are lowercase hex), and
   * for each joined table the set of base ids that have at least one
   * matching row in it.
   */
  datatype Store = Store(keys: map<string, seq<string>>, linked: map<string, set<string>>)

  function KeysOf(store: Store, table: string): seq<string> {
    if table in store.keys then store.keys[table] else []
  }

  /** The base row exists and every inner-joined table has a matching row for it. */
  predicate Joinable(store: Store, q: QuerySpec, id: string) {
    && id in KeysOf(store, q.table)
    && forall j :: j in q.joins && j.kind == InnerJoin ==> j.table in store.linked && id in store.linked[j.table]
  }

  function RowIds(rows: seq<Row>): seq<string> {
    seq(|rows|, i requires 0 <= i < |rows| => rows[i].id)
  }

  lemma RowIdsSnoc(rows: seq<Row>)
    requires rows != []
    ensures RowIds(rows) == RowIds(rows[..|rows| - 1]) + [rows[|rows| - 1].id]
  {
  }

  /**
   * What the query text guarantees about its result rows:
   *  - `x.id IN (:ids)` returns only requested ids (and `LOWER(HEX(x.id))`
   *    gives each back in the lowercase hex form it was requested in);
   *  - the joins decide which requested ids have a row at all;
   *  - `GROUP BY x.id` gives at most one row per id;
   *  - every row has one value per selected column after the id;
   *  - and every requested id that passes the joins does come back.
   */
  predicate RowsSatisfy(q: QuerySpec, store: Store, ids: seq<string>, rows: seq<Row>) {
    && (forall i :: 0 <= i < |rows| ==>
          && rows[i].id in ids
          && Joinable(store, q, rows[i].id)
          && |rows[i].columns| == ColumnsAfterId(q))
    && Distinct(RowIds(rows))
    && (forall id :: id in ids && Joinable(store, q, id) ==> id in RowIds(rows))
  }

  /** The number of selected columns after the leading id column. */
  function ColumnsAfterId(q: QuerySpec): nat {
    if |q.columns| == 0 then 0 else |q.columns| - 1
  }

  /** The database: a store and the rows it answers a query with. */
  datatype Database = Database(store: Store, run: (QuerySpec, seq<string>) -> seq<Row>)

  /** The database answers every query as its text demands. */
  ghost predicate Sound(db: Database) {
    forall q, ids :: RowsSatisfy(q, db.store, ids, db.run(q, ids))
  }

  /** Every table's primary keys come out of the store as lowercase hex. */
  predicate HexKeys(store: Store) {
    forall t :: t in store.keys ==> AllLowerHex(store.keys[t])
  }

  /** One all-NULL row per requested id that passes the joins, in request order, each once. */
  function NullRows(store: Store, q: QuerySpec, ids: seq<string>): seq<Row>
    decreases |ids|
  {
    if ids == [] then []
    else
      var rows := NullRows(store, q, ids[..|ids| - 1]);
      var id := ids[|ids| - 1];
      if Joinable(store, q, id) && id !in RowIds(rows)
      then rows + [Row(id, seq(ColumnsAfterId(q), _ => SqlValue.Null))]
      else rows
  }

  /** `NullRows` answers a query as its text demands. */
  lemma {:induction false} NullRowsSatisfy(store: Store, q: QuerySpec, ids: seq<string>)
    ensures RowsSatisfy(q, store, ids, NullRows(store, q, ids))
    decreases |ids|
  {
    if ids != [] {
      var init := ids[..|ids| - 1];
      var id := ids[|ids| - 1];
      var rows := NullRows(store, q, init);
      NullRowsSatisfy(store, q, init);
      assert forall x :: x in ids <==> x in init || x == id by {
        assert ids == init + [id];
      }
      if Joinable(store, q, id) && id !in RowIds(rows) {
        var rows' := rows + [Row(id, seq(ColumnsAfterId(q), _ => SqlValue.Null))];
        RowIdsSnoc(rows');
        assert rows'[..|rows'| - 1] == rows;
      }
    }
  }

  /**
   * Soundness constrains the answers, not the store: over every store,
   * tables full of keys included, some database is sound.
   */
  lemma SoundDatabaseExists(store: Store)
    ensures Sound(Database(store, (q, ids) => NullRows(store, q, ids)))
  {
    forall q, ids ensures RowsSatisfy(q, store, ids, NullRows(store, q, ids)) {
      NullRowsSatisfy(store, q, ids);
    }
  }

  /** A fetched document: exactly the fields `id` and `text`, `id` being the key it is stored under. */
  predicate DocFor(doc: Doc, key: string) {
    Keys(doc) == ["id", "text"] && Get(doc, "id") == key
  }

  /** `$mapped[$row['id']] = ['id' => ..., 'text' => implode(' ', $row)]` for each row in turn. */
  function Mapped(rows: seq<Row>): Dict<Doc>
    decreases |rows|
  {
    if rows == [] then []
    else Set(Mapped(rows[..|rows| - 1]), rows[|rows| - 1].id, RowDoc(rows[|rows| - 1]))
  }

  /** Every row id, and nothing else, is a key of the mapped result. */
  lemma {:induction false} MappedKeys(rows: seq<Row>)
    ensures forall k :: Has(Mapped(rows), k) <==> k in RowIds(rows)
    decreases |rows|
  {
    if rows != [] {
      var init := rows[..|rows| - 1];
      var last := rows[|rows| - 1];
      MappedKeys(init);
      RowIdsSnoc(rows);
      var m0 := Mapped(init);
      var m := Mapped(rows);
      assert m == Set(m0, last.id, RowDoc(last));
      SetSpec(m0, last.id, RowDoc(last));
      forall k ensures Has(m, k) <==> k in RowIds(rows) {
        if k != last.id {
          assert Has(m, k) <==> Has(m0, k);
          assert k in RowIds(rows) <==> k in RowIds(init);
        }
      }
    }
  }

  /** A later row with an id already mapped overwrites it: keys never repeat. */
  lemma {:induction false} MappedDistinct(rows: seq<Row>)
    ensures DistinctKeys(Mapped(rows))
    decreases |rows|
  {
    if rows != [] {
      var init := rows[..|rows| - 1];
      MappedDistinct(init);
      assert Mapped(rows) == Set(Mapped(init), rows[|rows| - 1].id, RowDoc(rows[|rows| - 1]));
      SetSpec(Mapped(init), rows[|rows| - 1].id, RowDoc(rows[|rows| - 1]));
    }
  }

  /** Each mapped entry is `{id, text}` with `id` equal to its key. */
  lemma {:induction false} MappedDocs(rows: seq<Row>)
    ensures forall k :: Has(Mapped(rows), k) ==> DocFor(Get(Mapped(rows), k), k)
    decreases |rows|
  {
    if rows != [] {
      var init := rows[..|rows| - 1];
      var last := rows[|rows| - 1];
      MappedDocs(init);
      RowDocShape(last);
      var m0 := Mapped(init);
      var m := Mapped(rows);
      assert m == Set(m0, last.id, RowDoc(last));
      SetSpec(m0, last.id, RowDoc(last));
      forall k | Has(m, k) ensures DocFor(Get(m, k), k) {
        if k != last.id {
          assert Has(m0, k) && Get(m, k) == Get(m0, k);
        }
      }
    }
  }

  /**
   * The mapped result has one entry per distinct row id (a later row with the
   * same id overwrites an earlier one) and each entry is `{id, text}` with
   * `id` equal to its key.
   */
  lemma MappedShape(rows: seq<Row>)
    ensures var m := Mapped(rows);
      && DistinctKeys(m)
      && (forall k :: Has(m, k) <==> k in RowIds(rows))
      && (forall k :: Has(m, k) ==> DocFor(Get(m, k), k))
  {
    MappedKeys(rows);
    MappedDistinct(rows);
    MappedDocs(rows);
  }

  /**
   * With one row per id (`GROUP BY`), there is one document per row, in row
   * order, and each is the row's own document: its `text` joins the row's
   * values in select order.
   */
  lemma {:induction false} MappedRows(rows: seq<Row>)
    requires Distinct(RowIds(rows))
    ensures |Mapped(rows)| == |rows|
    ensures forall i :: 0 <= i < |rows| ==> Mapped(rows)[i] == Entry(rows[i].id, RowDoc(rows[i]))
    decreases |rows|
  {
    if rows != [] {
      var init := rows[..|rows| - 1];
      var last := rows[|rows| - 1];
      RowIdsSnoc(rows);
      assert Distinct(RowIds(init)) by {
        forall i, j | 0 <= i < j < |init| ensures RowIds(init)[i] != RowIds(init)[j] {
          assert RowIds(init)[i] == RowIds(rows)[i] && RowIds(init)[j] == RowIds(rows)[j];
        }
      }
      MappedRows(init);
      MappedKeys(init);
      assert !Has(Mapped(init), last.id) by {
        forall i | 0 <= i < |init| ensures RowIds(init)[i] != last.id {
          assert RowIds(rows)[i] == RowIds(init)[i];
          assert RowIds(rows)[|rows| - 1] == last.id;
        }
      }
      var m0 := Mapped(init);
      var m := Mapped(rows);
      assert m == m0 + [Entry(last.id, RowDoc(last))];
      forall i | 0 <= i < |rows| ensures m[i] == Entry(rows[i].id, RowDoc(rows[i])) {
        if i < |init| {
          assert m[i] == m0[i] && rows[i] == init[i];
        } else {
          assert i == |rows| - 1 == |m0|;
        }
      }
    }
  }

  /** The foreach of every `fetch`: fills the result row by row. */
  method MapRows(rows: seq<Row>) returns (mapped: Dict<Doc>)
    ensures mapped == Mapped(rows)
  {
    mapped := [];
    var i := 0;
    while i < |rows|
      invariant 0 <= i <= |rows|
      invariant mapped == Mapped(rows[..i])
    {
      assert rows[..i + 1][..i] == rows[..i];
      var id := rows[i].id;
      mapped := Set(mapped, id, RowDoc(rows[i]));
      i := i + 1;
    }
    assert rows[..i] == rows;
  }

  /** Runs the query for the requested ids and maps the rows. */
  method FetchRows(q: QuerySpec, db: Database, ids: seq<string>) returns (mapped: Dict<Doc>)
    ensures mapped == Mapped(db.run(q, ids))
  {
    var rows := db.run(q, ids);
    mapped := MapRows(rows);
  }

  /**
   * What a fetch returns: a document exactly for each requested id that
   * passes the joins, in row order, keyed by that id (lowercase hex when the
   * ids asked for or the stored keys are), each one `{id, text}` built from
   * its row.
   */
  lemma FetchedDocuments(q: QuerySpec, store: Store, ids: seq<string>, rows: seq<Row>)
    requires RowsSatisfy(q, store, ids, rows)
    ensures var m := Mapped(rows);
      && |m| == |rows| && DistinctKeys(m)
      && (forall i :: 0 <= i < |rows| ==> m[i] == Entry(rows[i].id, RowDoc(rows[i])))
      && (AllLowerHex(ids) || HexKeys(store) ==> AllLowerHex(Keys(m)))
      && (forall id :: Has(m, id) <==> id in ids && Joinable(store, q, id))
  {
    MappedRows(rows);
    MappedShape(rows);
    var m := Mapped(rows);
    forall id | Has(m, id) ensures id in ids && Joinable(store, q, id) {
      var i :| 0 <= i < |rows| && RowIds(rows)[i] == id;
    }
  }

  /** A query that inner-joins a table yields no document for an id without a row in it. */
  lemma InnerJoinRequired(q: QuerySpec, j: Join, store: Store, ids: seq<string>, rows: seq<Row>)
    requires j in q.joins && j.kind == InnerJoin
    requires RowsSatisfy(q, store, ids, rows)
    ensures forall id :: Has(Mapped(rows), id) ==> j.table in store.linked && id in store.linked[j.table]
  {
    FetchedDocuments(q, store, ids, rows);
  }

  /** A query with left joins only yields a document for every requested id that exists. */
  lemma LeftJoinsOnly(q: QuerySpec, store: Store, ids: seq<string>, rows: seq<Row>)
    requires forall j :: j in q.joins ==> j.kind == LeftJoin
    requires RowsSatisfy(q, store, ids, rows)
    ensures forall id :: Has(Mapped(rows), id) <==> id in ids && id in KeysOf(store, q.table)
  {
    FetchedDocuments(q, store, ids, rows);
  }

  /** A query whose only inner join is `j` yields a document for an existing id exactly when `j` has a row for it. */
  lemma SingleInnerJoin(q: QuerySpec, j: Join, store: Store, id: string)
    requires j in q.joins && j.kind == InnerJoin
    requires forall other :: other in q.joins && other.kind == InnerJoin ==> other == j
    ensures Joinable(store, q, id) <==> id in KeysOf(store, q.table) && j.table in store.linked && id in store.linked[j.table]
  {
  }

  /** For a query selecting the id and one name, `text` is `id . ' ' . name`. */
  lemma IdNameDocuments(q: QuerySpec, store: Store, ids: seq<string>, rows: seq<Row>)
    requires |q.columns| == 2
    requires RowsSatisfy(q, store, ids, rows)
    ensures |Mapped(rows)| == |rows|
    ensures forall i :: 0 <= i < |rows| ==>
      Mapped(rows)[i] == Entry(rows[i].id, [Entry("id", rows[i].id), Entry("text", rows[i].id + " " + PhpString(rows[i].columns[0]))])
  {
    FetchedDocuments(q, store, ids, rows);
    forall i | 0 <= i < |rows|
      ensures RowText(rows[i]) == rows[i].id + " " + PhpString(rows[i].columns[0])
    {
      assert rows[i].columns == [rows[i].columns[0]];
      IdNameText(rows[i].id, rows[i].columns[0]);
    }
  }

  // ---------------------------------------------------------------------------
  // The seven indexers.

  /** `getEntityName()`, the page size of `getIterator()`, and the query `fetch` runs. */
  datatype Indexer = Indexer(entityName: string, batchSize: nat, query: QuerySpec)

  /** The translation table of an entity, inner-joined by every indexer. */
  function Translation(entity: string): string {
    entity + "_translation"
  }

  /** A query over an entity that needs a translation row, with just the name. */
  function TranslatedName(entity: string): QuerySpec {
    QuerySpec(entity, ["id", "name"], [Join(Translation(entity), InnerJoin)])
  }

  const ProductQuery := QuerySpec("product",
    ["id", "name", "tags", "product_number", "ean", "manufacturer_number"],
    [Join(Translation("product"), InnerJoin), Join("product_tag", LeftJoin), Join("tag", LeftJoin)])

  const MediaQuery := QuerySpec("media",
    ["id", "file_name", "alt", "title", "name", "tags"],
    [Join(Translation("media"), InnerJoin), Join("media_folder", LeftJoin), Join("media_tag", LeftJoin), Join("tag", LeftJoin)])

  const LandingPageQuery := QuerySpec("landing_page",
    ["id", "name", "tags"],
    [Join(Translation("landing_page"), InnerJoin), Join("landing_page_tag", LeftJoin), Join("tag", LeftJoin)])

  const ProductIndexer := Indexer("product", 150, ProductQuery)
  const MediaIndexer := Indexer("media", 150, MediaQuery)
  const LandingPageIndexer := Indexer("landing_page", 150, LandingPageQuery)
  const ShippingMethodIndexer := Indexer("shipping_method", 150, TranslatedName("shipping_method"))
  const PaymentMethodIndexer := Indexer("payment_method", 150, TranslatedName("payment_method"))
  const SalesChannelIndexer := Indexer("sales_channel", 150, TranslatedName("sales_channel"))
  const CmsPageIndexer := Indexer("cms_page", 150, TranslatedName("cms_page"))

  const Indexers := [ProductIndexer, MediaIndexer, LandingPageIndexer, ShippingMethodIndexer,
                     PaymentMethodIndexer, SalesChannelIndexer, CmsPageIndexer]

  /** The indexer's query reads its own entity's table and needs a translation row. */
  predicate WellFormed(ix: Indexer) {
    && ix.batchSize > 0
    && ix.query.table == ix.entityName
    && Join(Translation(ix.entityName), InnerJoin) in ix.query.joins
    && |ix.query.columns| >= 2 && ix.query.columns[0] == "id"
  }

  /** No inner join besides the translation: every other join is a left join. */
  predicate TranslationOnly(ix: Indexer) {
    forall j :: j in ix.query.joins && j.kind == InnerJoin ==> j == Join(Translation(ix.entityName), InnerJoin)
  }

  /** Every shipped indexer pages 150 at a time over its own table and needs translations. */
  lemma ShippedIndexersWellFormed()
    ensures forall ix :: ix in Indexers ==> WellFormed(ix) && ix.batchSize == 150
    ensures forall i, j :: 0 <= i < j < |Indexers| ==> Indexers[i].entityName != Indexers[j].entityName
  {
    IndexerNamesDistinct();
    forall i | 0 <= i < |Indexers| ensures WellFormed(Indexers[i]) && Indexers[i].batchSize == 150 {
      assert Indexers[i].entityName == IndexerNames[i];
    }
    forall i, j | 0 <= i < j < |Indexers| ensures Indexers[i].entityName != Indexers[j].entityName {
      assert Indexers[i].entityName == IndexerNames[i] && Indexers[j].entityName == IndexerNames[j];
    }
  }

  /** Every shipped indexer's only inner join is its translation; the rest are left joins. */
  lemma ShippedIndexersTranslationOnly()
    ensures TranslationOnly(ProductIndexer) && TranslationOnly(MediaIndexer) && TranslationOnly(LandingPageIndexer)
    ensures TranslationOnly(ShippingMethodIndexer) && TranslationOnly(PaymentMethodIndexer)
    ensures TranslationOnly(SalesChannelIndexer) && TranslationOnly(CmsPageIndexer)
  {
    TaggedTranslationOnly();
    TranslatedNameTranslationOnly("shipping_method");
    TranslatedNameTranslationOnly("payment_method");
    TranslatedNameTranslationOnly("sales_channel");
    TranslatedNameTranslationOnly("cms_page");
  }

  /** The product, media and landing page queries left-join their tags. */
  lemma TaggedTranslationOnly()
    ensures TranslationOnly(ProductIndexer) && TranslationOnly(MediaIndexer) && TranslationOnly(LandingPageIndexer)
  {
  }

  /** An id-and-name query joins nothing but the translation. */
  lemma TranslatedNameTranslationOnly(entity: string)
    ensures TranslationOnly(Indexer(entity, 150, TranslatedName(entity)))
  {
  }

  /** The entity names of the shipped indexers, in registration order. */
  const IndexerNames: seq<string> := ["product", "media", "landing_page", "shipping_method",
    "payment_method", "sales_channel", "cms_page"]

  lemma IndexerNamesDistinct()
    ensures Distinct(IndexerNames)
  {
  }

  /** `getIterator()`: a cursor over every key of the entity, `batchSize` at a time. */
  method GetIterator(ix: Indexer, store: Store) returns (cursor: PageCursor<string>)
    requires ix.batchSize > 0
    ensures fresh(cursor) && cursor.Valid()
    ensures cursor.items == KeysOf(store, ix.entityName) && cursor.limit == ix.batchSize
    ensures cursor.Remaining() == cursor.items
  {
    cursor := new PageCursor(KeysOf(store, ix.entityName), ix.batchSize);
  }

  /** `fetch($ids)`. */
  method Fetch(ix: Indexer, db: Database, ids: seq<string>) returns (mapped: Dict<Doc>)
    ensures mapped == Mapped(db.run(ix.query, ids))
  {
    mapped := FetchRows(ix.query, db, ids);
  }

  /**
   * Fetching with a well-formed indexer: a document for exactly the requested
   * ids that exist and have a translation, each `{id, text}` keyed by its id.
   */
  lemma IndexerFetch(ix: Indexer, db: Database, ids: seq<string>)
    requires WellFormed(ix) && TranslationOnly(ix) && Sound(db)
    ensures var m := Mapped(db.run(ix.query, ids));
      && DistinctKeys(m)
      && (AllLowerHex(ids) || HexKeys(db.store) ==> AllLowerHex(Keys(m)))
      && (forall id :: Has(m, id) <==>
            && id in ids && id in KeysOf(db.store, ix.entityName)
            && Translation(ix.entityName) in db.store.linked && id in db.store.linked[Translation(ix.entityName)])
      && (forall id :: Has(m, id) ==> DocFor(Get(m, id), id))
  {
    var rows := db.run(ix.query, ids);
    assert RowsSatisfy(ix.query, db.store, ids, rows);
    FetchedDocuments(ix.query, db.store, ids, rows);
    MappedShape(rows);
    forall id ensures Joinable(db.store, ix.query, id) <==>
      id in KeysOf(db.store, ix.entityName) && Translation(ix.entityName) in db.store.linked && id in db.store.linked[Translation(ix.entityName)]
    {
      SingleInnerJoin(ix.query, Join(Translation(ix.entityName), InnerJoin), db.store, id);
    }
  }
}
