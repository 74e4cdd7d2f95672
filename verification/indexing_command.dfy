/**
 * The console command `es:admin:index`: rebuilds the `admin_search` index in
 * one synchronous run. It drops and recreates the index, then walks thirteen
 * entity types in a fixed order; for each it pages over the primary keys,
 * fetches `{id, text}` documents for every batch, pushes them (deleting the
 * requested ids that came back without a document) and reports progress.
 */
module IndexingCommand {
  import opened Wrappers
  import opened PhpArray
  import opened Documents
  import opened Paging
  import opened Bulk
  import opened Indexers
  import opened Registry

  /** One `loop($entity, $data)` call: the entity and the query its `fetchX` closure runs. */
  datatype Job = Job(entity: string, query: QuerySpec)

  /** `Command::SUCCESS`. */
  const CommandSuccess: int := 0

  const CustomerQuery := QuerySpec("customer",
    ["id", "tags", "country", "city", "zipcode", "street",
     "first_name", "last_name", "email", "company", "customer_number"],
    [Join("customer_address", LeftJoin), Join("country", LeftJoin), Join("country_translation", LeftJoin),
     Join("customer_tag", LeftJoin), Join("tag", LeftJoin)])

  const OrderQuery := QuerySpec("order",
    ["id", "tags", "country", "city", "zipcode", "street",
     "first_name", "last_name", "email", "company", "customer_number", "order_number"],
    [Join("order_customer", LeftJoin), Join("order_address", LeftJoin), Join("country", LeftJoin),
     Join("country_translation", LeftJoin), Join("order_tag", LeftJoin), Join("tag", LeftJoin)])

  const ProductJob := Job("product", ProductQuery)
  const CustomerJob := Job("customer", CustomerQuery)
  const OrderJob := Job("order", OrderQuery)
  const MediaJob := Job("media", MediaQuery)

  /** The thirteen loops of `execute`, in the order they run. */
  const Jobs: seq<Job> := [
    ProductJob,
    CustomerJob,
    OrderJob,
    MediaJob,
    Job("cms_page", TranslatedName("cms_page")),
    Job("shipping_method", TranslatedName("shipping_method")),
    Job("payment_method", TranslatedName("payment_method")),
    Job("customer_group", TranslatedName("customer_group")),
    Job("property_group", TranslatedName("property_group")),
    Job("promotion", TranslatedName("promotion")),
    Job("landing_page", LandingPageQuery),
    Job("product_manufacturer", TranslatedName("product_manufacturer")),
    Job("sales_channel", TranslatedName("sales_channel"))
  ]

  /** The entity types `execute` indexes, in order. */
  const EntityOrder: seq<string> := ["product", "customer", "order", "media", "cms_page", "shipping_method",
    "payment_method", "customer_group", "property_group", "promotion", "landing_page", "product_manufacturer",
    "sales_channel"]

  predicate DistinctEntities(jobs: seq<Job>) {
    forall i, j :: 0 <= i < j < |jobs| ==> jobs[i].entity != jobs[j].entity
  }

  /** The index entry under `key` is the same before and after. */
  predicate Kept(before: map<string, Doc>, after: map<string, Doc>, key: string) {
    (key in after <==> key in before) && (key in before ==> after[key] == before[key])
  }

  function StartMessage(entity: string): string {
    "Start indexing " + entity
  }

  function FinishMessage(entity: string): string {
    "Finish indexing " + entity
  }

  // ---------------------------------------------------------------------------
  // Specification over the observable state.

  /**
   * The `while ($ids = $iterator->fetch())` loop over the batches still to
   * come: fetch and push each batch, then advance the progress by its size; a
   * failing push ends the run before the advance.
   */
  function LoopBatches(job: Job, pages: seq<seq<string>>, db: Database, s: IndexState, respond: Body -> BulkResponse): (IndexState, Outcome<Failure>)
    decreases |pages|
  {
    if pages == [] then (s, Pass)
    else
      var (s1, r1) := PushStep(s, job.entity, Mapped(db.run(job.query, pages[0])), pages[0], respond);
      if r1.Fail? then (s1, r1)
      else LoopBatches(job, pages[1..], db, s1.(events := s1.events + [ProgressAdvanced(|pages[0]|)]), respond)
  }

  /** A run of batches begins with a push of the first batch. */
  lemma LoopBatchesCons(job: Job, ids: seq<string>, rest: seq<seq<string>>, db: Database, s: IndexState, respond: Body -> BulkResponse)
    ensures var step := PushStep(s, job.entity, Mapped(db.run(job.query, ids)), ids, respond);
      LoopBatches(job, [ids] + rest, db, s, respond) ==
        if step.1.Fail? then step
        else LoopBatches(job, rest, db, step.0.(events := step.0.events + [ProgressAdvanced(|ids|)]), respond)
  {
    assert ([ids] + rest)[0] == ids && ([ids] + rest)[1..] == rest;
  }

  /** The batches `loop` pushes for a job. */
  function JobPages(job: Job, limit: nat, store: Store): seq<seq<string>>
    requires limit > 0
  {
    Pages(KeysOf(store, job.entity), limit)
  }

  /** `loop`: a progress bar sized by `fetchCount()`, the batches, then the finishing message. */
  function LoopSpec(job: Job, limit: nat, db: Database, s: IndexState, respond: Body -> BulkResponse): (IndexState, Outcome<Failure>)
    requires limit > 0
  {
    var started := s.(events := s.events + [ProgressStarted(StartMessage(job.entity), |KeysOf(db.store, job.entity)|)]);
    var (s1, r1) := LoopBatches(job, JobPages(job, limit, db.store), db, started, respond);
    if r1.Fail? then (s1, r1)
    else (s1.(events := s1.events + [ProgressFinished(FinishMessage(job.entity))]), Pass)
  }

  /** The loops of `execute` in order; the first failure propagates and ends the run. */
  function ExecuteSpec(jobs: seq<Job>, limit: nat, db: Database, s: IndexState, respond: Body -> BulkResponse): (IndexState, Outcome<Failure>)
    requires limit > 0
    decreases |jobs|
  {
    if jobs == [] then (s, Pass)
    else
      var (s1, r1) := LoopSpec(jobs[0], limit, db, s, respond);
      if r1.Fail? then (s1, r1) else ExecuteSpec(jobs[1..], limit, db, s1, respond)
  }

  /** The loops from the `i`-th job on begin with the `i`-th job's loop. */
  lemma ExecuteSpecAt(jobs: seq<Job>, i: nat, limit: nat, db: Database, s: IndexState, respond: Body -> BulkResponse)
    requires limit > 0 && i < |jobs|
    ensures var step := LoopSpec(jobs[i], limit, db, s, respond);
      ExecuteSpec(jobs[i..], limit, db, s, respond) ==
        if step.1.Fail? then step else ExecuteSpec(jobs[i + 1..], limit, db, step.0, respond)
  {
    assert jobs[i..][0] == jobs[i] && jobs[i..][1..] == jobs[i + 1..];
  }

  /** The bulk bodies a job sends when nothing fails: one per batch, in order. */
  function LoopBodies(job: Job, pages: seq<seq<string>>, db: Database): seq<Body>
    decreases |pages|
  {
    if pages == [] then []
    else [BulkBody(job.entity, Mapped(db.run(job.query, pages[0])), pages[0])] + LoopBodies(job, pages[1..], db)
  }

  // ---------------------------------------------------------------------------
  // Properties.

  /**
   * A successful batch loop sends one body per batch and advances the
   * progress once per batch by exactly the batch size.
   */
  lemma {:induction false} LoopBatchesLog(job: Job, pages: seq<seq<string>>, db: Database, s: IndexState, respond: Body -> BulkResponse)
    ensures var (s', r) := LoopBatches(job, pages, db, s, respond);
      r.Pass? ==>
        && s'.bulkLog == s.bulkLog + LoopBodies(job, pages, db)
        && s'.events == s.events + AdvanceEvents(pages)
    decreases |pages|
  {
    if pages != [] {
      var body := BulkBody(job.entity, Mapped(db.run(job.query, pages[0])), pages[0]);
      var step := PushStep(s, job.entity, Mapped(db.run(job.query, pages[0])), pages[0], respond);
      if step.1.Pass? {
        var s2 := step.0.(events := step.0.events + [ProgressAdvanced(|pages[0]|)]);
        assert LoopBatches(job, pages, db, s, respond) == LoopBatches(job, pages[1..], db, s2, respond);
        LoopBatchesLog(job, pages[1..], db, s2, respond);
        assert s2.bulkLog == s.bulkLog + [body] && s2.events == s.events + [ProgressAdvanced(|pages[0]|)];
        assert LoopBodies(job, pages, db) == [body] + LoopBodies(job, pages[1..], db);
        AdvanceCons(pages);
        ConcatAssoc(s.bulkLog, [body], LoopBodies(job, pages[1..], db));
        ConcatAssoc(s.events, [ProgressAdvanced(|pages[0]|)], AdvanceEvents(pages[1..]));
      }
    }
  }

  lemma AdvanceCons(pages: seq<seq<string>>)
    requires pages != []
    ensures AdvanceEvents(pages) == [ProgressAdvanced(|pages[0]|)] + AdvanceEvents(pages[1..])
  {
  }

  /**
   * A successful `loop` reports a start carrying the key count, one advance
   * per batch, and a finish; the advances add up to the start's total, so the
   * progress bar ends full. One body per batch goes to the engine.
   */
  lemma LoopProgress(job: Job, limit: nat, db: Database, s: IndexState, respond: Body -> BulkResponse)
    requires limit > 0
    ensures var (s', r) := LoopSpec(job, limit, db, s, respond);
      var n := |KeysOf(db.store, job.entity)|;
      var pages := JobPages(job, limit, db.store);
      r.Pass? ==>
        && s'.bulkLog == s.bulkLog + LoopBodies(job, pages, db)
        && s'.events == s.events + ([ProgressStarted(StartMessage(job.entity), n)] + AdvanceEvents(pages) + [ProgressFinished(FinishMessage(job.entity))])
        && StepTotal(AdvanceEvents(pages)) == n
  {
    var n := |KeysOf(db.store, job.entity)|;
    var pages := JobPages(job, limit, db.store);
    var start := [ProgressStarted(StartMessage(job.entity), n)];
    var finish := [ProgressFinished(FinishMessage(job.entity))];
    var started := s.(events := s.events + start);
    var (s1, r1) := LoopBatches(job, pages, db, started, respond);
    var (s', r) := LoopSpec(job, limit, db, s, respond);
    if r.Pass? {
      assert r1.Pass? && s' == s1.(events := s1.events + finish);
      LoopBatchesLog(job, pages, db, started, respond);
      PagesCoverItems(KeysOf(db.store, job.entity), limit);
      AdvanceTotal(pages);
      ConcatAssoc(s.events, start, AdvanceEvents(pages));
      ConcatAssoc(s.events, start + AdvanceEvents(pages), finish);
    }
  }

  /**
   * One push of a fetched batch: each requested id ends up indexed exactly
   * when its row passes the query's joins; every other id of the entity is
   * left alone.
   */
  lemma PushFetched(job: Job, ids: seq<string>, db: Database, s: IndexState, respond: Body -> BulkResponse)
    requires Sound(db)
    ensures var s1 := PushStep(s, job.entity, Mapped(db.run(job.query, ids)), ids, respond).0;
      && (forall id :: id in ids ==> (CompositeId(job.entity, id) in s1.docs <==> Joinable(db.store, job.query, id)))
      && (forall id :: id !in ids ==> Kept(s.docs, s1.docs, CompositeId(job.entity, id)))
  {
    var rows := db.run(job.query, ids);
    assert RowsSatisfy(job.query, db.store, ids, rows);
    FetchedDocuments(job.query, db.store, ids, rows);
    var data := Mapped(rows);
    PushEffect(s.docs, job.entity, data, ids);
    var s1 := PushStep(s, job.entity, data, ids, respond).0;
    forall id | id in ids && Has(data, id) ensures CompositeId(job.entity, id) in s1.docs {
      var i := IndexOf(data, id);
    }
    forall id | id !in ids ensures Kept(s.docs, s1.docs, CompositeId(job.entity, id)) {
      var key := CompositeId(job.entity, id);
      forall i | 0 <= i < |data| ensures CompositeId(job.entity, data[i].key) != key {
        HasAt(data, i);
        CompositeIdSameType(job.entity, data[i].key, id);
      }
      forall i | 0 <= i < |ids| ensures CompositeId(job.entity, ids[i]) != key {
        CompositeIdSameType(job.entity, ids[i], id);
      }
    }
  }

  /**
   * After a successful batch loop, every id of every batch is indexed exactly
   * when its row passes the joins; ids in no batch are left alone either way.
   */
  lemma {:induction false} LoopBatchesEffect(job: Job, pages: seq<seq<string>>, db: Database, s: IndexState, respond: Body -> BulkResponse)
    requires Sound(db)
    ensures var (s', r) := LoopBatches(job, pages, db, s, respond);
      && (forall id :: id !in Flatten(pages) ==> Kept(s.docs, s'.docs, CompositeId(job.entity, id)))
      && (r.Pass? ==> forall id :: id in Flatten(pages) ==> (CompositeId(job.entity, id) in s'.docs <==> Joinable(db.store, job.query, id)))
    decreases |pages|
  {
    if pages != [] {
      var (s1, r1) := PushStep(s, job.entity, Mapped(db.run(job.query, pages[0])), pages[0], respond);
      var s2 := s1.(events := s1.events + [ProgressAdvanced(|pages[0]|)]);
      PushFetched(job, pages[0], db, s, respond);
      LoopBatchesEffect(job, pages[1..], db, s2, respond);
      assert Flatten(pages) == pages[0] + Flatten(pages[1..]);
    }
  }

  /** A batch loop for one entity leaves every hex `_id` of another entity alone. */
  lemma {:induction false} LoopBatchesFrame(job: Job, pages: seq<seq<string>>, db: Database, s: IndexState, respond: Body -> BulkResponse, other: string, id: string)
    requires Sound(db) && other != job.entity && IsLowerHex(id)
    requires forall i :: 0 <= i < |pages| ==> AllLowerHex(pages[i])
    ensures Kept(s.docs, LoopBatches(job, pages, db, s, respond).0.docs, CompositeId(other, id))
    decreases |pages|
  {
    if pages != [] {
      var (s1, r1) := PushStep(s, job.entity, Mapped(db.run(job.query, pages[0])), pages[0], respond);
      var s2 := s1.(events := s1.events + [ProgressAdvanced(|pages[0]|)]);
      var rows := db.run(job.query, pages[0]);
      assert RowsSatisfy(job.query, db.store, pages[0], rows);
      FetchedDocuments(job.query, db.store, pages[0], rows);
      PushFrame(s.docs, job.entity, Mapped(rows), pages[0], other, id);
      assert forall i :: 0 <= i < |pages| - 1 ==> pages[1..][i] == pages[i + 1];
      LoopBatchesFrame(job, pages[1..], db, s2, respond, other, id);
    }
  }

  /** Every batch of a hex key list is hex. */
  lemma PagesHex(keys: seq<string>, limit: nat)
    requires limit > 0 && AllLowerHex(keys)
    ensures forall i :: 0 <= i < |Pages(keys, limit)| ==> AllLowerHex(Pages(keys, limit)[i])
  {
    var pages := Pages(keys, limit);
    PagesCoverItems(keys, limit);
    forall i, j | 0 <= i < |pages| && 0 <= j < |pages[i]| ensures IsLowerHex(pages[i][j]) {
      FlattenMember(pages, i, pages[i][j]);
      var m :| 0 <= m < |keys| && keys[m] == pages[i][j];
    }
  }

  /** A successful `loop` settles every key of its entity: indexed exactly when its row passes the joins. */
  lemma LoopEffect(job: Job, limit: nat, db: Database, s: IndexState, respond: Body -> BulkResponse)
    requires limit > 0 && Sound(db)
    ensures var (s', r) := LoopSpec(job, limit, db, s, respond);
      r.Pass? ==> forall id :: id in KeysOf(db.store, job.entity) ==>
        (CompositeId(job.entity, id) in s'.docs <==> Joinable(db.store, job.query, id))
  {
    var n := |KeysOf(db.store, job.entity)|;
    var started := s.(events := s.events + [ProgressStarted(StartMessage(job.entity), n)]);
    var pages := JobPages(job, limit, db.store);
    var (s1, r1) := LoopBatches(job, pages, db, started, respond);
    var (s', r) := LoopSpec(job, limit, db, s, respond);
    if r.Pass? {
      assert r1.Pass? && s'.docs == s1.docs;
      PagesCoverItems(KeysOf(db.store, job.entity), limit);
      LoopBatchesEffect(job, pages, db, started, respond);
    }
  }

  /** A `loop` for one entity leaves every hex `_id` of another entity alone. */
  lemma LoopFrame(job: Job, limit: nat, db: Database, s: IndexState, respond: Body -> BulkResponse, other: string, id: string)
    requires limit > 0 && Sound(db) && HexKeys(db.store) && other != job.entity && IsLowerHex(id)
    ensures Kept(s.docs, LoopSpec(job, limit, db, s, respond).0.docs, CompositeId(other, id))
  {
    var n := |KeysOf(db.store, job.entity)|;
    var started := s.(events := s.events + [ProgressStarted(StartMessage(job.entity), n)]);
    PagesHex(KeysOf(db.store, job.entity), limit);
    LoopBatchesFrame(job, JobPages(job, limit, db.store), db, started, respond, other, id);
  }

  /** Later loops over other entities leave the keys of an earlier one alone. */
  lemma {:induction false} ExecuteFrame(jobs: seq<Job>, limit: nat, db: Database, s: IndexState, respond: Body -> BulkResponse, other: string, id: string)
    requires limit > 0 && Sound(db) && HexKeys(db.store) && IsLowerHex(id)
    requires forall k :: 0 <= k < |jobs| ==> jobs[k].entity != other
    ensures Kept(s.docs, ExecuteSpec(jobs, limit, db, s, respond).0.docs, CompositeId(other, id))
    decreases |jobs|
  {
    if jobs != [] {
      var (s1, r1) := LoopSpec(jobs[0], limit, db, s, respond);
      LoopFrame(jobs[0], limit, db, s, respond, other, id);
      assert forall k :: 0 <= k < |jobs| - 1 ==> jobs[1..][k] == jobs[k + 1];
      ExecuteFrame(jobs[1..], limit, db, s1, respond, other, id);
    }
  }

  /**
   * After a run that raised nothing, with distinct entity names and hex keys,
   * every key of every walked entity is in the index exactly when its row
   * passes that entity's joins.
   */
  lemma {:induction false} ExecuteEffect(jobs: seq<Job>, limit: nat, db: Database, s: IndexState, respond: Body -> BulkResponse)
    requires limit > 0 && Sound(db) && HexKeys(db.store) && DistinctEntities(jobs)
    ensures var (s', r) := ExecuteSpec(jobs, limit, db, s, respond);
      r.Pass? ==> forall k, id :: 0 <= k < |jobs| && id in KeysOf(db.store, jobs[k].entity) ==>
        (CompositeId(jobs[k].entity, id) in s'.docs <==> Joinable(db.store, jobs[k].query, id))
    decreases |jobs|
  {
    if jobs != [] && LoopSpec(jobs[0], limit, db, s, respond).1.Pass? && ExecuteSpec(jobs, limit, db, s, respond).1.Pass? {
      var s1 := LoopSpec(jobs[0], limit, db, s, respond).0;
      var s' := ExecuteSpec(jobs, limit, db, s, respond).0;
      assert ExecuteSpec(jobs, limit, db, s, respond) == ExecuteSpec(jobs[1..], limit, db, s1, respond);
      assert DistinctEntities(jobs[1..]) by {
        forall i, j | 0 <= i < j < |jobs| - 1 ensures jobs[1..][i].entity != jobs[1..][j].entity {
          assert jobs[1..][i] == jobs[i + 1] && jobs[1..][j] == jobs[j + 1];
        }
      }
      ExecuteEffect(jobs[1..], limit, db, s1, respond);
      LoopEffect(jobs[0], limit, db, s, respond);
      forall k, id | 0 <= k < |jobs| && id in KeysOf(db.store, jobs[k].entity)
        ensures CompositeId(jobs[k].entity, id) in s'.docs <==> Joinable(db.store, jobs[k].query, id)
      {
        if k == 0 {
          var t := jobs[0].entity;
          assert t in db.store.keys;
          var m :| 0 <= m < |KeysOf(db.store, t)| && KeysOf(db.store, t)[m] == id;
          assert IsLowerHex(id);
          forall j | 0 <= j < |jobs| - 1 ensures jobs[1..][j].entity != t {
            assert jobs[1..][j] == jobs[j + 1];
          }
          ExecuteFrame(jobs[1..], limit, db, s1, respond, t, id);
        } else {
          assert jobs[1..][k - 1] == jobs[k];
          assert CompositeId(jobs[1..][k - 1].entity, id) in s'.docs <==> Joinable(db.store, jobs[1..][k - 1].query, id);
        }
      }
    }
  }

  /** The shipped loops: thirteen distinct entities, each query reading its own entity's table. */
  lemma ShippedJobs()
    ensures |Jobs| == 13 && DistinctEntities(Jobs)
    ensures forall k :: 0 <= k < |Jobs| ==> Jobs[k].query.table == Jobs[k].entity
    ensures Jobs[0] == ProductJob && Jobs[1] == CustomerJob && Jobs[2] == OrderJob && Jobs[3] == MediaJob
  {
    JobEntities();
    EntityOrderDistinct();
    forall i, j | 0 <= i < j < |Jobs| ensures Jobs[i].entity != Jobs[j].entity {
      assert EntityOrder[i] != EntityOrder[j];
    }
  }

  lemma EntityOrderDistinct()
    ensures Distinct(EntityOrder)
  {
  }

  /** The entity of each loop, in order. */
  lemma JobEntities()
    ensures |Jobs| == 13 && forall k :: 0 <= k < 13 ==> Jobs[k].entity == EntityOrder[k] && Jobs[k].query.table == EntityOrder[k]
  {
  }

  /** Customers and orders left-join everything. */
  lemma LeftJoinedJobs()
    ensures CustomerJob.entity == "customer" && forall j :: j in CustomerJob.query.joins ==> j.kind == LeftJoin
    ensures OrderJob.entity == "order" && forall j :: j in OrderJob.query.joins ==> j.kind == LeftJoin
  {
  }

  /** Products and media inner-join only their translations. */
  lemma TranslatedJobs()
    ensures ProductJob.entity == "product" && Join(Translation("product"), InnerJoin) in ProductJob.query.joins
    ensures forall j :: j in ProductJob.query.joins && j.kind == InnerJoin ==> j.table == Translation("product")
    ensures MediaJob.entity == "media" && Join(Translation("media"), InnerJoin) in MediaJob.query.joins
    ensures forall j :: j in MediaJob.query.joins && j.kind == InnerJoin ==> j.table == Translation("media")
  {
  }

  /** A loop whose query left-joins only: after a successful run every existing key of its entity is indexed. */
  lemma LeftJoinedJobComplete(jobs: seq<Job>, k: nat, limit: nat, db: Database, s: IndexState, respond: Body -> BulkResponse)
    requires limit > 0 && Sound(db) && HexKeys(db.store) && DistinctEntities(jobs)
    requires k < |jobs| && jobs[k].query.table == jobs[k].entity
    requires forall j :: j in jobs[k].query.joins ==> j.kind == LeftJoin
    ensures var (s', r) := ExecuteSpec(jobs, limit, db, s, respond);
      r.Pass? ==> forall id :: id in KeysOf(db.store, jobs[k].entity) ==> CompositeId(jobs[k].entity, id) in s'.docs
  {
    ExecuteEffect(jobs, limit, db, s, respond);
  }

  /** A loop whose only inner join is its translation table: an existing key is indexed exactly when it has a translation. */
  lemma TranslatedJobSettled(jobs: seq<Job>, k: nat, limit: nat, db: Database, s: IndexState, respond: Body -> BulkResponse)
    requires limit > 0 && Sound(db) && HexKeys(db.store) && DistinctEntities(jobs)
    requires k < |jobs| && jobs[k].query.table == jobs[k].entity
    requires Join(Translation(jobs[k].entity), InnerJoin) in jobs[k].query.joins
    requires forall j :: j in jobs[k].query.joins && j.kind == InnerJoin ==> j.table == Translation(jobs[k].entity)
    ensures var (s', r) := ExecuteSpec(jobs, limit, db, s, respond);
      var t := Translation(jobs[k].entity);
      r.Pass? ==> forall id :: id in KeysOf(db.store, jobs[k].entity) ==>
        (CompositeId(jobs[k].entity, id) in s'.docs <==> t in db.store.linked && id in db.store.linked[t])
  {
    ExecuteEffect(jobs, limit, db, s, respond);
    forall id | id in KeysOf(db.store, jobs[k].entity) {
      SingleInnerJoin(jobs[k].query, Join(Translation(jobs[k].entity), InnerJoin), db.store, id);
    }
  }

  /**
   * Customers and orders are fetched with left joins only: after a successful
   * run every existing customer and order is in the index.
   */
  lemma CustomersAndOrdersComplete(limit: nat, db: Database, s: IndexState, respond: Body -> BulkResponse)
    requires limit > 0 && Sound(db) && HexKeys(db.store)
    ensures var (s', r) := ExecuteSpec(Jobs, limit, db, s, respond);
      r.Pass? ==>
        && (forall id :: id in KeysOf(db.store, "customer") ==> CompositeId("customer", id) in s'.docs)
        && (forall id :: id in KeysOf(db.store, "order") ==> CompositeId("order", id) in s'.docs)
  {
    ShippedJobs();
    LeftJoinedJobs();
    LeftJoinedJobComplete(Jobs, 1, limit, db, s, respond);
    LeftJoinedJobComplete(Jobs, 2, limit, db, s, respond);
  }

  /**
   * Products and media inner-join their translation table: after a
   * successful run a product or medium is in the index exactly when it has a
   * translation row.
   */
  lemma TranslationsRequired(limit: nat, db: Database, s: IndexState, respond: Body -> BulkResponse)
    requires limit > 0 && Sound(db) && HexKeys(db.store)
    ensures var (s', r) := ExecuteSpec(Jobs, limit, db, s, respond);
      r.Pass? ==>
        && (forall id :: id in KeysOf(db.store, "product") ==>
              (CompositeId("product", id) in s'.docs <==>
                 Translation("product") in db.store.linked && id in db.store.linked[Translation("product")]))
        && (forall id :: id in KeysOf(db.store, "media") ==>
              (CompositeId("media", id) in s'.docs <==>
                 Translation("media") in db.store.linked && id in db.store.linked[Translation("media")]))
  {
    ShippedJobs();
    TranslatedJobs();
    TranslatedJobSettled(Jobs, 0, limit, db, s, respond);
    TranslatedJobSettled(Jobs, 3, limit, db, s, respond);
  }

  // ---------------------------------------------------------------------------
  // The command.

  class AdminIndexingCommand {
    const client: IndexClient
    const db: Database
    /** The page size of the iterators the factory creates. */
    const limit: nat
    /** Progress-bar output, in order. */
    ghost var progress: seq<ProgressEvent>

    ghost predicate Valid()
      reads this
    {
      limit > 0
    }

    /** The state the specification functions track. */
    ghost function Current(): IndexState
      reads this, client
    {
      IndexState(client.docs, client.bulkLog, progress)
    }

    constructor (client: IndexClient, db: Database, limit: nat)
      requires limit > 0
      ensures Valid() && this.client == client && this.db == db && this.limit == limit && progress == []
    {
      this.client := client;
      this.db := db;
      this.limit := limit;
      progress := [];
    }

    /**
     * `execute`: drops the index if it exists, creates it when it is missing,
     * runs the thirteen loops in order and returns SUCCESS unless a push raised.
     */
    method Execute() returns (r: Result<int, Failure>)
      requires Valid()
      modifies this, client
      ensures client.indexExists && client.mapping == AdminIndexMapping
      ensures var (s, out) := ExecuteSpec(Jobs, limit, db, IndexState(map[], old(client.bulkLog), old(progress)), client.respond);
        && Current() == s
        && r == (if out.Pass? then Success(CommandSuccess) else Failure(out.error))
    {
      var present := client.IndexExists();
      if present {
        client.Delete();
      }
      present := client.IndexExists();
      if !present {
        CreateIndex(client);
      }
      var out := RunJobs(Jobs);
      if out.Fail? {
        return Failure(out.error);
      }
      return Success(CommandSuccess);
    }

    /** The `loop` calls of `execute`, in order; a raised push ends the run. */
    method RunJobs(jobs: seq<Job>) returns (r: Outcome<Failure>)
      requires Valid()
      modifies this, client
      ensures client.indexExists == old(client.indexExists) && client.mapping == old(client.mapping)
      ensures (Current(), r) == ExecuteSpec(jobs, limit, db, old(Current()), client.respond)
    {
      var i := 0;
      while i < |jobs|
        invariant 0 <= i <= |jobs|
        invariant client.indexExists == old(client.indexExists) && client.mapping == old(client.mapping)
        invariant ExecuteSpec(jobs, limit, db, old(Current()), client.respond) == ExecuteSpec(jobs[i..], limit, db, Current(), client.respond)
      {
        ExecuteSpecAt(jobs, i, limit, db, Current(), client.respond);
        r := Loop(jobs[i]);
        if r.Fail? {
          return;
        }
        i := i + 1;
      }
      assert jobs[i..] == [];
      r := Pass;
    }

    /** `loop`: one entity's progress bar and batches. */
    method Loop(job: Job) returns (r: Outcome<Failure>)
      requires Valid()
      modifies this, client
      ensures client.indexExists == old(client.indexExists) && client.mapping == old(client.mapping)
      ensures (Current(), r) == LoopSpec(job, limit, db, old(Current()), client.respond)
    {
      var cursor := new PageCursor(KeysOf(db.store, job.entity), limit);
      var count := cursor.FetchCount();
      progress := progress + [ProgressStarted(StartMessage(job.entity), count)];
      r := PushBatches(job, cursor);
      if r.Fail? {
        return;
      }
      progress := progress + [ProgressFinished(FinishMessage(job.entity))];
    }

    /** `while ($ids = $iterator->fetch())`: fetch, push, advance, until an empty batch. */
    method PushBatches(job: Job, cursor: PageCursor<string>) returns (r: Outcome<Failure>)
      requires cursor.Valid()
      modifies this, client, cursor
      ensures client.indexExists == old(client.indexExists) && client.mapping == old(client.mapping)
      ensures (Current(), r) == LoopBatches(job, Pages(old(cursor.Remaining()), cursor.limit), db, old(Current()), client.respond)
    {
      ghost var goal := LoopBatches(job, Pages(cursor.Remaining(), cursor.limit), db, Current(), client.respond);
      var ids := cursor.Fetch();
      while ids != []
        invariant cursor.Valid()
        invariant client.indexExists == old(client.indexExists) && client.mapping == old(client.mapping)
        invariant ids == [] ==> cursor.Remaining() == [] && goal == (Current(), Pass)
        invariant ids != [] ==> goal == LoopBatches(job, [ids] + Pages(cursor.Remaining(), cursor.limit), db, Current(), client.respond)
        decreases |cursor.Remaining()| + (if ids == [] then 0 else 1)
      {
        LoopBatchesCons(job, ids, Pages(cursor.Remaining(), cursor.limit), db, Current(), client.respond);
        r := PushBatch(job, ids);
        if r.Fail? {
          return;
        }
        ids := cursor.Fetch();
      }
      r := Pass;
    }

    /** One turn of `loop`'s while: fetch the batch, push it, advance the progress bar. */
    method PushBatch(job: Job, ids: seq<string>) returns (r: Outcome<Failure>)
      modifies this, client
      ensures client.indexExists == old(client.indexExists) && client.mapping == old(client.mapping)
      ensures var step := PushStep(old(Current()), job.entity, Mapped(db.run(job.query, ids)), ids, client.respond);
        r == step.1 && Current() == if r.Fail? then step.0 else step.0.(events := step.0.events + [ProgressAdvanced(|ids|)])
    {
      var values := FetchRows(job.query, db, ids);
      r := Push(client, job.entity, values, ids);
      if r.Fail? {
        return;
      }
      progress := progress + [ProgressAdvanced(|ids|)];
    }
  }
}
