/**
 * The admin search registry: keeps the `admin_search` index in step with the
 * transactional store. A full reindex (`iterate`) recreates the index and
 * queues one message per batch of keys; a write event (`refresh`) and a queued
 * message (`handle`) fetch the affected entities and push them.
 */
module Registry {
  import opened Wrappers
  import opened PhpArray
  import opened Documents
  import opened Paging
  import opened Bulk
  import opened Indexers

  /** The queued message: an entity name and a batch of its ids, kept as given. */
  datatype AdminSearchIndexingMessage = AdminSearchIndexingMessage(entity: string, ids: seq<string>)

  /** What the message bus hands to `handle`: an indexing message or anything else. */
  datatype QueueMessage = Indexing(message: AdminSearchIndexingMessage) | OtherMessage

  /** A write event: the primary keys written, per entity name. */
  type WrittenEvent = map<string, seq<string>>

  /** `$event->getPrimaryKeys($entity)`: no keys for an entity the event does not mention. */
  function PrimaryKeys(event: WrittenEvent, entity: string): seq<string> {
    if entity in event then event[entity] else []
  }

  /** Every key the event carries is a lowercase hex id. */
  predicate HexEvent(event: WrittenEvent) {
    forall entity :: entity in event ==> AllLowerHex(event[entity])
  }

  predicate Pageable(ixs: seq<Indexer>) {
    forall ix :: ix in ixs ==> ix.batchSize > 0
  }

  predicate DistinctNames(ixs: seq<Indexer>) {
    forall i, j :: 0 <= i < j < |ixs| ==> ixs[i].entityName != ixs[j].entityName
  }

  // ---------------------------------------------------------------------------
  // iterate

  /** The batches an indexer's cursor hands out. */
  function IndexerPages(ix: Indexer, store: Store): seq<seq<string>>
    requires ix.batchSize > 0
  {
    Pages(KeysOf(store, ix.entityName), ix.batchSize)
  }

  function PageMessages(entity: string, pages: seq<seq<string>>): seq<AdminSearchIndexingMessage> {
    seq(|pages|, i requires 0 <= i < |pages| => AdminSearchIndexingMessage(entity, pages[i]))
  }

  function AdvanceEvents(pages: seq<seq<string>>): seq<ProgressEvent> {
    seq(|pages|, i requires 0 <= i < |pages| => ProgressAdvanced(|pages[i]|))
  }

  /** One indexer's events: started with the key count, one advance per batch, finished. */
  function IndexerEvents(ix: Indexer, store: Store): seq<ProgressEvent>
    requires ix.batchSize > 0
  {
    [ProgressStarted(ix.entityName, |KeysOf(store, ix.entityName)|)]
      + AdvanceEvents(IndexerPages(ix, store))
      + [ProgressFinished(ix.entityName)]
  }

  /** The messages `iterate` queues, indexer by indexer in registration order. */
  function IterateMessages(ixs: seq<Indexer>, store: Store): seq<AdminSearchIndexingMessage>
    requires Pageable(ixs)
  {
    if ixs == [] then []
    else
      var last := ixs[|ixs| - 1];
      IterateMessages(ixs[..|ixs| - 1], store) + PageMessages(last.entityName, IndexerPages(last, store))
  }

  /** The events `iterate` dispatches, indexer by indexer in registration order. */
  function IterateEvents(ixs: seq<Indexer>, store: Store): seq<ProgressEvent>
    requires Pageable(ixs)
  {
    if ixs == [] then []
    else
      var last := ixs[|ixs| - 1];
      IterateEvents(ixs[..|ixs| - 1], store) + IndexerEvents(last, store)
  }

  /** Iterating one more indexer appends its messages and events. */
  lemma IterateSnoc(ixs: seq<Indexer>, i: nat, store: Store)
    requires Pageable(ixs) && i < |ixs|
    ensures IterateMessages(ixs[..i + 1], store) ==
      IterateMessages(ixs[..i], store) + PageMessages(ixs[i].entityName, IndexerPages(ixs[i], store))
    ensures IterateEvents(ixs[..i + 1], store) == IterateEvents(ixs[..i], store) + IndexerEvents(ixs[i], store)
  {
    assert ixs[..i + 1][..i] == ixs[..i] && ixs[..i + 1][i] == ixs[i];
  }

  function MessageIds(messages: seq<AdminSearchIndexingMessage>): seq<seq<string>> {
    seq(|messages|, i requires 0 <= i < |messages| => messages[i].ids)
  }

  /** The sum of the advance steps among some events. */
  function StepTotal(events: seq<ProgressEvent>): nat {
    if events == [] then 0
    else (if events[0].ProgressAdvanced? then events[0].step else 0) + StepTotal(events[1..])
  }

  lemma {:induction false} AdvanceTotal(pages: seq<seq<string>>)
    ensures StepTotal(AdvanceEvents(pages)) == TotalSize(pages)
  {
    if pages != [] {
      assert AdvanceEvents(pages)[1..] == AdvanceEvents(pages[1..]);
      AdvanceTotal(pages[1..]);
    }
  }

  /**
   * One indexer's part of a full reindex: its messages carry its name and
   * non-empty batches of at most `batchSize` ids which, concatenated, are
   * exactly its keys in order; its advance steps add up to the started total.
   */
  lemma IterateCoversKeys(ix: Indexer, store: Store)
    requires ix.batchSize > 0
    ensures var messages := PageMessages(ix.entityName, IndexerPages(ix, store));
      && (forall m :: m in messages ==> m.entity == ix.entityName && 0 < |m.ids| <= ix.batchSize)
      && Flatten(MessageIds(messages)) == KeysOf(store, ix.entityName)
    ensures StepTotal(IndexerEvents(ix, store)) == |KeysOf(store, ix.entityName)|
  {
    var pages := IndexerPages(ix, store);
    assert MessageIds(PageMessages(ix.entityName, pages)) == pages;
    PagesCoverItems(KeysOf(store, ix.entityName), ix.batchSize);
    AdvanceTotal(pages);
    var events := IndexerEvents(ix, store);
    assert events[1..] == AdvanceEvents(pages) + [ProgressFinished(ix.entityName)];
    StepTotalAppend(AdvanceEvents(pages), [ProgressFinished(ix.entityName)]);
  }

  lemma {:induction false} StepTotalAppend(a: seq<ProgressEvent>, b: seq<ProgressEvent>)
    ensures StepTotal(a + b) == StepTotal(a) + StepTotal(b)
  {
    if a != [] {
      assert (a + b)[1..] == a[1..] + b;
      StepTotalAppend(a[1..], b);
    } else {
      assert a + b == b;
    }
  }

  lemma LogSnoc(entity: string, pages: seq<seq<string>>, page: seq<string>)
    ensures PageMessages(entity, pages + [page]) == PageMessages(entity, pages) + [AdminSearchIndexingMessage(entity, page)]
    ensures AdvanceEvents(pages + [page]) == AdvanceEvents(pages) + [ProgressAdvanced(|page|)]
  {
  }

  lemma ConcatAssoc<T>(a: seq<T>, b: seq<T>, c: seq<T>)
    ensures a + (b + c) == (a + b) + c
  {
  }

  // ---------------------------------------------------------------------------
  // refresh and handle, specified over the observable index state.

  /** One indexer's turn in `refresh`: no keys, no fetch and no bulk call. */
  function RefreshStep(ix: Indexer, event: WrittenEvent, db: Database, s: IndexState, respond: Body -> BulkResponse): (IndexState, Outcome<Failure>) {
    var ids := PrimaryKeys(event, ix.entityName);
    if ids == [] then (s, Pass)
    else PushStep(s, ix.entityName, Mapped(db.run(ix.query, ids)), ids, respond)
  }

  /** `refresh` over the indexers in order, stopping at the first failing push. */
  function RefreshSpec(ixs: seq<Indexer>, event: WrittenEvent, db: Database, s: IndexState, respond: Body -> BulkResponse): (IndexState, Outcome<Failure>)
    decreases |ixs|
  {
    if ixs == [] then (s, Pass)
    else
      var (s1, r1) := RefreshStep(ixs[0], event, db, s, respond);
      if r1.Fail? then (s1, r1) else RefreshSpec(ixs[1..], event, db, s1, respond)
  }

  /** The refresh of the indexers from the `i`-th on begins with the `i`-th indexer's step. */
  lemma RefreshSpecAt(ixs: seq<Indexer>, i: nat, event: WrittenEvent, db: Database, s: IndexState, respond: Body -> BulkResponse)
    requires i < |ixs|
    ensures var step := RefreshStep(ixs[i], event, db, s, respond);
      RefreshSpec(ixs[i..], event, db, s, respond) ==
        if step.1.Fail? then step else RefreshSpec(ixs[i + 1..], event, db, step.0, respond)
  {
    assert ixs[i..][0] == ixs[i] && ixs[i..][1..] == ixs[i + 1..];
  }

  /** The bulk bodies a refresh sends when nothing fails: one per indexer the event touches, in order. */
  function RefreshBodies(ixs: seq<Indexer>, event: WrittenEvent, db: Database): seq<Body>
    decreases |ixs|
  {
    if ixs == [] then []
    else
      var ids := PrimaryKeys(event, ixs[0].entityName);
      (if ids == [] then [] else [BulkBody(ixs[0].entityName, Mapped(db.run(ixs[0].query, ids)), ids)])
        + RefreshBodies(ixs[1..], event, db)
  }

  /**
   * A successful refresh visits the indexers in registration order and sends
   * exactly one bulk body per indexer whose entity the event names with keys;
   * the others get no fetch and no bulk call. Progress is not reported.
   */
  lemma {:induction false} RefreshSendsBodies(ixs: seq<Indexer>, event: WrittenEvent, db: Database, s: IndexState, respond: Body -> BulkResponse)
    ensures var (s', r) := RefreshSpec(ixs, event, db, s, respond);
      && s'.events == s.events
      && (r.Pass? ==> s'.bulkLog == s.bulkLog + RefreshBodies(ixs, event, db))
    decreases |ixs|
  {
    if ixs != [] {
      var ids := PrimaryKeys(event, ixs[0].entityName);
      var head: seq<Body> := if ids == [] then [] else [BulkBody(ixs[0].entityName, Mapped(db.run(ixs[0].query, ids)), ids)];
      var step := RefreshStep(ixs[0], event, db, s, respond);
      assert step.0.events == s.events && step.0.bulkLog == s.bulkLog + head;
      RefreshSendsBodies(ixs[1..], event, db, step.0, respond);
      assert RefreshBodies(ixs, event, db) == head + RefreshBodies(ixs[1..], event, db);
      ConcatAssoc(s.bulkLog, head, RefreshBodies(ixs[1..], event, db));
    }
  }

  /** An event naming none of the indexed entities leaves the index state as it was. */
  lemma {:induction false} RefreshUntouched(ixs: seq<Indexer>, event: WrittenEvent, db: Database, s: IndexState, respond: Body -> BulkResponse)
    requires forall ix :: ix in ixs ==> PrimaryKeys(event, ix.entityName) == []
    ensures RefreshSpec(ixs, event, db, s, respond) == (s, Pass)
    decreases |ixs|
  {
    if ixs != [] {
      assert RefreshStep(ixs[0], event, db, s, respond) == (s, Pass);
      assert forall ix :: ix in ixs[1..] ==> ix in ixs;
      RefreshUntouched(ixs[1..], event, db, s, respond);
    }
  }

  /** `_id`s of different entity types never coincide when the ids are hex. */
  lemma CompositeIdDistinctTypes(t1: string, id1: string, t2: string, id2: string)
    requires t1 != t2 && '_' !in id1 && '_' !in id2
    ensures CompositeId(t1, id1) != CompositeId(t2, id2)
  {
    CompositeIdInjective(t1, id1, t2, id2);
  }

  /** A push for one entity type leaves every hex `_id` of another type as it was. */
  lemma PushFrame(docs: map<string, Doc>, t: string, data: Dict<Doc>, ids: seq<string>, other: string, id: string)
    requires t != other && IsLowerHex(id)
    requires DistinctKeys(data) && AllLowerHex(Keys(data)) && AllLowerHex(ids)
    ensures var after := ApplyBulk(docs, BulkBody(t, data, ids));
      var key := CompositeId(other, id);
      (key in after <==> key in docs) && (key in docs ==> after[key] == docs[key])
  {
    var key := CompositeId(other, id);
    LowerHexHasNoUnderscore(id);
    PushEffect(docs, t, data, ids);
    forall i | 0 <= i < |data| ensures CompositeId(t, data[i].key) != key {
      assert Keys(data)[i] == data[i].key;
      LowerHexHasNoUnderscore(data[i].key);
      CompositeIdDistinctTypes(t, data[i].key, other, id);
    }
    forall i | 0 <= i < |ids| ensures CompositeId(t, ids[i]) != key {
      LowerHexHasNoUnderscore(ids[i]);
      CompositeIdDistinctTypes(t, ids[i], other, id);
    }
  }

  /** A refresh over indexers of other entity types leaves a hex `_id` as it was. */
  lemma {:induction false} RefreshFrame(ixs: seq<Indexer>, event: WrittenEvent, db: Database, s: IndexState, respond: Body -> BulkResponse, other: string, id: string)
    requires Sound(db) && HexEvent(event) && IsLowerHex(id)
    requires forall ix :: ix in ixs ==> ix.entityName != other
    ensures var s' := RefreshSpec(ixs, event, db, s, respond).0;
      var key := CompositeId(other, id);
      (key in s'.docs <==> key in s.docs) && (key in s.docs ==> s'.docs[key] == s.docs[key])
    decreases |ixs|
  {
    if ixs != [] {
      var ix := ixs[0];
      var ids := PrimaryKeys(event, ix.entityName);
      var key := CompositeId(other, id);
      var step := RefreshStep(ix, event, db, s, respond);
      var s' := RefreshSpec(ixs, event, db, s, respond).0;
      if ids != [] {
        var rows := db.run(ix.query, ids);
        assert RowsSatisfy(ix.query, db.store, ids, rows);
        FetchedDocuments(ix.query, db.store, ids, rows);
        PushFrame(s.docs, ix.entityName, Mapped(rows), ids, other, id);
        assert step.0.docs == ApplyBulk(s.docs, BulkBody(ix.entityName, Mapped(rows), ids));
      } else {
        assert step.0 == s;
      }
      assert (key in step.0.docs <==> key in s.docs) && (key in s.docs ==> step.0.docs[key] == s.docs[key]);
      if step.1.Pass? {
        assert forall ix' :: ix' in ixs[1..] ==> ix' in ixs;
        RefreshFrame(ixs[1..], event, db, step.0, respond, other, id);
        assert s' == RefreshSpec(ixs[1..], event, db, step.0, respond).0;
      } else {
        assert s' == step.0;
      }
    }
  }

  /** One indexer's push in a refresh: each key the event names is indexed iff its row can be fetched. */
  lemma RefreshStepEffect(ix: Indexer, event: WrittenEvent, db: Database, s: IndexState, respond: Body -> BulkResponse)
    requires Sound(db)
    ensures var s1 := RefreshStep(ix, event, db, s, respond).0;
      forall id :: id in PrimaryKeys(event, ix.entityName) ==>
        (CompositeId(ix.entityName, id) in s1.docs <==> Joinable(db.store, ix.query, id))
  {
    var ids := PrimaryKeys(event, ix.entityName);
    if ids != [] {
      var rows := db.run(ix.query, ids);
      assert RowsSatisfy(ix.query, db.store, ids, rows);
      FetchedDocuments(ix.query, db.store, ids, rows);
      var data := Mapped(rows);
      PushEffect(s.docs, ix.entityName, data, ids);
      forall id | id in ids && Has(data, id) ensures CompositeId(ix.entityName, id) in RefreshStep(ix, event, db, s, respond).0.docs {
        var i := IndexOf(data, id);
      }
    }
  }

  /** The first indexer's keys are settled by its own push; the later indexers do not touch them. */
  lemma RefreshHead(ixs: seq<Indexer>, event: WrittenEvent, db: Database, s: IndexState, respond: Body -> BulkResponse, id: string)
    requires Sound(db) && HexEvent(event) && DistinctNames(ixs)
    requires ixs != [] && id in PrimaryKeys(event, ixs[0].entityName)
    requires RefreshStep(ixs[0], event, db, s, respond).1.Pass?
    ensures CompositeId(ixs[0].entityName, id) in RefreshSpec(ixs, event, db, s, respond).0.docs <==>
      Joinable(db.store, ixs[0].query, id)
  {
    var ix := ixs[0];
    var s1 := RefreshStep(ix, event, db, s, respond).0;
    assert RefreshSpec(ixs, event, db, s, respond) == RefreshSpec(ixs[1..], event, db, s1, respond);
    var ids := PrimaryKeys(event, ix.entityName);
    var j :| 0 <= j < |ids| && ids[j] == id;
    assert IsLowerHex(id);
    forall other | other in ixs[1..] ensures other.entityName != ix.entityName {
      var m :| 0 <= m < |ixs| - 1 && ixs[1..][m] == other;
      assert ixs[m + 1] == other;
    }
    RefreshStepEffect(ix, event, db, s, respond);
    RefreshFrame(ixs[1..], event, db, s1, respond, ix.entityName, id);
  }

  /**
   * After a refresh that raised nothing, with distinct indexer names, every
   * key the event names for a registered entity is in the index exactly when
   * the entity's row still exists (and has what the query inner-joins): a
   * deleted entity disappears from the search index.
   */
  lemma {:induction false} RefreshEffect(ixs: seq<Indexer>, event: WrittenEvent, db: Database, s: IndexState, respond: Body -> BulkResponse)
    requires Sound(db) && HexEvent(event) && DistinctNames(ixs)
    ensures RefreshSpec(ixs, event, db, s, respond).1.Pass? ==>
      forall k, id :: 0 <= k < |ixs| && id in PrimaryKeys(event, ixs[k].entityName) ==>
        (CompositeId(ixs[k].entityName, id) in RefreshSpec(ixs, event, db, s, respond).0.docs <==> Joinable(db.store, ixs[k].query, id))
    decreases |ixs|
  {
    if ixs != [] && RefreshStep(ixs[0], event, db, s, respond).1.Pass? && RefreshSpec(ixs, event, db, s, respond).1.Pass? {
      var s1 := RefreshStep(ixs[0], event, db, s, respond).0;
      assert RefreshSpec(ixs, event, db, s, respond) == RefreshSpec(ixs[1..], event, db, s1, respond);
      assert DistinctNames(ixs[1..]) by {
        forall i, j | 0 <= i < j < |ixs| - 1 ensures ixs[1..][i].entityName != ixs[1..][j].entityName {
          assert ixs[1..][i] == ixs[i + 1] && ixs[1..][j] == ixs[j + 1];
        }
      }
      RefreshEffect(ixs[1..], event, db, s1, respond);
      forall k, id | 0 <= k < |ixs| && id in PrimaryKeys(event, ixs[k].entityName)
        ensures CompositeId(ixs[k].entityName, id) in RefreshSpec(ixs, event, db, s, respond).0.docs <==> Joinable(db.store, ixs[k].query, id)
      {
        if k == 0 {
          RefreshHead(ixs, event, db, s, respond, id);
        } else {
          assert ixs[1..][k - 1] == ixs[k];
          assert id in PrimaryKeys(event, ixs[1..][k - 1].entityName);
          assert CompositeId(ixs[1..][k - 1].entityName, id) in RefreshSpec(ixs[1..], event, db, s1, respond).0.docs
            <==> Joinable(db.store, ixs[1..][k - 1].query, id);
        }
      }
    }
  }

  /** `getIndexer`: the first registered indexer with that entity name, if any. */
  function FindIndexer(ixs: seq<Indexer>, entity: string): (r: Option<Indexer>)
    ensures r.Some? ==> r.value in ixs && r.value.entityName == entity
    ensures r.None? ==> forall ix :: ix in ixs ==> ix.entityName != entity
  {
    if ixs == [] then None
    else if ixs[0].entityName == entity then Some(ixs[0])
    else FindIndexer(ixs[1..], entity)
  }

  /** `FindIndexer` picks the first match: every earlier indexer has another name. */
  lemma {:induction false} FindIndexerFirst(ixs: seq<Indexer>, entity: string)
    ensures FindIndexer(ixs, entity).Some? ==>
      exists i :: 0 <= i < |ixs| && ixs[i] == FindIndexer(ixs, entity).value &&
        forall j :: 0 <= j < i ==> ixs[j].entityName != entity
  {
    if ixs != [] && ixs[0].entityName != entity {
      FindIndexerFirst(ixs[1..], entity);
      if FindIndexer(ixs[1..], entity).Some? {
        var i :| 0 <= i < |ixs| - 1 && ixs[1..][i] == FindIndexer(ixs, entity).value &&
          forall j :: 0 <= j < i ==> ixs[1..][j].entityName != entity;
        assert ixs[i + 1] == FindIndexer(ixs, entity).value;
        assert forall j :: 0 <= j < i + 1 ==> ixs[j].entityName != entity by {
          forall j | 0 <= j < i + 1 ensures ixs[j].entityName != entity {
            if j > 0 { assert ixs[j] == ixs[1..][j - 1]; }
          }
        }
      }
    } else if ixs != [] {
      assert ixs[0] == FindIndexer(ixs, entity).value;
    }
  }

  /** `handle`: other messages are ignored; an unknown entity raises; otherwise fetch and push. */
  function HandleSpec(ixs: seq<Indexer>, message: QueueMessage, db: Database, s: IndexState, respond: Body -> BulkResponse): (IndexState, Outcome<Failure>) {
    match message
    case OtherMessage => (s, Pass)
    case Indexing(m) =>
      match FindIndexer(ixs, m.entity)
      case None => (s, Fail(IndexerNotFound(m.entity)))
      case Some(ix) => PushStep(s, m.entity, Mapped(db.run(ix.query, m.ids)), m.ids, respond)
  }

  /**
   * Handling a message twice leaves the index as handling it once: a queued
   * batch can be redelivered without changing what is indexed.
   */
  lemma HandleIdempotent(ixs: seq<Indexer>, message: QueueMessage, db: Database, s: IndexState, respond: Body -> BulkResponse)
    ensures var once := HandleSpec(ixs, message, db, s, respond).0;
      HandleSpec(ixs, message, db, once, respond).0.docs == once.docs
  {
    if message.Indexing? && FindIndexer(ixs, message.message.entity).Some? {
      var m := message.message;
      var ix := FindIndexer(ixs, m.entity).value;
      var rows := db.run(ix.query, m.ids);
      var body := BulkBody(m.entity, Mapped(rows), m.ids);
      MappedShape(rows);
      PushIdempotent(s.docs, m.entity, Mapped(rows), m.ids);
      var once := HandleSpec(ixs, message, db, s, respond).0;
      assert once.docs == ApplyBulk(s.docs, body);
      assert HandleSpec(ixs, message, db, once, respond).0.docs == ApplyBulk(once.docs, body);
    }
  }

  // ---------------------------------------------------------------------------
  // The registry.

  class AdminSearchRegistry {
    const indexers: seq<Indexer>
    const client: IndexClient
    const db: Database
    /** Progress events dispatched, in order. */
    ghost var events: seq<ProgressEvent>
    /** Messages put on the queue, in order. */
    ghost var queue: seq<AdminSearchIndexingMessage>

    ghost predicate Valid()
      reads this
    {
      Pageable(indexers)
    }

    constructor (indexers: seq<Indexer>, client: IndexClient, db: Database)
      requires Pageable(indexers)
      ensures Valid() && this.indexers == indexers && this.client == client && this.db == db
      ensures events == [] && queue == []
    {
      this.indexers := indexers;
      this.client := client;
      this.db := db;
      events := [];
      queue := [];
    }

    /**
     * `iterate`: drops and recreates the index, then queues every key of
     * every indexer in batches and reports progress; pushes nothing itself.
     */
    method Iterate()
      requires Valid()
      modifies this, client
      ensures client.indexExists && client.mapping == AdminIndexMapping && client.docs == map[]
      ensures client.bulkLog == old(client.bulkLog)
      ensures queue == old(queue) + IterateMessages(indexers, db.store)
      ensures events == old(events) + IterateEvents(indexers, db.store)
    {
      var present := client.IndexExists();
      if present {
        client.Delete();
      }
      CreateIndex(client);
      QueueAll();
    }

    /** `iterate`'s foreach: every indexer's batches, in registration order. */
    method QueueAll()
      requires Valid()
      modifies this
      ensures queue == old(queue) + IterateMessages(indexers, db.store)
      ensures events == old(events) + IterateEvents(indexers, db.store)
    {
      var i := 0;
      while i < |indexers|
        invariant 0 <= i <= |indexers|
        invariant queue == old(queue) + IterateMessages(indexers[..i], db.store)
        invariant events == old(events) + IterateEvents(indexers[..i], db.store)
      {
        IterateSnoc(indexers, i, db.store);
        ConcatAssoc(old(queue), IterateMessages(indexers[..i], db.store), PageMessages(indexers[i].entityName, IndexerPages(indexers[i], db.store)));
        ConcatAssoc(old(events), IterateEvents(indexers[..i], db.store), IndexerEvents(indexers[i], db.store));
        QueueBatches(indexers[i]);
        i := i + 1;
      }
      assert indexers[..i] == indexers;
    }

    /** The body of `iterate`'s foreach: one indexer's cursor drained into the queue. */
    method QueueBatches(ix: Indexer)
      requires ix.batchSize > 0
      modifies this
      ensures queue == old(queue) + PageMessages(ix.entityName, IndexerPages(ix, db.store))
      ensures events == old(events) + IndexerEvents(ix, db.store)
    {
      var cursor := GetIterator(ix, db.store);
      var count := cursor.FetchCount();
      ghost var started := [ProgressStarted(ix.entityName, count)];
      ghost var advanced := AdvanceEvents(IndexerPages(ix, db.store));
      ghost var finished := [ProgressFinished(ix.entityName)];
      assert IndexerEvents(ix, db.store) == started + advanced + finished;
      events := events + started;
      DrainCursor(ix.entityName, cursor);
      events := events + finished;
      ConcatAssoc(old(events), started, advanced);
      ConcatAssoc(old(events), started + advanced, finished);
    }

    /** `while ($ids = $iterator->fetch())`: one message and one advance per non-empty batch. */
    method DrainCursor(entity: string, cursor: PageCursor<string>)
      requires cursor.Valid()
      modifies this, cursor
      ensures cursor.Valid() && cursor.Remaining() == []
      ensures queue == old(queue) + PageMessages(entity, Pages(old(cursor.Remaining()), cursor.limit))
      ensures events == old(events) + AdvanceEvents(Pages(old(cursor.Remaining()), cursor.limit))
    {
      ghost var done: seq<seq<string>> := [];
      ghost var pages := Pages(cursor.Remaining(), cursor.limit);
      var ids := cursor.Fetch();
      while ids != []
        invariant cursor.Valid()
        invariant ids == [] ==> cursor.Remaining() == []
        invariant ids != [] ==> pages == done + [ids] + Pages(cursor.Remaining(), cursor.limit)
        invariant ids == [] ==> pages == done
        invariant queue == old(queue) + PageMessages(entity, done)
        invariant events == old(events) + AdvanceEvents(done)
        decreases |cursor.Remaining()| + (if ids == [] then 0 else 1)
      {
        LogSnoc(entity, done, ids);
        ConcatAssoc(old(queue), PageMessages(entity, done), [AdminSearchIndexingMessage(entity, ids)]);
        ConcatAssoc(old(events), AdvanceEvents(done), [ProgressAdvanced(|ids|)]);
        QueueBatch(entity, ids);
        ghost var rest := cursor.Remaining();
        ConcatAssoc(done, [ids], Pages(rest, cursor.limit));
        done := done + [ids];
        ids := cursor.Fetch();
        if ids != [] {
          ConcatAssoc(done, [ids], Pages(cursor.Remaining(), cursor.limit));
        } else {
          assert Pages(rest, cursor.limit) == [];
        }
      }
    }

    /** One turn of that while: dispatch the message, advance the progress bar. */
    method QueueBatch(entity: string, ids: seq<string>)
      modifies this
      ensures queue == old(queue) + [AdminSearchIndexingMessage(entity, ids)]
      ensures events == old(events) + [ProgressAdvanced(|ids|)]
    {
      queue := queue + [AdminSearchIndexingMessage(entity, ids)];
      events := events + [ProgressAdvanced(|ids|)];
    }

    /**
     * `refresh`: creates the index when it is missing, then for each indexer
     * in order fetches and pushes the keys the event names for its entity.
     */
    method Refresh(event: WrittenEvent) returns (r: Outcome<Failure>)
      modifies client
      ensures client.indexExists
      ensures client.mapping == if old(client.indexExists) then old(client.mapping) else AdminIndexMapping
      ensures (IndexState(client.docs, client.bulkLog, []), r) ==
        RefreshSpec(indexers, event, db,
          IndexState(if old(client.indexExists) then old(client.docs) else map[], old(client.bulkLog), []),
          client.respond)
    {
      var present := client.IndexExists();
      if !present {
        CreateIndex(client);
      }
      r := RefreshAll(event);
    }

    /** `refresh`'s foreach over the indexers, stopping at the first failed push. */
    method RefreshAll(event: WrittenEvent) returns (r: Outcome<Failure>)
      modifies client
      ensures client.indexExists == old(client.indexExists) && client.mapping == old(client.mapping)
      ensures (IndexState(client.docs, client.bulkLog, []), r) ==
        RefreshSpec(indexers, event, db, IndexState(old(client.docs), old(client.bulkLog), []), client.respond)
    {
      r := Pass;
      var i := 0;
      while i < |indexers|
        invariant 0 <= i <= |indexers|
        invariant client.indexExists == old(client.indexExists) && client.mapping == old(client.mapping)
        invariant RefreshSpec(indexers, event, db, IndexState(old(client.docs), old(client.bulkLog), []), client.respond) ==
          RefreshSpec(indexers[i..], event, db, IndexState(client.docs, client.bulkLog, []), client.respond)
      {
        RefreshSpecAt(indexers, i, event, db, IndexState(client.docs, client.bulkLog, []), client.respond);
        r := RefreshIndexer(indexers[i], event);
        if r.Fail? {
          return;
        }
        i := i + 1;
      }
      assert indexers[i..] == [];
      r := Pass;
    }

    /** One turn of `refresh`'s foreach. */
    method RefreshIndexer(ix: Indexer, event: WrittenEvent) returns (r: Outcome<Failure>)
      modifies client
      ensures client.indexExists == old(client.indexExists) && client.mapping == old(client.mapping)
      ensures (IndexState(client.docs, client.bulkLog, []), r) ==
        RefreshStep(ix, event, db, IndexState(old(client.docs), old(client.bulkLog), []), client.respond)
    {
      var ids := PrimaryKeys(event, ix.entityName);
      if ids == [] {
        return Pass;
      }
      var documents := Fetch(ix, db, ids);
      r := Push(client, ix.entityName, documents, ids);
    }

    /** `getIndexer`: the first indexer for the entity, or the "not found" failure. */
    method GetIndexer(entity: string) returns (r: Result<Indexer, Failure>)
      ensures FindIndexer(indexers, entity).Some? ==> r == Success(FindIndexer(indexers, entity).value)
      ensures FindIndexer(indexers, entity).None? ==> r == Failure(IndexerNotFound(entity))
    {
      var i := 0;
      while i < |indexers|
        invariant 0 <= i <= |indexers|
        invariant FindIndexer(indexers, entity) == FindIndexer(indexers[i..], entity)
      {
        assert indexers[i..][1..] == indexers[i + 1..];
        if indexers[i].entityName == entity {
          return Success(indexers[i]);
        }
        i := i + 1;
      }
      return Failure(IndexerNotFound(entity));
    }

    /** `handle`. */
    method Handle(message: QueueMessage) returns (r: Outcome<Failure>)
      modifies client
      ensures client.indexExists == old(client.indexExists) && client.mapping == old(client.mapping)
      ensures (IndexState(client.docs, client.bulkLog, []), r) ==
        HandleSpec(indexers, message, db, IndexState(old(client.docs), old(client.bulkLog), []), client.respond)
    {
      if message.OtherMessage? {
        return Pass;
      }
      var m := message.message;
      var found := GetIndexer(m.entity);
      if found.Failure? {
        return Fail(found.error);
      }
      var documents := Fetch(found.value, db, m.ids);
      r := Push(client, m.entity, documents, m.ids);
    }
  }
}
