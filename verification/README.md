# Admin search indexing, admin search and property listing — a Dafny model

This project models two parts of the Shopware platform.

The first is the **administration search**:
- **Indexing into Elasticsearch.** The `admin_search` index holds one flat
  `{id, text, entity_name}` document per entity, stored under the `_id`
  `<entity>_<hex id>`. There are three ways to fill it:
  - `AdminSearchRegistry` keeps the index in sync. On an entity-written event
    it fetches and pushes the written keys (`refresh`). A full reindex
    (`iterate`) queues every key in batches, and the queued messages are
    indexed by `handle`.
  - the seven `*AdminSearchIndexer` classes each turn one SQL query into
    documents;
  - the `es:admin:index` command re-creates the index and walks thirteen
    entities itself.
- **Querying it.**
  - `AdminSearcher::resolveTerm` turns a search term into one page of hit ids.
  - `AdminSearcher::elastic` runs a global search collapsed per entity. It
    then drops entities the user may not read and loads the rest.
  - `AdminSearcher::search` is the repository search per readable entity.
  - `ResolveTermSubscriber` rewrites an administration list request: the
    term becomes the resolved ids. It then reports the index's total in the
    JSON response.

The second is the **storefront property filter**:
- `PropertyAggregationResolver` replaces the option-id aggregations of a
  product listing by the property groups they belong to. Each group gets the
  listed option ids.
- `PropertyListingLoader` loads the options of one group, or fails naming it.

Module layout:

| module | contents |
|---|---|
| `Wrappers` | Option, Result and Outcome |
| `PhpArray` | the ordered PHP array (`Dict`), with `Set`, `Remove`, `array_unique` and truthiness |
| `Documents` | SQL rows, `{id, text}` documents, the composite `_id` |
| `Paging` | key and repository iterators as cursors over a fixed list |
| `Bulk` | the bulk body `push` builds, what the engine does with it, `parseErrors`, the client |
| `Indexers` | the fetch queries, the row-to-document mapping, the seven indexers |
| `Registry` | `AdminSearchRegistry` |
| `IndexingCommand` | the indexing command |
| `Dal` | criteria and search results as values |
| `AdminSearch` | `AdminSearcher` |
| `TermSubscriber` | `ResolveTermSubscriber` |
| `Properties` | property options, group rows, hydrated groups |
| `PropertyAggregation` | the aggregation resolver |
| `PropertyListing` | the listing loader |

Classes whose fields the code updates are Dafny classes: the index client,
the registry, the command, the request and response, the listing result and
the property groups. Each method is proved against a specification function
of the old state. The properties are lemmas about those functions.

Collaborators the code only calls are fixed but otherwise unknown functions:
- the database answers;
- the Elasticsearch engine's answers;
- the tokenizer;
- the ACL check;
- the repositories;
- the sort helpers.

Where the code relies on a database guarantee, the model states it as a
predicate. `Indexers.Sound` covers the `IN (:ids)` filter, `GROUP BY id`,
the inner joins and the column count. `Indexers.HexKeys` says that the
stored keys are lowercase hex, as `LOWER(HEX())` prints them. Lemmas that
need one take it as a hypothesis. `Indexers.SoundDatabaseExists` shows that
every store, however many keys its tables hold, has a sound database, so
`Sound` constrains only the answers and never the data.

## Model

| member | source | states |
|---|---|---|
| Documents.RowDocShape | src/Elasticsearch/Admin/Indexer/ProductAdminSearchIndexer.php:60-64 | a fetched document has exactly the keys `id` and `text`, `id` being the row id and `text` the imploded row |
| Documents.RowTextLayout | src/Elasticsearch/Admin/Indexer/ProductAdminSearchIndexer.php:63 | `implode(' ', $row)` is the id, then each further column after one space (NULL as the empty string) |
| Documents.IdNameText | src/Elasticsearch/Admin/Indexer/CmsPageAdminSearchIndexer.php:58 | for the id-and-name queries the text is the id, a space and the name |
| Documents.LowerHexHasNoUnderscore | src/Elasticsearch/Admin/Indexer/ProductAdminSearchIndexer.php:42 | `LOWER(HEX(...))` ids never contain `_` |
| Documents.LastUnderscore | src/Elasticsearch/Admin/AdminSearchRegistry.php:192-195 | finds the last `_` of an index `_id`, or reports that there is none |
| Documents.CompositeIdRoundTrip | src/Elasticsearch/Admin/AdminSearchRegistry.php:192-195 | `type_id` splits back into the entity type and the id whenever the id has no `_` |
| Documents.CompositeIdInjective | src/Elasticsearch/Admin/AdminSearchRegistry.php:192-195 | different (type, id) pairs with `_`-free ids never share an `_id` |
| Documents.StampedDocument | src/Elasticsearch/Admin/AdminSearchRegistry.php:127 | stamping sets `entity_name` to the type and keeps every other field and its value |
| Paging.Pages | src/Elasticsearch/Admin/AdminSearchRegistry.php:69 | every batch a key cursor hands out is non-empty and at most the page size |
| Paging.PagesCoverItems | src/Elasticsearch/Admin/AdminSearchRegistry.php:67-72 | the batches, concatenated, are exactly the keys in order, and their sizes add up to `fetchCount()` |
| Paging.FlattenMember | src/Elasticsearch/Admin/AdminSearchRegistry.php:69-70 | every id of a batch is one of the keys |
| Paging.PageCursor.constructor | src/Elasticsearch/Admin/Indexer/ProductAdminSearchIndexer.php:35 | a new cursor has every key still to hand out |
| Paging.PageCursor.FetchCount | src/Elasticsearch/Admin/AdminSearchRegistry.php:67 | `fetchCount()` is the number of keys |
| Paging.PageCursor.Fetch | src/Elasticsearch/Admin/AdminSearchRegistry.php:69 | `fetch()` hands out the next batch, which with the rest makes up what remained; an exhausted cursor hands out an empty batch |
| Bulk.ToRemove | src/Elasticsearch/Admin/AdminSearchRegistry.php:122 | an id is removed exactly when it was requested and the fetch did not return it |
| Bulk.ToRemoveMultiplicity | src/Elasticsearch/Admin/AdminSearchRegistry.php:122 | a missing id is deleted as often as it was requested, a fetched one never |
| Bulk.IndexLinesSnoc | src/Elasticsearch/Admin/AdminSearchRegistry.php:125-129 | one more fetched entry appends its index action and its stamped document |
| Bulk.DeleteLinesSnoc | src/Elasticsearch/Admin/AdminSearchRegistry.php:131-133 | one more removed id appends its delete action |
| Bulk.IndexLinesLength | src/Elasticsearch/Admin/AdminSearchRegistry.php:125-129 | two lines per fetched document |
| Bulk.IndexLinesAt | src/Elasticsearch/Admin/AdminSearchRegistry.php:125-129 | entry i owns lines 2i (index action under `type_id`) and 2i+1 (its document stamped with `entity_name`) |
| Bulk.DeleteLinesAt | src/Elasticsearch/Admin/AdminSearchRegistry.php:131-133 | line j deletes the `_id` of the j-th removed id |
| Bulk.BulkBodyLayout | src/Elasticsearch/Admin/AdminSearchRegistry.php:124-133 | the body holds all index/document pairs in fetched order, then one delete per missing id in request order |
| Bulk.NonEmptyRequestNonEmptyBody | src/Elasticsearch/Admin/AdminSearchRegistry.php:120-140 | a push for a non-empty id list never sends an empty body |
| Bulk.IndexLinesLoop | src/Elasticsearch/Admin/AdminSearchRegistry.php:125-129 | the first foreach builds exactly the index lines |
| Bulk.DeleteLinesLoop | src/Elasticsearch/Admin/AdminSearchRegistry.php:131-133 | the second foreach builds exactly the delete lines |
| Bulk.BuildBody | src/Elasticsearch/Admin/AdminSearchRegistry.php:122-133 | `$documents` is the bulk body of the fetched data and the requested ids |
| Bulk.ApplyIndexLines | src/Elasticsearch/Admin/AdminSearchRegistry.php:125-129 | applying the index lines stores each fetched document, stamped, in order |
| Bulk.ApplyDeleteLines | src/Elasticsearch/Admin/AdminSearchRegistry.php:131-133 | applying the delete lines removes exactly those `_id`s |
| Bulk.CompositeIdSameType | src/Elasticsearch/Admin/AdminSearchRegistry.php:192-195 | within one type distinct ids give distinct `_id`s |
| Bulk.IndexAllEffect | src/Elasticsearch/Admin/AdminSearchRegistry.php:125-129 | after storing the fetched documents each is under its `type_id`, stamped, and every other `_id` is unchanged |
| Bulk.PushEffect | src/Elasticsearch/Admin/AdminSearchRegistry.php:120-140 | after a push every fetched document is stored, stamped, under `type_id`, every requested id the fetch left out is gone, and every other `_id` keeps its document |
| Bulk.DeletedKeysSubset | src/Elasticsearch/Admin/AdminSearchRegistry.php:131-133 | deleting a sublist of ids deletes a subset of `_id`s |
| Bulk.PushIdempotent | src/Elasticsearch/Admin/AdminSearchRegistry.php:120-140 | sending the same body twice leaves the index as sending it once |
| Bulk.Reapplied | src/Elasticsearch/Admin/AdminSearchRegistry.php:120-140 | re-storing the same documents after the same deletes changes nothing |
| Bulk.PushForm | src/Elasticsearch/Admin/AdminSearchRegistry.php:120-140 | a push is "store the indexed documents, then delete `_id`s none of them uses" |
| Bulk.WrittenKeysOwned | src/Elasticsearch/Admin/AdminSearchRegistry.php:120-140 | with hex ids every `_id` a push writes or deletes belongs to the pushed type |
| Bulk.FailuresExactly | src/Elasticsearch/Admin/AdminSearchRegistry.php:171-190 | `parseErrors` distributes over concatenation, keeps exactly the items whose status is not 200/201, and is empty iff all succeeded |
| Bulk.FailuresEmpty | src/Elasticsearch/Admin/AdminSearchRegistry.php:171-190 | the error list is empty iff every item has status 200 or 201 |
| Bulk.ParseErrors | src/Elasticsearch/Admin/AdminSearchRegistry.php:171-190 | the loop returns the error entry of each failed item, in order, with `type`/`reason` falling back to `_type`/`result` |
| Bulk.IndexClient.constructor | src/Elasticsearch/Admin/AdminSearchRegistry.php:32-38 | the client starts from the given index state with no bulk body sent |
| Bulk.IndexClient.IndexExists | src/Elasticsearch/Admin/AdminSearchRegistry.php:166-169 | `indexExists()` reports whether the `admin_search` index exists |
| Bulk.IndexClient.Create | src/Elasticsearch/Admin/AdminSearchRegistry.php:160-163 | creating a missing index gives an empty index with the given mapping |
| Bulk.IndexClient.Delete | src/Elasticsearch/Admin/AdminSearchRegistry.php:59 | deleting an existing index removes it with its documents |
| Bulk.IndexClient.Bulk | src/Elasticsearch/Admin/AdminSearchRegistry.php:140 | `bulk()` applies the body to the documents, logs it and returns the engine's response |
| Bulk.CreateIndex | src/Elasticsearch/Admin/AdminSearchRegistry.php:149-164 | `createIndex` creates `admin_search` with keyword `id`, `entity_id`, `entity_name` and text `text` |
| Bulk.Push | src/Elasticsearch/Admin/AdminSearchRegistry.php:120-147 | `push` sends the bulk body of the data and ids and fails with the parsed errors exactly when the response reports errors |
| Indexers.RowIdsSnoc | src/Elasticsearch/Admin/Indexer/ProductAdminSearchIndexer.php:61-64 | the ids of one more row append its id |
| Indexers.MappedKeys | src/Elasticsearch/Admin/Indexer/ProductAdminSearchIndexer.php:61-64 | every row id, and nothing else, is a key of `$mapped` |
| Indexers.MappedDistinct | src/Elasticsearch/Admin/Indexer/ProductAdminSearchIndexer.php:61-64 | `$mapped` never repeats a key |
| Indexers.MappedDocs | src/Elasticsearch/Admin/Indexer/ProductAdminSearchIndexer.php:61-64 | each mapped entry is `{id, text}` with `id` its key |
| Indexers.MappedShape | src/Elasticsearch/Admin/Indexer/ProductAdminSearchIndexer.php:61-64 | one entry per distinct row id, each `{id, text}` keyed by its id |
| Indexers.MappedRows | src/Elasticsearch/Admin/Indexer/ProductAdminSearchIndexer.php:58-66 | with one row per id (GROUP BY) there is one document per row, in row order, built from that row |
| Indexers.MapRows | src/Elasticsearch/Admin/Indexer/ProductAdminSearchIndexer.php:60-66 | the foreach builds exactly the mapped documents |
| Indexers.FetchRows | src/Elasticsearch/Admin/Indexer/ProductAdminSearchIndexer.php:38-67 | `fetch` maps the rows the query returns |
| Indexers.FetchedDocuments | src/Elasticsearch/Admin/Indexer/ProductAdminSearchIndexer.php:38-67 | a fetch yields a document exactly for each requested id that passes the joins, keyed by that id (lowercase hex when the requested ids or the stored keys are), each `{id, text}` |
| Indexers.NullRowsSatisfy | src/Elasticsearch/Admin/Indexer/ProductAdminSearchIndexer.php:41-56 | one all-NULL row per requested id that passes the joins meets every guarantee of the query text |
| Indexers.SoundDatabaseExists | src/Elasticsearch/Admin/Indexer/ProductAdminSearchIndexer.php:41-56 | every store, non-empty tables included, has a database that answers every query as its text demands |
| Indexers.InnerJoinRequired | src/Elasticsearch/Admin/Indexer/ProductAdminSearchIndexer.php:51 | an id without a row in an inner-joined table yields no document |
| Indexers.LeftJoinsOnly | src/Elasticsearch/Admin/Indexer/ProductAdminSearchIndexer.php:52-53 | with left joins only every existing requested id yields a document |
| Indexers.SingleInnerJoin | src/Elasticsearch/Admin/Indexer/CmsPageAdminSearchIndexer.php:48 | with one inner join an existing id yields a document exactly when that table has a row for it |
| Indexers.IdNameDocuments | src/Elasticsearch/Admin/Indexer/CmsPageAdminSearchIndexer.php:39-62 | for the id-and-name queries each document's text is the id, a space and the name |
| Indexers.ShippedIndexersWellFormed | src/Elasticsearch/Admin/Indexer/ProductAdminSearchIndexer.php:28-56 | each of the seven indexers pages 150 keys at a time over its own table, inner-joins its translation table, and the names are distinct |
| Indexers.ShippedIndexersTranslationOnly | src/Elasticsearch/Admin/Indexer/ProductAdminSearchIndexer.php:51-53 | every one of the seven indexers inner-joins only its translation table; its other joins are left joins |
| Indexers.IndexerNamesDistinct | src/Elasticsearch/Admin/Indexer/MediaAdminSearchIndexer.php:29-32 | the seven entity names are pairwise distinct |
| Indexers.GetIterator | src/Elasticsearch/Admin/Indexer/ProductAdminSearchIndexer.php:33-36 | `getIterator()` is a cursor over every key of the entity, `batchSize` (150) at a time |
| Indexers.Fetch | src/Elasticsearch/Admin/Indexer/ProductAdminSearchIndexer.php:38-67 | `fetch($ids)` returns the mapped rows of the indexer's query |
| Indexers.IndexerFetch | src/Elasticsearch/Admin/Indexer/ProductAdminSearchIndexer.php:38-67 | a well-formed indexer whose only inner join is the translation returns a `{id, text}` document for a requested id exactly when it exists and has a translation, keyed by that id |
| Registry.IterateSnoc | src/Elasticsearch/Admin/AdminSearchRegistry.php:64-75 | iterating one more indexer appends its messages and progress events |
| Registry.AdvanceTotal | src/Elasticsearch/Admin/AdminSearchRegistry.php:71 | the advance steps add up to the number of ids batched |
| Registry.IterateCoversKeys | src/Elasticsearch/Admin/AdminSearchRegistry.php:64-75 | one indexer's messages carry its name and non-empty batches of at most `batchSize` ids which concatenate to exactly its keys, and its advances add up to the started total |
| Registry.StepTotalAppend | src/Elasticsearch/Admin/AdminSearchRegistry.php:71 | advance totals add up over concatenated event lists |
| Registry.RefreshSpecAt | src/Elasticsearch/Admin/AdminSearchRegistry.php:84-93 | the refresh from the i-th indexer on begins with that indexer's step |
| Registry.RefreshSendsBodies | src/Elasticsearch/Admin/AdminSearchRegistry.php:84-93 | a successful refresh sends one bulk body per indexer whose entity the event names with keys, in registration order, and dispatches no progress |
| Registry.RefreshUntouched | src/Elasticsearch/Admin/AdminSearchRegistry.php:84-89 | an event naming none of the indexed entities changes nothing |
| Registry.CompositeIdDistinctTypes | src/Elasticsearch/Admin/AdminSearchRegistry.php:192-195 | `_id`s of different types never coincide for hex ids |
| Registry.PushFrame | src/Elasticsearch/Admin/AdminSearchRegistry.php:120-147 | a push for one type leaves every hex `_id` of another type as it was |
| Registry.RefreshFrame | src/Elasticsearch/Admin/AdminSearchRegistry.php:84-93 | a refresh over other types' indexers leaves a hex `_id` as it was |
| Registry.RefreshStepEffect | src/Elasticsearch/Admin/AdminSearchRegistry.php:85-92 | each key the event names is indexed after the indexer's push iff its row can be fetched |
| Registry.RefreshHead | src/Elasticsearch/Admin/AdminSearchRegistry.php:84-93 | the first indexer's keys are settled by its push and untouched by the later indexers |
| Registry.RefreshEffect | src/Elasticsearch/Admin/AdminSearchRegistry.php:78-94 | after a refresh that raised nothing every written key of a registered entity is indexed exactly when its row still exists and passes the joins: deleted entities leave the index |
| Registry.FindIndexer | src/Elasticsearch/Admin/AdminSearchRegistry.php:109-118 | `getIndexer` finds an indexer with that name exactly when one is registered |
| Registry.FindIndexerFirst | src/Elasticsearch/Admin/AdminSearchRegistry.php:111-115 | the indexer found is the first registered one with that name |
| Registry.HandleIdempotent | src/Elasticsearch/Admin/AdminSearchRegistry.php:96-107 | handling the same message twice leaves the index as handling it once |
| Registry.AdminSearchRegistry.constructor | src/Elasticsearch/Admin/AdminSearchRegistry.php:32-38 | the registry keeps its indexers and client, with nothing queued or dispatched yet |
| Registry.AdminSearchRegistry.Iterate | src/Elasticsearch/Admin/AdminSearchRegistry.php:56-76 | `iterate` drops and recreates the index with the admin mapping, queues every key of every indexer in batches and reports progress, pushing nothing |
| Registry.AdminSearchRegistry.QueueAll | src/Elasticsearch/Admin/AdminSearchRegistry.php:64-75 | the foreach queues and reports exactly the messages and events of all indexers in order |
| Registry.AdminSearchRegistry.QueueBatches | src/Elasticsearch/Admin/AdminSearchRegistry.php:65-74 | one indexer's turn: started with the key count, its batches, finished |
| Registry.AdminSearchRegistry.DrainCursor | src/Elasticsearch/Admin/AdminSearchRegistry.php:69-72 | the while queues one message and one advance per remaining batch |
| Registry.AdminSearchRegistry.QueueBatch | src/Elasticsearch/Admin/AdminSearchRegistry.php:70-71 | one message with the entity and ids, one advance by the batch size |
| Registry.AdminSearchRegistry.Refresh | src/Elasticsearch/Admin/AdminSearchRegistry.php:78-94 | `refresh` creates a missing index, then fetches and pushes, indexer by indexer, the keys the event names, stopping at the first failure |
| Registry.AdminSearchRegistry.RefreshAll | src/Elasticsearch/Admin/AdminSearchRegistry.php:84-93 | the foreach of `refresh` follows the refresh specification |
| Registry.AdminSearchRegistry.RefreshIndexer | src/Elasticsearch/Admin/AdminSearchRegistry.php:85-92 | no keys means no fetch and no bulk call; otherwise one fetch and one push |
| Registry.AdminSearchRegistry.GetIndexer | src/Elasticsearch/Admin/AdminSearchRegistry.php:109-118 | returns the first indexer with the name, or the "Indexer for entity ... not found" failure |
| Registry.AdminSearchRegistry.Handle | src/Elasticsearch/Admin/AdminSearchRegistry.php:96-107 | other messages are ignored, an unknown entity fails, otherwise the message's ids are fetched and pushed |
| IndexingCommand.LoopBatchesCons | src/Elasticsearch/Framework/Command/ElasticsearchAdminIndexingCommand.php:145-151 | a run of batches begins with fetching and pushing the first batch |
| IndexingCommand.ExecuteSpecAt | src/Elasticsearch/Framework/Command/ElasticsearchAdminIndexingCommand.php:60-110 | the loops from the i-th on begin with the i-th loop |
| IndexingCommand.LoopBatchesLog | src/Elasticsearch/Framework/Command/ElasticsearchAdminIndexingCommand.php:145-151 | a successful batch loop sends one body per batch and advances once per batch by its size |
| IndexingCommand.AdvanceCons | src/Elasticsearch/Framework/Command/ElasticsearchAdminIndexingCommand.php:150 | the advances of a list of batches begin with the first batch's size |
| IndexingCommand.LoopProgress | src/Elasticsearch/Framework/Command/ElasticsearchAdminIndexingCommand.php:137-156 | a successful `loop` starts the bar at the key count, advances once per batch, and the advances add up to that count |
| IndexingCommand.PushFetched | src/Elasticsearch/Framework/Command/ElasticsearchAdminIndexingCommand.php:146-148 | one push of a fetched batch indexes each requested id exactly when its row passes the joins and leaves other ids alone |
| IndexingCommand.LoopBatchesEffect | src/Elasticsearch/Framework/Command/ElasticsearchAdminIndexingCommand.php:145-151 | after a successful batch loop every batched id is indexed exactly when its row passes the joins |
| IndexingCommand.LoopBatchesFrame | src/Elasticsearch/Framework/Command/ElasticsearchAdminIndexingCommand.php:145-151 | a batch loop for one entity leaves every hex `_id` of another entity alone |
| IndexingCommand.PagesHex | src/Elasticsearch/Framework/Command/ElasticsearchAdminIndexingCommand.php:139 | every batch of a hex key list is hex |
| IndexingCommand.LoopEffect | src/Elasticsearch/Framework/Command/ElasticsearchAdminIndexingCommand.php:137-156 | a successful `loop` settles every key of its entity |
| IndexingCommand.LoopFrame | src/Elasticsearch/Framework/Command/ElasticsearchAdminIndexingCommand.php:137-156 | a `loop` leaves every hex `_id` of another entity alone |
| IndexingCommand.ExecuteFrame | src/Elasticsearch/Framework/Command/ElasticsearchAdminIndexingCommand.php:60-110 | loops over other entities leave an `_id` alone |
| IndexingCommand.ExecuteEffect | src/Elasticsearch/Framework/Command/ElasticsearchAdminIndexingCommand.php:48-113 | after a run that raised nothing every key of every walked entity is indexed exactly when its row passes that entity's joins |
| IndexingCommand.ShippedJobs | src/Elasticsearch/Framework/Command/ElasticsearchAdminIndexingCommand.php:60-110 | `execute` runs thirteen loops over distinct entities, each query reading its own table, starting with product, customer, order, media |
| IndexingCommand.EntityOrderDistinct | src/Elasticsearch/Framework/Command/ElasticsearchAdminIndexingCommand.php:60-110 | the thirteen entity names are distinct |
| IndexingCommand.JobEntities | src/Elasticsearch/Framework/Command/ElasticsearchAdminIndexingCommand.php:60-110 | the k-th loop indexes the k-th entity of the fixed order |
| IndexingCommand.LeftJoinedJobs | src/Elasticsearch/Framework/Command/ElasticsearchAdminIndexingCommand.php:244-322 | the customer and order queries only left-join |
| IndexingCommand.TranslatedJobs | src/Elasticsearch/Framework/Command/ElasticsearchAdminIndexingCommand.php:213-242 | the product and media queries inner-join only their translation table |
| IndexingCommand.LeftJoinedJobComplete | src/Elasticsearch/Framework/Command/ElasticsearchAdminIndexingCommand.php:137-156 | a loop whose query only left-joins indexes every existing key of its entity |
| IndexingCommand.TranslatedJobSettled | src/Elasticsearch/Framework/Command/ElasticsearchAdminIndexingCommand.php:137-156 | a loop whose only inner join is its translation indexes an existing key exactly when it has a translation |
| IndexingCommand.CustomersAndOrdersComplete | src/Elasticsearch/Framework/Command/ElasticsearchAdminIndexingCommand.php:244-322 | after a successful run every existing customer and order is in the index |
| IndexingCommand.TranslationsRequired | src/Elasticsearch/Framework/Command/ElasticsearchAdminIndexingCommand.php:213-242 | after a successful run a product or medium is in the index exactly when it has a translation row |
| IndexingCommand.AdminIndexingCommand.constructor | src/Elasticsearch/Framework/Command/ElasticsearchAdminIndexingCommand.php:32-41 | the command starts with the given client and an empty progress log |
| IndexingCommand.AdminIndexingCommand.Execute | src/Elasticsearch/Framework/Command/ElasticsearchAdminIndexingCommand.php:48-113 | `execute` drops an existing index, creates it with the admin mapping, runs the loops in order and returns SUCCESS (0) unless a push raised |
| IndexingCommand.AdminIndexingCommand.RunJobs | src/Elasticsearch/Framework/Command/ElasticsearchAdminIndexingCommand.php:60-110 | the loops in order, the first raise ending the run |
| IndexingCommand.AdminIndexingCommand.Loop | src/Elasticsearch/Framework/Command/ElasticsearchAdminIndexingCommand.php:137-156 | `loop` follows the loop specification for its entity |
| IndexingCommand.AdminIndexingCommand.PushBatches | src/Elasticsearch/Framework/Command/ElasticsearchAdminIndexingCommand.php:145-151 | the while fetches, pushes and advances per batch until an empty one |
| IndexingCommand.AdminIndexingCommand.PushBatch | src/Elasticsearch/Framework/Command/ElasticsearchAdminIndexingCommand.php:146-150 | one batch: fetch, push, and advance only when the push succeeded |
| AdminSearch.TokenClausesAt | src/Administration/Service/AdminSearcher.php:72-75 | token i contributes clause 2i, a match on `text`, and clause 2i+1, a `*token*` wildcard on `text` |
| AdminSearch.TokenClausesLength | src/Administration/Service/AdminSearcher.php:72-75 | there are twice as many should-clauses as tokens |
| AdminSearch.SourceIds | src/Administration/Service/AdminSearcher.php:89-93 | the ids are the hits' `_source.id`, one per hit, in order |
| AdminSearch.TermRequestShape | src/Administration/Service/AdminSearcher.php:66-87 | `resolveTerm` asks the `admin_search` index for page `page` of `limit` hits of the entity, from `limit * (page - 1)`, at least one clause matching, with total hits tracked |
| AdminSearch.GlobalBodyShape | src/Administration/Service/AdminSearcher.php:146-171 | the global search filters on the entity names and collapses on `entity_name` with `limit` inner hits |
| AdminSearch.GroupedKeys | src/Administration/Service/AdminSearcher.php:110-122 | `elastic` groups hits by entity: one distinct key per named entity, in order of first appearance |
| AdminSearch.GroupedOrder | src/Administration/Service/AdminSearcher.php:110-122 | the group keys are the distinct entity names in order of first appearance |
| AdminSearch.GroupedLast | src/Administration/Service/AdminSearcher.php:110-122 | an entity's group holds the inner hit ids and total of the last hit naming it |
| AdminSearch.AdminSearcher.constructor | src/Administration/Service/AdminSearcher.php:31-36 | the service keeps the registry, client and tokenizer it is given |
| AdminSearch.AdminSearcher.ReadableKeys | src/Administration/Service/AdminSearcher.php:43-49 | an entity is kept exactly when it is registered and the context may read it |
| AdminSearch.AdminSearcher.SearchedKeys | src/Administration/Service/AdminSearcher.php:38-61 | `search` answers for exactly the registered, readable entities, each once, in order |
| AdminSearch.AdminSearcher.SearchedValues | src/Administration/Service/AdminSearcher.php:50-57 | each answered entity holds its repository's result for its criteria |
| AdminSearch.AdminSearcher.RedactedKeys | src/Administration/Service/AdminSearcher.php:124-141 | redaction keeps exactly the readable groups, in order |
| AdminSearch.AdminSearcher.RedactedValues | src/Administration/Service/AdminSearcher.php:130-139 | a kept entity gets the entities its ids load and the total the index reported |
| AdminSearch.AdminSearcher.Search | src/Administration/Service/AdminSearcher.php:38-61 | `search` returns the repository result per readable entity |
| AdminSearch.AdminSearcher.ShouldClauses | src/Administration/Service/AdminSearcher.php:72-75 | the token loop builds the should-clauses of the tokens |
| AdminSearch.AdminSearcher.CollectIds | src/Administration/Service/AdminSearcher.php:89-93 | the loop collects the hits' ids |
| AdminSearch.AdminSearcher.ResolveTerm | src/Administration/Service/AdminSearcher.php:63-97 | `resolveTerm` returns the `_source.id`s of the hits and the reported total of the term request |
| AdminSearch.AdminSearcher.BuildGlobalSearch | src/Administration/Service/AdminSearcher.php:146-171 | `buildGlobalSearch` builds the collapsed body over the entities |
| AdminSearch.AdminSearcher.GroupHits | src/Administration/Service/AdminSearcher.php:110-122 | `elastic`'s first loop builds the per-entity groups |
| AdminSearch.AdminSearcher.Redact | src/Administration/Service/AdminSearcher.php:124-141 | `elastic`'s second loop keeps readable groups and loads their entities |
| AdminSearch.AdminSearcher.Elastic | src/Administration/Service/AdminSearcher.php:99-144 | `elastic` is the redaction of the grouped hits of the global search |
| AdminSearch.AdminSearcher.ElasticKeys | src/Administration/Service/AdminSearcher.php:99-144 | `elastic` answers for exactly the readable entities some hit names |
| AdminSearch.AdminSearcher.ElasticLast | src/Administration/Service/AdminSearcher.php:99-144 | a readable entity's answer is the entities of the last hit naming it, with that hit's inner total |
| TermSubscriber.BodyKeysDistinct | src/Elasticsearch/Admin/ResolveTermSubscriber.php:41-50 | the four body keys the listener touches are distinct |
| TermSubscriber.RewrittenSpec | src/Elasticsearch/Admin/ResolveTermSubscriber.php:41-50 | the rewritten body lacks `queries` and `term`, holds the resolved `ids` and `elastic-total`, and keeps every other parameter |
| TermSubscriber.WithTotalSpec | src/Elasticsearch/Admin/ResolveTermSubscriber.php:63-67 | with a `meta` array the response content gets `meta.total` set to the total and nothing else changes |
| TermSubscriber.Request.constructor | src/Elasticsearch/Admin/ResolveTermSubscriber.php:26-51 | a request with its headers, attributes, query and body |
| TermSubscriber.Response.constructor | src/Elasticsearch/Admin/ResolveTermSubscriber.php:53-68 | a response with its decoded content |
| TermSubscriber.ResolveTermSubscriber.constructor | src/Elasticsearch/Admin/ResolveTermSubscriber.php:13-16 | the listener keeps the searcher |
| TermSubscriber.ResolveTermSubscriber.OnRequest | src/Elasticsearch/Admin/ResolveTermSubscriber.php:26-51 | `request` passes without an admin-module header or a truthy term; otherwise strips `queries`/`term`, resolves the term with page and limit (defaults 1 and 50) and writes `ids` and `elastic-total`, raising a type error on non-string or non-int arguments |
| TermSubscriber.ResolveTermSubscriber.OnResponse | src/Elasticsearch/Admin/ResolveTermSubscriber.php:53-68 | `response` leaves the content alone without `elastic-total`; otherwise it sets `meta.total` when `meta` is an array, makes `meta` an array holding just `total` when it is `false`, leaves a content without `meta` (a scalar content included) unchanged, and fails on a scalar `meta` other than `false` |
| TermSubscriber.ResolveTermSubscriber.RequestIgnored | src/Elasticsearch/Admin/ResolveTermSubscriber.php:29-39 | without the header or a truthy term the request body is untouched |
| TermSubscriber.ResolveTermSubscriber.DefaultPaging | src/Elasticsearch/Admin/ResolveTermSubscriber.php:44-50 | without `page` and `limit` the term is resolved for page 1 of 50 and the body holds exactly that result |
| TermSubscriber.ResolveTermSubscriber.ReportedTotal | src/Elasticsearch/Admin/ResolveTermSubscriber.php:49-67 | the total the request resolved is the `meta.total` of the response |
| Properties.PropertyGroup.constructor | src/Core/Content/Property/Listing/PropertyAggregationResolver.php:135 | a hydrated group keeps the row's id and options, with no listing option ids |
| Properties.Hydrate | src/Core/Content/Property/Listing/PropertyAggregationResolver.php:135 | the repository hydrates one fresh group per row, in row order |
| PropertyAggregation.CollectedOptionIds | src/Core/Content/Property/Listing/PropertyAggregationResolver.php:62-76 | the collected ids are distinct, are exactly the truthy keys of `options` or `properties`, and come in the order of their first occurrence among the option keys then the property keys; collecting fails exactly when one is not a terms result |
| PhpArray.FilterTruthyAppend | src/Core/Content/Property/Listing/PropertyAggregationResolver.php:75 | `array_filter` keeps order: filtering a concatenation is concatenating the filtered parts |
| PhpArray.FilterTruthyOrder | src/Core/Content/Property/Listing/PropertyAggregationResolver.php:75 | `array_filter` keeps the order of first occurrences of the values it keeps |
| PhpArray.UniqueOrder | src/Core/Content/Property/Listing/PropertyAggregationResolver.php:75 | `array_unique` lists the values in the order of their first occurrences |
| PropertyAggregation.InvertedSpec | src/Core/Content/Property/Listing/PropertyAggregationResolver.php:117-124 | the mapping lists a group's options in row order and has the group iff it has options |
| PropertyAggregation.OptionsOfMember | src/Core/Content/Property/Listing/PropertyAggregationResolver.php:117-124 | an option is listed under a group exactly when its row names that group |
| PropertyAggregation.OptionGroupsSoundExists | src/Core/Content/Property/Listing/PropertyAggregationResolver.php:111-115 | for any requested ids, some answer of the option→group query meets its guarantee and places every requested option in a group |
| PropertyAggregation.ListedOptions | src/Core/Content/Property/Listing/PropertyAggregationResolver.php:111-124 | under the query's guarantee a group's list holds an option exactly when it was requested and its row names the group |
| PropertyAggregation.GroupsListOwnOptions | src/Core/Content/Property/Listing/PropertyAggregationResolver.php:111-140 | groups given their mapped ids list only collected options, each under its own group and no other |
| PropertyAggregation.ExactlyOneGroup | src/Core/Content/Property/Listing/PropertyAggregationResolver.php:117-124 | each option is listed under exactly its own group |
| PropertyAggregation.FirstOption | src/Core/Content/Property/Listing/PropertyAggregationResolver.php:119-123 | starting a group's list and appending sets the one-element list |
| PropertyAggregation.InvertRows | src/Core/Content/Property/Listing/PropertyAggregationResolver.php:117-124 | the foreach builds exactly the group-to-options mapping |
| PropertyAggregation.AddSelectedSpec | src/Core/Content/Property/Listing/PropertyAggregationResolver.php:151-165 | `addSelected` changes only the `options` association filters, adding one id filter on the selected values exactly when a filter collection selects some |
| PropertyAggregation.AggregationKeysDistinct | src/Core/Content/Property/Listing/PropertyAggregationResolver.php:103-106 | the three aggregation names are distinct |
| PropertyAggregation.ReplacedSpec | src/Core/Content/Property/Listing/PropertyAggregationResolver.php:142-148 | after the replacement `configurators` and `options` are gone, `properties` holds the groups as the last entry, and every other aggregation is kept |
| PropertyAggregation.MergedAppend | src/Core/Content/Property/Listing/PropertyAggregationResolver.php:91-93 | merging page by page is merging their concatenation |
| PropertyAggregation.MergedKeys | src/Core/Content/Property/Listing/PropertyAggregationResolver.php:88-93 | the merged collection holds each option id once, in order of first appearance |
| PropertyAggregation.MergedFirst | src/Core/Content/Property/Listing/PropertyAggregationResolver.php:88-93 | the option kept under an id is the first with that id |
| PropertyAggregation.MergePage | src/Core/Content/Property/Listing/PropertyAggregationResolver.php:92 | merging one page |
| PropertyAggregation.MergeAll | src/Core/Content/Property/Listing/PropertyAggregationResolver.php:88-93 | the while loop merges every page the iterator hands out |
| PropertyAggregation.AttachListingOptionIds | src/Core/Content/Property/Listing/PropertyAggregationResolver.php:138-140 | each group gets its mapped option ids, or none |
| PropertyAggregation.ListingResult.constructor | src/Core/Content/Property/Listing/PropertyAggregationResolver.php:45 | a listing result with its filters extension and aggregations |
| PropertyAggregation.PropertyAggregationResolver.constructor | src/Core/Content/Property/Listing/PropertyAggregationResolver.php:32-38 | the resolver loads on demand |
| PropertyAggregation.PropertyAggregationResolver.LoadGroups | src/Core/Content/Property/Listing/PropertyAggregationResolver.php:109-149 | `loadGroups` loads the groups in position order, gives each the options of its group and replaces the id aggregations with them |
| PropertyAggregation.PropertyAggregationResolver.LoadAll | src/Core/Content/Property/Listing/PropertyAggregationResolver.php:78-107 | `loadAll` pages through the options, groups and sorts them, and replaces the id aggregations |
| PropertyAggregation.PropertyAggregationResolver.Resolve | src/Core/Content/Property/Listing/PropertyAggregationResolver.php:45-60 | `resolve` changes nothing when collecting fails or finds no id; otherwise it replaces the id aggregations with the groups of the on-demand path, and when the option→group rows meet the query's guarantee each group lists exactly the collected options whose row names it |
| PropertyListing.MessageNamesGroup | src/Core/Content/Property/Listing/PropertyListingLoader.php:39-44 | both messages quote the requested group id after the same prefix and end differently |
| PropertyListing.PropertyListingLoader.Load | src/Core/Content/Property/Listing/PropertyListingLoader.php:26-47 | `load` fails with "not found" iff no group is found, with "has no options" iff the first group has no loaded options, and otherwise returns that group's options |
| PropertyListing.LoaderCriteriaShape | src/Core/Content/Property/Listing/PropertyListingLoader.php:28-30 | `load` searches for exactly the requested group, with its options' media |

## Left out

- **Outside the model.** Elasticsearch, MySQL/Doctrine, the message bus, the
  event dispatcher and the console are not modelled as running systems:
  - engine and database answers are functions of the request;
  - queued messages and progress output are recorded as sequences.
- **Progress bar.** Its format string and `newLine` are not modelled. The
  bar is its start total, its advances and its messages.
- **Header names.** `admin-module` is looked up in an already normalised
  header bag holding the first value of each header. Symfony's case folding
  is not modelled.
- **JSON.** `json_decode`/`json_encode` of the response are not modelled; the
  content is kept decoded as a PHP value. Floats are not part of that value
  type.
- **PHP offset assignment on scalar `meta`.** A scalar other than `false`
  (for example a string) is modelled as an error. The exact PHP warning or
  error per scalar type, such as writing into an empty string, is not
  distinguished.
- **The thirteen loops of `execute`.** They are the literal calls at
  `ElasticsearchAdminIndexingCommand.php:60-110`; the model runs them as a
  loop over the constant list `IndexingCommand.Jobs`, same entities and same
  order.
- **The iterator factory.** The command's page size is a constructor
  parameter (`limit`); the factory's default is not part of this model.
- **Fetch queries.** Their SQL is not interpreted. Each is a table, a select
  list and a list of inner/left joins. What a query guarantees about its rows
  is the predicate `Indexers.RowsSatisfy`.
- **Columns.** Those of the customer, order and other command queries are
  recorded by name only. Their concatenation into `text` is the generic
  `implode` of the row.
- **`getDecorated`** (`PropertyAggregationResolver.php:40-43`,
  `PropertyListingLoader.php:21-24`) always throws the decoration exception.
  It has nothing to prove and is not modelled.
- **`EntityCollection::merge`, `groupByPropertyGroups`, `sortByPositions`,
  `sortByConfig`.** These collection classes are not part of this model:
  - `merge` is modelled as keeping the first option per id;
  - the other three are unknown functions on group rows, applied before the
    groups are hydrated.
- **`RepositoryIterator`.** It is modelled as offset paging, 500 at a time,
  over the fixed list of options the repository returns for the criteria.
- **Criteria.** These are values: `addSelected` returns the criteria it would
  change in place. Only the fields the code sets are modelled: ids, filters,
  associations, the `options` association's filters, title, limit and
  sortings.
- **`PropertyAggregation.PropertyAggregationResolver.LoadAll`.** It is proved
  against its specification. However, `resolve` never reaches it, because the
  constructor fixes `onDemand` to true.
- **`AdminSearch.TermRequestShape`.** It states `from` as
  `limit * (page - 1)` over unbounded integers. PHP's overflow to float for
  huge page numbers is not modelled.
- **`AdminSearch.AdminSearcher.ResolveTerm`.** The `int` parameters are
  unbounded integers. Negative or zero pages give a negative `from`, passed
  on as written.
- **Tokenizer, definition registry and ACL.** `Tokenizer::tokenize`,
  `DefinitionInstanceRegistry::has` and `Context::isAllowed` are unknown
  functions; the tokenizer is not part of this model.
- **`Indexers.Sound`, `Indexers.HexKeys`.** These are hypotheses about the
  database, not checked facts. `Sound` says that rows satisfy their query
  text. `HexKeys` says that keys are stored as `LOWER(HEX())` prints them.
  `Indexers.SoundDatabaseExists` shows that `Sound` holds for some database
  over every store.
- **`PropertyAggregation.OptionGroupsSound`.** This is a hypothesis about the
  database, not a checked fact: the rows of `loadGroups`' option→group query
  have distinct keys, and every key is a requested option id.
  `PropertyAggregation.OptionGroupsSoundExists` shows that some answer meets it
  for any ids. `Resolve` states its group-listing guarantee under it.
- Indexers.IndexerFetch: promises lowercase hex document keys only when the
  requested ids or the stored keys are lowercase hex. The query echoes the
  requested ids, and `Uuid::fromHexToBytesList` is not part of this model.
- Bulk.IndexClient.Bulk: applies every action of the body to the documents
  and only reports per-item failures in the response. When the engine
  rejects some items of a request, it keeps the others; that partial write
  is not modelled. The run still stops with the registry's exception, as
  `Bulk.Push` states.
- TermSubscriber.ResolveTermSubscriber.OnRequest: the type hint `AdminSearcher`
  in `ResolveTermSubscriber.php` names `Shopware\Elasticsearch\Admin\AdminSearcher`,
  because the file has no `use` line for it. That class is not part of this
  model. The model binds the subscriber to the Administration searcher's
  `resolveTerm` (`src/Administration/Service/AdminSearcher.php:66-87`). That
  method has the same signature and returns the `ids` and `total` the
  subscriber reads.
- **Request ids in `refresh` and `handle`.** They are assumed to be lowercase
  hex like the database keys. An uppercase id would miss its fetched document
  and delete a `_id` that was never written.
- **Redelivery.** `Registry.HandleIdempotent` covers one message handled
  twice in a row against an unchanged database. Interleavings with other
  writers are not modelled.
