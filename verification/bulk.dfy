/**
 * The bulk write protocol of the admin search index: how `push` turns fetched
 * documents and requested ids into one ordered bulk body, how the search
 * engine applies such a body to the index, and how a bulk response is turned
 * into an indexing exception.
 */
module Bulk {
  import opened Wrappers
  import opened PhpArray
  import opened Documents

  /** One line of a bulk body: an action line, or the document that follows an `index` action. */
  datatype BulkLine = IndexAction(id: string) | Source(doc: Doc) | DeleteAction(id: string)

  type Body = seq<BulkLine>

  /** `array_filter($ids, fn ($id) => !isset($data[$id]))`: requested ids the fetch did not return. */
  function ToRemove(data: Dict<Doc>, ids: seq<string>): (r: seq<string>)
    ensures forall id :: id in r <==> id in ids && !Has(data, id)
  {
    if ids == [] then []
    else
      var rest := ToRemove(data, ids[1..]);
      assert forall id :: id in ids <==> id == ids[0] || id in ids[1..];
      if Has(data, ids[0]) then rest else [ids[0]] + rest
  }

  /** An id the fetch left out is deleted once per time it was requested; a fetched id never is. */
  lemma {:induction false} ToRemoveMultiplicity(data: Dict<Doc>, ids: seq<string>, id: string)
    ensures multiset(ToRemove(data, ids))[id] == if Has(data, id) then 0 else multiset(ids)[id]
  {
    if ids != [] {
      ToRemoveMultiplicity(data, ids[1..], id);
      assert ids == [ids[0]] + ids[1..];
    }
  }

  /** The `index` action and stamped document for every fetched entry, in fetched order. */
  function IndexLines(entityType: string, data: Dict<Doc>): Body {
    if data == [] then []
    else
      [IndexAction(CompositeId(entityType, data[0].key)), Source(StampEntityName(data[0].value, entityType))]
      + IndexLines(entityType, data[1..])
  }

  /** One `delete` action per id, in order. */
  function DeleteLines(entityType: string, ids: seq<string>): Body {
    if ids == [] then [] else [DeleteAction(CompositeId(entityType, ids[0]))] + DeleteLines(entityType, ids[1..])
  }

  /** The body `push` sends: every fetched document, then a delete for every requested id not fetched. */
  function BulkBody(entityType: string, data: Dict<Doc>, ids: seq<string>): Body {
    IndexLines(entityType, data) + DeleteLines(entityType, ToRemove(data, ids))
  }

  lemma {:induction false} IndexLinesSnoc(entityType: string, data: Dict<Doc>, e: Entry<Doc>)
    ensures IndexLines(entityType, data + [e]) ==
      IndexLines(entityType, data) + [IndexAction(CompositeId(entityType, e.key)), Source(StampEntityName(e.value, entityType))]
  {
    if data != [] {
      assert (data + [e])[1..] == data[1..] + [e];
      IndexLinesSnoc(entityType, data[1..], e);
    }
  }

  lemma {:induction false} DeleteLinesSnoc(entityType: string, ids: seq<string>, id: string)
    ensures DeleteLines(entityType, ids + [id]) == DeleteLines(entityType, ids) + [DeleteAction(CompositeId(entityType, id))]
  {
    if ids != [] {
      assert (ids + [id])[1..] == ids[1..] + [id];
      DeleteLinesSnoc(entityType, ids[1..], id);
    }
  }

  lemma {:induction false} IndexLinesLength(entityType: string, data: Dict<Doc>)
    ensures |IndexLines(entityType, data)| == 2 * |data|
  {
    if data != [] {
      IndexLinesLength(entityType, data[1..]);
    }
  }

  /** The `i`-th fetched entry owns lines `2i` (its action) and `2i + 1` (its stamped document). */
  lemma {:induction false} IndexLinesAt(entityType: string, data: Dict<Doc>, i: nat)
    requires i < |data|
    ensures |IndexLines(entityType, data)| == 2 * |data|
    ensures IndexLines(entityType, data)[2 * i] == IndexAction(CompositeId(entityType, data[i].key))
    ensures IndexLines(entityType, data)[2 * i + 1] == Source(StampEntityName(data[i].value, entityType))
  {
    IndexLinesLength(entityType, data);
    if i > 0 {
      var head := [IndexAction(CompositeId(entityType, data[0].key)), Source(StampEntityName(data[0].value, entityType))];
      var rest := IndexLines(entityType, data[1..]);
      IndexLinesAt(entityType, data[1..], i - 1);
      assert IndexLines(entityType, data) == head + rest;
      assert data[1..][i - 1] == data[i];
      ConcatAt(head, rest, 2 * i);
      ConcatAt(head, rest, 2 * i + 1);
    }
  }

  lemma {:induction false} DeleteLinesAt(entityType: string, ids: seq<string>)
    ensures |DeleteLines(entityType, ids)| == |ids|
    ensures forall j :: 0 <= j < |ids| ==> DeleteLines(entityType, ids)[j] == DeleteAction(CompositeId(entityType, ids[j]))
  {
    if ids != [] {
      DeleteLinesAt(entityType, ids[1..]);
    }
  }

  /**
   * Layout of a bulk body: all index/document pairs first, in fetched order,
   * each document stamped with `entity_name`; then one delete per requested
   * id missing from the fetch, in request order; length 2·|data| + |missing|.
   */
  lemma BulkBodyLayout(entityType: string, data: Dict<Doc>, ids: seq<string>)
    ensures var missing := ToRemove(data, ids);
      var body := BulkBody(entityType, data, ids);
      && |body| == 2 * |data| + |missing|
      && (forall i :: 0 <= i < |data| ==>
            body[2 * i] == IndexAction(CompositeId(entityType, data[i].key)) &&
            body[2 * i + 1] == Source(StampEntityName(data[i].value, entityType)))
      && (forall j :: 0 <= j < |missing| ==> body[2 * |data| + j] == DeleteAction(CompositeId(entityType, missing[j])))
  {
    var missing := ToRemove(data, ids);
    var index := IndexLines(entityType, data);
    var delete := DeleteLines(entityType, missing);
    var body := BulkBody(entityType, data, ids);
    assert body == index + delete;
    IndexLinesLength(entityType, data);
    DeleteLinesAt(entityType, missing);
    assert |index| == 2 * |data| && |delete| == |missing|;
    IndexPart(entityType, data, index, body);
    DeletePart(entityType, missing, index, delete);
  }

  /** After the index lines come the deletes, one per missing id in order. */
  lemma DeletePart(entityType: string, missing: seq<string>, index: Body, delete: Body)
    requires delete == DeleteLines(entityType, missing) && |delete| == |missing|
    ensures forall j :: 0 <= j < |missing| ==> (index + delete)[|index| + j] == DeleteAction(CompositeId(entityType, missing[j]))
  {
    DeleteLinesAt(entityType, missing);
    forall j | 0 <= j < |missing| ensures (index + delete)[|index| + j] == DeleteAction(CompositeId(entityType, missing[j])) {
      ConcatAt(index, delete, |index| + j);
    }
  }

  /** A body that starts with the index lines has each fetched entry's pair at 2i and 2i+1. */
  lemma IndexPart(entityType: string, data: Dict<Doc>, index: Body, body: Body)
    requires index == IndexLines(entityType, data) && |index| == 2 * |data| && index <= body
    ensures forall i :: 0 <= i < |data| ==>
      body[2 * i] == IndexAction(CompositeId(entityType, data[i].key)) &&
      body[2 * i + 1] == Source(StampEntityName(data[i].value, entityType))
  {
    IndexLinesLength(entityType, data);
    forall i | 0 <= i < |data|
      ensures body[2 * i] == IndexAction(CompositeId(entityType, data[i].key))
      ensures body[2 * i + 1] == Source(StampEntityName(data[i].value, entityType))
    {
      IndexLinesAt(entityType, data, i);
      assert body[2 * i] == index[2 * i] && body[2 * i + 1] == index[2 * i + 1];
    }
  }

  /** A non-empty request always produces a non-empty body: every id is either indexed or deleted. */
  lemma NonEmptyRequestNonEmptyBody(entityType: string, data: Dict<Doc>, ids: seq<string>)
    requires ids != []
    ensures BulkBody(entityType, data, ids) != []
  {
    BulkBodyLayout(entityType, data, ids);
    if data == [] {
      assert ids[0] in ToRemove(data, ids) by {
        assert !Has(data, ids[0]);
      }
    }
  }

  /** The first foreach loop of `push`: an `index` action and the stamped document per fetched entry. */
  method IndexLinesLoop(entityType: string, data: Dict<Doc>) returns (lines: Body)
    ensures lines == IndexLines(entityType, data)
  {
    lines := [];
    var i := 0;
    while i < |data|
      invariant 0 <= i <= |data|
      invariant lines == IndexLines(entityType, data[..i])
    {
      IndexLinesSnoc(entityType, data[..i], data[i]);
      TakeSnoc(data, i);
      var document := StampEntityName(data[i].value, entityType);
      lines := lines + [IndexAction(CompositeId(entityType, data[i].key)), Source(document)];
      i := i + 1;
    }
    assert data[..i] == data;
  }

  /** The second foreach loop of `push`: a `delete` action per id to remove. */
  method DeleteLinesLoop(entityType: string, toRemove: seq<string>) returns (lines: Body)
    ensures lines == DeleteLines(entityType, toRemove)
  {
    lines := [];
    var j := 0;
    while j < |toRemove|
      invariant 0 <= j <= |toRemove|
      invariant lines == DeleteLines(entityType, toRemove[..j])
    {
      DeleteLinesSnoc(entityType, toRemove[..j], toRemove[j]);
      TakeSnoc(toRemove, j);
      lines := lines + [DeleteAction(CompositeId(entityType, toRemove[j]))];
      j := j + 1;
    }
    assert toRemove[..j] == toRemove;
  }

  /** `$documents` as `push` builds it. */
  method BuildBody(entityType: string, data: Dict<Doc>, ids: seq<string>) returns (body: Body)
    ensures body == BulkBody(entityType, data, ids)
  {
    var toRemove := ToRemove(data, ids);
    var indexLines := IndexLinesLoop(entityType, data);
    var deleteLines := DeleteLinesLoop(entityType, toRemove);
    body := indexLines + deleteLines;
  }

  // ---------------------------------------------------------------------------
  // How the search engine applies a bulk body to the index.

  /**
   * The index after a bulk body: an `index` action followed by its document
   * stores that document under the action's `_id`; a `delete` removes the
   * `_id`; lines are applied in order.
   */
  function ApplyBulk(docs: map<string, Doc>, body: Body): map<string, Doc>
    decreases |body|
  {
    if body == [] then docs
    else match body[0]
      case IndexAction(id) =>
        if |body| >= 2 && body[1].Source? then ApplyBulk(docs[id := body[1].doc], body[2..])
        else ApplyBulk(docs, body[1..])
      case DeleteAction(id) => ApplyBulk(docs - {id}, body[1..])
      case Source(_) => ApplyBulk(docs, body[1..])
  }

  /** The index after storing every fetched document, in order. */
  function IndexAll(docs: map<string, Doc>, entityType: string, data: Dict<Doc>): map<string, Doc>
    decreases |data|
  {
    if data == [] then docs
    else IndexAll(docs[CompositeId(entityType, data[0].key) := StampEntityName(data[0].value, entityType)], entityType, data[1..])
  }

  function IndexedKeys(entityType: string, data: Dict<Doc>): set<string> {
    set i | 0 <= i < |data| :: CompositeId(entityType, data[i].key)
  }

  function DeletedKeys(entityType: string, ids: seq<string>): set<string> {
    set i | 0 <= i < |ids| :: CompositeId(entityType, ids[i])
  }

  lemma {:induction false} ApplyIndexLines(docs: map<string, Doc>, entityType: string, data: Dict<Doc>, rest: Body)
    ensures ApplyBulk(docs, IndexLines(entityType, data) + rest) == ApplyBulk(IndexAll(docs, entityType, data), rest)
    decreases |data|
  {
    if data != [] {
      var lines := IndexLines(entityType, data) + rest;
      var tail := IndexLines(entityType, data[1..]) + rest;
      assert lines[2..] == tail;
      ApplyIndexLines(docs[CompositeId(entityType, data[0].key) := StampEntityName(data[0].value, entityType)], entityType, data[1..], rest);
    } else {
      assert IndexLines(entityType, data) + rest == rest;
    }
  }

  lemma {:induction false} ApplyDeleteLines(docs: map<string, Doc>, entityType: string, ids: seq<string>)
    ensures ApplyBulk(docs, DeleteLines(entityType, ids)) == docs - DeletedKeys(entityType, ids)
    decreases |ids|
  {
    if ids != [] {
      ApplyDeleteLines(docs - {CompositeId(entityType, ids[0])}, entityType, ids[1..]);
      assert DeletedKeys(entityType, ids) == {CompositeId(entityType, ids[0])} + DeletedKeys(entityType, ids[1..]) by {
        forall k | k in DeletedKeys(entityType, ids) ensures k in {CompositeId(entityType, ids[0])} + DeletedKeys(entityType, ids[1..]) {
          var i :| 0 <= i < |ids| && k == CompositeId(entityType, ids[i]);
          if i > 0 { assert ids[1..][i - 1] == ids[i]; }
        }
        forall k | k in DeletedKeys(entityType, ids[1..]) ensures k in DeletedKeys(entityType, ids) {
          var i :| 0 <= i < |ids| - 1 && k == CompositeId(entityType, ids[1..][i]);
          assert ids[i + 1] == ids[1..][i];
        }
      }
    } else {
      assert DeletedKeys(entityType, ids) == {};
    }
  }

  /** Within one entity type, distinct ids give distinct `_id`s. */
  lemma CompositeIdSameType(entityType: string, a: string, b: string)
    ensures CompositeId(entityType, a) == CompositeId(entityType, b) ==> a == b
  {
    var n := |entityType| + 1;
    assert a == CompositeId(entityType, a)[n..];
    assert b == CompositeId(entityType, b)[n..];
  }

  lemma {:induction false} IndexAllEffect(docs: map<string, Doc>, entityType: string, data: Dict<Doc>)
    requires DistinctKeys(data)
    ensures var r := IndexAll(docs, entityType, data);
      && (forall i :: 0 <= i < |data| ==>
            CompositeId(entityType, data[i].key) in r &&
            r[CompositeId(entityType, data[i].key)] == StampEntityName(data[i].value, entityType))
      && (forall key :: key !in IndexedKeys(entityType, data) ==>
            (key in r <==> key in docs) && (key in docs ==> r[key] == docs[key]))
    decreases |data|
  {
    if data != [] {
      var k0 := CompositeId(entityType, data[0].key);
      var docs' := docs[k0 := StampEntityName(data[0].value, entityType)];
      IndexAllEffect(docs', entityType, data[1..]);
      var r := IndexAll(docs, entityType, data);
      assert k0 !in IndexedKeys(entityType, data[1..]) by {
        forall i | 0 <= i < |data| - 1 ensures CompositeId(entityType, data[1..][i].key) != k0 {
          assert data[1..][i].key == data[i + 1].key != data[0].key;
          CompositeIdSameType(entityType, data[1..][i].key, data[0].key);
        }
      }
      forall i | 0 <= i < |data|
        ensures CompositeId(entityType, data[i].key) in r
        ensures r[CompositeId(entityType, data[i].key)] == StampEntityName(data[i].value, entityType)
      {
        if i > 0 { assert data[1..][i - 1] == data[i]; }
      }
      forall key | key !in IndexedKeys(entityType, data)
        ensures (key in r <==> key in docs) && (key in docs ==> r[key] == docs[key])
      {
        assert key != k0;
        forall i | 0 <= i < |data| - 1 ensures CompositeId(entityType, data[1..][i].key) in IndexedKeys(entityType, data) {
          assert data[1..][i] == data[i + 1];
        }
      }
    }
  }

  /**
   * Applying the body `push` sends: every fetched document ends up stored,
   * stamped, under `type_id`; every requested id the fetch left out is gone
   * from the index ("missing from the fetch means deleted"); every other
   * `_id` keeps its document.
   */
  lemma PushEffect(docs: map<string, Doc>, entityType: string, data: Dict<Doc>, ids: seq<string>)
    requires DistinctKeys(data)
    ensures var after := ApplyBulk(docs, BulkBody(entityType, data, ids));
      && (forall i :: 0 <= i < |data| ==>
            CompositeId(entityType, data[i].key) in after &&
            after[CompositeId(entityType, data[i].key)] == StampEntityName(data[i].value, entityType))
      && (forall id :: id in ids && !Has(data, id) ==> CompositeId(entityType, id) !in after)
      && (forall key :: key !in IndexedKeys(entityType, data) && key !in DeletedKeys(entityType, ids) ==>
            (key in after <==> key in docs) && (key in docs ==> after[key] == docs[key]))
  {
    var missing := ToRemove(data, ids);
    var indexed := IndexAll(docs, entityType, data);
    ApplyIndexLines(docs, entityType, data, DeleteLines(entityType, missing));
    ApplyDeleteLines(indexed, entityType, missing);
    IndexAllEffect(docs, entityType, data);
    var after := ApplyBulk(docs, BulkBody(entityType, data, ids));
    assert after == indexed - DeletedKeys(entityType, missing);
    forall i, j | 0 <= i < |data| && 0 <= j < |missing|
      ensures CompositeId(entityType, missing[j]) != CompositeId(entityType, data[i].key)
    {
      HasAt(data, i);
      assert missing[j] in missing;
      CompositeIdSameType(entityType, data[i].key, missing[j]);
    }
    forall id | id in ids && !Has(data, id) ensures CompositeId(entityType, id) !in after {
      assert id in missing;
      var j :| 0 <= j < |missing| && missing[j] == id;
      assert CompositeId(entityType, id) in DeletedKeys(entityType, missing);
    }
    forall key | key !in IndexedKeys(entityType, data) && key !in DeletedKeys(entityType, ids)
      ensures (key in after <==> key in docs) && (key in docs ==> after[key] == docs[key])
    {
      DeletedKeysSubset(entityType, missing, ids);
    }
  }

  lemma DeletedKeysSubset(entityType: string, sub: seq<string>, ids: seq<string>)
    requires forall id :: id in sub ==> id in ids
    ensures DeletedKeys(entityType, sub) <= DeletedKeys(entityType, ids)
  {
    forall key | key in DeletedKeys(entityType, sub) ensures key in DeletedKeys(entityType, ids) {
      var j :| 0 <= j < |sub| && key == CompositeId(entityType, sub[j]);
      assert sub[j] in ids;
      var m :| 0 <= m < |ids| && ids[m] == sub[j];
    }
  }

  /**
   * Sending the same body twice leaves the index as sending it once: the
   * stored documents are rewritten with themselves and the deleted `_id`s stay
   * deleted.
   */
  lemma PushIdempotent(docs: map<string, Doc>, entityType: string, data: Dict<Doc>, ids: seq<string>)
    requires DistinctKeys(data)
    ensures var body := BulkBody(entityType, data, ids);
      ApplyBulk(ApplyBulk(docs, body), body) == ApplyBulk(docs, body)
  {
    var body := BulkBody(entityType, data, ids);
    var gone := DeletedKeys(entityType, ToRemove(data, ids));
    var once := ApplyBulk(docs, body);
    PushForm(docs, entityType, data, ids);
    PushForm(once, entityType, data, ids);
    IndexAllEffect(docs, entityType, data);
    IndexAllEffect(once, entityType, data);
    var first := IndexAll(docs, entityType, data);
    var again := IndexAll(once, entityType, data);
    var indexed := IndexedKeys(entityType, data);
    forall key | key in indexed ensures key in first && key in again && again[key] == first[key] {
      var i :| 0 <= i < |data| && key == CompositeId(entityType, data[i].key);
    }
    Reapplied(first, once, again, gone, indexed);
  }

  /** Re-storing the same documents over a map with some other keys removed changes nothing. */
  lemma Reapplied(first: map<string, Doc>, once: map<string, Doc>, again: map<string, Doc>, gone: set<string>, indexed: set<string>)
    requires once == first - gone && indexed !! gone
    requires forall key :: key in indexed ==> key in first && key in again && again[key] == first[key]
    requires forall key :: key !in indexed ==> (key in again <==> key in once) && (key in once ==> again[key] == once[key])
    ensures again - gone == once
  {
    var twice := again - gone;
    forall key ensures (key in twice <==> key in once) && (key in once ==> twice[key] == once[key]) {
      if key in indexed {
        assert key in first && key !in gone;
      }
    }
  }

  /** The body `push` sends indexes every fetched document, then deletes `_id`s none of them uses. */
  lemma PushForm(docs: map<string, Doc>, entityType: string, data: Dict<Doc>, ids: seq<string>)
    ensures var gone := DeletedKeys(entityType, ToRemove(data, ids));
      && ApplyBulk(docs, BulkBody(entityType, data, ids)) == IndexAll(docs, entityType, data) - gone
      && IndexedKeys(entityType, data) !! gone
  {
    var missing := ToRemove(data, ids);
    ApplyIndexLines(docs, entityType, data, DeleteLines(entityType, missing));
    ApplyDeleteLines(IndexAll(docs, entityType, data), entityType, missing);
    forall key | key in IndexedKeys(entityType, data) ensures key !in DeletedKeys(entityType, missing) {
      var i :| 0 <= i < |data| && key == CompositeId(entityType, data[i].key);
      forall j | 0 <= j < |missing| ensures CompositeId(entityType, missing[j]) != key {
        HasAt(data, i);
        assert missing[j] in missing;
        CompositeIdSameType(entityType, data[i].key, missing[j]);
      }
    }
  }

  /** With hex ids, every `_id` a push writes belongs to the pushed entity type. */
  lemma WrittenKeysOwned(entityType: string, data: Dict<Doc>, ids: seq<string>)
    requires AllLowerHex(Keys(data)) && AllLowerHex(ids)
    ensures forall key :: key in IndexedKeys(entityType, data) ==> OwnedBy(key, entityType)
    ensures forall key :: key in DeletedKeys(entityType, ids) ==> OwnedBy(key, entityType)
  {
    forall key | key in IndexedKeys(entityType, data) ensures OwnedBy(key, entityType) {
      var i :| 0 <= i < |data| && key == CompositeId(entityType, data[i].key);
      assert Keys(data)[i] == data[i].key;
      LowerHexHasNoUnderscore(data[i].key);
      CompositeIdRoundTrip(entityType, data[i].key);
    }
    forall key | key in DeletedKeys(entityType, ids) ensures OwnedBy(key, entityType) {
      var i :| 0 <= i < |ids| && key == CompositeId(entityType, ids[i]);
      LowerHexHasNoUnderscore(ids[i]);
      CompositeIdRoundTrip(entityType, ids[i]);
    }
  }

  // ---------------------------------------------------------------------------
  // Bulk responses and the indexing exception.

  /** The `error` object of a failed item. */
  datatype ItemError = ItemError(errorType: Option<string>, reason: Option<string>)

  /** One per-action result: `_index`, `_id`, `status`, `error`, `_type`, `result`. */
  datatype ItemResult = ItemResult(
    index: Option<string>, id: Option<string>, status: Option<int>,
    error: Option<ItemError>, docType: Option<string>, result: Option<string>)

  /** One entry of the response's `items`, keyed by the action it answers. */
  datatype BulkItem = BulkItem(indexResult: Option<ItemResult>, deleteResult: Option<ItemResult>)

  /** What `$client->bulk()` returns: an array with `errors` and `items`, or something else. */
  datatype BulkResponse = NonArrayResponse | ArrayResponse(errors: Option<bool>, items: seq<BulkItem>)

  /** One entry of the exception's error list. */
  datatype ErrorEntry = ErrorEntry(index: Option<string>, id: Option<string>, errorType: Option<string>, reason: Option<string>)

  /** The failures the indexing pipeline raises. */
  datatype Failure =
    | ElasticsearchIndexingException(errors: seq<ErrorEntry>)
    | IndexerNotFound(entity: string)

  /** `$item['index'] ?? $item['delete']`. */
  function ItemOf(item: BulkItem): Option<ItemResult> {
    OrElse(item.indexResult, item.deleteResult)
  }

  /** `in_array($item['status'], [200, 201], true)`. */
  predicate Succeeded(item: BulkItem) {
    var r := ItemOf(item);
    r.Some? && (r.value.status == Some(200) || r.value.status == Some(201))
  }

  /** The error entry of a failed item; `type` falls back to `_type`, `reason` to `result`. */
  function ErrorOf(item: BulkItem): ErrorEntry {
    match ItemOf(item)
    case None => ErrorEntry(None, None, None, None)
    case Some(r) =>
      var errType := if r.error.Some? then r.error.value.errorType else None;
      var errReason := if r.error.Some? then r.error.value.reason else None;
      ErrorEntry(r.index, r.id, OrElse(errType, r.docType), OrElse(errReason, r.result))
  }

  /** The error entries of the failed items, in response order. */
  function Failures(items: seq<BulkItem>): seq<ErrorEntry> {
    if items == [] then []
    else
      var last := items[|items| - 1];
      Failures(items[..|items| - 1]) + (if Succeeded(last) then [] else [ErrorOf(last)])
  }

  /**
   * `parseErrors` keeps exactly the failed items, in order: it distributes over
   * concatenation, a single item contributes its entry iff it failed, and the
   * list is empty iff every item succeeded.
   */
  lemma {:induction false} FailuresExactly(a: seq<BulkItem>, b: seq<BulkItem>)
    ensures Failures(a + b) == Failures(a) + Failures(b)
    ensures Failures(a) == [] <==> forall i :: 0 <= i < |a| ==> Succeeded(a[i])
    ensures |Failures(a)| <= |a|
    decreases |b|
  {
    if b == [] {
      assert a + b == a;
    } else {
      var b' := b[..|b| - 1];
      FailuresExactly(a, b');
      assert (a + b)[..|a + b| - 1] == a + b';
      assert (a + b)[|a + b| - 1] == b[|b| - 1];
    }
    FailuresEmpty(a);
  }

  lemma {:induction false} FailuresEmpty(a: seq<BulkItem>)
    ensures Failures(a) == [] <==> forall i :: 0 <= i < |a| ==> Succeeded(a[i])
    ensures |Failures(a)| <= |a|
  {
    if a != [] {
      var init := a[..|a| - 1];
      FailuresEmpty(init);
      assert forall i :: 0 <= i < |init| ==> init[i] == a[i];
    }
  }

  /** The foreach loop of `parseErrors`. */
  method ParseErrors(items: seq<BulkItem>) returns (errors: seq<ErrorEntry>)
    ensures errors == Failures(items)
  {
    errors := [];
    var i := 0;
    while i < |items|
      invariant 0 <= i <= |items|
      invariant errors == Failures(items[..i])
    {
      assert items[..i + 1][..i] == items[..i];
      var item := ItemOf(items[i]);
      if !(item.Some? && (item.value.status == Some(200) || item.value.status == Some(201))) {
        errors := errors + [ErrorOf(items[i])];
      }
      i := i + 1;
    }
    assert items[..i] == items;
  }

  /** `is_array($result) && isset($result['errors']) && $result['errors']`. */
  predicate Raises(response: BulkResponse) {
    response.ArrayResponse? && response.errors == Some(true)
  }

  /** What `push` does with a bulk response. */
  function BulkOutcome(response: BulkResponse): Outcome<Failure> {
    if Raises(response) then Fail(ElasticsearchIndexingException(Failures(response.items))) else Pass
  }

  // ---------------------------------------------------------------------------
  // The search-engine client and the shared write operations.

  /**
   * The part of the Elasticsearch client the indexing code uses, on the one
   * index `admin_search`: whether it exists, its mapping, its documents by
   * `_id`, and a log of the bulk bodies sent. How the engine answers a bulk
   * request is a fixed but unknown function of the body.
   */
  class IndexClient {
    var indexExists: bool
    var mapping: seq<(string, FieldType)>
    var docs: map<string, Doc>
    ghost var bulkLog: seq<Body>
    const respond: Body -> BulkResponse

    constructor (indexExists: bool, mapping: seq<(string, FieldType)>, docs: map<string, Doc>, respond: Body -> BulkResponse)
      ensures this.indexExists == indexExists && this.mapping == mapping && this.docs == docs
      ensures this.respond == respond && bulkLog == []
    {
      this.indexExists := indexExists;
      this.mapping := mapping;
      this.docs := docs;
      this.respond := respond;
      bulkLog := [];
    }

    /** `indices()->exists()`. */
    method IndexExists() returns (b: bool)
      ensures b == indexExists
    {
      b := indexExists;
    }

    /** `indices()->create()`: only ever called on a missing index. */
    method Create(m: seq<(string, FieldType)>)
      requires !indexExists
      modifies this
      ensures indexExists && mapping == m && docs == map[] && bulkLog == old(bulkLog)
    {
      indexExists := true;
      mapping := m;
      docs := map[];
    }

    /** `indices()->delete()`: only ever called on an existing index. */
    method Delete()
      requires indexExists
      modifies this
      ensures !indexExists && mapping == [] && docs == map[] && bulkLog == old(bulkLog)
    {
      indexExists := false;
      mapping := [];
      docs := map[];
    }

    /** `bulk()`: applies the body and returns the engine's response to it. */
    method Bulk(body: Body) returns (response: BulkResponse)
      modifies this
      ensures docs == ApplyBulk(old(docs), body) && bulkLog == old(bulkLog) + [body]
      ensures indexExists == old(indexExists) && mapping == old(mapping)
      ensures response == respond(body)
    {
      docs := ApplyBulk(docs, body);
      bulkLog := bulkLog + [body];
      response := respond(body);
    }
  }

  /** `createIndex`: creates the index with the fixed admin search mapping. */
  method CreateIndex(client: IndexClient)
    requires !client.indexExists
    modifies client
    ensures client.indexExists && client.mapping == AdminIndexMapping && client.docs == map[]
    ensures client.bulkLog == old(client.bulkLog)
  {
    client.Create(AdminIndexMapping);
  }

  /**
   * `push`: sends the bulk body for `data` and `ids` and raises an indexing
   * exception holding the failed items when the response reports errors.
   */
  method Push(client: IndexClient, entityType: string, data: Dict<Doc>, ids: seq<string>) returns (r: Outcome<Failure>)
    modifies client
    ensures client.docs == ApplyBulk(old(client.docs), BulkBody(entityType, data, ids))
    ensures client.bulkLog == old(client.bulkLog) + [BulkBody(entityType, data, ids)]
    ensures client.indexExists == old(client.indexExists) && client.mapping == old(client.mapping)
    ensures r == BulkOutcome(client.respond(BulkBody(entityType, data, ids)))
  {
    var body := BuildBody(entityType, data, ids);
    var response := client.Bulk(body);
    if response.ArrayResponse? && response.errors.Some? && response.errors.value {
      var errors := ParseErrors(response.items);
      return Fail(ElasticsearchIndexingException(errors));
    }
    return Pass;
  }

  // ---------------------------------------------------------------------------
  // Progress and the state the orchestration specifications track.

  /** Progress events: started (label, total), advanced (step), finished (label). */
  datatype ProgressEvent =
    | ProgressStarted(message: string, total: nat)
    | ProgressAdvanced(step: nat)
    | ProgressFinished(message: string)

  /** The observable state of an indexing run: index documents, bulk bodies sent, progress. */
  datatype IndexState = IndexState(docs: map<string, Doc>, bulkLog: seq<Body>, events: seq<ProgressEvent>)

  /** One `push` on that state. */
  function PushStep(s: IndexState, entityType: string, data: Dict<Doc>, ids: seq<string>, respond: Body -> BulkResponse): (IndexState, Outcome<Failure>) {
    var body := BulkBody(entityType, data, ids);
    (s.(docs := ApplyBulk(s.docs, body), bulkLog := s.bulkLog + [body]), BulkOutcome(respond(body)))
  }
}
