/**
 * The administration's search service. `Search` runs the caller's criteria
 * against every readable entity's repository; `ResolveTerm` turns a search
 * term into one page of ids of a single entity through the admin search
 * index; `Elastic` runs the global search on that index, collapses the hits
 * per entity and keeps only the entities the caller may read.
 */
module AdminSearch {
  import opened Wrappers
  import opened PhpArray
  import opened Documents
  import opened Dal

  /** `AclRoleDefinition::PRIVILEGE_READ`. */
  const PrivilegeRead: string := "read"

  /** `ResolveTerm`'s default page and page size, `Elastic`'s default inner-hit size. */
  const DefaultPage: int := 1
  const DefaultLimit: int := 50
  const DefaultGlobalLimit: int := 5

  /** The index field the documents are matched on and the one naming their entity. */
  const TextField: string := "text"
  const EntityNameField: string := "entity_name"

  /** The queries of the search DSL the service builds. */
  datatype Query =
    | MatchQuery(field: string, text: string)
    | WildcardQuery(field: string, pattern: string)
    | TermQuery(field: string, value: string)
    | TermsQuery(field: string, values: seq<string>)

  /** `collapse`: one top hit per value of `field`, with up to `innerHitsSize` inner hits named `innerHitsName`. */
  datatype Collapse = Collapse(field: string, innerHitsName: string, innerHitsSize: int)

  /**
   * A search body: optional `from`/`size`, the scoring `bool` query of
   * `should` clauses with its `minimum_should_match`, the `bool` filter's one
   * `must` clause and an optional collapse.
   */
  datatype SearchBody = SearchBody(
    from: Option<int>,
    size: Option<int>,
    should: seq<Query>,
    minimumShouldMatch: int,
    filter: Query,
    collapse: Option<Collapse>)

  /** The array handed to the client: index, `track_total_hits` and body. */
  datatype SearchRequest = SearchRequest(index: string, trackTotalHits: bool, body: SearchBody)

  /**
   * A hit: `_source.id`, `fields.entity_name`, and for a collapsed hit the
   * inner hits named `hits` with their reported total.
   */
  datatype Hit = Hit(sourceId: string, entityNames: seq<string>, inner: seq<Hit>, innerTotal: int)

  /** `hits.total.value` and `hits.hits` of a response. */
  datatype SearchResponse = SearchResponse(total: int, hits: seq<Hit>)

  /** What `resolveTerm` returns. */
  datatype TermResult = TermResult(ids: seq<string>, total: int)

  /** One entity's collapsed hits: `ids` of its inner hits and their `total`. */
  datatype Group = Group(ids: seq<string>, total: int)

  /** An entity as its repository returns it. */
  datatype Record = Record(entity: string, id: string)

  /** The two `should` clauses one token contributes. */
  function TokenPair(token: string): seq<Query> {
    [MatchQuery(TextField, token), WildcardQuery(TextField, "*" + token + "*")]
  }

  /** The `should` clauses of the token loop, for the tokens in order. */
  function TokenClauses(tokens: seq<string>): seq<Query> {
    if tokens == [] then []
    else TokenClauses(tokens[..|tokens| - 1]) + TokenPair(tokens[|tokens| - 1])
  }

  /**
   * Every token contributes exactly two clauses, in token order: a match
   * on the text and a wildcard that finds the token anywhere inside it.
   */
  lemma {:induction false} TokenClausesAt(tokens: seq<string>, i: nat)
    requires i < |tokens|
    ensures |TokenClauses(tokens)| == 2 * |tokens|
    ensures TokenClauses(tokens)[2 * i] == MatchQuery(TextField, tokens[i])
    ensures TokenClauses(tokens)[2 * i + 1] == WildcardQuery(TextField, "*" + tokens[i] + "*")
    decreases |tokens|
  {
    var init := tokens[..|tokens| - 1];
    if i < |init| {
      TokenClausesAt(init, i);
    } else if init != [] {
      TokenClausesAt(init, 0);
    }
  }

  /** `$hit['_source']['id']` of every hit, in response order. */
  function SourceIds(hits: seq<Hit>): (ids: seq<string>)
    ensures |ids| == |hits|
    ensures forall i :: 0 <= i < |hits| ==> ids[i] == hits[i].sourceId
  {
    seq(|hits|, i requires 0 <= i < |hits| => hits[i].sourceId)
  }

  /**
   * `array_shift($hit['fields']['entity_name'])`: the first entity name, and
   * for an empty list PHP's `null`, which as an array key is `""`.
   */
  function EntityOf(hit: Hit): string {
    if hit.entityNames == [] then "" else hit.entityNames[0]
  }

  function EntitiesOf(hits: seq<Hit>): seq<string> {
    seq(|hits|, i requires 0 <= i < |hits| => EntityOf(hits[i]))
  }

  /** The request `resolveTerm` sends: one page of hits of one entity. */
  function TermRequest(tokens: seq<string>, entity: string, page: int, limit: int): SearchRequest {
    SearchRequest(AdminSearchIndex, true,
      SearchBody(Some(limit * (page - 1)), Some(limit), TokenClauses(tokens), 1,
        TermQuery(EntityNameField, entity), None))
  }

  /** The body `buildGlobalSearch` builds: no paging, hits collapsed per entity. */
  function GlobalBody(tokens: seq<string>, entities: seq<string>, limit: int): SearchBody {
    SearchBody(None, None, TokenClauses(tokens), 1,
      TermsQuery(EntityNameField, entities),
      Some(Collapse(EntityNameField, "hits", limit)))
  }

  /** There are twice as many clauses as tokens. */
  lemma TokenClausesLength(tokens: seq<string>)
    ensures |TokenClauses(tokens)| == 2 * |tokens|
  {
    if tokens != [] {
      TokenClausesAt(tokens, 0);
    }
  }

  /**
   * `resolveTerm`'s request: page `page` of `limit` hits, on the admin
   * search index with exact totals, scored by the token clauses of which
   * at least one must match, and filtered, without scoring, to one entity.
   */
  lemma TermRequestShape(tokens: seq<string>, entity: string, page: int, limit: int)
    ensures var r := TermRequest(tokens, entity, page, limit);
      && r.index == AdminSearchIndex && r.trackTotalHits
      && r.body.from == Some(limit * (page - 1)) && r.body.size == Some(limit)
      && r.body.should == TokenClauses(tokens) && |r.body.should| == 2 * |tokens|
      && r.body.minimumShouldMatch == 1
      && r.body.filter == TermQuery(EntityNameField, entity) && r.body.collapse == None
  {
    TokenClausesLength(tokens);
  }

  /**
   * The global search: the same token clauses, no paging, a terms filter
   * on the requested entity names and one collapsed hit per entity with
   * up to `limit` inner hits named `hits`.
   */
  lemma GlobalBodyShape(tokens: seq<string>, entities: seq<string>, limit: int)
    ensures var b := GlobalBody(tokens, entities, limit);
      && b.from == None && b.size == None
      && b.should == TokenClauses(tokens) && |b.should| == 2 * |tokens| && b.minimumShouldMatch == 1
      && b.filter == TermsQuery(EntityNameField, entities)
      && b.collapse == Some(Collapse(EntityNameField, "hits", limit))
  {
    TokenClausesLength(tokens);
  }

  /** The privilege `isAllowed` is asked for before an entity is read. */
  function ReadPrivilege(entity: string): string {
    entity + ":" + PrivilegeRead
  }

  /** The result arrays of `elastic`'s first loop: one group per entity, a later hit replacing an earlier one. */
  function Grouped(hits: seq<Hit>): Dict<Group> {
    if hits == [] then []
    else
      var last := hits[|hits| - 1];
      Set(Grouped(hits[..|hits| - 1]), EntityOf(last), Group(SourceIds(last.inner), last.innerTotal))
  }

  /**
   * Grouping keeps one entry per entity name, in order of first appearance,
   * so exactly the entities some hit names.
   */
  lemma GroupedKeys(hits: seq<Hit>)
    ensures DistinctKeys(Grouped(hits))
    ensures Keys(Grouped(hits)) == Unique(EntitiesOf(hits))
    ensures forall e :: Has(Grouped(hits), e) <==> e in EntitiesOf(hits)
  {
    GroupedOrder(hits);
  }

  lemma {:induction false} GroupedOrder(hits: seq<Hit>)
    ensures DistinctKeys(Grouped(hits))
    ensures Keys(Grouped(hits)) == Unique(EntitiesOf(hits))
  {
    if hits != [] {
      var init, last := hits[..|hits| - 1], hits[|hits| - 1];
      var s := EntitiesOf(hits);
      GroupedOrder(init);
      SetSpec(Grouped(init), EntityOf(last), Group(SourceIds(last.inner), last.innerTotal));
      assert s[..|s| - 1] == EntitiesOf(init);
      assert s[|s| - 1] == EntityOf(last);
    }
  }

  /** An entity's group is the one of the last hit that names it. */
  lemma {:induction false} GroupedLast(hits: seq<Hit>, i: nat)
    requires i < |hits|
    requires forall j :: i < j < |hits| ==> EntityOf(hits[j]) != EntityOf(hits[i])
    ensures Has(Grouped(hits), EntityOf(hits[i]))
    ensures Get(Grouped(hits), EntityOf(hits[i])) == Group(SourceIds(hits[i].inner), hits[i].innerTotal)
  {
    var init, last := hits[..|hits| - 1], hits[|hits| - 1];
    var v := Group(SourceIds(last.inner), last.innerTotal);
    SetSpec(Grouped(init), EntityOf(last), v);
    if i < |init| {
      assert init[i] == hits[i];
      GroupedLast(init, i);
    }
  }

  class AdminSearcher {
    /** `DefinitionInstanceRegistry::has`. */
    const registered: string -> bool
    /** `getRepository($entity)->search($criteria, $context)`. */
    const repository: (string, Criteria) -> SearchResult<Record>
    /** The search client, answering a request with a response. */
    const client: SearchRequest -> SearchResponse
    /** `Tokenizer::tokenize`. */
    const tokenize: string -> seq<string>

    constructor (registered: string -> bool, repository: (string, Criteria) -> SearchResult<Record>,
                 client: SearchRequest -> SearchResponse, tokenize: string -> seq<string>)
      ensures this.registered == registered && this.repository == repository
      ensures this.client == client && this.tokenize == tokenize
    {
      this.registered := registered;
      this.repository := repository;
      this.client := client;
      this.tokenize := tokenize;
    }

    /** An entity is read only when it is registered and the context grants its read privilege. */
    predicate Readable(entity: string, isAllowed: string -> bool) {
      registered(entity) && isAllowed(ReadPrivilege(entity))
    }

    /** The readable keys, in order. */
    function ReadableKeys(keys: seq<string>, isAllowed: string -> bool): (r: seq<string>)
      ensures forall k :: k in r <==> k in keys && Readable(k, isAllowed)
    {
      if keys == [] then []
      else
        var init, k := keys[..|keys| - 1], keys[|keys| - 1];
        assert keys == init + [k];
        ReadableKeys(init, isAllowed) + (if Readable(k, isAllowed) then [k] else [])
    }

    /** What `search` returns: a repository result per readable entity of the collection. */
    function Searched(entities: Dict<Criteria>, isAllowed: string -> bool): Dict<SearchResult<Record>> {
      if entities == [] then []
      else
        var r := Searched(entities[..|entities| - 1], isAllowed);
        var e := entities[|entities| - 1];
        if Readable(e.key, isAllowed) then Set(r, e.key, repository(e.key, e.value)) else r
    }

    /**
     * `search` answers for exactly the registered entities the context may
     * read, in collection order.
     */
    lemma {:induction false} SearchedKeys(entities: Dict<Criteria>, isAllowed: string -> bool)
      requires DistinctKeys(entities)
      ensures DistinctKeys(Searched(entities, isAllowed))
      ensures Keys(Searched(entities, isAllowed)) == ReadableKeys(Keys(entities), isAllowed)
      ensures forall e :: Has(Searched(entities, isAllowed), e) <==> Has(entities, e) && Readable(e, isAllowed)
    {
      if entities != [] {
        var init, last := entities[..|entities| - 1], entities[|entities| - 1];
        DictSnoc(entities);
        SearchedKeys(init, isAllowed);
        SetSpec(Searched(init, isAllowed), last.key, repository(last.key, last.value));
      }
    }

    /** Each entity `search` answers for holds what its repository returns for that entity's criteria. */
    lemma {:induction false} SearchedValues(entities: Dict<Criteria>, isAllowed: string -> bool, e: string)
      requires DistinctKeys(entities)
      requires Has(Searched(entities, isAllowed), e)
      ensures Has(entities, e) && Get(Searched(entities, isAllowed), e) == repository(e, Get(entities, e))
    {
      var init, last := entities[..|entities| - 1], entities[|entities| - 1];
      DictSnoc(entities);
      SearchedKeys(init, isAllowed);
      SetSpec(Searched(init, isAllowed), last.key, repository(last.key, last.value));
      if e != last.key {
        SearchedValues(init, isAllowed, e);
      }
    }

    /** A kept group's answer: the entities its ids load and the total the index reported. */
    function Loaded(entity: string, group: Group): SearchResult<Record> {
      SearchResult(repository(entity, ByIds(group.ids)).entities, group.total)
    }

    /** What `elastic`'s second loop returns: the readable groups, each with its entities loaded by id. */
    function Redacted(groups: Dict<Group>, isAllowed: string -> bool): Dict<SearchResult<Record>> {
      if groups == [] then []
      else
        var r := Redacted(groups[..|groups| - 1], isAllowed);
        var e := groups[|groups| - 1];
        if Readable(e.key, isAllowed)
        then Set(r, e.key, Loaded(e.key, e.value))
        else r
    }

    /** Redaction keeps exactly the readable entities, in order. */
    lemma {:induction false} RedactedKeys(groups: Dict<Group>, isAllowed: string -> bool)
      requires DistinctKeys(groups)
      ensures DistinctKeys(Redacted(groups, isAllowed))
      ensures Keys(Redacted(groups, isAllowed)) == ReadableKeys(Keys(groups), isAllowed)
      ensures forall e :: Has(Redacted(groups, isAllowed), e) <==> Has(groups, e) && Readable(e, isAllowed)
    {
      if groups != [] {
        var init, last := groups[..|groups| - 1], groups[|groups| - 1];
        DictSnoc(groups);
        RedactedKeys(init, isAllowed);
        SetSpec(Redacted(init, isAllowed), last.key, Loaded(last.key, last.value));
      }
    }

    /** A kept entity keeps the total the index reported and gets the entities its ids load. */
    lemma {:induction false} RedactedValues(groups: Dict<Group>, isAllowed: string -> bool, e: string)
      requires DistinctKeys(groups)
      requires Has(Redacted(groups, isAllowed), e)
      ensures Has(groups, e)
      ensures Get(Redacted(groups, isAllowed), e)
        == SearchResult(repository(e, ByIds(Get(groups, e).ids)).entities, Get(groups, e).total)
    {
      var init, last := groups[..|groups| - 1], groups[|groups| - 1];
      DictSnoc(groups);
      RedactedKeys(init, isAllowed);
      SetSpec(Redacted(init, isAllowed), last.key, Loaded(last.key, last.value));
      if e != last.key {
        RedactedValues(init, isAllowed, e);
      }
    }

    /** `search`: one repository search per readable entity of the criteria collection. */
    method Search(entities: Dict<Criteria>, isAllowed: string -> bool) returns (result: Dict<SearchResult<Record>>)
      ensures result == Searched(entities, isAllowed)
    {
      result := [];
      for i := 0 to |entities|
        invariant result == Searched(entities[..i], isAllowed)
      {
        var entity, criteria := entities[i].key, entities[i].value;
        assert entities[..i + 1][..i] == entities[..i];
        if registered(entity) && isAllowed(ReadPrivilege(entity)) {
          result := Set(result, entity, repository(entity, criteria));
        }
      }
      assert entities[..|entities|] == entities;
    }

    /** The token loop: a match and a wildcard clause per token. */
    method ShouldClauses(tokens: seq<string>) returns (should: seq<Query>)
      ensures should == TokenClauses(tokens)
    {
      should := [];
      for i := 0 to |tokens|
        invariant should == TokenClauses(tokens[..i])
      {
        assert tokens[..i + 1][..i] == tokens[..i];
        should := should + [MatchQuery(TextField, tokens[i]), WildcardQuery(TextField, "*" + tokens[i] + "*")];
      }
      assert tokens[..|tokens|] == tokens;
    }

    /** The loop collecting `_source.id` of each hit. */
    method CollectIds(hits: seq<Hit>) returns (ids: seq<string>)
      ensures ids == SourceIds(hits)
    {
      ids := [];
      for i := 0 to |hits|
        invariant ids == SourceIds(hits[..i])
      {
        ids := ids + [hits[i].sourceId];
      }
      assert hits[..|hits|] == hits;
    }

    /**
     * `resolveTerm`: sends one request for page `page` of `limit` hits of
     * `entity` on the admin search index and returns the hits' ids in
     * response order with the total the index reports.
     */
    method ResolveTerm(term: string, entity: string, page: int := DefaultPage, limit: int := DefaultLimit)
      returns (r: TermResult)
      ensures var response := client(TermRequest(tokenize(term), entity, page, limit));
        r.ids == SourceIds(response.hits) && r.total == response.total
    {
      var tokens := tokenize(term);
      var should := ShouldClauses(tokens);
      var body := SearchBody(Some(limit * (page - 1)), Some(limit), should, 1, TermQuery(EntityNameField, entity), None);
      var response := client(SearchRequest(AdminSearchIndex, true, body));
      var ids := CollectIds(response.hits);
      r := TermResult(ids, response.total);
    }

    /** `buildGlobalSearch`. */
    method BuildGlobalSearch(term: string, entities: seq<string>, limit: int) returns (body: SearchBody)
      ensures body == GlobalBody(tokenize(term), entities, limit)
    {
      var tokens := tokenize(term);
      var should := ShouldClauses(tokens);
      body := SearchBody(None, None, should, 1, TermsQuery(EntityNameField, entities), None);
      body := body.(collapse := Some(Collapse(EntityNameField, "hits", limit)));
    }

    /** `elastic`'s first loop. */
    method GroupHits(hits: seq<Hit>) returns (result: Dict<Group>)
      ensures result == Grouped(hits)
    {
      result := [];
      for i := 0 to |hits|
        invariant result == Grouped(hits[..i])
      {
        var hit := hits[i];
        var entity := if hit.entityNames == [] then "" else hit.entityNames[0];
        var ids := CollectIds(hit.inner);
        assert hits[..i + 1][..i] == hits[..i];
        result := Set(result, entity, Group(ids, hit.innerTotal));
      }
      assert hits[..|hits|] == hits;
    }

    /** `elastic`'s second loop. */
    method Redact(groups: Dict<Group>, isAllowed: string -> bool) returns (mapped: Dict<SearchResult<Record>>)
      ensures mapped == Redacted(groups, isAllowed)
    {
      mapped := [];
      for i := 0 to |groups|
        invariant mapped == Redacted(groups[..i], isAllowed)
      {
        var entity, values := groups[i].key, groups[i].value;
        assert groups[..i + 1][..i] == groups[..i];
        if registered(entity) && isAllowed(ReadPrivilege(entity)) {
          var collection := repository(entity, ByIds(values.ids));
          mapped := Set(mapped, entity, SearchResult(collection.entities, values.total));
        }
      }
      assert groups[..|groups|] == groups;
    }

    /** The response of the global search for `term` over `entities`. */
    function GlobalResponse(term: string, entities: seq<string>, limit: int): SearchResponse {
      client(SearchRequest(AdminSearchIndex, true, GlobalBody(tokenize(term), entities, limit)))
    }

    /** `elastic`: the global search, grouped per entity and redacted. */
    method Elastic(term: string, entities: seq<string>, isAllowed: string -> bool, limit: int := DefaultGlobalLimit)
      returns (mapped: Dict<SearchResult<Record>>)
      ensures mapped == Redacted(Grouped(GlobalResponse(term, entities, limit).hits), isAllowed)
    {
      var body := BuildGlobalSearch(term, entities, limit);
      var response := client(SearchRequest(AdminSearchIndex, true, body));
      var grouped := GroupHits(response.hits);
      mapped := Redact(grouped, isAllowed);
    }

    /** The global search answers for exactly the readable entities some hit names. */
    lemma ElasticKeys(hits: seq<Hit>, isAllowed: string -> bool, e: string)
      ensures Has(Redacted(Grouped(hits), isAllowed), e) <==> e in EntitiesOf(hits) && Readable(e, isAllowed)
    {
      GroupedKeys(hits);
      RedactedKeys(Grouped(hits), isAllowed);
    }

    /**
     * A readable entity's answer carries the total of the last hit naming
     * it and the entities that hit's inner ids load.
     */
    lemma ElasticLast(hits: seq<Hit>, isAllowed: string -> bool, i: nat)
      requires i < |hits| && Readable(EntityOf(hits[i]), isAllowed)
      requires forall j :: i < j < |hits| ==> EntityOf(hits[j]) != EntityOf(hits[i])
      ensures Has(Redacted(Grouped(hits), isAllowed), EntityOf(hits[i]))
      ensures Get(Redacted(Grouped(hits), isAllowed), EntityOf(hits[i]))
        == SearchResult(repository(EntityOf(hits[i]), ByIds(SourceIds(hits[i].inner))).entities, hits[i].innerTotal)
    {
      var e := EntityOf(hits[i]);
      GroupedKeys(hits);
      RedactedKeys(Grouped(hits), isAllowed);
      GroupedLast(hits, i);
      RedactedValues(Grouped(hits), isAllowed, e);
    }
  }
}
