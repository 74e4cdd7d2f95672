/**
 * The kernel listener that hands an administration module's term search to
 * the admin search index. On the way in it resolves the request's term to
 * one page of ids and puts them, with the index's total, into the request
 * body in place of the term; on the way out it writes that total into the
 * response's `meta`.
 */
module TermSubscriber {
  import opened Wrappers
  import opened PhpArray
  import opened AdminSearch

  /** The header naming the administration module, and so the entity searched. */
  const AdminModuleHeader: string := "admin-module"

  const TermKey: string := "term"
  const QueriesKey: string := "queries"
  const PageKey: string := "page"
  const LimitKey: string := "limit"
  const IdsKey: string := "ids"
  const ElasticTotalKey: string := "elastic-total"
  const MetaKey: string := "meta"
  const TotalKey: string := "total"

  /** The errors PHP raises on the listener's paths. */
  datatype ListenerError =
    | TypeError     // an argument of `resolveTerm` does not have its declared type
    | ScalarOffset  // `meta` is a scalar, which cannot take the `total` offset

  /** `ParameterBag::get($key, $default)`. */
  function BagGet(bag: Dict<Value>, key: string, default: Value): Value {
    if Has(bag, key) then Get(bag, key) else default
  }

  /** `Request::get($key)`: route attributes first, then the query string, then the body. */
  function RequestParam(attributes: Dict<Value>, query: Dict<Value>, body: Dict<Value>, key: string): Value {
    if Has(attributes, key) then Get(attributes, key)
    else if Has(query, key) then Get(query, key)
    else BagGet(body, key, Null)
  }

  /** The body once the list query and the term are taken out. */
  function Stripped(body: Dict<Value>): Dict<Value> {
    Remove(Remove(body, QueriesKey), TermKey)
  }

  /** The stripped body once the resolved ids and total are put in. */
  function Rewritten(body: Dict<Value>, r: TermResult): Dict<Value> {
    Set(Set(Stripped(body), IdsKey, StringList(r.ids)), ElasticTotalKey, Int(r.total))
  }

  lemma BodyKeysDistinct()
    ensures Distinct([QueriesKey, TermKey, IdsKey, ElasticTotalKey])
  {
  }

  /**
   * The rewritten body has no list query and no term, carries the resolved
   * ids and total, and holds every other parameter exactly as before.
   */
  lemma RewrittenSpec(body: Dict<Value>, r: TermResult)
    requires DistinctKeys(body)
    ensures var b := Rewritten(body, r);
      && DistinctKeys(b)
      && !Has(b, QueriesKey) && !Has(b, TermKey)
      && Has(b, IdsKey) && Get(b, IdsKey) == StringList(r.ids)
      && Has(b, ElasticTotalKey) && Get(b, ElasticTotalKey) == Int(r.total)
      && (forall k :: k != QueriesKey && k != TermKey && k != IdsKey && k != ElasticTotalKey ==>
            (Has(b, k) <==> Has(body, k)) && (Has(body, k) ==> Get(b, k) == Get(body, k)))
  {
    BodyKeysDistinct();
    var s1 := Remove(body, QueriesKey);
    RemoveSpec(body, QueriesKey);
    RemoveSpec(s1, TermKey);
    var s2 := Stripped(body);
    SetSpec(s2, IdsKey, StringList(r.ids));
    SetSpec(Set(s2, IdsKey, StringList(r.ids)), ElasticTotalKey, Int(r.total));
  }

  /**
   * `$content['meta']['total'] = $total` under `isset($content['meta'])`:
   * an array `meta` gets the key, `false` becomes an array holding just it,
   * any other scalar raises; without a `meta` the content is unchanged.
   */
  function WithTotal(content: Value, total: Value): Result<Value, ListenerError> {
    if content.Arr? && Has(content.entries, MetaKey) && Get(content.entries, MetaKey) != Null then
      match Get(content.entries, MetaKey)
      case Arr(meta) => Success(Arr(Set(content.entries, MetaKey, Arr(Set(meta, TotalKey, total)))))
      case Bool(b) =>
        if b then Failure(ScalarOffset)
        else Success(Arr(Set(content.entries, MetaKey, Arr([Entry(TotalKey, total)]))))
      case _ => Failure(ScalarOffset)
    else Success(content)
  }

  /**
   * When the content's `meta` is an array, only its `total` changes: every
   * other key of `meta` and of the content stays as it was.
   */
  lemma WithTotalSpec(content: Value, total: Value)
    requires content.Arr? && Has(content.entries, MetaKey) && Get(content.entries, MetaKey).Arr?
    ensures WithTotal(content, total).Success?
    ensures var c := WithTotal(content, total).value;
      && c.Arr? && Has(c.entries, MetaKey) && Get(c.entries, MetaKey).Arr?
      && Has(Get(c.entries, MetaKey).entries, TotalKey) && Get(Get(c.entries, MetaKey).entries, TotalKey) == total
      && (forall k :: k != TotalKey ==>
            (Has(Get(c.entries, MetaKey).entries, k) <==> Has(Get(content.entries, MetaKey).entries, k)))
      && (forall k :: k != TotalKey && Has(Get(content.entries, MetaKey).entries, k) ==>
            Get(Get(c.entries, MetaKey).entries, k) == Get(Get(content.entries, MetaKey).entries, k))
      && (forall k :: k != MetaKey ==> (Has(c.entries, k) <==> Has(content.entries, k)))
      && (forall k :: k != MetaKey && Has(content.entries, k) ==> Get(c.entries, k) == Get(content.entries, k))
  {
    var meta := Get(content.entries, MetaKey).entries;
    SetSpec(meta, TotalKey, total);
    SetSpec(content.entries, MetaKey, Arr(Set(meta, TotalKey, total)));
  }

  /** A request as the listener sees it; only its body is changed. */
  class Request {
    /** Header names, normalised to lower case, with their first value. */
    const headers: Dict<string>
    const attributes: Dict<Value>
    const query: Dict<Value>
    /** `$request->request`, the parameter bag of the body. */
    var body: Dict<Value>

    constructor (headers: Dict<string>, attributes: Dict<Value>, query: Dict<Value>, body: Dict<Value>)
      ensures this.headers == headers && this.attributes == attributes && this.query == query
      ensures this.body == body
    {
      this.headers := headers;
      this.attributes := attributes;
      this.query := query;
      this.body := body;
    }
  }

  /** A response; its content is kept as `json_decode($content, true)` reads it. */
  class Response {
    var content: Value

    constructor (content: Value)
      ensures this.content == content
    {
      this.content := content;
    }
  }

  class ResolveTermSubscriber {
    const searcher: AdminSearcher

    constructor (searcher: AdminSearcher)
      ensures this.searcher == searcher
    {
      this.searcher := searcher;
    }

    /** What `resolveTerm` answers for these arguments. */
    function Resolved(term: string, entity: string, page: int, limit: int): TermResult {
      var response := searcher.client(TermRequest(searcher.tokenize(term), entity, page, limit));
      TermResult(SourceIds(response.hits), response.total)
    }

    /** The outcome of `request` and the body it leaves, given the request's parts and its body before. */
    function RequestEffect(headers: Dict<string>, attributes: Dict<Value>, query: Dict<Value>, body: Dict<Value>)
      : (Outcome<ListenerError>, Dict<Value>)
    {
      if !Has(headers, AdminModuleHeader) then (Pass, body)
      else
        var term := RequestParam(attributes, query, body, TermKey);
        if !Truthy(term) then (Pass, body)
        else
          var stripped := Stripped(body);
          var page := BagGet(stripped, PageKey, Int(DefaultPage));
          var limit := BagGet(stripped, LimitKey, Int(DefaultLimit));
          if term.Str? && page.Int? && limit.Int? then
            (Pass, Rewritten(body, Resolved(term.s, Get(headers, AdminModuleHeader), page.i, limit.i)))
          else (Fail(TypeError), stripped)
    }

    /** `request`: resolves the term of an administration module's request. */
    method OnRequest(request: Request) returns (outcome: Outcome<ListenerError>)
      modifies request
      ensures (outcome, request.body)
        == RequestEffect(request.headers, request.attributes, request.query, old(request.body))
    {
      if !Has(request.headers, AdminModuleHeader) {
        return Pass;
      }
      var adminModule := Get(request.headers, AdminModuleHeader);
      var term := RequestParam(request.attributes, request.query, request.body, TermKey);
      if !Truthy(term) {
        return Pass;
      }
      request.body := Remove(request.body, QueriesKey);
      request.body := Remove(request.body, TermKey);
      var page := BagGet(request.body, PageKey, Int(DefaultPage));
      var limit := BagGet(request.body, LimitKey, Int(DefaultLimit));
      if !(term.Str? && page.Int? && limit.Int?) {
        return Fail(TypeError);
      }
      var ids := searcher.ResolveTerm(term.s, adminModule, page.i, limit.i);
      request.body := Set(request.body, IdsKey, StringList(ids.ids));
      request.body := Set(request.body, ElasticTotalKey, Int(ids.total));
      outcome := Pass;
    }

    /** `response`: reports the index's total in the response's `meta`. */
    method OnResponse(request: Request, response: Response) returns (outcome: Outcome<ListenerError>)
      modifies response
      ensures !Has(request.body, ElasticTotalKey) ==> outcome == Pass && response.content == old(response.content)
      ensures Has(request.body, ElasticTotalKey) ==>
        var r := WithTotal(old(response.content), Get(request.body, ElasticTotalKey));
        && (r.Success? ==> outcome == Pass && response.content == r.value)
        && (r.Failure? ==> outcome == Fail(r.error) && response.content == old(response.content))
    {
      if !Has(request.body, ElasticTotalKey) {
        return Pass;
      }
      var total := Get(request.body, ElasticTotalKey);
      var content := WithTotal(response.content, total);
      if content.Failure? {
        return Fail(content.error);
      }
      response.content := content.value;
      outcome := Pass;
    }

    /**
     * A request without the module header or without a truthy term passes
     * through untouched.
     */
    lemma RequestIgnored(headers: Dict<string>, attributes: Dict<Value>, query: Dict<Value>, body: Dict<Value>)
      requires !Has(headers, AdminModuleHeader) || !Truthy(RequestParam(attributes, query, body, TermKey))
      ensures RequestEffect(headers, attributes, query, body) == (Pass, body)
    {
    }

    /**
     * A module request with a string term and no paging parameters is
     * resolved on the first page of 50 hits of the module's entity: the body
     * then carries those ids and the index's total in place of the term.
     */
    lemma DefaultPaging(headers: Dict<string>, attributes: Dict<Value>, query: Dict<Value>, body: Dict<Value>)
      requires DistinctKeys(body)
      requires Has(headers, AdminModuleHeader)
      requires RequestParam(attributes, query, body, TermKey).Str?
      requires TruthyString(RequestParam(attributes, query, body, TermKey).s)
      requires !Has(body, PageKey) && !Has(body, LimitKey)
      ensures var r := Resolved(RequestParam(attributes, query, body, TermKey).s, Get(headers, AdminModuleHeader), 1, 50);
        var (outcome, b) := RequestEffect(headers, attributes, query, body);
        && outcome == Pass
        && BagGet(b, IdsKey, Null) == StringList(r.ids) && BagGet(b, ElasticTotalKey, Null) == Int(r.total)
        && !Has(b, TermKey) && !Has(b, QueriesKey)
    {
      RemoveSpec(body, QueriesKey);
      RemoveSpec(Remove(body, QueriesKey), TermKey);
      var r := Resolved(RequestParam(attributes, query, body, TermKey).s, Get(headers, AdminModuleHeader), 1, 50);
      RewrittenSpec(body, r);
    }

    /**
     * Once a request has been resolved, the response's array `meta` reports
     * the total the index found for the term.
     */
    lemma ReportedTotal(body: Dict<Value>, r: TermResult, content: Value)
      requires DistinctKeys(body)
      requires content.Arr? && Has(content.entries, MetaKey) && Get(content.entries, MetaKey).Arr?
      ensures Has(Rewritten(body, r), ElasticTotalKey)
      ensures var c := WithTotal(content, Get(Rewritten(body, r), ElasticTotalKey));
        && c.Success? && c.value.Arr? && Has(c.value.entries, MetaKey) && Get(c.value.entries, MetaKey).Arr?
        && Has(Get(c.value.entries, MetaKey).entries, TotalKey)
        && Get(Get(c.value.entries, MetaKey).entries, TotalKey) == Int(r.total)
    {
      RewrittenSpec(body, r);
      WithTotalSpec(content, Int(r.total));
    }
  }
}
