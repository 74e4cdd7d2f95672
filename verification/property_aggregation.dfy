/**
 * The listing's property aggregation resolver. It reads the option ids the
 * `options` and `properties` term aggregations found, loads the filterable
 * property groups those options belong to (or, on the unused path, every
 * such option page by page), records on each group which of its options
 * occurred, and replaces the id aggregations by one `properties` entity
 * result.
 */
module PropertyAggregation {
  import opened Wrappers
  import opened PhpArray
  import opened Dal
  import opened Paging
  import opened Properties

  const PropertiesKey: string := "properties"
  const OptionsKey: string := "options"
  const ConfiguratorsKey: string := "configurators"

  /** `loadAll`'s page size and the titles of the two searches. */
  const OptionPageSize: nat := 500
  const OptionFilterTitle: string := "product-listing::property-filter"
  const GroupFilterTitle: string := "product-listing::property-group-filter"

  /** An aggregation result: term keys, loaded groups, or any other kind. */
  datatype Aggregation = TermsResult(keys: seq<string>) | EntityResult(groups: seq<PropertyGroup>) | OtherResult

  /** A listing filter of the request, with the values selected for it. */
  datatype ListingFilter = ListingFilter(values: seq<string>)

  /** The criteria's `filters` extension: a `FilterCollection` or some other struct. */
  datatype Extension = FilterCollection(filters: Dict<ListingFilter>) | OtherExtension

  /** `getKeys()` called on an aggregation that is not a terms result. */
  datatype ResolverError = UndefinedMethod

  /** `$aggregations->get($name)` read as a terms result: no keys when it is missing. */
  function TermKeys(aggs: Dict<Aggregation>, name: string): Result<seq<string>, ResolverError> {
    if !Has(aggs, name) then Success([])
    else
      match Get(aggs, name)
      case TermsResult(keys) => Success(keys)
      case _ => Failure(UndefinedMethod)
  }

  /** `collectOptionIds`: the keys of `options` then of `properties`, falsy ones dropped, first occurrences kept. */
  function CollectOptionIds(aggs: Dict<Aggregation>): Result<seq<string>, ResolverError> {
    var options := TermKeys(aggs, OptionsKey);
    var properties := TermKeys(aggs, PropertiesKey);
    if options.Failure? then Failure(options.error)
    else if properties.Failure? then Failure(properties.error)
    else Success(Unique(FilterTruthy(options.value + properties.value)))
  }

  /**
   * The collected ids are the truthy keys of the two aggregations, each
   * once, in the order in which they first occur among the option keys and
   * then the property keys; collecting fails exactly when one of them is
   * present but is not a terms result.
   */
  lemma CollectedOptionIds(aggs: Dict<Aggregation>)
    ensures CollectOptionIds(aggs).Success?
      <==> TermKeys(aggs, OptionsKey).Success? && TermKeys(aggs, PropertiesKey).Success?
    ensures CollectOptionIds(aggs).Success? ==>
      var ids := CollectOptionIds(aggs).value;
      var keys := TermKeys(aggs, OptionsKey).value + TermKeys(aggs, PropertiesKey).value;
      && Distinct(ids)
      && (forall x :: x in ids <==> TruthyString(x) && x in keys)
      && forall i, j :: 0 <= i < j < |ids| ==> FirstIndex(keys, ids[i]) < FirstIndex(keys, ids[j])
  {
    if CollectOptionIds(aggs).Success? {
      var keys := TermKeys(aggs, OptionsKey).value + TermKeys(aggs, PropertiesKey).value;
      var truthy := FilterTruthy(keys);
      var ids := Unique(truthy);
      UniqueOrder(truthy);
      forall i, j | 0 <= i < j < |ids| ensures FirstIndex(keys, ids[i]) < FirstIndex(keys, ids[j]) {
        FilterTruthyOrder(keys, ids[i], ids[j]);
      }
    }
  }

  /** `$mapping[$groupId] ?? []`. */
  function ListingIds(mapping: Dict<seq<string>>, groupId: string): seq<string> {
    if Has(mapping, groupId) then Get(mapping, groupId) else []
  }

  /** `loadGroups`' mapping: the option→group rows turned into group→options. */
  function Inverted(rows: Dict<string>): Dict<seq<string>> {
    if rows == [] then []
    else
      var m := Inverted(rows[..|rows| - 1]);
      var option, group := rows[|rows| - 1].key, rows[|rows| - 1].value;
      Set(m, group, ListingIds(m, group) + [option])
  }

  /** The options whose row names `group`, in row order. */
  function OptionsOf(rows: Dict<string>, group: string): seq<string> {
    if rows == [] then []
    else
      var last := rows[|rows| - 1];
      OptionsOf(rows[..|rows| - 1], group) + (if last.value == group then [last.key] else [])
  }

  /**
   * The mapping holds a group exactly when some row names it, and lists
   * that group's options in row order.
   */
  lemma {:induction false} InvertedSpec(rows: Dict<string>, group: string)
    ensures ListingIds(Inverted(rows), group) == OptionsOf(rows, group)
    ensures Has(Inverted(rows), group) <==> OptionsOf(rows, group) != []
  {
    if rows != [] {
      var init := rows[..|rows| - 1];
      var option, g := rows[|rows| - 1].key, rows[|rows| - 1].value;
      var m := Inverted(init);
      InvertedSpec(init, group);
      InvertedSpec(init, g);
      SetSpec(m, g, ListingIds(m, g) + [option]);
    }
  }

  /** An option is listed under a group exactly when its row names that group. */
  lemma {:induction false} OptionsOfMember(rows: Dict<string>, group: string, option: string)
    requires DistinctKeys(rows)
    ensures option in OptionsOf(rows, group) <==> Has(rows, option) && Get(rows, option) == group
  {
    if rows != [] {
      var init := rows[..|rows| - 1];
      DictSnoc(rows);
      OptionsOfMember(init, group, option);
    }
  }

  /**
   * Each option of the rows appears in the list of its own group and in no
   * other group's list.
   */
  lemma ExactlyOneGroup(rows: Dict<string>, option: string, group: string)
    requires DistinctKeys(rows) && Has(rows, option)
    ensures option in ListingIds(Inverted(rows), group) <==> group == Get(rows, option)
  {
    InvertedSpec(rows, group);
    OptionsOfMember(rows, group, option);
  }

  /**
   * What `fetchAllKeyValue` of the option→group query guarantees: a PHP
   * array, so each option id is a key once, and `WHERE id IN (:ids)` lets
   * only requested option ids through (`LOWER(HEX(id))` prints them as the
   * lowercase hex they were requested in).
   */
  predicate OptionGroupsSound(rows: Dict<string>, ids: seq<string>) {
    DistinctKeys(rows) && forall i :: 0 <= i < |rows| ==> rows[i].key in ids
  }

  /** Every requested option, once, in a single group. */
  function UnderOneGroup(ids: seq<string>, group: string): Dict<string> {
    var u := Unique(ids);
    seq(|u|, i requires 0 <= i < |u| => Entry(u[i], group))
  }

  /**
   * The guarantee constrains the answer, not the data: for any requested
   * ids some answer meets it and places every one of them in a group.
   */
  lemma OptionGroupsSoundExists(ids: seq<string>, group: string)
    ensures OptionGroupsSound(UnderOneGroup(ids, group), ids)
    ensures forall o :: o in ids ==> Has(UnderOneGroup(ids, group), o)
  {
    var rows := UnderOneGroup(ids, group);
    assert Keys(rows) == Unique(ids);
  }

  /**
   * Under the query's guarantee a group lists exactly the requested options
   * whose row names it: only collected ids, and each under its own group.
   */
  lemma ListedOptions(rows: Dict<string>, ids: seq<string>, group: string, option: string)
    requires OptionGroupsSound(rows, ids)
    ensures option in ListingIds(Inverted(rows), group) <==>
      option in ids && Has(rows, option) && Get(rows, option) == group
  {
    InvertedSpec(rows, group);
    OptionsOfMember(rows, group, option);
  }

  /** Starting a group's list and appending its first option is setting the one-element list. */
  lemma FirstOption(mapping: Dict<seq<string>>, group: string, option: string)
    requires !Has(mapping, group)
    ensures Has(Set(mapping, group, []), group)
    ensures Set(Set(mapping, group, []), group, Get(Set(mapping, group, []), group) + [option])
      == Set(mapping, group, ListingIds(mapping, group) + [option])
  {
    SetSpec(mapping, group, []);
    SetTwice(mapping, group, [], [option]);
    assert Get(Set(mapping, group, []), group) + [option] == [option];
    assert ListingIds(mapping, group) + [option] == [option];
  }

  /** The mapping loop of `loadGroups`. */
  method InvertRows(rows: Dict<string>) returns (mapping: Dict<seq<string>>)
    ensures mapping == Inverted(rows)
  {
    mapping := [];
    for i := 0 to |rows|
      invariant mapping == Inverted(rows[..i])
    {
      var optionId, groupId := rows[i].key, rows[i].value;
      assert rows[..i + 1][..i] == rows[..i];
      if !Has(mapping, groupId) {
        FirstOption(mapping, groupId, optionId);
        mapping := Set(mapping, groupId, []);
      }
      mapping := Set(mapping, groupId, Get(mapping, groupId) + [optionId]);
    }
    assert rows[..|rows|] == rows;
  }

  /** The filter on the selected property values `addSelected` puts on the `options` association, if any. */
  predicate Selects(filters: Option<Extension>) {
    && filters.Some? && filters.value.FilterCollection?
    && Has(filters.value.filters, PropertiesKey)
    && Get(filters.value.filters, PropertiesKey).values != []
  }

  /** `addSelected`. */
  function AddSelected(filters: Option<Extension>, criteria: Criteria): Criteria {
    if filters.None? || !filters.value.FilterCollection? then criteria
    else if !Has(filters.value.filters, PropertiesKey) then criteria
    else
      var selected := Get(filters.value.filters, PropertiesKey).values;
      if selected != [] then criteria.(optionsFilters := criteria.optionsFilters + [EqualsAny("id", selected)])
      else criteria
  }

  /**
   * `addSelected` changes nothing but the `options` association's filters,
   * and adds exactly one id filter on the selected values when a filter
   * collection selects some properties, none otherwise.
   */
  lemma AddSelectedSpec(filters: Option<Extension>, criteria: Criteria)
    ensures AddSelected(filters, criteria).(optionsFilters := criteria.optionsFilters) == criteria
    ensures Selects(filters) ==>
      AddSelected(filters, criteria).optionsFilters
      == criteria.optionsFilters + [EqualsAny("id", Get(filters.value.filters, PropertiesKey).values)]
    ensures !Selects(filters) ==> AddSelected(filters, criteria) == criteria
  {
  }

  /** The criteria of `loadGroups`' group search. */
  function GroupCriteria(ids: seq<string>, filters: Option<Extension>): Criteria {
    var criteria := Criteria([], [EqualsAny("options.id", ids), Equals("filterable", true)], [], [], None, None, []);
    AddSelected(filters, criteria).(title := Some(GroupFilterTitle))
  }

  /** The criteria of `loadAll`'s option search. */
  function OptionCriteria(ids: seq<string>): Criteria {
    Criteria(ids, [Equals("group.filterable", true)], ["group", "media"], [], Some(OptionFilterTitle),
      Some(OptionPageSize), [Ascending("id")])
  }

  /** The aggregations once the id results are replaced by the loaded groups. */
  function Replaced(aggs: Dict<Aggregation>, groups: seq<PropertyGroup>): Dict<Aggregation> {
    Set(Remove(Remove(Remove(aggs, PropertiesKey), ConfiguratorsKey), OptionsKey), PropertiesKey, EntityResult(groups))
  }

  lemma AggregationKeysDistinct()
    ensures Distinct([PropertiesKey, ConfiguratorsKey, OptionsKey])
  {
  }

  /**
   * After the replacement `configurators` and `options` are gone,
   * `properties` is the last entry and holds the groups, and every other
   * aggregation is kept as it was.
   */
  lemma ReplacedSpec(aggs: Dict<Aggregation>, groups: seq<PropertyGroup>)
    requires DistinctKeys(aggs)
    ensures var r := Replaced(aggs, groups);
      && DistinctKeys(r)
      && r != [] && r[|r| - 1] == Entry(PropertiesKey, EntityResult(groups))
      && Has(r, PropertiesKey) && Get(r, PropertiesKey) == EntityResult(groups)
      && !Has(r, ConfiguratorsKey) && !Has(r, OptionsKey)
      && (forall k :: k != PropertiesKey && k != ConfiguratorsKey && k != OptionsKey ==>
            (Has(r, k) <==> Has(aggs, k)) && (Has(aggs, k) ==> Get(r, k) == Get(aggs, k)))
  {
    AggregationKeysDistinct();
    var s1 := Remove(aggs, PropertiesKey);
    var s2 := Remove(s1, ConfiguratorsKey);
    var s3 := Remove(s2, OptionsKey);
    RemoveSpec(aggs, PropertiesKey);
    RemoveSpec(s1, ConfiguratorsKey);
    RemoveSpec(s2, OptionsKey);
    SetSpec(s3, PropertiesKey, EntityResult(groups));
    SetAppend(s3, PropertiesKey, EntityResult(groups));
  }

  /** The options `EntityCollection::merge` keeps: an option whose id is already there is skipped. */
  function Merged(merged: Dict<PropertyOption>, options: seq<PropertyOption>): Dict<PropertyOption> {
    if options == [] then merged
    else
      var m := Merged(merged, options[..|options| - 1]);
      var option := options[|options| - 1];
      if Has(m, option.id) then m else Set(m, option.id, option)
  }

  /** Merging page by page is merging their concatenation. */
  lemma {:induction false} MergedAppend(merged: Dict<PropertyOption>, a: seq<PropertyOption>, b: seq<PropertyOption>)
    ensures Merged(merged, a + b) == Merged(Merged(merged, a), b)
    decreases |b|
  {
    if b == [] {
      assert a + b == a;
    } else {
      var init := b[..|b| - 1];
      assert (a + b)[..|a + b| - 1] == a + init;
      assert (a + b)[|a + b| - 1] == b[|b| - 1];
      MergedAppend(merged, a, init);
    }
  }

  function OptionIds(options: seq<PropertyOption>): seq<string> {
    seq(|options|, i requires 0 <= i < |options| => options[i].id)
  }

  /** The merged collection holds each option id once, in order of first appearance. */
  lemma {:induction false} MergedKeys(options: seq<PropertyOption>)
    ensures DistinctKeys(Merged([], options))
    ensures Keys(Merged([], options)) == Unique(OptionIds(options))
  {
    if options != [] {
      var init, last := options[..|options| - 1], options[|options| - 1];
      var ids := OptionIds(options);
      MergedKeys(init);
      SetSpec(Merged([], init), last.id, last);
      assert ids[..|ids| - 1] == OptionIds(init);
      assert ids[|ids| - 1] == last.id;
    }
  }

  /** The option kept under an id is the first one with that id. */
  lemma {:induction false} MergedFirst(options: seq<PropertyOption>, i: nat)
    requires i < |options|
    requires forall j :: 0 <= j < i ==> options[j].id != options[i].id
    ensures Has(Merged([], options), options[i].id) && Get(Merged([], options), options[i].id) == options[i]
  {
    var init, last := options[..|options| - 1], options[|options| - 1];
    var m := Merged([], init);
    if i < |init| {
      assert init[i] == options[i];
      MergedFirst(init, i);
      if !Has(m, last.id) {
        SetSpec(m, last.id, last);
      }
    } else {
      MergedKeys(init);
      assert !Has(m, last.id) by {
        forall j | 0 <= j < |init| ensures OptionIds(init)[j] != last.id {
          assert init[j] == options[j];
        }
      }
      SetSpec(m, last.id, last);
    }
  }

  /** `EntityCollection::merge` of one page. */
  method MergePage(merged: Dict<PropertyOption>, page: seq<PropertyOption>) returns (r: Dict<PropertyOption>)
    ensures r == Merged(merged, page)
  {
    r := merged;
    for i := 0 to |page|
      invariant r == Merged(merged, page[..i])
    {
      assert page[..i + 1][..i] == page[..i];
      if !Has(r, page[i].id) {
        r := Set(r, page[i].id, page[i]);
      }
    }
    assert page[..|page|] == page;
  }

  /** `loadAll`'s loop: merge every page the iterator hands out until it returns none. */
  method MergeAll(cursor: PageCursor<PropertyOption>) returns (merged: Dict<PropertyOption>)
    requires cursor.Valid()
    modifies cursor
    ensures merged == Merged([], old(cursor.Remaining()))
  {
    merged := [];
    var page := cursor.Fetch();
    while page != []
      invariant cursor.Valid()
      invariant Merged(merged, page + cursor.Remaining()) == Merged([], old(cursor.Remaining()))
      invariant page == [] ==> cursor.Remaining() == []
      decreases |page| + |cursor.Remaining()|
    {
      MergedAppend(merged, page, cursor.Remaining());
      merged := MergePage(merged, page);
      page := cursor.Fetch();
    }
    assert page + cursor.Remaining() == [];
  }

  /** Sets each group's listing option ids from the mapping. */
  method AttachListingOptionIds(groups: seq<PropertyGroup>, mapping: Dict<seq<string>>)
    modifies set g | g in groups
    ensures forall g :: g in groups ==> g.listingOptionIds == ListingIds(mapping, g.id)
  {
    for i := 0 to |groups|
      invariant forall j :: 0 <= j < i ==> groups[j].listingOptionIds == ListingIds(mapping, groups[j].id)
    {
      groups[i].listingOptionIds := ListingIds(mapping, groups[i].id);
    }
    assert forall g :: g in groups ==> exists j :: 0 <= j < |groups| && groups[j] == g;
  }

  /**
   * Each group lists exactly the requested options whose row names it, so
   * every listed id was collected and an option sits under its own group
   * and no other.
   */
  ghost predicate ListsOwnOptions(groups: seq<PropertyGroup>, rows: Dict<string>, ids: seq<string>)
    reads set g | g in groups
  {
    forall g, o :: g in groups ==>
      (o in g.listingOptionIds <==> o in ids && Has(rows, o) && Get(rows, o) == g.id)
  }

  /** Groups given the mapping of query rows that meet the guarantee list their own options. */
  lemma GroupsListOwnOptions(groups: seq<PropertyGroup>, rows: Dict<string>, ids: seq<string>)
    requires OptionGroupsSound(rows, ids)
    requires forall g :: g in groups ==> g.listingOptionIds == ListingIds(Inverted(rows), g.id)
    ensures ListsOwnOptions(groups, rows, ids)
  {
    forall g, o | g in groups
      ensures o in g.listingOptionIds <==> o in ids && Has(rows, o) && Get(rows, o) == g.id
    {
      ListedOptions(rows, ids, g.id, o);
    }
  }

  /** A listing search result whose aggregations the resolver rewrites. */
  class ListingResult {
    /** `getCriteria()->getExtension('filters')`. */
    const filters: Option<Extension>
    var aggregations: Dict<Aggregation>

    constructor (filters: Option<Extension>, aggregations: Dict<Aggregation>)
      ensures this.filters == filters && this.aggregations == aggregations
    {
      this.filters := filters;
      this.aggregations := aggregations;
    }
  }

  class PropertyAggregationResolver {
    /** Whether groups are loaded on demand; the constructor fixes it to true. */
    const onDemand: bool
    /** `fetchAllKeyValue` of the option→group query for these option ids. */
    const optionGroups: seq<string> -> Dict<string>
    /** The option repository: every option matching the criteria, in the criteria's order. */
    const optionRepository: Criteria -> seq<PropertyOption>
    /** The group repository: every group matching the criteria. */
    const groupRepository: Criteria -> seq<GroupRow>
    /** `groupByPropertyGroups`, `sortByPositions` and `sortByConfig` on group collections. */
    const groupByPropertyGroups: seq<PropertyOption> -> seq<GroupRow>
    const sortByPositions: seq<GroupRow> -> seq<GroupRow>
    const sortByConfig: seq<GroupRow> -> seq<GroupRow>

    constructor (optionGroups: seq<string> -> Dict<string>, optionRepository: Criteria -> seq<PropertyOption>,
                 groupRepository: Criteria -> seq<GroupRow>, groupByPropertyGroups: seq<PropertyOption> -> seq<GroupRow>,
                 sortByPositions: seq<GroupRow> -> seq<GroupRow>, sortByConfig: seq<GroupRow> -> seq<GroupRow>)
      ensures onDemand
      ensures this.optionGroups == optionGroups && this.optionRepository == optionRepository
      ensures this.groupRepository == groupRepository && this.groupByPropertyGroups == groupByPropertyGroups
      ensures this.sortByPositions == sortByPositions && this.sortByConfig == sortByConfig
    {
      this.optionGroups := optionGroups;
      this.optionRepository := optionRepository;
      onDemand := true;
      this.groupRepository := groupRepository;
      this.groupByPropertyGroups := groupByPropertyGroups;
      this.sortByPositions := sortByPositions;
      this.sortByConfig := sortByConfig;
    }

    /** The groups `loadGroups` loads, in position order. */
    function GroupRows(ids: seq<string>, filters: Option<Extension>): seq<GroupRow> {
      sortByPositions(groupRepository(GroupCriteria(ids, filters)))
    }

    /** The groups `loadAll` builds from every option it pages through. */
    function AllRows(ids: seq<string>): seq<GroupRow> {
      sortByConfig(sortByPositions(groupByPropertyGroups(Values(Merged([], optionRepository(OptionCriteria(ids)))))))
    }

    /** The groups are hydrated from `rows`, one per row in row order. */
    ghost predicate HydratedFrom(groups: seq<PropertyGroup>, rows: seq<GroupRow>) {
      |groups| == |rows| && forall i :: 0 <= i < |rows| ==> groups[i].id == rows[i].id
    }

    /**
     * `loadGroups`: each loaded group gets the options of its group among
     * the collected ids, and the groups replace the id aggregations.
     */
    method LoadGroups(ids: seq<string>, result: ListingResult) returns (groups: seq<PropertyGroup>)
      modifies result
      ensures result.aggregations == Replaced(old(result.aggregations), groups)
      ensures HydratedFrom(groups, GroupRows(ids, result.filters))
      ensures forall g :: g in groups ==> fresh(g)
      ensures forall g :: g in groups ==> g.listingOptionIds == ListingIds(Inverted(optionGroups(ids)), g.id)
    {
      var tmp := optionGroups(ids);
      var mapping := InvertRows(tmp);
      var criteria := Criteria([], [EqualsAny("options.id", ids), Equals("filterable", true)], [], [], None, None, []);
      criteria := AddSelected(result.filters, criteria);
      criteria := criteria.(title := Some(GroupFilterTitle));
      groups := Hydrate(sortByPositions(groupRepository(criteria)));
      AttachListingOptionIds(groups, mapping);
      var aggregations := result.aggregations;
      aggregations := Remove(aggregations, PropertiesKey);
      aggregations := Remove(aggregations, ConfiguratorsKey);
      aggregations := Remove(aggregations, OptionsKey);
      result.aggregations := Set(aggregations, PropertiesKey, EntityResult(groups));
    }

    /** `loadAll`: every filterable option of the ids, grouped, replaces the id aggregations. */
    method LoadAll(ids: seq<string>, result: ListingResult) returns (groups: seq<PropertyGroup>)
      modifies result
      ensures result.aggregations == Replaced(old(result.aggregations), groups)
      ensures HydratedFrom(groups, AllRows(ids))
      ensures forall g :: g in groups ==> fresh(g)
    {
      var criteria := OptionCriteria(ids);
      var repositoryIterator := new PageCursor(optionRepository(criteria), criteria.limit.value);
      var merged := MergeAll(repositoryIterator);
      var grouped := groupByPropertyGroups(Values(merged));
      grouped := sortByPositions(grouped);
      grouped := sortByConfig(grouped);
      groups := Hydrate(grouped);
      var aggregations := result.aggregations;
      aggregations := Remove(aggregations, PropertiesKey);
      aggregations := Remove(aggregations, ConfiguratorsKey);
      aggregations := Remove(aggregations, OptionsKey);
      result.aggregations := Set(aggregations, PropertiesKey, EntityResult(groups));
    }

    /**
     * `resolve`: nothing changes when collecting fails or finds no id;
     * otherwise the id aggregations are replaced by the groups loaded on
     * the path `onDemand` selects.
     */
    method Resolve(result: ListingResult) returns (outcome: Outcome<ResolverError>, groups: seq<PropertyGroup>)
      modifies result
      ensures var ids := CollectOptionIds(old(result.aggregations));
        && (ids.Failure? ==> outcome == Fail(ids.error) && result.aggregations == old(result.aggregations))
        && (ids.Success? && ids.value == [] ==> outcome == Pass && result.aggregations == old(result.aggregations))
        && (ids.Success? && ids.value != [] ==>
              && outcome == Pass
              && result.aggregations == Replaced(old(result.aggregations), groups)
              && (forall g :: g in groups ==> fresh(g))
              && (onDemand ==>
                    && HydratedFrom(groups, GroupRows(ids.value, result.filters))
                    && (forall g :: g in groups ==> g.listingOptionIds == ListingIds(Inverted(optionGroups(ids.value)), g.id))
                    && (OptionGroupsSound(optionGroups(ids.value), ids.value) ==>
                          ListsOwnOptions(groups, optionGroups(ids.value), ids.value)))
              && (!onDemand ==> HydratedFrom(groups, AllRows(ids.value))))
    {
      groups := [];
      var ids := CollectOptionIds(result.aggregations);
      if ids.Failure? {
        return Fail(ids.error), groups;
      }
      if ids.value == [] {
        return Pass, groups;
      }
      if onDemand {
        groups := LoadGroups(ids.value, result);
        if OptionGroupsSound(optionGroups(ids.value), ids.value) {
          GroupsListOwnOptions(groups, optionGroups(ids.value), ids.value);
        }
        return Pass, groups;
      }
      groups := LoadAll(ids.value, result);
      outcome := Pass;
    }
  }
}
