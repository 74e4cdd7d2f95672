/**
 * The loader behind the listing's property filter: the options of one
 * property group, with their media, or an error naming the group.
 */
module PropertyListing {
  import opened Wrappers
  import opened Dal
  import opened Properties

  const LoaderTitle: string := "product-listing::property-loader"
  const OptionsMediaAssociation: string := "options.media"

  /** The two runtime exceptions `load` raises, each naming the requested group. */
  datatype LoaderError = GroupNotFound(groupId: string) | NoOptions(groupId: string)

  const MessagePrefix: string := "Property group with id \""
  const NotFoundSuffix: string := "\" not found"
  const NoOptionsSuffix: string := "\" has no options"

  function Suffix(e: LoaderError): string {
    if e.GroupNotFound? then NotFoundSuffix else NoOptionsSuffix
  }

  /** The exception's message, `sprintf`'d with the group's id. */
  function Message(e: LoaderError): string {
    MessagePrefix + e.groupId + Suffix(e)
  }

  /** The parts of a three-part concatenation. */
  lemma ConcatParts<T>(a: seq<T>, b: seq<T>, c: seq<T>)
    ensures (a + b + c)[..|a|] == a
    ensures (a + b + c)[|a|..|a| + |b|] == b
    ensures (a + b + c)[|a| + |b|..] == c
  {
  }

  /**
   * Both messages quote the requested group's id right after the same
   * prefix, and their endings tell the two cases apart.
   */
  lemma MessageNamesGroup(e: LoaderError)
    ensures Message(e)[..|MessagePrefix|] == MessagePrefix
    ensures Message(e)[|MessagePrefix|..|MessagePrefix| + |e.groupId|] == e.groupId
    ensures Message(e)[|MessagePrefix| + |e.groupId|..] == Suffix(e)
    ensures NotFoundSuffix != NoOptionsSuffix
  {
    ConcatParts(MessagePrefix, e.groupId, Suffix(e));
    assert |NotFoundSuffix| != |NoOptionsSuffix|;
  }

  /** The criteria `load` searches with. */
  function LoaderCriteria(groupId: string): Criteria {
    Criteria([groupId], [], [OptionsMediaAssociation], [], Some(LoaderTitle), None, [])
  }

  /**
   * The loader with its collaborators: the group repository and the
   * collection's `sortByConfig`, which orders the groups and their options.
   */
  datatype PropertyListingLoader = PropertyListingLoader(
    repository: Criteria -> seq<GroupRow>,
    sortByConfig: seq<GroupRow> -> seq<GroupRow>)
  {
    /** The groups found for `groupId`, after `sortByConfig`. */
    function Found(groupId: string): seq<GroupRow> {
      sortByConfig(repository(LoaderCriteria(groupId)))
    }

    /**
     * `load`: the options of the first group found. No group is an error,
     * a group whose options were not loaded is another, and an empty
     * option list is a valid answer.
     */
    function Load(groupId: string): (r: Result<seq<PropertyOption>, LoaderError>)
      ensures r.Failure? ==> r.error.groupId == groupId
      ensures r == Failure(GroupNotFound(groupId)) <==> Found(groupId) == []
      ensures r == Failure(NoOptions(groupId)) <==> Found(groupId) != [] && Found(groupId)[0].options.None?
      ensures r.Success? <==> Found(groupId) != [] && Found(groupId)[0].options.Some?
      ensures r.Success? ==> Some(r.value) == Found(groupId)[0].options
    {
      var groups := sortByConfig(repository(LoaderCriteria(groupId)));
      var group := if groups == [] then None else Some(groups[0]);
      if group.None? then Failure(GroupNotFound(groupId))
      else if group.value.options.None? then Failure(NoOptions(groupId))
      else Success(group.value.options.value)
    }
  }

  /** `load` searches for exactly the one requested group, with its options' media. */
  lemma LoaderCriteriaShape(groupId: string)
    ensures LoaderCriteria(groupId).ids == [groupId]
    ensures LoaderCriteria(groupId).associations == [OptionsMediaAssociation]
    ensures LoaderCriteria(groupId).filters == []
  {
  }
}
