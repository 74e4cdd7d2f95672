/**
 * The property entities the listing resolvers load: options, the rows a
 * group repository returns, and the group entities hydrated from them.
 */
module Properties {
  import opened Wrappers

  /** A property option with the group it belongs to. */
  datatype PropertyOption = PropertyOption(id: string, groupId: string)

  /** A property group as its repository finds it, with its options when they were loaded. */
  datatype GroupRow = GroupRow(id: string, options: Option<seq<PropertyOption>>)

  /**
   * A hydrated property group entity. The listing option ids are the only
   * state set on it after loading.
   */
  class PropertyGroup {
    const id: string
    const options: Option<seq<PropertyOption>>
    var listingOptionIds: seq<string>

    constructor (row: GroupRow)
      ensures id == row.id && options == row.options && listingOptionIds == []
    {
      id := row.id;
      options := row.options;
      listingOptionIds := [];
    }
  }

  /** The ids of a list of rows, in order. */
  function RowIds(rows: seq<GroupRow>): seq<string> {
    seq(|rows|, i requires 0 <= i < |rows| => rows[i].id)
  }

  /**
   * A repository search hydrates a fresh entity per row, in row order.
   */
  method Hydrate(rows: seq<GroupRow>) returns (groups: seq<PropertyGroup>)
    ensures |groups| == |rows|
    ensures forall i :: 0 <= i < |rows| ==>
      fresh(groups[i]) && groups[i].id == rows[i].id && groups[i].options == rows[i].options
    ensures forall g :: g in groups ==> g.listingOptionIds == []
  {
    groups := [];
    for i := 0 to |rows|
      invariant |groups| == i
      invariant forall j :: 0 <= j < i ==>
        fresh(groups[j]) && groups[j].id == rows[j].id && groups[j].options == rows[j].options
      invariant forall g :: g in groups ==> g.listingOptionIds == []
    {
      var group := new PropertyGroup(rows[i]);
      groups := groups + [group];
    }
  }
}
