/**
 * Forward-only paging cursors: the key iterator an indexer's `getIterator`
 * returns (batches of primary keys, with an up-front `fetchCount`) and the
 * repository iterator the property resolver pages options with. A cursor
 * walks a fixed list in slices of `limit`; an empty slice means exhausted.
 */
module Paging {

  /** The successive non-empty pages a cursor over `items` hands out. */
  function Pages<T>(items: seq<T>, limit: nat): (pages: seq<seq<T>>)
    requires limit > 0
    ensures forall i :: 0 <= i < |pages| ==> 0 < |pages[i]| <= limit
    decreases |items|
  {
    if |items| == 0 then []
    else if |items| <= limit then [items]
    else [items[..limit]] + Pages(items[limit..], limit)
  }

  function Flatten<T>(pages: seq<seq<T>>): seq<T> {
    if pages == [] then [] else pages[0] + Flatten(pages[1..])
  }

  /** Sum of the page sizes: what the progress advances add up to. */
  function TotalSize<T>(pages: seq<seq<T>>): nat {
    if pages == [] then 0 else |pages[0]| + TotalSize(pages[1..])
  }

  lemma {:induction false} FlattenAppend<T>(a: seq<seq<T>>, b: seq<seq<T>>)
    ensures Flatten(a + b) == Flatten(a) + Flatten(b)
    ensures TotalSize(a + b) == TotalSize(a) + TotalSize(b)
  {
    if a != [] {
      assert (a + b)[1..] == a[1..] + b;
      FlattenAppend(a[1..], b);
    } else {
      assert a + b == b;
    }
  }

  lemma {:induction false} TotalSizeIsLength<T>(pages: seq<seq<T>>)
    ensures TotalSize(pages) == |Flatten(pages)|
  {
    if pages != [] {
      TotalSizeIsLength(pages[1..]);
    }
  }

  /**
   * Paging loses nothing and repeats nothing: the pages, in order, are the
   * items, so their sizes add up to the count reported up front.
   */
  lemma {:induction false} PagesCoverItems<T>(items: seq<T>, limit: nat)
    requires limit > 0
    ensures Flatten(Pages(items, limit)) == items
    ensures TotalSize(Pages(items, limit)) == |items|
    decreases |items|
  {
    if |items| == 0 {
    } else if |items| <= limit {
      assert Flatten(Pages(items, limit)) == items + Flatten<T>([]);
    } else {
      PagesCoverItems(items[limit..], limit);
      assert items == items[..limit] + items[limit..];
    }
    TotalSizeIsLength(Pages(items, limit));
  }

  /** Whatever a page holds is in the concatenation of the pages. */
  lemma {:induction false} FlattenMember<T>(pages: seq<seq<T>>, i: nat, x: T)
    requires i < |pages| && x in pages[i]
    ensures x in Flatten(pages)
  {
    if i > 0 {
      assert pages[1..][i - 1] == pages[i];
      FlattenMember(pages[1..], i - 1, x);
    }
  }

  /** A cursor over a fixed list of items, handing out `limit` at a time. */
  class PageCursor<T> {
    const items: seq<T>
    const limit: nat
    var offset: nat

    ghost predicate Valid()
      reads this
    {
      0 < limit && offset <= |items|
    }

    /** The items not yet handed out. */
    function Remaining(): seq<T>
      reads this
      requires Valid()
    {
      items[offset..]
    }

    constructor (items: seq<T>, limit: nat)
      requires limit > 0
      ensures Valid() && this.items == items && this.limit == limit && Remaining() == items
    {
      this.items := items;
      this.limit := limit;
      offset := 0;
    }

    /** `fetchCount()`: the total number of items, for progress reporting. */
    method FetchCount() returns (n: nat)
      requires Valid()
      ensures n == |items|
    {
      n := |items|;
    }

    /** `fetch()`: the next page, or an empty one once the cursor is exhausted. */
    method Fetch() returns (page: seq<T>)
      requires Valid()
      modifies this
      ensures Valid()
      ensures old(Remaining()) == page + Remaining()
      ensures old(Remaining()) == [] ==> page == [] && Remaining() == []
      ensures old(Remaining()) != [] ==>
        page != [] && Pages(old(Remaining()), limit) == [page] + Pages(Remaining(), limit)
    {
      var rest := items[offset..];
      if |rest| <= limit {
        page := rest;
        offset := |items|;
        assert Remaining() == [];
      } else {
        page := rest[..limit];
        offset := offset + limit;
        assert Remaining() == rest[limit..];
      }
    }
  }
}
