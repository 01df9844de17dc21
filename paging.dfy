/** The page slice and page metadata that the listing services build once
    `getPagination` has produced `page`, `limit` and `skip`. */
module Paging {
  import opened Seqs

  datatype Meta = Meta(page: nat, limit: nat, total: nat, totalPages: nat)

  datatype Page<T> = Page(items: seq<T>, meta: Meta)

  /** `Math.ceil(total / limit) || 1`: the number of pages of `limit` items
      needed to hold `total` items, and 1 when there are none. */
  function TotalPages(total: nat, limit: nat): (n: nat)
    requires limit > 0
    ensures n >= 1
    ensures total == 0 ==> n == 1
    ensures total > 0 ==> (n - 1) * limit < total <= n * limit
  {
    if total == 0 then 1
    else
      var n := (total + limit - 1) / limit;
      assert total + limit - 1 == n * limit + (total + limit - 1) % limit;
      n
  }

  /** The page of `all` starting at `skip` with at most `limit` items, and
      its metadata. */
  function Paginate<T>(all: seq<T>, page: nat, limit: nat, skip: nat): (r: Page<T>)
    requires limit > 0
    ensures r.meta == Meta(page, limit, |all|, TotalPages(|all|, limit))
    ensures |r.items| == if skip >= |all| then 0 else if skip + limit <= |all| then limit else |all| - skip
    ensures forall i :: 0 <= i < |r.items| ==> skip + i < |all| && r.items[i] == all[skip + i]
  {
    Page(Slice(all, skip, limit), Meta(page, limit, |all|, TotalPages(|all|, limit)))
  }

  /** The worked example of the listing: 25 matching records, 10 per page,
      page 2 holds records 11 to 20 and there are 3 pages. */
  lemma SecondPageOfTwentyFive<T>(all: seq<T>)
    requires |all| == 25
    ensures Paginate(all, 2, 10, 10).meta.totalPages == 3
    ensures Paginate(all, 2, 10, 10).items == all[10..20]
  {
    var r := Paginate(all, 2, 10, 10);
    assert |r.items| == 10;
  }
}
