/** The pages of findAll() (api-gateway/src/applications/applications.service.ts:345, 400-437). */
module Paging {
  import opened Numbers

  /** findMany() with skip and take, over a fixed order of the filtered rows. */
  function Page<T>(rows: seq<T>, page: nat, limit: nat): seq<T>
    requires page >= 1 && limit >= 1
  {
    var skip := (page - 1) * limit;
    if skip >= |rows| then [] else rows[skip..Min(skip + limit, |rows|)]
  }

  /** Math.ceil(total / limit). */
  function TotalPages(total: nat, limit: nat): (pages: nat)
    requires limit >= 1
    ensures pages * limit >= total
    ensures pages > 0 ==> (pages - 1) * limit < total
  {
    var pages := (total + limit - 1) / limit;
    assert pages * limit + (total + limit - 1) % limit == total + limit - 1;
    pages
  }

  function Pages<T>(rows: seq<T>, upTo: nat, limit: nat): seq<T>
    requires limit >= 1
  {
    if upTo == 0 then [] else Pages(rows, upTo - 1, limit) + Page(rows, upTo, limit)
  }

  lemma {:induction false} PagesAreAPrefix<T>(rows: seq<T>, upTo: nat, limit: nat)
    requires limit >= 1
    ensures Pages(rows, upTo, limit) == rows[..Min(upTo * limit, |rows|)]
  {
    if upTo > 0 {
      PagesAreAPrefix(rows, upTo - 1, limit);
      assert upTo * limit == (upTo - 1) * limit + limit;
    }
  }

  /** Pages 1 to totalPages, one after the other, are exactly the rows; any later page is empty. */
  lemma PagesPartitionTheRows<T>(rows: seq<T>, limit: nat, beyond: nat)
    requires limit >= 1 && beyond > TotalPages(|rows|, limit)
    ensures Pages(rows, TotalPages(|rows|, limit), limit) == rows
    ensures Page(rows, beyond, limit) == []
  {
    var total := TotalPages(|rows|, limit);
    PagesAreAPrefix(rows, total, limit);
    Grows(total, beyond - 1, limit);
  }

  lemma Grows(a: nat, b: nat, limit: nat)
    requires a <= b
    ensures a * limit <= b * limit
  {
  }
}
