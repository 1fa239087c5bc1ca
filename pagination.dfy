/** Page-by-slice pagination of a result list, with Python's slice semantics. */
module Pagination {

  /** The immutable pagination metadata. */
  datatype PaginationInfo = PaginationInfo(total: int, count: int, offset: int, limit: int, hasMore: bool)

  /** A value of the dictionary `to_dict` returns. */
  datatype Field = IntField(i: int) | BoolField(b: bool)

  /** `to_dict`: exactly the five fields, under their source names. */
  function ToDict(p: PaginationInfo): (d: map<string, Field>)
    ensures d.Keys == {"total", "count", "offset", "limit", "has_more"}
    ensures d["total"] == IntField(p.total) && d["count"] == IntField(p.count)
    ensures d["offset"] == IntField(p.offset) && d["limit"] == IntField(p.limit)
    ensures d["has_more"] == BoolField(p.hasMore)
  {
    map["total" := IntField(p.total), "count" := IntField(p.count),
        "offset" := IntField(p.offset), "limit" := IntField(p.limit),
        "has_more" := BoolField(p.hasMore)]
  }

  /** A Python slice bound: negative counts from the end, then clamped to [0, n]. */
  function SliceBound(i: int, n: nat): (b: nat)
    ensures b <= n
    ensures 0 <= i <= n ==> b == i
    ensures i > n ==> b == n
  {
    if i < 0 then (if i + n < 0 then 0 else i + n)
    else if i > n then n
    else i
  }

  /** Python's `s[lo:hi]`. */
  function PySlice<T>(s: seq<T>, lo: int, hi: int): (r: seq<T>)
    ensures |r| <= |s|
  {
    var a := SliceBound(lo, |s|);
    var b := SliceBound(hi, |s|);
    if a < b then s[a..b] else []
  }

  /** `paginate_results(items, limit, offset)`: the page `items[offset:offset+limit]`
      and its metadata. */
  function Paginate<T>(items: seq<T>, limit: int, offset: int := 0): (r: (seq<T>, PaginationInfo))
    ensures r.1.total == |items| && r.1.count == |r.0|
    ensures r.1.offset == offset && r.1.limit == limit
    ensures r.1.hasMore <==> offset + limit < |items|
  {
    var page := PySlice(items, offset, offset + limit);
    (page, PaginationInfo(|items|, |page|, offset, limit, offset + limit < |items|))
  }

  function Min(a: int, b: int): int {
    if a < b then a else b
  }

  /** For a non-negative offset and limit the page is the run of items from
      `offset` up to `offset + limit` or the end, whichever comes first; it
      is empty when the offset is at or past the end, and never longer than
      the limit. */
  lemma PageIsWindow<T>(items: seq<T>, limit: int, offset: int)
    requires offset >= 0 && limit >= 0
    ensures offset < |items| ==>
      Paginate(items, limit, offset).0 == items[offset..Min(offset + limit, |items|)]
    ensures offset >= |items| ==> Paginate(items, limit, offset).0 == []
    ensures Paginate(items, limit, offset).1.count <= limit
  {
    var b := SliceBound(offset + limit, |items|);
    assert b == Min(offset + limit, |items|);
  }

  /** The pages of consecutive windows concatenate to the items they cover. */
  lemma {:induction false} ConsecutivePages<T>(items: seq<T>, limit: int, offset: int)
    requires 0 <= offset && 0 <= limit && offset + 2 * limit <= |items|
    ensures Paginate(items, limit, offset).0 + Paginate(items, limit, offset + limit).0
         == items[offset..offset + 2 * limit]
  {
    PageIsWindow(items, limit, offset);
    PageIsWindow(items, limit, offset + limit);
    if limit == 0 {
      assert Paginate(items, limit, offset).0 == [];
    } else {
      assert offset < |items| && offset + limit < |items|;
      assert items[offset..offset + 2 * limit]
          == items[offset..offset + limit] + items[offset + limit..offset + 2 * limit];
    }
  }
}
