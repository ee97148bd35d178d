/** The shop-type list cache: a Redis list read through a ten-element window, filled from the
    table ordered by `sort` when the window comes back empty. */
module ShopTypeCache {
  import opened Wrappers
  import opened Json

  /** A row of the shop-type table: its `sort` column orders the list; the other columns are
      opaque here. */
  datatype ShopType = ShopType(sort: int, columns: string)

  /** LRANGE key 0 9: the first ten elements, or all of them when there are fewer. */
  function Window(list: seq<string>): (w: seq<string>)
    ensures |w| <= 10 && |w| <= |list|
    ensures w == list[..|w|]
    ensures |w| == 10 || w == list
  {
    if |list| <= 10 then list else list[..10]
  }

  predicate SortedBySort(xs: seq<ShopType>)
  {
    forall i, j | 0 <= i < j < |xs| :: xs[i].sort <= xs[j].sort
  }

  /** Places `x` before the first element whose `sort` is not smaller. */
  function Insert(x: ShopType, xs: seq<ShopType>): (r: seq<ShopType>)
    ensures multiset(r) == multiset(xs) + multiset{x}
  {
    if xs == [] || x.sort <= xs[0].sort then [x] + xs
    else
      assert xs == [xs[0]] + xs[1..];
      [xs[0]] + Insert(x, xs[1..])
  }

  predicate AllAtLeast(xs: seq<ShopType>, bound: int)
  {
    forall i | 0 <= i < |xs| :: bound <= xs[i].sort
  }

  lemma {:induction false} InsertKeepsBound(x: ShopType, xs: seq<ShopType>, bound: int)
    requires bound <= x.sort && AllAtLeast(xs, bound)
    ensures AllAtLeast(Insert(x, xs), bound)
  {
    if xs != [] && x.sort > xs[0].sort {
      InsertKeepsBound(x, xs[1..], bound);
    }
  }

  lemma {:induction false} InsertSorted(x: ShopType, xs: seq<ShopType>)
    requires SortedBySort(xs)
    ensures SortedBySort(Insert(x, xs))
  {
    if xs != [] && x.sort > xs[0].sort {
      InsertSorted(x, xs[1..]);
      InsertKeepsBound(x, xs[1..], xs[0].sort);
    }
  }

  /** `query().orderByAsc("sort").list()`: the table's rows in ascending `sort` order. Rows
      with equal `sort` keep their table order, one of the orders the database may return. */
  function OrderBySort(rows: seq<ShopType>): (r: seq<ShopType>)
    ensures SortedBySort(r)
    ensures multiset(r) == multiset(rows)
  {
    if rows == [] then []
    else
      assert rows == [rows[0]] + rows[1..];
      var rest := OrderBySort(rows[1..]);
      InsertSorted(rows[0], rest);
      Insert(rows[0], rest)
  }

  /** Each element encoded, in order. */
  function EncodeAll(c: Codec<ShopType>, xs: seq<ShopType>): (r: seq<string>)
  {
    seq(|xs|, i requires 0 <= i < |xs| => c.encode(xs[i]))
  }

  /** Each element decoded, in order. */
  function DecodeAll(c: Codec<ShopType>, xs: seq<string>): (r: seq<ShopType>)
  {
    seq(|xs|, i requires 0 <= i < |xs| => c.decode(xs[i]))
  }

  /** `queryShopList` on the cached list and the table: the answer and the new cached list. */
  function ListQuery(cached: seq<string>, rows: seq<ShopType>, c: Codec<ShopType>): (res: (Reply<seq<ShopType>>, seq<string>))
    ensures res.0.Ok?
    ensures cached != [] ==> res.1 == cached && |res.0.data| <= 10 && res.0.data == DecodeAll(c, Window(cached))
    ensures cached == [] ==> res.0.data == OrderBySort(rows) && res.1 == EncodeAll(c, res.0.data)
  {
    var window := Window(cached);
    if |window| != 0 then (Ok(DecodeAll(c, window)), cached)
    else
      var sorted := OrderBySort(rows);
      (Ok(sorted), cached + EncodeAll(c, sorted))
  }

  /** A hit answers the decoded window, in cache order and at most ten types, without
      consulting the table or writing the list. */
  lemma HitReturnsDecodedWindow(cached: seq<string>, rows: seq<ShopType>, c: Codec<ShopType>)
    requires cached != []
    ensures var (r, after) := ListQuery(cached, rows, c);
            && r.Ok? && |r.data| <= 10 && after == cached
            && |r.data| == |Window(cached)|
            && forall i | 0 <= i < |r.data| :: r.data[i] == c.decode(cached[i])
  {
  }

  /** A miss answers the table in `sort` order (every row, nothing else) and appends each
      row's encoding to the list, which was empty. */
  lemma MissFillsFromTable(cached: seq<string>, rows: seq<ShopType>, c: Codec<ShopType>)
    requires cached == []
    ensures var (r, after) := ListQuery(cached, rows, c);
            && r.Ok? && SortedBySort(r.data) && multiset(r.data) == multiset(rows)
            && after == EncodeAll(c, r.data)
  {
  }

  /** An empty table writes nothing, so the next call misses again: no negative caching. */
  lemma EmptyTableIsNotCached(rows2: seq<ShopType>, c: Codec<ShopType>)
    ensures ListQuery([], [], c) == (Ok([]), [])
    ensures ListQuery([], rows2, c).0 == Ok(OrderBySort(rows2))
  {
    assert [] + EncodeAll(c, OrderBySort([])) == [];
  }

  /** The window of an encoded list is the encoding of its first ten elements. */
  lemma WindowOfEncoded(c: Codec<ShopType>, xs: seq<ShopType>)
    ensures Window(EncodeAll(c, xs)) == EncodeAll(c, xs[..if |xs| <= 10 then |xs| else 10])
  {
  }

  /** With a faithful mapping, decoding the encodings gives the elements back. */
  lemma DecodeEncodeAll(c: Codec<ShopType>, xs: seq<ShopType>)
    requires Faithful(c)
    ensures DecodeAll(c, EncodeAll(c, xs)) == xs
  {
    forall i | 0 <= i < |xs| ensures DecodeAll(c, EncodeAll(c, xs))[i] == xs[i] {
      assert c.decode(c.encode(xs[i])) == xs[i];
    }
  }

  /** After a miss fills the list, the next call is a hit whatever the table then holds, and
      answers only the first ten types in `sort` order, even when more were pushed. */
  lemma {:induction false} MissThenHit(rows: seq<ShopType>, rows2: seq<ShopType>, c: Codec<ShopType>)
    requires Faithful(c) && rows != []
    ensures var (_, after) := ListQuery([], rows, c);
            var sorted := OrderBySort(rows);
            && |after| == |rows|
            && ListQuery(after, rows2, c) == (Ok(sorted[..if |rows| <= 10 then |rows| else 10]), after)
  {
    var sorted := OrderBySort(rows);
    assert |multiset(sorted)| == |multiset(rows)|;
    var after := ListQuery([], rows, c).1;
    assert after == EncodeAll(c, sorted);
    var n := if |rows| <= 10 then |rows| else 10;
    WindowOfEncoded(c, sorted);
    DecodeEncodeAll(c, sorted[..n]);
  }
}
