/** The shop-type service: serves the type list from a Redis list, filling it from the table
    on a miss. */
module ShopTypeService {
  import opened Wrappers
  import opened Json
  import opened ShopTypeCache

  class ShopTypeServiceImpl {
    /** The Redis list under CACHE_SHOP_TYPE_KEY (an absent key reads as the empty list). */
    var cachedList: seq<string>
    /** The shop-type table, in storage order. */
    var rows: seq<ShopType>
    const codec: Codec<ShopType>

    constructor (codec: Codec<ShopType>, rows: seq<ShopType>)
      ensures this.codec == codec && this.rows == rows && cachedList == []
    {
      this.codec := codec;
      this.rows := rows;
      cachedList := [];
    }

    /** `queryShopList`: decodes the cached window one element at a time, or on an empty
        window reads the table in `sort` order and pushes each encoded row onto the list tail. */
    method QueryShopList() returns (r: Reply<seq<ShopType>>)
      modifies this`cachedList
      ensures (r, cachedList) == ListQuery(old(cachedList), rows, codec)
    {
      var shopTypes := if |cachedList| <= 10 then cachedList else cachedList[..10];
      var shopTypesByRedis: seq<ShopType> := [];
      if |shopTypes| != 0 {
        for i := 0 to |shopTypes|
          invariant shopTypesByRedis == DecodeAll(codec, shopTypes[..i])
        {
          shopTypesByRedis := shopTypesByRedis + [codec.decode(shopTypes[i])];
        }
        assert shopTypes[..|shopTypes|] == shopTypes;
        return Ok(shopTypesByRedis);
      }
      var shopTypesByMysql := OrderBySort(rows);
      for i := 0 to |shopTypesByMysql|
        invariant cachedList == old(cachedList) + EncodeAll(codec, shopTypesByMysql[..i])
      {
        cachedList := cachedList + [codec.encode(shopTypesByMysql[i])];
      }
      assert shopTypesByMysql[..|shopTypesByMysql|] == shopTypesByMysql;
      r := Ok(shopTypesByMysql);
    }
  }
}
