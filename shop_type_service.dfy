/** ShopTypeServiceImpl: the list of shop types, cached whole under "cache:shop_type:". */
module ShopTypeService {
  import opened Redis

  // ---- ORDER BY sort ASC -------------------------------------------------------------------

  predicate SortedBySort(s: seq<ShopType>)
  {
    forall i, j :: 0 <= i < j < |s| ==> s[i].sort <= s[j].sort
  }

  function Insert(t: ShopType, s: seq<ShopType>): seq<ShopType>
  {
    if s == [] then [t]
    else if t.sort <= s[0].sort then [t] + s
    else [s[0]] + Insert(t, s[1..])
  }

  /** The rows of tb_shop_type in ascending `sort` order, as
      `query().orderByAsc("sort").list()` returns them. */
  function OrderByAsc(rows: seq<ShopType>): seq<ShopType>
  {
    if rows == [] then [] else Insert(rows[0], OrderByAsc(rows[1..]))
  }

  lemma {:induction false} InsertKeepsRows(t: ShopType, s: seq<ShopType>)
    ensures multiset(Insert(t, s)) == multiset(s) + multiset{t}
  {
    if s != [] && t.sort > s[0].sort {
      var rest := Insert(t, s[1..]);
      InsertKeepsRows(t, s[1..]);
      assert Insert(t, s) == [s[0]] + rest;
      assert multiset([s[0]] + rest) == multiset{s[0]} + multiset(rest);
      assert s == [s[0]] + s[1..];
      assert multiset(s) == multiset{s[0]} + multiset(s[1..]);
    }
  }

  /** Inserting keeps a lower bound that the new row and every old row respect. */
  lemma {:induction false} InsertAbove(t: ShopType, s: seq<ShopType>, m: int)
    requires t.sort >= m
    requires forall i :: 0 <= i < |s| ==> s[i].sort >= m
    ensures forall i :: 0 <= i < |Insert(t, s)| ==> Insert(t, s)[i].sort >= m
  {
    if s != [] && t.sort > s[0].sort {
      InsertAbove(t, s[1..], m);
    }
  }

  lemma {:induction false} InsertSorted(t: ShopType, s: seq<ShopType>)
    requires SortedBySort(s)
    ensures SortedBySort(Insert(t, s))
  {
    if s != [] && t.sort > s[0].sort {
      var r := Insert(t, s[1..]);
      InsertSorted(t, s[1..]);
      InsertAbove(t, s[1..], s[0].sort);
      assert Insert(t, s) == [s[0]] + r;
    }
  }

  /** The query's rows are sorted by `sort` and are exactly the table's rows. */
  lemma {:induction false} OrderByAscIsSortedPermutation(rows: seq<ShopType>)
    ensures SortedBySort(OrderByAsc(rows))
    ensures multiset(OrderByAsc(rows)) == multiset(rows)
  {
    if rows != [] {
      OrderByAscIsSortedPermutation(rows[1..]);
      InsertSorted(rows[0], OrderByAsc(rows[1..]));
      InsertKeepsRows(rows[0], OrderByAsc(rows[1..]));
      assert rows == [rows[0]] + rows[1..];
    }
  }

  // ---- queryTypeList -----------------------------------------------------------------------

  /** `JSONUtil.toList(json, ShopType.class)` on a non-blank reply; only a list's JSON decodes. */
  function DecodeTypeList(v: Value): Outcome<seq<ShopType>>
  {
    if v.Json? && v.doc.ShopTypeListDoc? then Returned(v.doc.types) else Threw
  }

  datatype TypeListRead = TypeListRead(result: Outcome<seq<ShopType>>, cache: map<string, Entry>, loaded: bool)

  /** queryTypeList() at `now`, over the table `rows`. */
  function TypeListSpec(cache: map<string, Entry>, rows: seq<ShopType>, now: int): TypeListRead
  {
    var json := Lookup(cache, CACHE_SHOP_TYPE_KEY, now);
    if !IsBlank(json) then TypeListRead(DecodeTypeList(json.value), cache, false)
    else
      var list := OrderByAsc(rows);
      TypeListRead(Returned(list), SetEx(cache, CACHE_SHOP_TYPE_KEY, Json(ShopTypeListDoc(list)), CACHE_TTL * 60, now), true)
  }

  method QueryTypeList(b: Backend, now: int) returns (list: Outcome<seq<ShopType>>, loaded: bool)
    modifies b`cache
    ensures TypeListRead(list, b.cache, loaded) == TypeListSpec(old(b.cache), b.shopTypes, now)
  {
    var key := CACHE_SHOP_TYPE_KEY;
    var shopTypeJson := b.Get(key, now);
    if !IsBlank(shopTypeJson) {
      list, loaded := DecodeTypeList(shopTypeJson.value), false;
      return;
    }
    var rows := OrderByAsc(b.shopTypes);
    loaded := true;
    b.Set(key, Json(ShopTypeListDoc(rows)), CACHE_TTL * 60, now);
    list := Returned(rows);
  }

  /** A cached list is served as it is, without the database or a write. */
  lemma TypeListHit(cache: map<string, Entry>, rows: seq<ShopType>, now: int, types: seq<ShopType>)
    requires Lookup(cache, CACHE_SHOP_TYPE_KEY, now) == Some(Json(ShopTypeListDoc(types)))
    ensures TypeListSpec(cache, rows, now) == TypeListRead(Returned(types), cache, false)
  {
  }

  /** A miss returns every row of the table, sorted by `sort`, and caches that list for
      CACHE_TTL minutes. */
  lemma TypeListMiss(cache: map<string, Entry>, rows: seq<ShopType>, now: int)
    requires IsBlank(Lookup(cache, CACHE_SHOP_TYPE_KEY, now))
    ensures var r := TypeListSpec(cache, rows, now);
      && r.loaded && r.result.Returned?
      && SortedBySort(r.result.value)
      && multiset(r.result.value) == multiset(rows)
      && r.cache == cache[CACHE_SHOP_TYPE_KEY := Entry(Json(ShopTypeListDoc(r.result.value)), Some(now + 1800))]
  {
    OrderByAscIsSortedPermutation(rows);
  }

  /** Round trip: within CACHE_TTL minutes of a miss, the next call returns the same list
      without the database, even if the table has changed since. */
  lemma TypeListRoundTrip(cache: map<string, Entry>, rows: seq<ShopType>, rows2: seq<ShopType>, t1: int, t2: int)
    requires IsBlank(Lookup(cache, CACHE_SHOP_TYPE_KEY, t1))
    requires t1 <= t2 < t1 + CACHE_TTL * 60
    ensures var r1 := TypeListSpec(cache, rows, t1);
            var r2 := TypeListSpec(r1.cache, rows2, t2);
      r2 == TypeListRead(r1.result, r1.cache, false)
  {
    var r1 := TypeListSpec(cache, rows, t1);
    assert Lookup(r1.cache, CACHE_SHOP_TYPE_KEY, t2) == Some(Json(ShopTypeListDoc(OrderByAsc(rows))));
  }
}
