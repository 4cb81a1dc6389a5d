/**
 * `PhotoAlbum`: the paged record query that lists an album's photos, joining every master record of
 * a page with the asset record that refers to it, and the album's write-once size cache.
 */
module Album {
  import opened Wrappers
  import opened Values

  /** A CloudKit typed value `{"type": t, "value": v}`. */
  function Typed(t: string, v: Value): Value {
    VDict([("type", VStr(t)), ("value", v)])
  }

  /** One entry of a query's `filterBy` list. */
  datatype Filter = Filter(fieldName: string, comparator: string, fieldValue: Value)

  /** The part of a list request that selects records; `desiredKeys` is constant and left out. */
  datatype Query = Query(filterBy: seq<Filter>, recordType: string, resultsLimit: int, zoneID: Value)

  /** The part of the `__len__` request that varies: the index name and the zone. */
  datatype CountQuery = CountQuery(objType: string, zoneID: Value)

  /** The services the album calls: the record query and the item-count lookup. */
  type Executor = Query -> Result<seq<Record>, Error>
  type Counter = CountQuery -> Result<nat, Error>

  const DefaultZone: Value := VDict([("zoneName", VStr("PrimarySync"))])
  const DefaultPageSize: int := 100

  /** What a `PhotoAlbum` is constructed with. */
  datatype AlbumConfig = AlbumConfig(
    name: string,
    listType: string,
    objType: string,
    direction: string,
    queryFilter: seq<Filter>,
    pageSize: int,
    zoneID: Value,
    shared: bool,
    folder: Option<Record>)

  /**
   * The constructor's defaults: a falsy zone becomes the primary zone; every other argument is kept.
   * Callers that leave out `page_size` pass `DefaultPageSize`.
   */
  function MakeConfig(name: string, listType: string, objType: string, direction: string,
                      queryFilter: seq<Filter>, pageSize: int, zoneID: Value, folder: Option<Record>,
                      shared: bool): (cfg: AlbumConfig)
    ensures Truthy(zoneID) ==> cfg.zoneID == zoneID
    ensures !Truthy(zoneID) ==> cfg.zoneID == DefaultZone
    ensures cfg.pageSize == pageSize && cfg.name == name && cfg.direction == direction
  {
    AlbumConfig(name, listType, objType, direction, queryFilter, pageSize,
                if Truthy(zoneID) then zoneID else DefaultZone, shared, folder)
  }

  function StartRankFilter(offset: int): Filter {
    Filter("startRank", "EQUALS", Typed("INT64", VInt(offset)))
  }

  function DirectionFilter(direction: string): Filter {
    Filter("direction", "EQUALS", Typed("STRING", VStr(direction)))
  }

  /**
   * `_list_query_gen`: the start rank and the direction come first, then the caller's filters in
   * their order; twice the page size is asked for. A falsy `query_filter` (`None` or empty) adds
   * nothing, which is what appending an empty list does.
   */
  function ListQuery(offset: int, listType: string, direction: string, queryFilter: seq<Filter>,
                     pageSize: int, zoneID: Value): (q: Query)
    ensures |q.filterBy| == 2 + |queryFilter|
    ensures q.filterBy[0] == StartRankFilter(offset) && q.filterBy[1] == DirectionFilter(direction)
    ensures q.filterBy[2..] == queryFilter
    ensures q.recordType == listType && q.resultsLimit == 2 * pageSize && q.zoneID == zoneID
  {
    Query([StartRankFilter(offset), DirectionFilter(direction)] + queryFilter, listType, pageSize * 2, zoneID)
  }

  /** The `value` of a typed value. */
  function TypedValue(v: Value): Option<Value> {
    if v.VDict? then Get(v.entries, "value") else None
  }

  /** How a server reads a list query back: start rank, direction and the caller's filters. */
  function ReadQuery(q: Query): Option<(int, string, seq<Filter>)> {
    if |q.filterBy| < 2 || q.filterBy[0].fieldName != "startRank" || q.filterBy[1].fieldName != "direction" then None
    else
      var rank := TypedValue(q.filterBy[0].fieldValue);
      var dir := TypedValue(q.filterBy[1].fieldValue);
      if rank.Some? && rank.value.VInt? && dir.Some? && dir.value.VStr? then
        Some((rank.value.i, dir.value.s, q.filterBy[2..]))
      else None
  }

  /** Every request reads back as the offset, direction and filters it was built from. */
  lemma ReadListQuery(offset: int, listType: string, direction: string, queryFilter: seq<Filter>,
                      pageSize: int, zoneID: Value)
    ensures ReadQuery(ListQuery(offset, listType, direction, queryFilter, pageSize, zoneID))
      == Some((offset, direction, queryFilter))
  {
    TypedValueOf("INT64", VInt(offset));
    TypedValueOf("STRING", VStr(direction));
  }

  lemma TypedValueOf(t: string, v: Value)
    ensures TypedValue(Typed(t, v)) == Some(v)
  {
    var es := Typed(t, v).entries;
    assert es[0].0 != "value" by {
      assert |es[0].0| == 4;
    }
    assert es[1..] == [("value", v)];
    assert Find(es[1..], "value") == Some(0);
  }

  /** `rec["fields"]["masterRef"]["value"]["recordName"]`. */
  function MasterRef(rec: Record): Result<Value, Error> {
    var ref :- Index(VDict(rec.fields), "masterRef");
    var val :- Index(ref, "value");
    Index(val, "recordName")
  }

  /** A page split into `asset_records`, keyed by master reference, and `master_records`. */
  datatype Page = Page(assets: map<Value, Record>, masters: seq<Record>)

  /**
   * The split of one page of records: an asset record is stored under its master reference (a later
   * one replaces an earlier one), a master record is appended, anything else is ignored.
   */
  function PageOf(records: seq<Record>): Result<Page, Error>
    decreases |records|
  {
    if records == [] then Ok(Page(map[], []))
    else
      var page :- PageOf(records[..|records| - 1]);
      var rec := records[|records| - 1];
      if rec.recordType == "CPLAsset" then
        var id :- MasterRef(rec);
        if Unhashable(id) then Err(TypeError) else Ok(page.(assets := page.assets[id := rec]))
      else if rec.recordType == "CPLMaster" then Ok(page.(masters := page.masters + [rec]))
      else Ok(page)
  }

  /** The records of a type, in order. */
  function OfType(records: seq<Record>, t: string): seq<Record> {
    if records == [] then []
    else (if records[0].recordType == t then [records[0]] else []) + OfType(records[1..], t)
  }

  /** Every asset record has a master reference that can be a dict key. */
  predicate AssetsKeyed(records: seq<Record>) {
    forall i :: 0 <= i < |records| && records[i].recordType == "CPLAsset" ==>
      MasterRef(records[i]).Ok? && !Unhashable(MasterRef(records[i]).value)
  }

  /** The split fails exactly when an asset record's master reference is missing or unhashable. */
  lemma {:induction false} PageOfOk(records: seq<Record>)
    ensures PageOf(records).Ok? <==> AssetsKeyed(records)
    decreases |records|
  {
    if records != [] {
      var init := records[..|records| - 1];
      PageOfOk(init);
      assert forall i :: 0 <= i < |init| ==> init[i] == records[i];
    }
  }

  /** The masters are kept, all of them and in order. */
  lemma {:induction false} PageOfMasters(records: seq<Record>)
    requires PageOf(records).Ok?
    ensures PageOf(records).value.masters == OfType(records, "CPLMaster")
    decreases |records|
  {
    if records != [] {
      var init := records[..|records| - 1];
      var rec := records[|records| - 1];
      PageOfMasters(init);
      OfTypeSnoc(init, rec, "CPLMaster");
      assert records == init + [rec];
    }
  }

  /** An asset record refers to the master `k` (via its master reference). */
  predicate RefersTo(rec: Record, k: Value) {
    rec.recordType == "CPLAsset" && MasterRef(rec) == Ok(k)
  }

  /** The split of a page ending in `rec`, from the split of the records before it. */
  lemma PageOfSnoc(records: seq<Record>)
    requires records != [] && PageOf(records).Ok?
    ensures var init := records[..|records| - 1];
      var rec := records[|records| - 1];
      && PageOf(init).Ok?
      && (rec.recordType == "CPLAsset" ==> MasterRef(rec).Ok?)
      && PageOf(records).value.assets ==
           if rec.recordType == "CPLAsset" then PageOf(init).value.assets[MasterRef(rec).value := rec]
           else PageOf(init).value.assets
  {
  }

  /** A key is present exactly when some asset record refers to it. */
  lemma {:induction false} PageOfKeys(records: seq<Record>, k: Value)
    requires PageOf(records).Ok?
    ensures k in PageOf(records).value.assets <==> exists i :: 0 <= i < |records| && RefersTo(records[i], k)
    decreases |records|
  {
    if records != [] {
      var n := |records|;
      var init := records[..n - 1];
      PageOfSnoc(records);
      PageOfKeys(init, k);
      var assets := PageOf(records).value.assets;
      var before := PageOf(init).value.assets;
      if k in assets && !RefersTo(records[n - 1], k) {
        assert k in before;
        var i :| 0 <= i < |init| && RefersTo(init[i], k);
        assert records[i] == init[i];
      }
      if exists i :: 0 <= i < n && RefersTo(records[i], k) {
        var i :| 0 <= i < n && RefersTo(records[i], k);
        if i < n - 1 {
          assert init[i] == records[i];
        }
      }
    }
  }

  /** A present key holds the last asset record that refers to it: a later one replaces an earlier one. */
  lemma {:induction false} PageOfLast(records: seq<Record>, k: Value, i: nat)
    requires PageOf(records).Ok?
    requires i < |records| && RefersTo(records[i], k)
    requires forall j :: i < j < |records| ==> !RefersTo(records[j], k)
    ensures k in PageOf(records).value.assets && PageOf(records).value.assets[k] == records[i]
    decreases |records|
  {
    var n := |records|;
    PageOfSnoc(records);
    if i < n - 1 {
      var init := records[..n - 1];
      assert !RefersTo(records[n - 1], k);
      PageOfLast(init, k, i);
    }
  }

  lemma {:induction false} OfTypeSnoc(records: seq<Record>, rec: Record, t: string)
    ensures OfType(records + [rec], t) == OfType(records, t) + (if rec.recordType == t then [rec] else [])
  {
    if records != [] {
      assert (records + [rec])[1..] == records[1..] + [rec];
      OfTypeSnoc(records[1..], rec, t);
    } else {
      assert records + [rec] == [rec];
    }
  }

  /** Every stored asset is an asset record whose master reference is its key. */
  lemma {:induction false} PageAssets(records: seq<Record>)
    requires PageOf(records).Ok?
    ensures forall k :: k in PageOf(records).value.assets ==>
      PageOf(records).value.assets[k].recordType == "CPLAsset" && MasterRef(PageOf(records).value.assets[k]) == Ok(k)
    ensures forall i :: 0 <= i < |PageOf(records).value.masters| ==>
      PageOf(records).value.masters[i].recordType == "CPLMaster"
    decreases |records|
  {
    if records != [] {
      PageAssets(records[..|records| - 1]);
    }
  }

  /** The pairs a page gives are matched masters and assets. */
  lemma PagePairs(records: seq<Record>)
    requires PageOf(records).Ok?
    ensures var page := PageOf(records).value;
      forall p :: p in PairUp(page.masters, page.assets).0 ==> Matched(p)
  {
    PageAssets(records);
  }

  /** A master paired with the asset record that refers to it. */
  datatype PhotoPair = PhotoPair(master: Record, asset: Record)

  /**
   * The inner loop of `fetch_records`: every master in order with `asset_records[record_name]`,
   * stopping with `KeyError` at the first master that has no asset in the page.
   */
  function PairUp(masters: seq<Record>, assets: map<Value, Record>): (r: (seq<PhotoPair>, Option<Error>))
    ensures |r.0| <= |masters|
    ensures forall i :: 0 <= i < |r.0| ==>
      r.0[i].master == masters[i] && VStr(masters[i].recordName) in assets
      && r.0[i].asset == assets[VStr(masters[i].recordName)]
    ensures r.1.None? <==> |r.0| == |masters|
    ensures r.1.Some? ==>
      VStr(masters[|r.0|].recordName) !in assets && r.1 == Some(KeyError(VStr(masters[|r.0|].recordName)))
    decreases |masters|
  {
    if masters == [] then ([], None)
    else
      var init := PairUp(masters[..|masters| - 1], assets);
      var m := masters[|masters| - 1];
      if init.1.Some? then init
      else if VStr(m.recordName) in assets then (init.0 + [PhotoPair(m, assets[VStr(m.recordName)])], None)
      else (init.0, Some(KeyError(VStr(m.recordName))))
  }

  /** `offset` after a page of `n` masters: down for a descending album, up otherwise. */
  function Advance(offset: int, direction: string, n: nat): int {
    if direction == "DESCENDING" then offset - n else offset + n
  }

  lemma AdvanceTwice(offset: int, direction: string, a: nat, b: nat)
    ensures Advance(Advance(offset, direction, a), direction, b) == Advance(offset, direction, a + b)
  {
  }

  /**
   * What iterating `fetch_records` produces: the photos yielded, the exception that ended the
   * iteration if one did, and the final `offset` and `total`.
   */
  datatype Outcome = Outcome(photos: seq<PhotoPair>, error: Option<Error>, offset: int, total: int)

  /** The request for the page at `offset`. */
  function PageQuery(cfg: AlbumConfig, offset: int): Query {
    ListQuery(offset, cfg.listType, cfg.direction, cfg.queryFilter, cfg.pageSize, cfg.zoneID)
  }

  /** The page the service returns at `offset`, split. */
  function PageAt(run: Executor, cfg: AlbumConfig, offset: int): Result<Page, Error> {
    var records :- run(PageQuery(cfg, offset));
    PageOf(records)
  }

  /** The loop of `fetch_records` from `offset` and `total` on. */
  function FetchFrom(run: Executor, cfg: AlbumConfig, offset: int, total: int, limit: int): Outcome
    decreases limit - total
  {
    if total >= limit then Outcome([], None, offset, total)
    else match PageAt(run, cfg, offset)
      case Err(e) => Outcome([], Some(e), offset, total)
      case Ok(page) =>
        var n := |page.masters|;
        if n == 0 then Outcome([], None, offset, total)
        else
          var next := Advance(offset, cfg.direction, n);
          var pairs := PairUp(page.masters, page.assets);
          if pairs.1.Some? then Outcome(pairs.0, pairs.1, next, total + |pairs.0| + 1)
          else
            var rest := FetchFrom(run, cfg, next, total + n, limit);
            Outcome(pairs.0 + rest.photos, rest.error, rest.offset, rest.total)
  }

  /**
   * Without an exception, `total` grows by the number of photos yielded and `offset` moves by that
   * number, down for a descending album and up otherwise: asset records never move it.
   */
  lemma {:induction false} FetchOffset(run: Executor, cfg: AlbumConfig, offset: int, total: int, limit: int)
    ensures var o := FetchFrom(run, cfg, offset, total, limit);
      o.error.None? ==> o.offset == Advance(offset, cfg.direction, |o.photos|) && o.total == total + |o.photos|
    decreases limit - total
  {
    if total < limit && PageAt(run, cfg, offset).Ok? {
      var page := PageAt(run, cfg, offset).value;
      var n := |page.masters|;
      if n > 0 && PairUp(page.masters, page.assets).1.None? {
        var next := Advance(offset, cfg.direction, n);
        FetchOffset(run, cfg, next, total + n, limit);
        var rest := FetchFrom(run, cfg, next, total + n, limit);
        AdvanceTwice(offset, cfg.direction, n, |rest.photos|);
      }
    }
  }

  /**
   * Without an exception the iteration ends only once `total` has reached `limit`, or at a page
   * (the one at the final offset) that holds no master record.
   */
  lemma {:induction false} FetchStops(run: Executor, cfg: AlbumConfig, offset: int, total: int, limit: int)
    ensures var o := FetchFrom(run, cfg, offset, total, limit);
      o.error.None? ==>
        o.total >= limit || (PageAt(run, cfg, o.offset).Ok? && |PageAt(run, cfg, o.offset).value.masters| == 0)
    decreases limit - total
  {
    if total < limit && PageAt(run, cfg, offset).Ok? {
      var page := PageAt(run, cfg, offset).value;
      var n := |page.masters|;
      if n > 0 && PairUp(page.masters, page.assets).1.None? {
        FetchStops(run, cfg, Advance(offset, cfg.direction, n), total + n, limit);
      }
    }
  }

  /** A master record paired with an asset record whose master reference is the master's name. */
  predicate Matched(p: PhotoPair) {
    && p.master.recordType == "CPLMaster"
    && p.asset.recordType == "CPLAsset"
    && MasterRef(p.asset) == Ok(VStr(p.master.recordName))
  }

  /** Every photo yielded pairs a master with the asset record that refers to it. */
  lemma {:induction false} FetchPairs(run: Executor, cfg: AlbumConfig, offset: int, total: int, limit: int)
    ensures forall p :: p in FetchFrom(run, cfg, offset, total, limit).photos ==> Matched(p)
    decreases limit - total
  {
    if total < limit && PageAt(run, cfg, offset).Ok? {
      var records := run(PageQuery(cfg, offset)).value;
      var page := PageAt(run, cfg, offset).value;
      PagePairs(records);
      var n := |page.masters|;
      if n > 0 && PairUp(page.masters, page.assets).1.None? {
        FetchPairs(run, cfg, Advance(offset, cfg.direction, n), total + n, limit);
      }
    }
  }

  /**
   * A page's masters are all yielded, in page order, once its first one is: even when they take
   * `total` past `limit`.
   */
  lemma WholePage(run: Executor, cfg: AlbumConfig, offset: int, total: int, limit: int)
    requires total < limit && PageAt(run, cfg, offset).Ok?
    requires var page := PageAt(run, cfg, offset).value;
      |page.masters| > 0 && PairUp(page.masters, page.assets).1.None?
    ensures var page := PageAt(run, cfg, offset).value;
      var o := FetchFrom(run, cfg, offset, total, limit);
      |o.photos| >= |page.masters|
      && forall i :: 0 <= i < |page.masters| ==> o.photos[i].master == page.masters[i]
  {
  }

  /** `len(self)` given the cache: the cached size, or a lookup. */
  function CachedLen(cached: Option<nat>, count: Counter, cfg: AlbumConfig): Result<nat, Error> {
    if cached.Some? then Ok(cached.value) else count(CountQuery(cfg.objType, cfg.zoneID))
  }

  /** The cache after a size lookup: a stored size stays, a successful count is stored, a failed one leaves it empty. */
  function CacheAfterLookup(cached: Option<nat>, count: Counter, cfg: AlbumConfig): Option<nat> {
    match CachedLen(cached, count, cfg)
    case Ok(n) => Some(n)
    case Err(_) => cached
  }

  /** `not limit`: `None` and `0` ask for the album's size. */
  predicate FalsyLimit(limit: Option<int>) {
    limit.None? || limit.value == 0
  }

  /** `fetch_records(offset, limit)`, with the cache as it stands when iteration starts. */
  function FetchRecordsOf(run: Executor, count: Counter, cfg: AlbumConfig, cached: Option<nat>,
                          offset: int, limit: Option<int>): Outcome
  {
    if !FalsyLimit(limit) then FetchFrom(run, cfg, offset, 0, limit.value)
    else match CachedLen(cached, count, cfg)
      case Err(e) => Outcome([], Some(e), offset, 0)
      case Ok(n) => FetchFrom(run, cfg, offset, 0, n)
  }

  /** `photos`: from the top for a descending album, from rank 0 otherwise, up to the album's size. */
  function PhotosOf(run: Executor, count: Counter, cfg: AlbumConfig, cached: Option<nat>): Outcome {
    match CachedLen(cached, count, cfg)
    case Err(e) => Outcome([], Some(e), 0, 0)
    case Ok(n) => FetchFrom(run, cfg, if cfg.direction == "DESCENDING" then n - 1 else 0, 0, n)
  }

  class PhotoAlbum {
    const cfg: AlbumConfig
    /** `_len`: `None` until a count lookup succeeds. */
    var cachedLen: Option<nat>

    constructor (name: string, listType: string, objType: string, direction: string,
                 queryFilter: seq<Filter>, pageSize: int, zoneID: Value, folder: Option<Record>, shared: bool)
      ensures cfg == MakeConfig(name, listType, objType, direction, queryFilter, pageSize, zoneID, folder, shared)
      ensures cachedLen == None
    {
      cfg := MakeConfig(name, listType, objType, direction, queryFilter, pageSize, zoneID, folder, shared);
      cachedLen := None;
    }

    /** `__len__`: the first successful lookup is kept and returned from then on. */
    method Len(count: Counter) returns (r: Result<nat, Error>)
      modifies this
      ensures r == CachedLen(old(cachedLen), count, cfg)
      ensures cachedLen == if old(cachedLen).Some? || r.Err? then old(cachedLen) else Some(r.value)
      ensures r.Ok? ==> cachedLen == Some(r.value)
    {
      if cachedLen.None? {
        var n := count(CountQuery(cfg.objType, cfg.zoneID));
        if n.Err? {
          return Err(n.error);
        }
        cachedLen := Some(n.value);
      }
      r := Ok(cachedLen.value);
    }

    /** `photos`. */
    method Photos(run: Executor, count: Counter) returns (o: Outcome)
      modifies this
      ensures o == PhotosOf(run, count, cfg, old(cachedLen))
      ensures cachedLen == CacheAfterLookup(old(cachedLen), count, cfg)
    {
      var offset: int := 0;
      if cfg.direction == "DESCENDING" {
        var n := Len(count);
        if n.Err? {
          return Outcome([], Some(n.error), 0, 0);
        }
        offset := n.value as int - 1;
      }
      ghost var cached := cachedLen;
      o := FetchRecords(run, count, offset, None);
      assert CachedLen(cached, count, cfg) == CachedLen(old(cachedLen), count, cfg);
    }

    /** `fetch_records(offset, limit)`, iterated to the end. */
    method FetchRecords(run: Executor, count: Counter, offset: int, limit: Option<int>) returns (o: Outcome)
      modifies this
      ensures o == FetchRecordsOf(run, count, cfg, old(cachedLen), offset, limit)
      ensures cachedLen == if FalsyLimit(limit) then CacheAfterLookup(old(cachedLen), count, cfg) else old(cachedLen)
    {
      var lim: int;
      if FalsyLimit(limit) {
        var n := Len(count);
        if n.Err? {
          return Outcome([], Some(n.error), offset, 0);
        }
        lim := n.value;
      } else {
        lim := limit.value;
      }
      o := FetchLoop(run, cfg, offset, lim);
    }
  }

  /** The `while total < limit` loop of `fetch_records`. */
  method FetchLoop(run: Executor, cfg: AlbumConfig, start: int, limit: int) returns (o: Outcome)
    ensures o == FetchFrom(run, cfg, start, 0, limit)
  {
    var offset := start;
    var total := 0;
    var photos: seq<PhotoPair> := [];
    while total < limit
      invariant Prepend(photos, FetchFrom(run, cfg, offset, total, limit)) == FetchFrom(run, cfg, start, 0, limit)
      decreases limit - total
    {
      var yielded, stop, error, offset', total' := FetchPage(run, cfg, offset, total, limit);
      if stop {
        return Outcome(photos + yielded, error, offset', total');
      }
      PrependTwice(photos, yielded, FetchFrom(run, cfg, offset', total', limit));
      photos, offset, total := photos + yielded, offset', total';
    }
    o := Outcome(photos, None, offset, total);
  }

  /**
   * One turn of that loop: the request, the split of the page, the move of `offset` and the yields;
   * `stop` when the iteration ends in this turn.
   */
  method FetchPage(run: Executor, cfg: AlbumConfig, offset: int, total: int, limit: int)
    returns (yielded: seq<PhotoPair>, stop: bool, error: Option<Error>, offset': int, total': int)
    requires total < limit
    ensures stop ==> FetchFrom(run, cfg, offset, total, limit) == Outcome(yielded, error, offset', total')
    ensures !stop ==> total' > total
    ensures !stop ==>
      FetchFrom(run, cfg, offset, total, limit) == Prepend(yielded, FetchFrom(run, cfg, offset', total', limit))
  {
    var page := RequestPage(run, cfg, offset);
    if page.Err? {
      return [], true, Some(page.error), offset, total;
    }
    var masters := page.value.masters;
    if |masters| == 0 {
      return [], true, None, offset, total;
    }
    if cfg.direction == "DESCENDING" {
      offset' := offset - |masters|;
    } else {
      offset' := offset + |masters|;
    }
    yielded, error := YieldPage(masters, page.value.assets);
    FetchStep(run, cfg, offset, total, limit);
    if error.Some? {
      return yielded, true, error, offset', total + |yielded| + 1;
    }
    stop, total' := false, total + |masters|;
  }

  /** `ps` yielded before the rest of the iteration. */
  function Prepend(ps: seq<PhotoPair>, o: Outcome): Outcome {
    o.(photos := ps + o.photos)
  }

  lemma PrependTwice(a: seq<PhotoPair>, b: seq<PhotoPair>, o: Outcome)
    ensures Prepend(a, Prepend(b, o)) == Prepend(a + b, o)
  {
    assert a + (b + o.photos) == (a + b) + o.photos;
  }

  /** One turn of the loop of `fetch_records` on a page with masters. */
  lemma FetchStep(run: Executor, cfg: AlbumConfig, offset: int, total: int, limit: int)
    requires total < limit && PageAt(run, cfg, offset).Ok?
    requires |PageAt(run, cfg, offset).value.masters| > 0
    ensures var page := PageAt(run, cfg, offset).value;
      var n := |page.masters|;
      var next := Advance(offset, cfg.direction, n);
      var pairs := PairUp(page.masters, page.assets);
      FetchFrom(run, cfg, offset, total, limit) ==
        (if pairs.1.Some? then Outcome(pairs.0, pairs.1, next, total + |pairs.0| + 1)
         else Prepend(pairs.0, FetchFrom(run, cfg, next, total + n, limit)))
  {
  }

  /** The request for the page at `offset` and the split of the records it returns. */
  method RequestPage(run: Executor, cfg: AlbumConfig, offset: int) returns (page: Result<Page, Error>)
    ensures page == PageAt(run, cfg, offset)
  {
    var response := run(PageQuery(cfg, offset));
    if response.Err? {
      return Err(response.error);
    }
    page := SplitPage(response.value);
  }

  /** The `for master_record in master_records` loop: yields until a master has no asset. */
  method YieldPage(masters: seq<Record>, assets: map<Value, Record>) returns (yielded: seq<PhotoPair>, error: Option<Error>)
    ensures (yielded, error) == PairUp(masters, assets)
  {
    yielded := [];
    var i := 0;
    while i < |masters|
      invariant 0 <= i <= |masters|
      invariant PairUp(masters[..i], assets) == (yielded, None)
    {
      assert masters[..i + 1][..i] == masters[..i];
      var name := VStr(masters[i].recordName);
      if name !in assets {
        PairUpPrefix(masters, assets, i);
        return yielded, Some(KeyError(name));
      }
      yielded := yielded + [PhotoPair(masters[i], assets[name])];
      i := i + 1;
    }
    assert masters[..i] == masters;
    error := None;
  }

  /** The pairing stops at the first master without an asset. */
  lemma PairUpPrefix(masters: seq<Record>, assets: map<Value, Record>, i: nat)
    requires i < |masters| && PairUp(masters[..i], assets).1.None? && VStr(masters[i].recordName) !in assets
    ensures PairUp(masters, assets) == (PairUp(masters[..i], assets).0, Some(KeyError(VStr(masters[i].recordName))))
  {
    var r := PairUp(masters, assets);
    assert |r.0| == i && r.0 == PairUp(masters[..i], assets).0 by {
      PairUpTake(masters, assets, i);
    }
  }

  /** Pairing a prefix gives a prefix of the pairing. */
  lemma {:induction false} PairUpTake(masters: seq<Record>, assets: map<Value, Record>, i: nat)
    requires i <= |masters| && PairUp(masters[..i], assets).1.None?
    ensures |PairUp(masters, assets).0| >= i
    ensures PairUp(masters, assets).0[..i] == PairUp(masters[..i], assets).0
    decreases |masters| - i
  {
    if i < |masters| {
      var name := VStr(masters[i].recordName);
      if name in assets {
        assert masters[..i + 1][..i] == masters[..i];
        PairUpTake(masters, assets, i + 1);
      } else {
        PairUpSuffix(masters, assets, i);
      }
    } else {
      assert masters[..i] == masters;
    }
  }

  lemma {:induction false} PairUpSuffix(masters: seq<Record>, assets: map<Value, Record>, i: nat)
    requires i < |masters| && PairUp(masters[..i], assets).1.None? && VStr(masters[i].recordName) !in assets
    ensures PairUp(masters, assets).0 == PairUp(masters[..i], assets).0
    decreases |masters| - i
  {
    assert masters[..i + 1][..i] == masters[..i];
    var n := |masters|;
    if i + 1 < n {
      assert masters[..n - 1][..i] == masters[..i];
      assert masters[..n - 1][i] == masters[i];
      PairUpSuffix(masters[..n - 1], assets, i);
    } else {
      assert masters[..n - 1] == masters[..i];
    }
  }

  /** The record loop of `fetch_records` that fills `asset_records` and `master_records`. */
  method SplitPage(records: seq<Record>) returns (r: Result<Page, Error>)
    ensures r == PageOf(records)
  {
    var assets: map<Value, Record> := map[];
    var masters: seq<Record> := [];
    var i := 0;
    while i < |records|
      invariant 0 <= i <= |records|
      invariant PageOf(records[..i]) == Ok(Page(assets, masters))
    {
      assert records[..i + 1][..i] == records[..i];
      var rec := records[i];
      if rec.recordType == "CPLAsset" {
        var id := MasterRef(rec);
        if id.Err? {
          PageOfFails(records, i + 1);
          return Err(id.error);
        }
        if Unhashable(id.value) {
          PageOfFails(records, i + 1);
          return Err(TypeError);
        }
        assets := assets[id.value := rec];
      } else if rec.recordType == "CPLMaster" {
        masters := masters + [rec];
      }
      i := i + 1;
    }
    assert records[..i] == records;
    r := Ok(Page(assets, masters));
  }

  /** Once a prefix fails, the whole page fails the same way. */
  lemma {:induction false} PageOfFails(records: seq<Record>, i: nat)
    requires i <= |records| && PageOf(records[..i]).Err?
    ensures PageOf(records) == PageOf(records[..i])
    decreases |records| - i
  {
    if i < |records| {
      assert records[..i + 1][..i] == records[..i];
      PageOfFails(records, i + 1);
    } else {
      assert records[..i] == records;
    }
  }
}
