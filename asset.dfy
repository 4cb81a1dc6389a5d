/**
 * `PhotoAsset`: the values derived from a master record and its asset record (item type, the
 * available versions, location and coordinates, the hidden and favourite flags).
 */
module Asset {
  import opened Wrappers
  import opened Values
  import opened Text

  /** `ITEM_TYPES`. */
  const ItemTypes: seq<(string, string)> := [
    ("public.heic", "image"),
    ("public.jpeg", "image"),
    ("public.png", "image"),
    ("com.apple.quicktime-movie", "movie")]

  /** `ITEM_TYPE_SUFFIX`. */
  const ItemTypeSuffix: seq<(string, string)> := [
    ("public.heic", "HEIC"),
    ("public.jpeg", "JPEG"),
    ("public.png", "PNG"),
    ("com.apple.quicktime-movie", "MOV")]

  /** `PHOTO_VERSION_LOOKUP`: version name and field prefix. */
  const PhotoVersions: seq<(string, string)> := [
    ("full", "resJPEGFull"),
    ("large", "resJPEGLarge"),
    ("medium", "resJPEGMed"),
    ("thumb", "resJPEGThumb"),
    ("sidecar", "resSidecar"),
    ("original", "resOriginal"),
    ("original_alt", "resOriginalAlt"),
    ("live", "resOriginalVidCompl")]

  /** `VIDEO_VERSION_LOOKUP`. */
  const VideoVersions: seq<(string, string)> := [
    ("full", "resVidFull"),
    ("medium", "resVidMed"),
    ("thumb", "resVidSmall"),
    ("original", "resOriginal"),
    ("original_compl", "resOriginalVidCompl")]

  /** `filename`: the master's `filenameEnc` value, base64-decoded and read as UTF-8. */
  function Filename(c: Codecs, master: Record): Result<string, Error> {
    var enc :- Index(VDict(master.fields), "filenameEnc");
    var val :- Index(enc, "value");
    var raw :- DecodeBase64(c, val);
    DecodeUtf8(c, raw)
  }

  /** The file name endings taken for images when the item type is not in the table. */
  predicate ImageName(name: string) {
    var s := Lower(name);
    EndsWith(s, ".heic") || EndsWith(s, ".png") || EndsWith(s, ".jpg") || EndsWith(s, ".jpeg")
  }

  /** `item_type`. */
  function ItemType(c: Codecs, master: Record): Result<string, Error> {
    var entry :- Index(VDict(master.fields), "itemType");
    var t :- Index(entry, "value");
    var known :- Lookup(ItemTypes, t);
    if known.Some? then Ok(known.value)
    else
      var name :- Filename(c, master);
      Ok(if ImageName(name) then "image" else "movie")
  }

  /**
   * The item type is `image` or `movie`: the table's entry for a listed type, without looking at
   * the file name; for any other hashable type, `image` exactly when the file name has an image
   * ending. A missing `itemType` field raises `KeyError`, an unhashable type `TypeError`.
   */
  lemma ItemTypeSpec(c: Codecs, master: Record)
    ensures ItemType(c, master).Ok? ==> ItemType(c, master).value in {"image", "movie"}
    ensures forall es, t ::
      (Get(master.fields, "itemType") == Some(VDict(es)) && Get(es, "value") == Some(VStr(t))
       && HasKey(ItemTypes, t))
      ==> ItemType(c, master) == Ok(GetOr(ItemTypes, t, ""))
    ensures forall es, t, name ::
      (Get(master.fields, "itemType") == Some(VDict(es)) && Get(es, "value") == Some(t)
       && !Unhashable(t) && !(t.VStr? && HasKey(ItemTypes, t.s)) && Filename(c, master) == Ok(name))
      ==> ItemType(c, master) == Ok(if ImageName(name) then "image" else "movie")
    ensures forall es, t ::
      (Get(master.fields, "itemType") == Some(VDict(es)) && Get(es, "value") == Some(t) && Unhashable(t))
      ==> ItemType(c, master) == Err(TypeError)
    ensures !HasKey(master.fields, "itemType") ==> ItemType(c, master) == Err(KeyError(VStr("itemType")))
  {
  }

  /** The four listed types, whatever else the `itemType` field holds. */
  lemma ListedItemTypes(c: Codecs, master: Record, es: Entries, t: string)
    requires Get(master.fields, "itemType") == Some(VDict(es)) && Get(es, "value") == Some(VStr(t))
    ensures t in {"public.heic", "public.jpeg", "public.png"} ==> ItemType(c, master) == Ok("image")
    ensures t == "com.apple.quicktime-movie" ==> ItemType(c, master) == Ok("movie")
  {
    ItemTypeSpec(c, master);
  }

  /** One entry of `versions`. */
  datatype Version = Version(filename: string, width: Value, height: Value, size: Value, url: Value, fileType: Value)

  /** The versions dict, in insertion order. */
  type Versions = seq<(string, Version)>

  /** The tier table for an item type. */
  function Tiers(itemType: string): seq<(string, string)> {
    if itemType == "movie" then VideoVersions else PhotoVersions
  }

  /** `fields.get(name)`, then its `["value"]` when it is truthy, else `None`. */
  function OptionalValue(fields: Entries, name: string): Result<Value, Error> {
    var entry := GetOr(fields, name, VNone);
    if Truthy(entry) then Index(entry, "value") else Ok(VNone)
  }

  /**
   * `*base, suffix = name.split(".")` followed by `f"{base}.{suffix}"` with `suffix` replaced by the
   * type's suffix when the type has one.
   */
  function Retyped(name: string, newSuffix: Option<string>): string {
    var parts := Split(name, '.');
    var base := Join(parts[..|parts| - 1], ".");
    base + "." + newSuffix.GetOr(parts[|parts| - 1])
  }

  /**
   * The new name keeps everything before the last dot and puts the type's suffix after it; an
   * unknown type keeps the name as it is; a name without a dot becomes the suffix after a dot (the
   * whole name when the type is unknown).
   */
  lemma RetypedSpec(name: string, newSuffix: Option<string>)
    ensures '.' in name ==> exists base, last ::
      && name == base + "." + last && '.' !in last
      && Retyped(name, newSuffix) == base + "." + newSuffix.GetOr(last)
    ensures '.' in name && newSuffix.None? ==> Retyped(name, newSuffix) == name
    ensures '.' !in name ==> Retyped(name, newSuffix) == "." + newSuffix.GetOr(name)
  {
    SplitLast(name, '.');
    var parts := Split(name, '.');
    var base := Join(parts[..|parts| - 1], ".");
    var last := parts[|parts| - 1];
    if '.' in name {
      assert name == base + "." + last && '.' !in last;
    }
  }

  /** `version` for one tier of one record. */
  function BuildVersion(c: Codecs, master: Record, fields: Entries, prefix: string): Result<Version, Error> {
    var filename :- Filename(c, master);
    var width :- OptionalValue(fields, prefix + "Width");
    var height :- OptionalValue(fields, prefix + "Height");
    var sizeEntry := GetOr(fields, prefix + "Res", VNone);
    var sizeUrl :- if Truthy(sizeEntry) then SizeAndUrl(sizeEntry) else Ok((VNone, VNone));
    var typeEntry := GetOr(fields, prefix + "FileType", VNone);
    if !Truthy(typeEntry) then Ok(Version(filename, width, height, sizeUrl.0, sizeUrl.1, VNone))
    else
      var t :- Index(typeEntry, "value");
      var suffix :- Lookup(ItemTypeSuffix, t);
      Ok(Version(Retyped(filename, suffix), width, height, sizeUrl.0, sizeUrl.1, t))
  }

  /** `size_entry["value"]["size"]` and `size_entry["value"]["downloadURL"]`. */
  function SizeAndUrl(sizeEntry: Value): Result<(Value, Value), Error> {
    var res :- Index(sizeEntry, "value");
    var size :- Index(res, "size");
    var url :- Index(res, "downloadURL");
    Ok((size, url))
  }

  /**
   * A `Res` field's `size` and `downloadURL` are read from its `value`; a missing key raises
   * `KeyError`.
   */
  lemma SizeAndUrlSpec(sizeEntry: Value)
    ensures forall es, res, size, url ::
      (sizeEntry == VDict(es) && Get(es, "value") == Some(VDict(res))
       && Get(res, "size") == Some(size) && Get(res, "downloadURL") == Some(url))
      ==> SizeAndUrl(sizeEntry) == Ok((size, url))
    ensures forall es :: sizeEntry == VDict(es) && !HasKey(es, "value") ==> SizeAndUrl(sizeEntry) == Err(KeyError(VStr("value")))
    ensures forall es, res ::
      (sizeEntry == VDict(es) && Get(es, "value") == Some(VDict(res)) && !HasKey(res, "size"))
      ==> SizeAndUrl(sizeEntry) == Err(KeyError(VStr("size")))
  {
  }

  /**
   * Without a truthy type field the version has no type and the record's file name; with one, the
   * type is the field's `value` and the name is retyped with that type's suffix, if it has one.
   */
  lemma BuildVersionType(c: Codecs, master: Record, fields: Entries, prefix: string, v: Version)
    requires BuildVersion(c, master, fields, prefix) == Ok(v)
    ensures Filename(c, master).Ok?
    ensures !Truthy(GetOr(fields, prefix + "FileType", VNone)) ==>
      v.fileType == VNone && v.filename == Filename(c, master).value
    ensures forall es, t :: Get(fields, prefix + "FileType") == Some(VDict(es)) && Get(es, "value") == Some(t) ==>
      && v.fileType == t
      && v.filename == Retyped(Filename(c, master).value, if t.VStr? then Get(ItemTypeSuffix, t.s) else None)
  {
    BuildVersionSpec(c, master, fields, prefix, v);
  }

  /**
   * What each part of a built version is taken from: the record's file name; the width and height
   * as optional values; the size and URL from a truthy `Res` field and `None` without one; the type
   * and retyped name from a truthy `FileType` field and `None` and the plain name without one.
   */
  lemma BuildVersionSpec(c: Codecs, master: Record, fields: Entries, prefix: string, v: Version)
    requires BuildVersion(c, master, fields, prefix) == Ok(v)
    ensures var sizeEntry := GetOr(fields, prefix + "Res", VNone);
      var typeEntry := GetOr(fields, prefix + "FileType", VNone);
      && Filename(c, master).Ok?
      && OptionalValue(fields, prefix + "Width") == Ok(v.width)
      && OptionalValue(fields, prefix + "Height") == Ok(v.height)
      && (if Truthy(sizeEntry) then SizeAndUrl(sizeEntry) == Ok((v.size, v.url)) else v.size == v.url == VNone)
      && (if Truthy(typeEntry) then
            Index(typeEntry, "value") == Ok(v.fileType)
            && Lookup(ItemTypeSuffix, v.fileType).Ok?
            && v.filename == Retyped(Filename(c, master).value, Lookup(ItemTypeSuffix, v.fileType).value)
          else v.fileType == VNone && v.filename == Filename(c, master).value)
  {
  }

  /** A present field's `value`, or `None` for an absent or falsy field. */
  lemma OptionalValueSpec(fields: Entries, name: string)
    ensures !Truthy(GetOr(fields, name, VNone)) ==> OptionalValue(fields, name) == Ok(VNone)
    ensures forall es, w :: Get(fields, name) == Some(VDict(es)) && Get(es, "value") == Some(w) ==>
      OptionalValue(fields, name) == Ok(w)
  {
  }

  /** How one tier of one record is built: `BuildVersion` with the codecs and the master fixed. */
  type Builder = (Entries, string) -> Result<Version, Error>

  function Builds(c: Codecs, master: Record): Builder {
    (fields: Entries, prefix: string) => BuildVersion(c, master, fields, prefix)
  }

  /** A record's tier: when `{prefix}Res` is in its fields, the built version goes under `key`. */
  function VisitTier(build: Builder, fields: Entries, tier: (string, string), acc: Versions): Result<Versions, Error> {
    if !HasKey(fields, tier.1 + "Res") then Ok(acc)
    else
      var v :- build(fields, tier.1);
      Ok(Put(acc, tier.0, v))
  }

  /** The memo after a run: what was stored, and the exception that stopped the run if one did. */
  datatype Memo = Memo(versions: Versions, error: Option<Error>)

  /** The inner loop over the first `n` tiers of one record. */
  function VisitTiers(build: Builder, fields: Entries, tiers: seq<(string, string)>, n: nat, acc: Versions): Memo
    requires n <= |tiers|
  {
    if n == 0 then Memo(acc, None)
    else
      var before := VisitTiers(build, fields, tiers, n - 1, acc);
      if before.error.Some? then before
      else match VisitTier(build, fields, tiers[n - 1], before.versions)
        case Err(e) => Memo(before.versions, Some(e))
        case Ok(vs) => Memo(vs, None)
  }

  /** The outer loop over the first `m` records, starting from an empty dict. */
  function VisitRecords(build: Builder, records: seq<Record>, m: nat, tiers: seq<(string, string)>): Memo
    requires m <= |records|
  {
    if m == 0 then Memo([], None)
    else
      var before := VisitRecords(build, records, m - 1, tiers);
      if before.error.Some? then before
      else VisitTiers(build, records[m - 1].fields, tiers, |tiers|, before.versions)
  }

  /** A computation of `versions` on an empty memo: master tiers first, then asset tiers. */
  function VersionsRun(c: Codecs, master: Record, asset: Record): Memo {
    match ItemType(c, master)
    case Err(e) => Memo([], Some(e))
    case Ok(t) => VisitRecords(Builds(c, master), [master, asset], 2, Tiers(t))
  }

  /** No two tiers of a table share a version name. */
  predicate DistinctNames(tiers: seq<(string, string)>) {
    forall i, j :: 0 <= i < j < |tiers| ==> tiers[i].0 != tiers[j].0
  }

  lemma TablesDistinct()
    ensures DistinctNames(PhotoVersions) && DistinctNames(VideoVersions)
  {
  }

  /** What the first `n` tiers of one record leave under the version name `k`, given what it held before. */
  function TierEntry(build: Builder, fields: Entries, tiers: seq<(string, string)>, n: nat, k: string,
                     before: Option<Version>): Option<Version>
  {
    match Find(tiers, k)
    case Some(j) =>
      if j < n && HasKey(fields, tiers[j].1 + "Res") && build(fields, tiers[j].1).Ok? then
        Some(build(fields, tiers[j].1).value)
      else before
    case None => before
  }

  /**
   * After the first `n` tiers of a record with distinct names, the name `k` holds the version built
   * from its tier when the record has `{prefix}Res`, and what it held before otherwise.
   */
  lemma {:induction false} VisitTiersGet(build: Builder, fields: Entries, tiers: seq<(string, string)>,
                                         n: nat, acc: Versions, k: string)
    requires n <= |tiers| && DistinctNames(tiers)
    requires VisitTiers(build, fields, tiers, n, acc).error.None?
    ensures Get(VisitTiers(build, fields, tiers, n, acc).versions, k)
      == TierEntry(build, fields, tiers, n, k, Get(acc, k))
  {
    if n > 0 {
      var before := VisitTiers(build, fields, tiers, n - 1, acc);
      VisitTiersGet(build, fields, tiers, n - 1, acc, k);
      var tier := tiers[n - 1];
      if HasKey(fields, tier.1 + "Res") {
        var v := build(fields, tier.1).value;
        assert VisitTiers(build, fields, tiers, n, acc).versions == Put(before.versions, tier.0, v);
        GetPut(before.versions, tier.0, v, k);
        if tier.0 == k {
          assert Find(tiers, k) == Some(n - 1);
        }
      } else {
        assert VisitTiers(build, fields, tiers, n, acc).versions == before.versions;
      }
    }
  }

  /** A run without an exception built every tier whose `{prefix}Res` field is present. */
  lemma {:induction false} VisitTiersBuilt(build: Builder, fields: Entries, tiers: seq<(string, string)>,
                                           n: nat, acc: Versions)
    requires n <= |tiers|
    requires VisitTiers(build, fields, tiers, n, acc).error.None?
    ensures forall j :: 0 <= j < n && HasKey(fields, tiers[j].1 + "Res") ==> build(fields, tiers[j].1).Ok?
  {
    if n > 0 {
      VisitTiersBuilt(build, fields, tiers, n - 1, acc);
    }
  }

  /**
   * A version name is present exactly when its tier's `{prefix}Res` field is in the master record
   * or in the asset record, and the asset record's version replaces the master's.
   */
  lemma VersionsGet(c: Codecs, master: Record, asset: Record, k: string)
    requires VersionsRun(c, master, asset).error.None?
    ensures ItemType(c, master).Ok?
    ensures var tiers := Tiers(ItemType(c, master).value);
      var vs := VersionsRun(c, master, asset).versions;
      match Find(tiers, k)
      case None => Get(vs, k).None?
      case Some(j) =>
        var prefix := tiers[j].1;
        && (HasKey(asset.fields, prefix + "Res") ==>
              BuildVersion(c, master, asset.fields, prefix).Ok?
              && Get(vs, k) == Some(BuildVersion(c, master, asset.fields, prefix).value))
        && (!HasKey(asset.fields, prefix + "Res") && HasKey(master.fields, prefix + "Res") ==>
              BuildVersion(c, master, master.fields, prefix).Ok?
              && Get(vs, k) == Some(BuildVersion(c, master, master.fields, prefix).value))
        && (!HasKey(asset.fields, prefix + "Res") && !HasKey(master.fields, prefix + "Res") ==> Get(vs, k).None?)
  {
    var tiers := Tiers(ItemType(c, master).value);
    var build := Builds(c, master);
    TablesDistinct();
    var records := [master, asset];
    var first := VisitRecords(build, records, 1, tiers);
    assert VisitRecords(build, records, 0, tiers) == Memo([], None);
    assert first == VisitTiers(build, master.fields, tiers, |tiers|, []);
    assert VisitRecords(build, records, 2, tiers) == VisitTiers(build, asset.fields, tiers, |tiers|, first.versions);
    VisitTiersGet(build, master.fields, tiers, |tiers|, [], k);
    VisitTiersGet(build, asset.fields, tiers, |tiers|, first.versions, k);
    VisitTiersBuilt(build, master.fields, tiers, |tiers|, []);
    VisitTiersBuilt(build, asset.fields, tiers, |tiers|, first.versions);
  }

  /** `location` and `mediaMetaData`: the second reading, of the value itself. */
  function ParseRaw(c: Codecs, value: Value): Value {
    match c.bplist(value)
    case Parsed(v) => v
    case _ => VNone
  }

  /**
   * `location` and `mediaMetaData`: `fields.get(key, {}).get("value")`, when truthy, base64-decoded
   * and read as a property list; failing that (any exception) the value itself is read as one;
   * failing that `None`.
   */
  function DecodeTwice(c: Codecs, fields: Entries, key: string): Result<Value, Error> {
    var value :- DictGet(GetOr(fields, key, VDict([])), "value", VNone);
    if !Truthy(value) then Ok(VNone)
    else match c.b64decode(value)
      case None => Ok(ParseRaw(c, value))
      case Some(raw) =>
        match c.bplist(VBytes(raw))
        case Parsed(v) => Ok(v)
        case _ => Ok(ParseRaw(c, value))
  }

  /**
   * The decoding falls back from the base64-decoded bytes to the raw value and then to `None`; it
   * raises only when the field is present but is not a dict (`AttributeError` from `.get`). An
   * absent field, or one whose `value` is absent or falsy, gives `None`.
   */
  lemma DecodeTwiceSpec(c: Codecs, fields: Entries, key: string)
    ensures DecodeTwice(c, fields, key).Err? <==> HasKey(fields, key) && !GetOr(fields, key, VNone).VDict?
    ensures DecodeTwice(c, fields, key).Err? ==> DecodeTwice(c, fields, key).error == AttributeError
    ensures forall es :: Get(fields, key) == Some(VDict(es)) && !Truthy(GetOr(es, "value", VNone)) ==>
      DecodeTwice(c, fields, key) == Ok(VNone)
    ensures forall es, value :: Get(fields, key) == Some(VDict(es)) && Get(es, "value") == Some(value) && Truthy(value) ==>
      DecodeTwice(c, fields, key) == Ok(
        if c.b64decode(value).Some? && c.bplist(VBytes(c.b64decode(value).value)).Parsed? then
          c.bplist(VBytes(c.b64decode(value).value)).value
        else if c.bplist(value).Parsed? then c.bplist(value).value
        else VNone)
    ensures !HasKey(fields, key) ==> DecodeTwice(c, fields, key) == Ok(VNone)
  {
  }

  function Location(c: Codecs, asset: Record): Result<Value, Error> {
    DecodeTwice(c, asset.fields, "locationEnc")
  }

  function MediaMetaData(c: Codecs, master: Record): Result<Value, Error> {
    DecodeTwice(c, master.fields, "mediaMetaDataEnc")
  }

  /**
   * `latitude` (`"lat"`, `"Latitude"`) and `longitude` (`"lon"`, `"Longitude"`): the second item of
   * the location's entry when the location is truthy, else of the `{GPS}` entry of the media
   * metadata when there is one, else `None`.
   */
  function Coordinate(c: Codecs, master: Record, asset: Record, locKey: string, gpsKey: string): Result<Value, Error> {
    var location :- Location(c, asset);
    if Truthy(location) then
      var pair :- Index(location, locKey);
      Item(pair, 1)
    else
      var metadata :- MediaMetaData(c, master);
      if !Truthy(metadata) then Ok(VNone)
      else
        var gps :- DictGet(metadata, "{GPS}", VNone);
        if !Truthy(gps) then Ok(VNone)
        else
          var coord :- DictGet(gps, gpsKey, VNone);
          if Truthy(coord) then Item(coord, 1) else Ok(VNone)
  }

  function Latitude(c: Codecs, master: Record, asset: Record): Result<Value, Error> {
    Coordinate(c, master, asset, "lat", "Latitude")
  }

  function Longitude(c: Codecs, master: Record, asset: Record): Result<Value, Error> {
    Coordinate(c, master, asset, "lon", "Longitude")
  }

  /**
   * A truthy location decides the coordinate, whatever the metadata holds: the second item of its
   * entry (with `IndexError` or `TypeError` when the entry has no second item), or `KeyError`
   * when it has none.
   */
  lemma CoordinatePrecedence(c: Codecs, master: Record, asset: Record, locKey: string, gpsKey: string)
    ensures Location(c, asset).Ok? && Truthy(Location(c, asset).value) ==>
      forall master' :: Coordinate(c, master', asset, locKey, gpsKey) == Coordinate(c, master, asset, locKey, gpsKey)
    ensures forall es, items ::
      (Location(c, asset) == Ok(VDict(es)) && Get(es, locKey) == Some(VList(items)) && 2 <= |items|)
      ==> Coordinate(c, master, asset, locKey, gpsKey) == Ok(items[1])
    ensures forall es :: Location(c, asset) == Ok(VDict(es)) && es != [] && !HasKey(es, locKey) ==>
      Coordinate(c, master, asset, locKey, gpsKey) == Err(KeyError(VStr(locKey)))
    ensures forall es, e ::
      (Location(c, asset) == Ok(VDict(es)) && Get(es, locKey) == Some(e))
      ==> Coordinate(c, master, asset, locKey, gpsKey) == Item(e, 1)
  {
  }

  /**
   * Without a truthy location the metadata's `{GPS}` entry decides the coordinate: the second item
   * of its truthy entry, as `Item` gives it; with no truthy metadata, no truthy `{GPS}` entry or no truthy entry in it, `None`.
   */
  lemma CoordinateFromMetadata(c: Codecs, master: Record, asset: Record, locKey: string, gpsKey: string)
    requires Location(c, asset).Ok? && !Truthy(Location(c, asset).value)
    ensures MediaMetaData(c, master).Ok? && !Truthy(MediaMetaData(c, master).value) ==>
      Coordinate(c, master, asset, locKey, gpsKey) == Ok(VNone)
    ensures forall md :: (MediaMetaData(c, master) == Ok(VDict(md)) && md != []
      && !Truthy(GetOr(md, "{GPS}", VNone))) ==> Coordinate(c, master, asset, locKey, gpsKey) == Ok(VNone)
    ensures forall md, gps :: (MediaMetaData(c, master) == Ok(VDict(md)) && Get(md, "{GPS}") == Some(VDict(gps))
      && gps != [] && !Truthy(GetOr(gps, gpsKey, VNone))) ==> Coordinate(c, master, asset, locKey, gpsKey) == Ok(VNone)
    ensures forall md, gps, items ::
      (MediaMetaData(c, master) == Ok(VDict(md)) && Get(md, "{GPS}") == Some(VDict(gps))
       && Get(gps, gpsKey) == Some(VList(items)) && 2 <= |items|)
      ==> Coordinate(c, master, asset, locKey, gpsKey) == Ok(items[1])
    ensures forall md, gps, e ::
      (MediaMetaData(c, master) == Ok(VDict(md)) && Get(md, "{GPS}") == Some(VDict(gps))
       && Get(gps, gpsKey) == Some(e) && Truthy(e))
      ==> Coordinate(c, master, asset, locKey, gpsKey) == Item(e, 1)
  {
  }

  /** A location holding both entries gives both coordinates from it. */
  lemma LocationCoordinates(c: Codecs, master: Record, asset: Record, latRef: Value, lat: Value, lonRef: Value, lon: Value)
    requires Location(c, asset) == Ok(VDict([("lat", VList([latRef, lat])), ("lon", VList([lonRef, lon]))]))
    ensures Latitude(c, master, asset) == Ok(lat)
    ensures Longitude(c, master, asset) == Ok(lon)
  {
    var es := [("lat", VList([latRef, lat])), ("lon", VList([lonRef, lon]))];
    assert Find(es, "lat") == Some(0);
    assert Find(es, "lon") == Some(1);
    CoordinatePrecedence(c, master, asset, "lat", "Latitude");
    CoordinatePrecedence(c, master, asset, "lon", "Longitude");
  }

  /** The raw `locationLatitude` and `locationLongitude` fields never decide a coordinate. */
  lemma RawFieldsIgnored(c: Codecs, master: Record, asset: Record, locKey: string, gpsKey: string, raw: string, x: Value)
    requires raw == "locationLatitude" || raw == "locationLongitude"
    ensures Coordinate(c, master, asset.(fields := Put(asset.fields, raw, x)), locKey, gpsKey)
      == Coordinate(c, master, asset, locKey, gpsKey)
  {
    GetPut(asset.fields, raw, x, "locationEnc");
  }

  /** `isHidden` and `isFavorite`: the field's `value` when the field is truthy, else `None`. */
  function Flag(asset: Record, key: string): Result<Value, Error> {
    if Truthy(GetOr(asset.fields, key, VNone)) then Index(GetOr(asset.fields, key, VDict([])), "value")
    else Ok(VNone)
  }

  function IsHidden(asset: Record): Result<Value, Error> {
    Flag(asset, "isHidden")
  }

  function IsFavorite(asset: Record): Result<Value, Error> {
    Flag(asset, "isFavorite")
  }

  /**
   * An absent or falsy field gives `None`; a dict field whose `value` is `v` gives `v`; a truthy field that is
   * not a dict raises `TypeError`, and a dict without `value` raises `KeyError`.
   */
  lemma FlagSpec(asset: Record, key: string)
    ensures !Truthy(GetOr(asset.fields, key, VNone)) ==> Flag(asset, key) == Ok(VNone)
    ensures forall es, v :: Get(asset.fields, key) == Some(VDict(es)) && Get(es, "value") == Some(v) ==>
      Flag(asset, key) == Ok(v)
    ensures Truthy(GetOr(asset.fields, key, VNone)) && !GetOr(asset.fields, key, VNone).VDict? ==>
      Flag(asset, key) == Err(TypeError)
    ensures Truthy(GetOr(asset.fields, key, VNone)) && GetOr(asset.fields, key, VNone).VDict?
      && !HasKey(GetOr(asset.fields, key, VNone).entries, "value")
      ==> Flag(asset, key) == Err(KeyError(VStr("value")))
  {
  }

  class PhotoAsset {
    const master: Record
    const asset: Record
    /** `_versions`: empty until a run stores something. */
    var versions: Versions

    constructor (master: Record, asset: Record)
      ensures this.master == master && this.asset == asset && versions == []
    {
      this.master := master;
      this.asset := asset;
      versions := [];
    }

    /**
     * `versions`: a non-empty memo is returned as it is; otherwise the memo is filled in place, so
     * an exception part-way leaves what was stored before it.
     */
    method Versions(c: Codecs) returns (r: Result<Versions, Error>)
      modifies this
      ensures old(versions) != [] ==> versions == old(versions) && r == Ok(versions)
      ensures old(versions) == [] ==>
        && versions == VersionsRun(c, master, asset).versions
        && r == (if VersionsRun(c, master, asset).error.Some? then Err(VersionsRun(c, master, asset).error.value)
                 else Ok(versions))
    {
      if versions != [] {
        return Ok(versions);
      }
      versions := [];
      var itemType := ItemType(c, master);
      if itemType.Err? {
        return Err(itemType.error);
      }
      var tiers := Tiers(itemType.value);
      var records := [master, asset];
      var m := 0;
      while m < |records|
        invariant 0 <= m <= |records|
        invariant VisitRecords(Builds(c, master), records, m, tiers) == Memo(versions, None)
      {
        var error := VisitRecord(c, records[m].fields, tiers);
        if error.Some? {
          VisitRecordsStops(Builds(c, master), records, m + 1, tiers);
          return Err(error.value);
        }
        m := m + 1;
      }
      r := Ok(versions);
    }

    /** The inner loop: the tiers of one record, stored into the memo one by one. */
    method VisitRecord(c: Codecs, fields: Entries, tiers: seq<(string, string)>) returns (error: Option<Error>)
      modifies this
      ensures VisitTiers(Builds(c, master), fields, tiers, |tiers|, old(versions)) == Memo(versions, error)
    {
      ghost var start := versions;
      var n := 0;
      while n < |tiers|
        invariant 0 <= n <= |tiers|
        invariant VisitTiers(Builds(c, master), fields, tiers, n, start) == Memo(versions, None)
      {
        error := StoreTier(c, fields, tiers[n]);
        if error.Some? {
          VisitTiersStops(Builds(c, master), fields, tiers, n + 1, start);
          return;
        }
        n := n + 1;
      }
      error := None;
    }

    /** One tier of one record: when `{prefix}Res` is present, the version is built and stored. */
    method StoreTier(c: Codecs, fields: Entries, tier: (string, string)) returns (error: Option<Error>)
      modifies this
      ensures match VisitTier(Builds(c, master), fields, tier, old(versions))
        case Ok(vs) => error.None? && versions == vs
        case Err(e) => error == Some(e) && versions == old(versions)
    {
      error := None;
      if HasKey(fields, tier.1 + "Res") {
        var version := BuildVersion(c, master, fields, tier.1);
        if version.Err? {
          return Some(version.error);
        }
        versions := Put(versions, tier.0, version.value);
      }
    }
  }

  /** Once a tier fails, the later tiers are not visited. */
  lemma {:induction false} VisitTiersStops(build: Builder, fields: Entries, tiers: seq<(string, string)>,
                                           n: nat, acc: Versions)
    requires 0 < n <= |tiers| && VisitTiers(build, fields, tiers, n, acc).error.Some?
    ensures VisitTiers(build, fields, tiers, |tiers|, acc) == VisitTiers(build, fields, tiers, n, acc)
    decreases |tiers| - n
  {
    if n < |tiers| {
      VisitTiersStops(build, fields, tiers, n + 1, acc);
    }
  }

  /** Once a record fails, the later records are not visited. */
  lemma {:induction false} VisitRecordsStops(build: Builder, records: seq<Record>, m: nat,
                                             tiers: seq<(string, string)>)
    requires 0 < m <= |records| && VisitRecords(build, records, m, tiers).error.Some?
    ensures VisitRecords(build, records, |records|, tiers) == VisitRecords(build, records, m, tiers)
    decreases |records| - m
  {
    if m < |records| {
      VisitRecordsStops(build, records, m + 1, tiers);
    }
  }
}
