/**
 * `PhotoLibrary`: the indexing-state check made when a library is opened, and the `albums` memo,
 * which lays the user's folders over the table of smart folders.
 */
module Library {
  import opened Wrappers
  import opened Values
  import opened Album

  /** One row of `SMART_FOLDERS`; a `query_filter` of `None` is the empty list. */
  datatype SmartFolder = SmartFolder(objType: string, listType: string, direction: string, queryFilter: seq<Filter>)

  function SmartAlbum(kind: string): seq<Filter> {
    [Filter("smartAlbum", "EQUALS", Typed("STRING", VStr(kind)))]
  }

  /** `SMART_FOLDERS`, in its order. */
  const SmartFolders: seq<(string, SmartFolder)> := [
    ("All Photos", SmartFolder("CPLAssetByAssetDateWithoutHiddenOrDeleted",
       "CPLAssetAndMasterByAssetDateWithoutHiddenOrDeleted", "ASCENDING", [])),
    ("Time-lapse", SmartFolder("CPLAssetInSmartAlbumByAssetDate:Timelapse",
       "CPLAssetAndMasterInSmartAlbumByAssetDate", "ASCENDING", SmartAlbum("TIMELAPSE"))),
    ("Videos", SmartFolder("CPLAssetInSmartAlbumByAssetDate:Video",
       "CPLAssetAndMasterInSmartAlbumByAssetDate", "ASCENDING", SmartAlbum("VIDEO"))),
    ("Slo-mo", SmartFolder("CPLAssetInSmartAlbumByAssetDate:Slomo",
       "CPLAssetAndMasterInSmartAlbumByAssetDate", "ASCENDING", SmartAlbum("SLOMO"))),
    ("Bursts", SmartFolder("CPLAssetBurstStackAssetByAssetDate",
       "CPLBurstStackAssetAndMasterByAssetDate", "ASCENDING", [])),
    ("Favorites", SmartFolder("CPLAssetInSmartAlbumByAssetDate:Favorite",
       "CPLAssetAndMasterInSmartAlbumByAssetDate", "ASCENDING", SmartAlbum("FAVORITE"))),
    ("Panoramas", SmartFolder("CPLAssetInSmartAlbumByAssetDate:Panorama",
       "CPLAssetAndMasterInSmartAlbumByAssetDate", "ASCENDING", SmartAlbum("PANORAMA"))),
    ("Portrait", SmartFolder("CPLAssetInSmartAlbumByAssetDate:Portrait",
       "CPLAssetAndMasterInSmartAlbumByAssetDate", "ASCENDING", SmartAlbum("DEPTH"))),
    ("Screenshots", SmartFolder("CPLAssetInSmartAlbumByAssetDate:Screenshot",
       "CPLAssetAndMasterInSmartAlbumByAssetDate", "ASCENDING", SmartAlbum("SCREENSHOT"))),
    ("Live", SmartFolder("CPLAssetInSmartAlbumByAssetDate:Live",
       "CPLAssetAndMasterInSmartAlbumByAssetDate", "ASCENDING", SmartAlbum("LIVE"))),
    ("Recently Deleted", SmartFolder("CPLAssetDeletedByExpungedDate",
       "CPLAssetAndMasterDeletedByExpungedDate", "ASCENDING", [])),
    ("Hidden", SmartFolder("CPLAssetHiddenByAssetDate",
       "CPLAssetAndMasterHiddenByAssetDate", "ASCENDING", []))]

  /** The album built for a smart folder: the library's zone and sharing, no folder record. */
  function SmartConfig(entry: (string, SmartFolder), zoneID: Value, shared: bool): AlbumConfig {
    MakeConfig(entry.0, entry.1.listType, entry.1.objType, entry.1.direction, entry.1.queryFilter,
               DefaultPageSize, zoneID, None, shared)
  }

  /** The dict comprehension over `SMART_FOLDERS` (its names are distinct, so it appends). */
  function SmartAlbums(zoneID: Value, shared: bool): (r: seq<(string, AlbumConfig)>)
    ensures |r| == |SmartFolders|
    ensures forall i :: 0 <= i < |r| ==> r[i].0 == SmartFolders[i].0 && r[i].1.name == SmartFolders[i].0
  {
    seq(|SmartFolders|, i requires 0 <= i < |SmartFolders| => (SmartFolders[i].0, SmartConfig(SmartFolders[i], zoneID, shared)))
  }

  /** The two folder records that stand for the roots of the folder tree. */
  predicate IsRoot(recordName: string) {
    recordName == "----Root-Folder----" || recordName == "----Project-Root-Folder----"
  }

  /** `folder["fields"].get("isDeleted") and folder["fields"]["isDeleted"]["value"]`. */
  function IsDeleted(folder: Record): Result<bool, Error> {
    var entry := GetOr(folder.fields, "isDeleted", VNone);
    if !Truthy(entry) then Ok(false)
    else
      var flag :- Index(entry, "value");
      Ok(Truthy(flag))
  }

  /** The album for one folder record, `None` when the folder is skipped. */
  function FolderAlbum(c: Codecs, folder: Record, zoneID: Value): Result<Option<AlbumConfig>, Error> {
    if !HasKey(folder.fields, "albumNameEnc") then Ok(None)
    else
      var deleted :- if IsRoot(folder.recordName) then Ok(true) else IsDeleted(folder);
      if deleted then Ok(None)
      else
        var enc :- DictGet(GetOr(folder.fields, "albumNameEnc", VDict([])), "value", VNone);
        var raw :- DecodeBase64(c, enc);
        var name :- DecodeUtf8(c, raw);
        var id := folder.recordName;
        Ok(Some(MakeConfig(name, "CPLContainerRelationLiveByAssetDate",
                           "CPLContainerRelationNotDeletedByAssetDate:" + id, "ASCENDING",
                           [Filter("parentId", "EQUALS", Typed("STRING", VStr(id)))],
                           DefaultPageSize, zoneID, Some(folder), false)))
  }

  /**
   * A folder is skipped exactly when it has no `albumNameEnc`, is one of the two roots, or has a
   * truthy `isDeleted` whose value is truthy; a kept folder gives an ascending album named after its
   * decoded name that lists the assets whose `parentId` is the folder's record name.
   */
  lemma FolderAlbumSpec(c: Codecs, folder: Record, zoneID: Value)
    ensures FolderAlbum(c, folder, zoneID) == Ok(None) <==>
      !HasKey(folder.fields, "albumNameEnc") || IsRoot(folder.recordName) || IsDeleted(folder) == Ok(true)
    ensures FolderAlbum(c, folder, zoneID).Ok? && FolderAlbum(c, folder, zoneID).value.Some? ==>
      var cfg := FolderAlbum(c, folder, zoneID).value.value;
      && HasKey(folder.fields, "albumNameEnc") && !IsRoot(folder.recordName) && IsDeleted(folder) == Ok(false)
      && cfg.folder == Some(folder) && !cfg.shared && cfg.direction == "ASCENDING"
      && cfg.objType == "CPLContainerRelationNotDeletedByAssetDate:" + folder.recordName
      && cfg.queryFilter == [Filter("parentId", "EQUALS", Typed("STRING", VStr(folder.recordName)))]
      && DictGet(GetOr(folder.fields, "albumNameEnc", VDict([])), "value", VNone).Ok?
      && var enc := DictGet(GetOr(folder.fields, "albumNameEnc", VDict([])), "value", VNone).value;
      && DecodeBase64(c, enc).Ok? && DecodeUtf8(c, DecodeBase64(c, enc).value) == Ok(cfg.name)
  {
  }

  /** The albums memo after a run, and the exception that stopped the run if one did. */
  datatype Listing = Listing(albums: seq<(string, AlbumConfig)>, error: Option<Error>)

  /** The loop over the first `n` folder records: each kept folder is assigned under its name. */
  function AddFolders(c: Codecs, folders: seq<Record>, n: nat, zoneID: Value, acc: seq<(string, AlbumConfig)>): Listing
    requires n <= |folders|
  {
    if n == 0 then Listing(acc, None)
    else
      var before := AddFolders(c, folders, n - 1, zoneID, acc);
      if before.error.Some? then before
      else match FolderAlbum(c, folders[n - 1], zoneID)
        case Err(e) => Listing(before.albums, Some(e))
        case Ok(None) => before
        case Ok(Some(cfg)) => Listing(Put(before.albums, cfg.name, cfg), None)
  }

  /**
   * A computation of `albums` on an empty memo: the smart folders are stored first, then the folder
   * records are fetched and added.
   */
  function AlbumsRun(c: Codecs, folders: Result<seq<Record>, Error>, zoneID: Value, shared: bool): Listing {
    var smart := SmartAlbums(zoneID, shared);
    match folders
    case Err(e) => Listing(smart, Some(e))
    case Ok(fs) => AddFolders(c, fs, |fs|, zoneID, smart)
  }

  /** The album of the last kept folder among the first `n` whose name is `k`. */
  function LastFolderNamed(c: Codecs, folders: seq<Record>, n: nat, zoneID: Value, k: string): Option<AlbumConfig>
    requires n <= |folders|
  {
    if n == 0 then None
    else match FolderAlbum(c, folders[n - 1], zoneID)
      case Ok(Some(cfg)) => if cfg.name == k then Some(cfg) else LastFolderNamed(c, folders, n - 1, zoneID, k)
      case _ => LastFolderNamed(c, folders, n - 1, zoneID, k)
  }

  /**
   * Folders are layered over what was there: a name holds the album of the last kept folder with
   * that name, and what it held before when no kept folder has it; every earlier name keeps its
   * position.
   */
  lemma {:induction false} AddFoldersGet(c: Codecs, folders: seq<Record>, n: nat, zoneID: Value,
                                         acc: seq<(string, AlbumConfig)>, k: string)
    requires n <= |folders|
    requires AddFolders(c, folders, n, zoneID, acc).error.None?
    ensures var r := AddFolders(c, folders, n, zoneID, acc).albums;
      && Get(r, k) == (if LastFolderNamed(c, folders, n, zoneID, k).Some? then LastFolderNamed(c, folders, n, zoneID, k)
                       else Get(acc, k))
      && |r| >= |acc| && (forall i :: 0 <= i < |acc| ==> r[i].0 == acc[i].0)
  {
    if n > 0 {
      var before := AddFolders(c, folders, n - 1, zoneID, acc);
      AddFoldersGet(c, folders, n - 1, zoneID, acc, k);
      match FolderAlbum(c, folders[n - 1], zoneID)
      case Ok(Some(cfg)) =>
        assert AddFolders(c, folders, n, zoneID, acc).albums == Put(before.albums, cfg.name, cfg);
        GetPut(before.albums, cfg.name, cfg, k);
        PutKeys(before.albums, cfg.name, cfg);
      case Ok(None) =>
        assert AddFolders(c, folders, n, zoneID, acc).albums == before.albums;
      case Err(_) =>
    }
  }

  /**
   * After a complete run, the smart folders come first and in table order; a smart folder's name
   * holds the last kept folder of that name if there is one and the smart album otherwise; any
   * other name holds the last kept folder of that name or is absent.
   */
  lemma AlbumsLayering(c: Codecs, folders: seq<Record>, zoneID: Value, shared: bool, k: string)
    requires AlbumsRun(c, Ok(folders), zoneID, shared).error.None?
    ensures var r := AlbumsRun(c, Ok(folders), zoneID, shared).albums;
      && |r| >= |SmartFolders| && (forall i :: 0 <= i < |SmartFolders| ==> r[i].0 == SmartFolders[i].0)
      && Get(r, k) == (if LastFolderNamed(c, folders, |folders|, zoneID, k).Some?
                       then LastFolderNamed(c, folders, |folders|, zoneID, k)
                       else Get(SmartAlbums(zoneID, shared), k))
  {
    AddFoldersGet(c, folders, |folders|, zoneID, SmartAlbums(zoneID, shared), k);
  }

  /** `response["records"][0]["fields"]["state"]["value"]` must be `"FINISHED"`. */
  function CheckIndexing(response: Value): Result<(), Error> {
    var records :- Index(response, "records");
    var first :- Item(records, 0);
    var fields :- Index(first, "fields");
    var state :- Index(fields, "state");
    var value :- Index(state, "value");
    if value == VStr("FINISHED") then Ok(()) else Err(NotActivated)
  }

  /** A dict's binding for `k`; nothing for a value that is not a dict. */
  function Field(v: Value, k: string): Option<Value> {
    if v.VDict? then Get(v.entries, k) else None
  }

  /** The first element of a non-empty list or tuple. */
  function FirstElement(v: Value): Option<Value> {
    match v
    case VList(xs) => if xs == [] then None else Some(xs[0])
    case VTuple(xs) => if xs == [] then None else Some(xs[0])
    case _ => None
  }

  /** The indexing state the answer reports, when it has one where it is looked up. */
  function IndexState(response: Value): Option<Value> {
    var records :- Field(response, "records");
    var first :- FirstElement(records);
    var fields :- Field(first, "fields");
    var state :- Field(fields, "state");
    Field(state, "value")
  }

  /**
   * Opening succeeds exactly when the answer reports the state `FINISHED`; any other reported state
   * raises `PyiCloudServiceNotActivatedException`, and an answer without a state raises a lookup
   * error instead.
   */
  lemma CheckIndexingSpec(response: Value)
    ensures CheckIndexing(response).Ok? <==> IndexState(response) == Some(VStr("FINISHED"))
    ensures IndexState(response).Some? && IndexState(response).value != VStr("FINISHED") ==>
      CheckIndexing(response) == Err(NotActivated)
    ensures IndexState(response).None? ==>
      && CheckIndexing(response).Err?
      && (CheckIndexing(response).error.KeyError? || CheckIndexing(response).error in {TypeError, IndexError})
  {
  }

  /** A missing `records` key and an empty record list are the two first ways the answer can fail. */
  lemma CheckIndexingFailures()
    ensures CheckIndexing(VDict([])) == Err(KeyError(VStr("records")))
    ensures CheckIndexing(VDict([("records", VList([]))])) == Err(IndexError)
  {
  }

  /** The albums as the configurations they were built from. */
  function Layout(albums: seq<(string, PhotoAlbum)>): seq<(string, AlbumConfig)> {
    seq(|albums|, i requires 0 <= i < |albums| => (albums[i].0, albums[i].1.cfg))
  }

  /** Appending an album appends its configuration. */
  lemma LayoutSnoc(albums: seq<(string, PhotoAlbum)>, k: string, a: PhotoAlbum)
    ensures Layout(albums + [(k, a)]) == Layout(albums) + [(k, a.cfg)]
  {
    assert |Layout(albums + [(k, a)])| == |Layout(albums)| + 1;
  }

  lemma {:induction false} LayoutPut(albums: seq<(string, PhotoAlbum)>, k: string, a: PhotoAlbum)
    ensures Layout(Put(albums, k, a)) == Put(Layout(albums), k, a.cfg)
  {
    if albums != [] {
      LayoutCons(albums[0], albums[1..]);
      assert albums == [albums[0]] + albums[1..];
      if albums[0].0 != k {
        LayoutPut(albums[1..], k, a);
        assert Put(albums, k, a) == [albums[0]] + Put(albums[1..], k, a);
        LayoutCons(albums[0], Put(albums[1..], k, a));
      } else {
        LayoutCons((k, a), albums[1..]);
      }
    }
  }

  /** Reading albums as configurations works element by element from the front. */
  lemma LayoutCons(first: (string, PhotoAlbum), rest: seq<(string, PhotoAlbum)>)
    ensures Layout([first] + rest) == [(first.0, first.1.cfg)] + Layout(rest)
  {
    assert |Layout([first] + rest)| == 1 + |Layout(rest)|;
  }

  class PhotoLibrary {
    const zoneID: Value
    const shared: bool
    /** `_albums`: empty until a run stores something. */
    var albums: seq<(string, PhotoAlbum)>

    /** `__init__`: the library opens only when the index answers `FINISHED`. */
    static method Open(response: Value, zoneID: Value, shared: bool) returns (r: Result<PhotoLibrary, Error>)
      ensures CheckIndexing(response).Err? ==> r == Err(CheckIndexing(response).error)
      ensures CheckIndexing(response).Ok? ==>
        r.Ok? && fresh(r.value) && r.value.zoneID == zoneID && r.value.shared == shared && r.value.albums == []
    {
      var state := CheckIndexing(response);
      if state.Err? {
        return Err(state.error);
      }
      var library := new PhotoLibrary(zoneID, shared);
      r := Ok(library);
    }

    constructor (zoneID: Value, shared: bool)
      ensures this.zoneID == zoneID && this.shared == shared && albums == []
    {
      this.zoneID := zoneID;
      this.shared := shared;
      albums := [];
    }

    /**
     * `albums`: a non-empty memo is returned as it is; otherwise the smart folders are stored, then
     * the folders (the answer of `_fetch_folders`) are added in place, so an exception part-way
     * leaves what was stored before it.
     */
    method Albums(c: Codecs, folders: Result<seq<Record>, Error>) returns (r: Result<seq<(string, PhotoAlbum)>, Error>)
      modifies this
      ensures old(albums) != [] ==> albums == old(albums) && r == Ok(albums)
      ensures old(albums) == [] ==>
        var run := AlbumsRun(c, folders, zoneID, shared);
        && Layout(albums) == run.albums
        && r == (if run.error.Some? then Err(run.error.value) else Ok(albums))
    {
      if albums != [] {
        return Ok(albums);
      }
      StoreSmartFolders();
      if folders.Err? {
        return Err(folders.error);
      }
      var error := AddFolderRecords(c, folders.value);
      r := if error.Some? then Err(error.value) else Ok(albums);
    }

    /** The loop over the fetched folder records. */
    method AddFolderRecords(c: Codecs, folders: seq<Record>) returns (error: Option<Error>)
      modifies this
      ensures AddFolders(c, folders, |folders|, zoneID, Layout(old(albums))) == Listing(Layout(albums), error)
    {
      ghost var start := Layout(albums);
      var n := 0;
      while n < |folders|
        invariant 0 <= n <= |folders|
        invariant AddFolders(c, folders, n, zoneID, start) == Listing(Layout(albums), None)
      {
        error := AddFolder(c, folders[n]);
        if error.Some? {
          AddFoldersStops(c, folders, n + 1, zoneID, start);
          return;
        }
        n := n + 1;
      }
      error := None;
    }

    /** One folder record: a kept folder's album is assigned under its name. */
    method AddFolder(c: Codecs, folder: Record) returns (error: Option<Error>)
      modifies this
      ensures match FolderAlbum(c, folder, zoneID)
        case Err(e) => error == Some(e) && albums == old(albums)
        case Ok(None) => error.None? && albums == old(albums)
        case Ok(Some(cfg)) => error.None? && Layout(albums) == Put(Layout(old(albums)), cfg.name, cfg)
    {
      var cfg := FolderAlbum(c, folder, zoneID);
      if cfg.Err? {
        return Some(cfg.error);
      }
      error := None;
      if cfg.value.Some? {
        var album := new PhotoAlbum(cfg.value.value.name, "CPLContainerRelationLiveByAssetDate",
                                    cfg.value.value.objType, "ASCENDING", cfg.value.value.queryFilter,
                                    DefaultPageSize, zoneID, Some(folder), false);
        LayoutPut(albums, album.cfg.name, album);
        albums := Put(albums, album.cfg.name, album);
      }
    }

    /** The dict comprehension over `SMART_FOLDERS`. */
    method StoreSmartFolders()
      modifies this
      ensures Layout(albums) == SmartAlbums(zoneID, shared)
    {
      albums := [];
      var i := 0;
      while i < |SmartFolders|
        invariant 0 <= i <= |SmartFolders|
        invariant Layout(albums) == SmartAlbums(zoneID, shared)[..i]
      {
        var entry := SmartFolders[i];
        var album := new PhotoAlbum(entry.0, entry.1.listType, entry.1.objType, entry.1.direction,
                                    entry.1.queryFilter, DefaultPageSize, zoneID, None, shared);
        LayoutSnoc(albums, entry.0, album);
        albums := albums + [(entry.0, album)];
        i := i + 1;
      }
    }
  }

  /** Once a folder fails, the later folders are not visited. */
  lemma {:induction false} AddFoldersStops(c: Codecs, folders: seq<Record>, n: nat, zoneID: Value,
                                           acc: seq<(string, AlbumConfig)>)
    requires 0 < n <= |folders| && AddFolders(c, folders, n, zoneID, acc).error.Some?
    ensures AddFolders(c, folders, |folders|, zoneID, acc) == AddFolders(c, folders, n, zoneID, acc)
    decreases |folders| - n
  {
    if n < |folders| {
      AddFoldersStops(c, folders, n + 1, zoneID, acc);
    }
  }
}
