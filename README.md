# pyicloud photos core, in Dafny

This project models the photo-library core of pyicloud, a Python client for iCloud web services.
It covers:

- **`PhotoAlbum`** (`pyicloud/services/photos.py`):
  - the paginated join of `CPLMaster` and `CPLAsset` records (`fetch_records`);
  - the page query it sends (`_list_query_gen`);
  - the starting offset (`photos`);
  - the write-once count cache (`__len__`).
- **`PhotoAsset`**, the values derived from one joined master/asset pair:
  - `item_type`;
  - the `versions` memo, which merges quality tiers from both records;
  - `location` / `mediaMetaData`, which are decoded twice with fallbacks;
  - `latitude` / `longitude`;
  - `isHidden` / `isFavorite`.
- **`PhotoLibrary`**: the indexing check made when a library is opened, and the `albums` memo. The memo lays the user's folders over the smart-folder table.
- **`parse_fields`** (`pyicloud/utils/photos.py`), the recursive normaliser of CloudKit field dictionaries.
- **`underscore_to_camelcase`** (`pyicloud/utils/__init__.py`).

Modules:

- `Wrappers`: Option and Result.
- `Values`: the JSON / property-list value type, and Python dict operations on insertion-ordered association lists.
- `Text`: ASCII case mapping, `split`, `join` and `count`.
- `Utils`: `underscore_to_camelcase`.
- `FieldParser`: `parse_fields`.
- `Album`: queries, pages, the fetch loop and `PhotoAlbum`.
- `Asset`: `PhotoAsset`.
- `Library`: `PhotoLibrary`.

The HTTP session is not modelled. Requests become injected functions:

- `Executor` maps a query to the records of the answer.
- `Counter` maps a count lookup to `itemCount`.
- The folder records and the indexing answer are parameters.

Base64, UTF-8/UTF-16 decoding and the binary property-list reader are the four function fields of `Codecs`. The reader answers `Parsed(v)`, `BadMagic` or `OtherError`.

Each imperative part of the source is a method proved against a specification function:

- the fetch `while` loop, the page split, the master/asset pairing and the `parse_fields` loop;
- the nested loops of `versions`;
- the `albums` loops.

Lemmas about those functions state what the source promises.

Two behaviours of the code are modelled as written:

- A master record without an asset in the same page raises `KeyError` and ends iteration (`pyicloud/services/photos.py`, lines 448-453). It is not skipped.
- In `parse_fields`, a property-list error other than a bad magic number propagates out of the call (`pyicloud/utils/photos.py`, lines 15-19). It is not contained per field.

## Model

| member | source | states |
|---|---|---|
| Values.Find | pyicloud/services/photos.py:436 | The lookup behind every `d[k]` and `d.get(k)` on a field dict: position of the first binding of a key, and `None` exactly when no binding has the key |
| Values.Put | pyicloud/utils/photos.py:37 | `parsed[key] = val` (and the same assignment into `_versions` and `_albums`) grows the dict by at most one entry |
| Values.GetPut | pyicloud/services/photos.py:837 | After `self._versions[key] = version` (or any `d[k] = v`), `d[k]` is `v` and every other key reads as before |
| Values.PutKeys | pyicloud/services/photos.py:220 | Assignment keeps every existing key at its position, so only a new key is appended |
| Text.Split | pyicloud/utils/__init__.py:16 | `str.split` always returns at least one part |
| Text.SplitCount | pyicloud/utils/__init__.py:16 | `split(sep)` returns one more part than there are separators |
| Text.JoinSplit | pyicloud/services/photos.py:826-827 | Joining the parts of a split with the separator gives back the string |
| Text.SplitLast | pyicloud/services/photos.py:826-827 | The last part of a split holds no separator; the string is the join of the others, a separator, and the last part |
| Utils.UnderscoreToCamelcase | pyicloud/utils/__init__.py:14-20 | The result is at least one character longer than the number of underscores in the word |
| Utils.Pieces | pyicloud/utils/__init__.py:16-18 | One piece per `_`-separated segment |
| Utils.PiecesShape | pyicloud/utils/__init__.py:16-18 | (underscores + 1) pieces. A non-empty segment is capitalised, or fully lower-cased when it is first and no initial capital is asked for; an empty segment becomes `_` |
| Utils.EmptyWord | pyicloud/utils/__init__.py:16-20 | The empty word maps to `_` |
| Utils.NoUnderscore | pyicloud/utils/__init__.py:16-18 | A non-empty word without `_` and without initial capital maps to `word.lower()` |
| Utils.UnderscoreCount | pyicloud/utils/__init__.py:16-20 | The number of `_` in the result equals the number of empty segments of the input |
| FieldParser.DecodeEnc | pyicloud/utils/photos.py:15-19 | Decoding an `Enc` field never yields a dict with longer atoms than its input, which bounds the recursion |
| FieldParser.StripEnc | pyicloud/utils/photos.py:20 | `key.replace("Enc", "")`: every occurrence removed in one left-to-right scan; its properties are `StripEncSuffix`, `StripEncAppend`, `StripEncNone` and `StripEncOnePass` |
| FieldParser.OutputKey | pyicloud/utils/photos.py:15-20 | The key a field is stored under: the key with `Enc` removed when it ends in `Enc`, else the key itself (`PlainKey`, `StripEncSuffix`, `FilenameKey`) |
| FieldParser.NormalizeValue | pyicloud/utils/photos.py:10-13 | The reference value of one field: the `value` of a dict envelope, else the value itself, handed to `NormalizeUnwrapped`; its cases are the `...Value` lemmas below, and `EnvelopeValue` states that under any key an envelope normalises as its `value` does |
| FieldParser.NormalizeUnwrapped | pyicloud/utils/photos.py:15-35 | The reference for the steps after unwrapping, in the code's order: `Enc` decoding, recursion into dicts, pair reduction, text decoding |
| FieldParser.NormalizeFields | pyicloud/utils/photos.py:5-39 | The reference `parse_fields`: the fold over the items into a fresh dict; `FieldsErr` and `FieldsGet` state its outcome and its keys |
| FieldParser.ParseFields | pyicloud/utils/photos.py:5-39 | The `for` loop over `fields.items()` computes the reference normalisation of the whole mapping, error included |
| FieldParser.ParseEntry | pyicloud/utils/photos.py:10-37 | One entry: the output key is the key with `Enc` stripped, and the value is the normalised value or the error raised for it |
| FieldParser.ParseUnwrapped | pyicloud/utils/photos.py:15-37 | The steps after unwrapping: `Enc` decoding, recursion into dicts, pair reduction and text decoding, in the code's order |
| FieldParser.DecodeEncField | pyicloud/utils/photos.py:15-19 | Base64 then property list; on bad magic, the raw decoded bytes; any other error is raised |
| FieldParser.DecodeBytes | pyicloud/utils/photos.py:28-35 | Bytes become their UTF-8 text, else their UTF-16 text, else stay bytes; other values are unchanged |
| FieldParser.LastIn | pyicloud/utils/photos.py:37 | The last entry whose output key is `k`, or `None` exactly when no entry maps to `k` |
| FieldParser.FieldsErr | pyicloud/utils/photos.py:8-37 | `parse_fields` succeeds iff every entry does; a failure is the first failing entry's error |
| FieldParser.FieldsGet | pyicloud/utils/photos.py:8-37 | An output key exists iff some input key maps to it; its value comes from the last such input key |
| FieldParser.PlainKey | pyicloud/utils/photos.py:15-20 | A key not ending in `Enc` is kept as it is |
| FieldParser.StripEncSuffix | pyicloud/utils/photos.py:15-20 | A key ending in `Enc` loses every occurrence of `Enc`, not only the suffix |
| FieldParser.StripEncAppend | pyicloud/utils/photos.py:20 | Removing the occurrences of `Enc` from `p + "Enc"` equals removing them from `p` |
| FieldParser.StripEncNone | pyicloud/utils/photos.py:20 | A key with no occurrence of `Enc` is unchanged by the removal |
| FieldParser.StripEncOnePass | pyicloud/utils/photos.py:20 | `replace` makes one left-to-right pass: `EEncncEnc` becomes `Enc`, not the empty key |
| FieldParser.PlainValue | pyicloud/utils/photos.py:10-37 | A value that is not a dict, pair or bytes passes through unchanged, whether bare or in a `{value: ...}` envelope |
| FieldParser.DictValue | pyicloud/utils/photos.py:12-23 | A dict without `value` is normalised as a nested field mapping; an envelope holding a dict has that dict normalised |
| FieldParser.PairValue | pyicloud/utils/photos.py:25-35 | A 2-tuple reduces to its text-decoded second element; a dict in second place is not normalised again |
| FieldParser.BytesValue | pyicloud/utils/photos.py:28-35 | Bytes decode as UTF-8, else as UTF-16, else stay bytes |
| FieldParser.EnvelopeValue | pyicloud/utils/photos.py:12-13 | Under any key, a dict whose `value` is `x` (not itself an envelope) normalises exactly as `x` does, whatever else the dict holds: a pair, bytes, a dict or a plain value |
| FieldParser.EncValue | pyicloud/utils/photos.py:10-23 | For `Enc` keys: base64 failure, plist error, bad magic (the decoded bytes, then text-decoded), parsed scalar, or parsed dict (normalised recursively); any dict whose `value` is `x` normalises as `x` does |
| FieldParser.FilenameField | pyicloud/utils/photos.py:5-39 | A `filenameEnc` envelope with non-plist bytes becomes `{"filename": <UTF-8 name>}` |
| FieldParser.FilenameKey | pyicloud/utils/photos.py:15-20 | `filenameEnc` ends in `Enc` and maps to `filename` |
| Album.MakeConfig | pyicloud/services/photos.py:319-347 | A falsy zone becomes `{"zoneName": "PrimarySync"}` and any other is kept; the page size, name and direction are the ones given (callers that omit `page_size` give 100) |
| Album.ListQuery | pyicloud/services/photos.py:457-593 | Filters are `startRank = offset`, then `direction`, then the caller's filters in order; the record type is the list type; twice the page size is asked for; the zone is the album's |
| Album.ReadListQuery | pyicloud/services/photos.py:457-593 | The offset, direction and caller filters can be read back from a generated query (round trip) |
| Album.TypedValueOf | pyicloud/services/photos.py:463-468 | The value of a typed field value reads back as itself |
| Album.PageOf | pyicloud/services/photos.py:432-439 | The reference split of an answer into the asset map and the master list; the `PageOf...` lemmas state its outcome, keys and order |
| Album.PageOfOk | pyicloud/services/photos.py:434-439 | A page splits without error iff every `CPLAsset` has a hashable `masterRef.value.recordName` |
| Album.PageOfMasters | pyicloud/services/photos.py:438-439 | The masters are exactly the `CPLMaster` records, in response order |
| Album.PageOfSnoc | pyicloud/services/photos.py:434-439 | One more record extends the split by that record alone |
| Album.PageOfKeys | pyicloud/services/photos.py:435-437 | A key is in the asset map iff some `CPLAsset` refers to it |
| Album.PageOfLast | pyicloud/services/photos.py:437 | A key maps to the last `CPLAsset` that refers to it: later assets overwrite earlier ones |
| Album.OfTypeSnoc | pyicloud/services/photos.py:438-439 | Selecting by record type distributes over appending one record |
| Album.PageAssets | pyicloud/services/photos.py:434-439 | Every mapped asset is a `CPLAsset` referring to its key; every master is a `CPLMaster`; other record types are ignored |
| Album.PagePairs | pyicloud/services/photos.py:448-453 | Pairing a page's masters with its asset map yields matched pairs only |
| Album.PairUp | pyicloud/services/photos.py:448-453 | Pairs follow master order, each with the asset keyed by its record name; the first master with no asset raises `KeyError` of its name, after the pairs before it |
| Album.AdvanceTwice | pyicloud/services/photos.py:441-446 | Moving the offset by a and then by b equals moving it by a + b, in the album's direction |
| Album.FetchFrom | pyicloud/services/photos.py:417-455 | The reference `while total < limit` loop from a given offset and total; `FetchOffset`, `FetchStops`, `FetchPairs` and `WholePage` state what it yields |
| Album.FetchRecordsOf | pyicloud/services/photos.py:414-416 | The reference `fetch_records`: a truthy limit is used as given, a falsy one is replaced by the album's size, whose lookup failure ends the run |
| Album.PhotosOf | pyicloud/services/photos.py:405-412 | The reference `photos`: from `len - 1` for `DESCENDING` and from 0 otherwise, up to the album's size |
| Album.CacheAfterLookup | pyicloud/services/photos.py:367-403 | The count cache after `len(self)`: a stored size stays, a successful lookup is stored, a failed one leaves it empty |
| Album.FetchOffset | pyicloud/services/photos.py:441-450 | Without error, the final offset moves by exactly the number of yielded masters (down for `DESCENDING`, up otherwise), and `total` grows by the same number |
| Album.FetchStops | pyicloud/services/photos.py:418-455 | Without error, iteration ends only when `total >= limit` or the page at the final offset has no master |
| Album.FetchPairs | pyicloud/services/photos.py:448-453 | Every yielded pair's asset refers to its master |
| Album.WholePage | pyicloud/services/photos.py:448-453 | All of a page's masters are yielded even when `total` passes `limit` part-way |
| Album.PhotoAlbum.constructor | pyicloud/services/photos.py:319-347 | The album keeps its configuration, and its count cache starts empty |
| Album.PhotoAlbum.Len | pyicloud/services/photos.py:367-403 | The first successful count is cached and returned from then on; a failed lookup leaves the cache empty |
| Album.PhotoAlbum.Photos | pyicloud/services/photos.py:405-412 | The start is `len - 1` for `DESCENDING` and 0 otherwise, with the album's length as the limit; afterwards the count cache holds the looked-up size (or what it held before a failed lookup) |
| Album.PhotoAlbum.FetchRecords | pyicloud/services/photos.py:414-418 | A falsy limit (`None` or 0) becomes `len(self)`, which fills an empty cache on success; a truthy limit leaves the cache untouched |
| Album.FetchLoop | pyicloud/services/photos.py:417-455 | The `while` loop yields exactly what the reference fetch yields, from total 0 |
| Album.FetchPage | pyicloud/services/photos.py:419-455 | One iteration either ends the fetch with its outcome, or strictly increases `total` and leaves the rest of the fetch to come |
| Album.PrependTwice | pyicloud/services/photos.py:448-453 | Prepending two batches of pairs in turn equals prepending their concatenation |
| Album.FetchStep | pyicloud/services/photos.py:441-453 | A page with masters yields its pairs and continues from the moved offset with the raised total |
| Album.RequestPage | pyicloud/services/photos.py:419-439 | The request sends the generated query and splits the answer |
| Album.YieldPage | pyicloud/services/photos.py:448-453 | The inner `for` loop yields the pairing of the masters, stopping at the first missing asset |
| Album.PairUpPrefix | pyicloud/services/photos.py:448-453 | The first master without an asset ends the pairing with its `KeyError` |
| Album.PairUpTake | pyicloud/services/photos.py:448-453 | The pairs of a prefix of the masters are a prefix of the pairs |
| Album.PairUpSuffix | pyicloud/services/photos.py:448-453 | Masters after a missing asset are never paired |
| Album.SplitPage | pyicloud/services/photos.py:432-439 | The `for` loop over the records builds the reference page split |
| Album.PageOfFails | pyicloud/services/photos.py:434-437 | Once a record raises, the later records do not change the outcome |
| Asset.Filename | pyicloud/services/photos.py:650-655 | The master's `filenameEnc.value`, base64-decoded and read as UTF-8; a missing key, a bad encoding or bad UTF-8 raises |
| Asset.ItemType | pyicloud/services/photos.py:775-782 | The reference `item_type`, stated by `ItemTypeSpec` and `ListedItemTypes` |
| Asset.ItemTypeSpec | pyicloud/services/photos.py:776-782 | The item type is `image` or `movie`. For any `itemType` field whose `value` is a listed type it is the table entry; for any other hashable value, `image` iff the lowered file name ends in `.heic`, `.png`, `.jpg` or `.jpeg`; an unhashable value raises `TypeError`, a missing field `KeyError` |
| Asset.ListedItemTypes | pyicloud/services/photos.py:612-617 | `public.heic`, `public.jpeg` and `public.png` are images and `com.apple.quicktime-movie` is a movie, whatever else the field holds |
| Asset.Retyped | pyicloud/services/photos.py:826-832 | The `*base, suffix = name.split(".")` renaming, stated by `RetypedSpec` |
| Asset.RetypedSpec | pyicloud/services/photos.py:826-832 | The new name is everything before the last `.`, then `.`, then the type's suffix; an unknown type keeps a name that has a dot; a dotless name gives `.` + suffix, so `abc` with an unknown type becomes `.abc` |
| Asset.BuildVersion | pyicloud/services/photos.py:799-835 | The reference for one version dict, stated by `BuildVersionSpec` and `BuildVersionType` |
| Asset.BuildVersionSpec | pyicloud/services/photos.py:799-835 | A built version has the record's file name; width and height are the optional values of their fields; size and URL come from a truthy `Res` field and are `None` without one; a truthy `FileType` field gives the type and the retyped name, and without one the type is `None` and the name plain |
| Asset.OptionalValueSpec | pyicloud/services/photos.py:803-813 | An absent or falsy field gives `None`; any dict field whose `value` is `w` gives `w` |
| Asset.SizeAndUrlSpec | pyicloud/services/photos.py:815-818 | A `Res` field's size and URL are its `value`'s `size` and `downloadURL`; a missing `value` or `size` raises `KeyError` |
| Asset.BuildVersionType | pyicloud/services/photos.py:821-834 | Without a truthy `FileType` field the type is `None` and the name is the file name; with any dict field whose `value` is `t`, the type is `t` and the name is retyped with `t`'s suffix (kept when `t` is not a listed string) |
| Asset.TablesDistinct | pyicloud/services/photos.py:626-643 | Neither tier table repeats a version name |
| Asset.VisitTiersGet | pyicloud/services/photos.py:796-837 | After one record's tiers, a name holds the version built from that record when `{prefix}Res` is present, and what it held before otherwise |
| Asset.VisitTiersBuilt | pyicloud/services/photos.py:797-837 | A run without exception built every tier whose `{prefix}Res` is present |
| Asset.VersionsGet | pyicloud/services/photos.py:789-837 | The video table is used iff the item type is `movie`. A version name is present iff its `{prefix}Res` is in the master or the asset record, and the asset record's version wins |
| Asset.VersionsRun | pyicloud/services/photos.py:784-839 | The reference run of `versions` on an empty memo: the item type chooses the tier table, then master tiers then asset tiers; stated by `VersionsGet` |
| Asset.DecodeTwice | pyicloud/services/photos.py:673-683 | The reference for the two-step decoding shared by `location` and `mediaMetaData`, stated by `DecodeTwiceSpec` |
| Asset.DecodeTwiceSpec | pyicloud/services/photos.py:673-699 | For any dict field whose `value` is truthy: the plist of its base64 decoding, else the value read as a plist, else `None`; an absent field or a falsy `value` gives `None`; only a field that is present but not a dict raises |
| Asset.Location | pyicloud/services/photos.py:673-683 | The asset's `locationEnc` read by `DecodeTwice` |
| Asset.MediaMetaData | pyicloud/services/photos.py:685-699 | The master's `mediaMetaDataEnc` read by `DecodeTwice` |
| Asset.Coordinate | pyicloud/services/photos.py:701-728 | The reference for `latitude` and `longitude`, stated by `CoordinatePrecedence` and `CoordinateFromMetadata` |
| Asset.Latitude | pyicloud/services/photos.py:701-713 | `Coordinate` with keys `lat` and `Latitude` |
| Asset.Longitude | pyicloud/services/photos.py:715-728 | `Coordinate` with keys `lon` and `Longitude` |
| Asset.CoordinatePrecedence | pyicloud/services/photos.py:701-728 | A truthy location decides the coordinate whatever the master holds: for any location dict holding the entry, the entry's item 1 as `Item` gives it (a list or tuple pair gives its second item, a one-item entry `IndexError`, an entry that cannot be indexed `TypeError`); a location without the entry raises `KeyError` |
| Asset.CoordinateFromMetadata | pyicloud/services/photos.py:707-713 | Without a truthy location: falsy metadata, a falsy `{GPS}` entry or a falsy coordinate entry gives `None`; any truthy coordinate entry of a `{GPS}` dict gives its item 1 as `Item` gives it, with the `IndexError` or `TypeError` of a short or unindexable entry |
| Asset.LocationCoordinates | pyicloud/services/photos.py:701-728 | A location holding both `lat` and `lon` entries gives both coordinates from it |
| Asset.RawFieldsIgnored | pyicloud/services/photos.py:701-728 | Changing `locationLatitude` or `locationLongitude` never changes a coordinate |
| Asset.Flag | pyicloud/services/photos.py:730-738 | The reference for `isHidden` and `isFavorite`, stated by `FlagSpec` |
| Asset.IsHidden | pyicloud/services/photos.py:730-733 | `Flag` on `isHidden` |
| Asset.IsFavorite | pyicloud/services/photos.py:735-738 | `Flag` on `isFavorite` |
| Asset.FlagSpec | pyicloud/services/photos.py:730-738 | An absent or falsy flag gives `None`, and any dict flag whose `value` is `v` gives `v`. A truthy non-dict raises `TypeError`; a dict without `value` raises `KeyError` |
| Asset.PhotoAsset.constructor | pyicloud/services/photos.py:605-610 | An asset keeps its two records, and its versions memo starts empty |
| Asset.PhotoAsset.Versions | pyicloud/services/photos.py:784-839 | A non-empty memo is returned unchanged. An empty memo is refilled in place, master tiers then asset tiers; an exception leaves the versions stored before it |
| Asset.PhotoAsset.VisitRecord | pyicloud/services/photos.py:796-837 | The inner loop over one record's tiers computes the reference fold |
| Asset.PhotoAsset.StoreTier | pyicloud/services/photos.py:797-837 | One tier: with `{prefix}Res` present the version is built and assigned under its name; a failure stores nothing |
| Asset.VisitTiersStops | pyicloud/services/photos.py:796-837 | After a tier raises, later tiers do not change the outcome |
| Asset.VisitRecordsStops | pyicloud/services/photos.py:795-837 | After a record raises, later records do not change the outcome |
| Library.SmartAlbums | pyicloud/services/photos.py:18-176 | One album per smart folder, in table order and under the folder's name |
| Library.FolderAlbum | pyicloud/services/photos.py:181-218 | The reference for one folder record: skipped, failed, or the configuration of its album; stated by `FolderAlbumSpec` |
| Library.FolderAlbumSpec | pyicloud/services/photos.py:179-220 | A folder is skipped iff it lacks `albumNameEnc`, is one of the two roots, or has a truthy `isDeleted.value`. A kept folder gives an ascending, unshared album named by its decoded name, filtered on `parentId` = its record name |
| Library.AddFolders | pyicloud/services/photos.py:179-220 | The reference `for folder in ...` loop over the first n folders, from a given layout; stated by `AddFoldersGet` |
| Library.AddFoldersGet | pyicloud/services/photos.py:179-220 | A name holds the last kept folder with that name, or its earlier album when there is none; earlier names keep their positions |
| Library.AlbumsRun | pyicloud/services/photos.py:164-222 | The reference run of `albums` on an empty memo: smart folders, then the folders; stated by `AlbumsLayering` |
| Library.AlbumsLayering | pyicloud/services/photos.py:167-222 | Smart folders come first, in table order. A folder of the same name replaces a smart folder in place; other folders follow |
| Library.CheckIndexing | pyicloud/services/photos.py:157-162 | The reference check `response["records"][0]["fields"]["state"]["value"] == "FINISHED"`, stated by `CheckIndexingSpec` |
| Library.CheckIndexingSpec | pyicloud/services/photos.py:157-162 | For every answer: the check succeeds iff the state found at `records[0].fields.state.value` is `FINISHED`; any other state raises the not-activated error; an answer without a state there raises a `KeyError`, `IndexError` or `TypeError` |
| Library.CheckIndexingFailures | pyicloud/services/photos.py:157 | An answer without `records` raises `KeyError`; an empty record list raises `IndexError` |
| Library.LayoutPut | pyicloud/services/photos.py:220 | Assigning an album under a name commutes with reading albums as configurations |
| Library.PhotoLibrary.Open | pyicloud/services/photos.py:141-162 | A library is created only when the index check passes; otherwise the check's error is raised |
| Library.PhotoLibrary.constructor | pyicloud/services/photos.py:141-147 | A library keeps its zone and sharing, and its albums memo starts empty |
| Library.PhotoLibrary.Albums | pyicloud/services/photos.py:164-222 | A non-empty memo is returned unchanged. Otherwise the smart folders are stored, then the fetched folders are added in place; an exception leaves what was stored before it |
| Library.PhotoLibrary.AddFolderRecords | pyicloud/services/photos.py:179-220 | The `for` loop over the folder records computes the reference layering |
| Library.PhotoLibrary.AddFolder | pyicloud/services/photos.py:181-220 | One folder: skipped, failed with nothing stored, or assigned under its decoded name |
| Library.PhotoLibrary.StoreSmartFolders | pyicloud/services/photos.py:167-176 | The dict comprehension stores the smart-folder albums in table order |
| Library.AddFoldersStops | pyicloud/services/photos.py:179-220 | After a folder raises, later folders do not change the outcome |

## Left out

- HTTP requests, URLs, JSON serialisation and headers are left out; each request is an injected function or a parameter. The `desiredKeys` list is one such part: it only shapes the server's answer.
- `PhotosService`, `libraries`, `_fetch_folders` and `all` are left out; they are HTTP plumbing and lookups. The folder records are a parameter of `Albums`.
- The binary property-list reader is abstract; it is not part of this model. Base64 and UTF-8/UTF-16 decoding are abstract as well.
  - `FieldParser.DecodeEnc`: its termination argument requires that base64 never lengthens its input, and that a parsed property list has shorter atoms than its input bytes (`Shrinks`). The `bplist00` format's 8-byte header and 32-byte trailer make this true of the real reader.
- `print` diagnostics in `parse_fields`, `location`, `mediaMetaData`, `latitude` and `longitude` are left out; they are console output only.
- Dates are left out: `created`, `asset_date`, `added_date` and `PhotoAlbum.created` use float division and `datetime`.
- `caption`, `description`, `size`, `dimensions`, `id`, `title`, `download`, `delete` and `__repr__` are left out. They are single lookups or HTTP calls outside the core.
- `pyicloud/utils/password.py` is left out: keyring and terminal access only.
- Generator laziness is not modelled. `fetch_records` returns every pair it would yield, the exception that ended iteration (if any), the final offset and the total. A consumer that stops early is not modelled.
- Python dict keys are modelled by their values. `1`, `1.0` and `True` are distinct keys here, unlike in Python. Dicts of string keys (all field dicts) are insertion-ordered association lists.
- Dates and unique-object references produced by the property-list reader have no `Value` variant of their own. They stand as plain truthy atoms, which every code path here treats the same way.
- Case mapping covers ASCII only; Unicode `lower`/`capitalize` is not modelled.
- Records are a `Record` datatype whose record name, record type and fields always exist. A raw answer missing `recordName`, `recordType` or `fields` is not modelled.
- Counts are `nat` (`itemCount` is a non-negative count). A non-integer `limit` is not modelled: limits are `int`.
- `Library.PhotoLibrary.Albums`: the memo holds the `PhotoAlbum` objects. The contract describes them through the configurations they were built with (`Layout`), not through their later count caches.
- `Asset.PhotoAsset.Versions`: the memo is a list of (name, version) pairs in insertion order. A version is a record with the six keys of the source's dict.
- `Library.FolderAlbum`: `base64.b64decode(None)` raises `TypeError` in Python. Here the abstract decoder's failure is `Base64Error`.
- A failed `_fetch_folders` request happens after the smart folders are stored. It is modelled as a `folders` argument that is an error.
