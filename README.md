# Landsat stage chain of the collection builder

This project models the Landsat task of the Brazil Data Cube collection
builder. The task is the chain of stage handlers that takes one Landsat
scene through four stages: download, atmospheric
correction (`correctionLC8`), publish (`publishLC8`) and upload
(`uploadLC8`). Each handler receives a work descriptor (the `scene` dict),
records an execution with `create_execution`, calls an outside party and
writes into the descriptor the next stage, for the scheduler to route.

The model has two layers.

- **A specification function per handler.** `Landsat.DownloadStep`,
  `CorrectionStep`, `PublishStep` and `UploadStep` work on descriptor
  values. Each returns the descriptor the handler leaves, the outside calls
  it makes (`Effect`s, in order) and the exception it raises, if any.
- **The handlers themselves.** `Landsat.LandsatTask` has one method per
  handler over mutable `Scene` and `CollectionItem` objects. Each method
  follows the source's steps in the source's order, and is proved to leave
  exactly the state, call trace and exception that its specification
  function gives.

The answers of the outside parties are fields of a `World` value:
- the store behind `create_execution`;
- `os.path.exists`;
- the downloader;
- `collection_item.save()`;
- the correction service (ESPA);
- the directory listing that `glob` reads;
- the publisher;
- `upload_file`.

What the scene id means is modelled from its parts:
- `str.split` (module `PyStr`);
- `datetime.strptime(_, '%Y%m%d')`, as CPython's regular expression reads
  it, and `strftime` (module `TileDate`);
- the `glob` pattern of `espa_done` (module `Glob`).

Python dicts that hold JSON-like values are `Values.Value`. A `VDict` is an
association list, because `upload` iterates over `values()` in insertion
order.

The download handler never sets the stage it runs in: `create_execution`
(`tasks.py:34`) records the `activity_type` the descriptor arrives with,
and the handler writes only the next stage, `correctionLC8`. The model does
the same (`ExecutionFirst(r.step.effects, d)`), and treats the incoming
activity type as an arbitrary value.

## Model

| member | source | states |
|---|---|---|
| Values.Lookup | bdc_collection_builder/collections/landsat/tasks.py:141 | `dict.get` (line 141), also used for the subscripts of lines 100-101: the value of the first entry with the key, or none (no contract of its own; see LookupMeaning) |
| Values.LookupMeaning | bdc_collection_builder/collections/landsat/tasks.py:141 | `dict.get`: a value is found iff some entry has the key, and the value found is stored under that key |
| Values.Truthy | bdc_collection_builder/collections/landsat/tasks.py:55 | Python truthiness: the falsy values are exactly None, False, zero and the empty string, list and dict |
| SceneId.GetTileId | bdc_collection_builder/collections/landsat/tasks.py:23-25 | the third '_' field of the scene id; the only failure is IndexError |
| SceneId.TileIdFailsIff | bdc_collection_builder/collections/landsat/tasks.py:23-25 | get_tile_id raises exactly when the id holds fewer than two '_' |
| SceneId.TileIdFields | bdc_collection_builder/collections/landsat/tasks.py:23-25 | when the tile id exists, the id is `a_b_<tile><rest>`; a, b and the tile hold no '_'; rest is empty or starts with '_' |
| SceneId.TileIdOfFields | bdc_collection_builder/collections/landsat/tasks.py:23-25 | conversely, for any such `a_b_<tile><rest>`, the tile id is `tile` |
| SceneId.GetTileDate | bdc_collection_builder/collections/landsat/tasks.py:27-30 | a returned date is a valid calendar date; the only failures are IndexError and ValueError |
| SceneId.TileDateIndexErrorIff | bdc_collection_builder/collections/landsat/tasks.py:27-30 | get_tile_date raises IndexError exactly when the id holds fewer than three '_' |
| SceneId.TileDateOfFields | bdc_collection_builder/collections/landsat/tasks.py:27-30 | the fourth field alone decides the date: strptime's date if it accepts the field, ValueError if not |
| SceneId.ExampleTileId | bdc_collection_builder/collections/landsat/tasks.py:23-25 | `LC08_L1TP_223067_20200826_X` has tile 223067 |
| SceneId.ExampleTileDate | bdc_collection_builder/collections/landsat/tasks.py:27-30 | `LC08_L1TP_223067_20200826_X` has date 2020-08-26 |
| TileDate.Strptime | bdc_collection_builder/collections/landsat/tasks.py:30 | strptime '%Y%m%d' returns only valid dates (years 1-9999, existing days) |
| TileDate.StrptimeEightDigits | bdc_collection_builder/collections/landsat/tasks.py:30 | on eight ASCII digits, strptime accepts exactly when YYYY, MM, DD read positionally form a valid date, and returns that date |
| TileDate.StrptimeOfFormat | bdc_collection_builder/collections/landsat/tasks.py:128-130 | reading back `strftime('%Y%m%d')` gives the same date |
| TileDate.FormatOfStrptime | bdc_collection_builder/collections/landsat/tasks.py:128-130 | a padded eight-digit date that strptime accepts is written back unchanged by '%Y%m%d', and '%Y-%m' gives `YYYY-MM` from its first six digits |
| TileDate.StrptimeUnpaddedMonth | bdc_collection_builder/collections/landsat/tasks.py:30 | strptime also accepts an unpadded month: `2020826` is 2020-08-26 |
| TileDate.FormatYmd | bdc_collection_builder/collections/landsat/tasks.py:130 | `strftime('%Y%m%d')` gives eight digits |
| TileDate.FormatYm | bdc_collection_builder/collections/landsat/tasks.py:38 | `strftime('%Y-%m')` is the year and month digits of '%Y%m%d' with a '-' between them |
| PyStr.Split | bdc_collection_builder/collections/landsat/tasks.py:24 | `str.split` with a non-empty separator always yields at least one piece |
| PyStr.SplitJoin | bdc_collection_builder/collections/landsat/tasks.py:24 | joining the pieces of a split with the separator gives back the string |
| PyStr.SplitCount | bdc_collection_builder/collections/landsat/tasks.py:24 | splitting at a character gives one more piece than the character's number of occurrences |
| PyStr.SplitPiecesFree | bdc_collection_builder/collections/landsat/tasks.py:24 | no piece of a split contains the separator |
| PyStr.Replace | bdc_collection_builder/collections/landsat/tasks.py:51 | `str.replace`: a replacement no longer than the pattern never lengthens the string, one no shorter never shortens it |
| PyStr.ReplaceIsJoinOfSplit | bdc_collection_builder/collections/landsat/tasks.py:51 | `str.replace(pat, rep)` equals splitting at pat and joining with rep |
| PyStr.ReplaceLeading | bdc_collection_builder/collections/landsat/tasks.py:100 | removing a leading pattern that does not occur again leaves the rest |
| PyStr.PathJoin | bdc_collection_builder/collections/landsat/tasks.py:44 | `os.path.join(a, b)` ends with the relative part b, and starts with a when b is relative |
| Glob.Match | bdc_collection_builder/collections/landsat/tasks.py:107 | fnmatch over one name: '*' any run, '?' any one character, others themselves (no contract of its own; see LiteralMatch and EspaPatternMeaning) |
| Glob.LiteralMatch | bdc_collection_builder/collections/landsat/tasks.py:107 | a pattern without '*', '?', '[' or '/' matches exactly itself |
| Glob.EspaPattern | bdc_collection_builder/collections/landsat/tasks.py:105 | the file-name template starts with `LC08_*` and ends with `*.tif` |
| Glob.EspaPatternMeaning | bdc_collection_builder/collections/landsat/tasks.py:104-109 | for a literal pathrow and date, a name matches `LC08_*_<pathrow>_<date>_*.tif` iff it starts with `LC08_`, ends with `.tif` and holds `_<pathrow>_<date>_` in between |
| Landsat.EspaDone | bdc_collection_builder/collections/landsat/tasks.py:103-109 | espa_done: some entry of the product directory matches the template; an empty or missing directory is never done |
| Landsat.EspaDoneMeaning | bdc_collection_builder/collections/landsat/tasks.py:104-109 | espa_done holds iff some entry of the product directory has that shape |
| Landsat.EspaDoneWithOutput | bdc_collection_builder/collections/landsat/tasks.py:104-109 | a directory holding any `LC08_<x>_<pathrow>_<date>_<y>.tif` is done |
| Landsat.DownloadDir | bdc_collection_builder/collections/landsat/tasks.py:37-44 | the product directory exists iff the tile date and tile id decode and args['file'] is a string; otherwise the first failure decides the exception: the date's IndexError or ValueError (line 38), then the tile id's IndexError, then TypeError from `os.path.join` for a missing or non-string args['file'] (line 44) |
| Landsat.DownloadInto | bdc_collection_builder/collections/landsat/tasks.py:46-69 | once the directory is known, the remaining steps of download: mkdir only when the path is missing; success iff 'link' is present, the download returns a file and save() works; otherwise a missing link raises KeyError('link'), a failed download the downloader's exception, a failed save the item store's; on success the stage is correctionLC8, args changes only in 'file' (the downloaded path), and compressed_file is that path with DATA_DIR removed; cloud_cover is written only from a truthy args['cloud']; on failure the stage never advances, and only a failing save() leaves args changed: it leaves args['file'] at the downloaded path (the handler's args are the descriptor's own dict, lines 39 and 58) and compressed_file written; the calls are exactly makedirs when the directory is missing, then the download when 'link' is present, then save() of the updated item when the download returned a file |
| Landsat.SaveDownload | bdc_collection_builder/collections/landsat/tasks.py:51-69 | one save() call with the updated item; compressed_file is the file with DATA_DIR removed; cloud_cover is args['cloud'] when that is truthy and unchanged otherwise; args['file'] is the file whether or not save() raises; the stage becomes correctionLC8 iff save() works, else ItemStore's exception |
| Landsat.DownloadStep | bdc_collection_builder/collections/landsat/tasks.py:32-71 | create_execution runs first and once, with the incoming descriptor; success iff the store works, the scene id and args['file'] give a directory, 'link' is present, the download returns a file and save() works; each failing one of these raises its own exception, a store failure or a bad scene id before any other call; the success, cloud and failure rules of DownloadInto; once the directory is known, the calls after create_execution, the descriptor, the item and the exception are exactly DownloadInto's |
| Landsat.DownloadDirOfFields | bdc_collection_builder/collections/landsat/tasks.py:38-44 | for a scene id `a_b_<tile>_<YYYYMMDD>...` and base `file`, download writes into `<file>/<YYYY>-<MM>/<tile>` |
| Landsat.SceneOfFields | bdc_collection_builder/collections/landsat/tasks.py:23-30 | such a scene id decodes to `tile` and to a date that '%Y%m%d' writes back as the field and '%Y-%m' as `YYYY-MM` |
| Landsat.ExampleDownloadDir | bdc_collection_builder/collections/landsat/tasks.py:44 | the example scene with base `/data` is downloaded into `/data/2020-08/223067` |
| Landsat.DownloadExample | bdc_collection_builder/collections/landsat/tasks.py:32-71 | the example descriptor, whatever activity type it arrives with, succeeds: correctionLC8, an execution for the incoming descriptor, the download into `/data/2020-08/223067`, and args `{link, file: <downloaded path>}` |
| Landsat.DownloadArgs | bdc_collection_builder/collections/landsat/tasks.py:32-71 | a download with a working store, downloader and save succeeds at correctionLC8 and leaves args exactly as they were but for 'file', the downloaded path |
| Landsat.CompressedFileBelowDataDir | bdc_collection_builder/collections/landsat/tasks.py:51 | a file under DATA_DIR is recorded by its path below DATA_DIR |
| Landsat.CompressedFileEmptyDataDir | bdc_collection_builder/collections/landsat/tasks.py:51 | with an empty DATA_DIR, compressed_file is the downloaded path unchanged |
| Landsat.EspaVerdict | bdc_collection_builder/collections/landsat/tasks.py:139-142 | a dict body whose 'status' is 'ERROR' raises RuntimeError naming the scene; any other dict passes; a truthy body that is not a dict raises AttributeError (it has no `get`); only a truthy body can raise |
| Landsat.CorrectionDir | bdc_collection_builder/collections/landsat/tasks.py:145 | the product directory lies below DATA_DIR and ends with `Repository/Archive/<collection>/<YYYY-MM>/<pathrow>` |
| Landsat.EspaRound | bdc_collection_builder/collections/landsat/tasks.py:135-152 | exactly one request goes to `<ESPA_URL>/espa`; success iff the reply is 200 with a JSON body that passes EspaVerdict and ESPA output is in the product directory, and then the stage becomes publishLC8 and args changes only in 'file' (the product directory); otherwise an unreachable service raises the HTTP error, a non-200 status AssertionError, a non-JSON body the decoder's error, a failing body its verdict, missing output 'Error in atmospheric correction'; a failure leaves the descriptor as it came |
| Landsat.CorrectionStep | bdc_collection_builder/collections/landsat/tasks.py:111-161 | the collection is set to LC8SR and the stage to correctionLC8 before create_execution; at most one request, with app, sceneid, args['file'] and the tile id as pathrow; the reply's raise cases; success iff publishLC8; a failure stays at correctionLC8 with args untouched; 'Error in atmospheric correction' only when espa_done fails |
| Landsat.CorrectionBeforeRequest | bdc_collection_builder/collections/landsat/tasks.py:111-133 | a store failure, a descriptor without args, args without 'file', a bad tile id and a bad date each raise their own exception, in that order; the request goes out iff none of them happens |
| Landsat.CorrectionAfterRequest | bdc_collection_builder/collections/landsat/tasks.py:135-152 | once the request is out, correction succeeds iff the reply is 200 with a JSON body that passes EspaVerdict and espa_done finds the output; an unreachable service, a non-JSON body and a failing body each raise their own exception |
| Landsat.PublishStep | bdc_collection_builder/collections/landsat/tasks.py:73-89 | create_execution runs at publishLC8; success iff the store and the publisher work and the descriptor has args, and then there is one publish call, the stage is uploadLC8 and args changes only in 'assets' (the publisher's result); otherwise the store's, the publisher's or KeyError('args') is raised, in that order; whenever the store works the calls are exactly create_execution and one publish, a failing publish or a missing args included; a failure leaves args unchanged and is at uploadLC8 only for the KeyError |
| Landsat.EntryUpload | bdc_collection_builder/collections/landsat/tasks.py:100-101 | an entry that does not raise yields one upload_file call to the configured bucket |
| Landsat.EntryUploadMeaning | bdc_collection_builder/collections/landsat/tasks.py:100-101 | an entry uploads iff it is a dict with a string 'asset' and a 'file'; it then uploads its 'file' under the asset with `<bucket>/` removed; a non-dict raises TypeError, a missing 'asset' KeyError('asset'), a non-string 'asset' AttributeError, a missing 'file' KeyError('file') |
| Landsat.AssetKey | bdc_collection_builder/collections/landsat/tasks.py:100 | the destination key is never longer than the asset path |
| Landsat.AssetKeyStripsBucket | bdc_collection_builder/collections/landsat/tasks.py:100 | the asset `<bucket>/<key>` is uploaded under `key` when `<bucket>/` does not occur again |
| Landsat.UploadRun | bdc_collection_builder/collections/landsat/tasks.py:99-101 | at most one call per entry, and one for every entry when nothing raises |
| Landsat.UploadRunCalls | bdc_collection_builder/collections/landsat/tasks.py:99-101 | the calls are in entry order, each the upload_file call EntryUpload produces for that entry; every call but a failing last one succeeded |
| Landsat.UploadRunOutcome | bdc_collection_builder/collections/landsat/tasks.py:99-101 | the loop completes iff every entry is read without raising and its upload is accepted; a run that raises stops at the first entry that cannot be read, raising its exception after every earlier upload was accepted, or at the first refused upload |
| Landsat.UploadRunAt | bdc_collection_builder/collections/landsat/tasks.py:99-101 | one turn of the loop at entry i: the entry's error, a failed upload, or its call followed by the run over the remaining entries |
| Landsat.UploadStep | bdc_collection_builder/collections/landsat/tasks.py:91-101 | create_execution runs at uploadLC8; the descriptor changes only in its stage; success iff the store works, args['assets'] is a dict and every entry is accepted, and then there is one upload per entry, in order; otherwise a store failure, missing args, missing 'assets' and non-dict assets each raise their own exception, and then create_execution is the only call; for a dict of assets the calls after create_execution and the exception are exactly the loop's |
| Landsat.ExecutedOnce | bdc_collection_builder/collections/landsat/tasks.py:34 | a handler run records exactly one execution, for its own stage |
| Landsat.FourExecutions | bdc_collection_builder/collections/landsat/tasks.py:32-101 | four handler runs in a row record their four stages in order |
| Landsat.ChainStages | bdc_collection_builder/collections/landsat/tasks.py:32-161 | running download, correction, publish and upload, each on the previous one's descriptor: executions for the incoming stage, then correctionLC8, publishLC8 and uploadLC8; the end descriptor is in LC8SR at uploadLC8 for the same scene; publish keeps the 'file' that correction wrote |
| Landsat.LandsatTask.CreateExecution | bdc_collection_builder/collections/landsat/tasks.py:34 | records one execution for the descriptor as it stands and reports whether the store succeeded |
| Landsat.LandsatTask.Download | bdc_collection_builder/collections/landsat/tasks.py:32-71 | the scene, the item, the trace and the exception become exactly what DownloadStep gives for the old state |
| Landsat.LandsatTask.FetchInto | bdc_collection_builder/collections/landsat/tasks.py:46-69 | the scene, the item, the trace and the exception become exactly what DownloadInto gives |
| Landsat.LandsatTask.SaveFile | bdc_collection_builder/collections/landsat/tasks.py:51-69 | the scene, the item, the trace and the exception become exactly what SaveDownload gives |
| Landsat.LandsatTask.Correction | bdc_collection_builder/collections/landsat/tasks.py:111-161 | the scene, the trace and the exception become exactly what CorrectionStep gives |
| Landsat.LandsatTask.SubmitToEspa | bdc_collection_builder/collections/landsat/tasks.py:135-152 | the scene, the trace and the exception become exactly what EspaRound gives |
| Landsat.LandsatTask.Publish | bdc_collection_builder/collections/landsat/tasks.py:73-89 | the scene, the trace and the exception become exactly what PublishStep gives |
| Landsat.LandsatTask.Upload | bdc_collection_builder/collections/landsat/tasks.py:91-101 | the scene, the trace and the exception become exactly what UploadStep gives |
| Landsat.LandsatTask.UploadEntries | bdc_collection_builder/collections/landsat/tasks.py:99-101 | the loop over the entries appends exactly UploadRun's calls to the trace, and raises what it raises |

## Left out

- `create_execution` and the durable store behind it (`base_task`, the activity and history tables) are not part of this model. A call is one `Execution` effect, and it either succeeds or raises (`World.storeUp`).
- `get_collection_item` (line 41) is taken to succeed. Its lookup failures are not modelled.
- `download_landsat_images` and `publish` are oracles. The model does not cover their internals or a non-string download result.
- The network, HTTP and JSON decoding are oracles: the ESPA request, `req.json()` (a body that is not JSON is `None` and raises) and `upload_file`.
- `os.makedirs` is an effect that always succeeds. OS errors and races between the existence check and the creation are not modelled.
- Logging (lines 60, 82, 147, 155) writes no state, so it is left out.
- Celery registration, queues and the retry policy of lines 164-181 belong to the scheduler. They are not modelled.
- Running Python with `-O`, which drops the `assert` of line 137, is not modelled: a non-200 reply always raises AssertionError.
- Landsat.Descriptor: an 'args' key bound to a value that is not a dict is not modelled; `args` is either absent or a dict. The source raises on such a descriptor: with `args` set to None, `scene.get('args', {})` returns None and line 44 raises AttributeError, and `scene['args']['file']` at line 124 raises TypeError.
- Values.Value: a `VDict` may list the same key twice, which a Python dict cannot hold. The model does not exclude such values. On them Lookup sees only the first entry with the key, while Landsat.UploadRun makes one upload per entry, duplicates included; Python would hold one value per key.
- A descriptor without a 'sceneid' key is not modelled: `Descriptor.sceneId` is always present. The KeyError of line 37 / 115 is therefore not modelled.
- TileDate.Strptime: reads only ASCII digits. Python's `\d` also accepts other Unicode decimal digits.
- TileDate.FormatYmd: pads the year to four digits. glibc's `%Y` does not pad years below 1000, so for years 1-999 the date in the template (lines 130 and 105) differs from the source's.
- TileDate.FormatYm: pads the year to four digits in the same way, while the source's `%Y-%m` (lines 38 and 129, used in the directories of lines 44 and 145) does not pad years below 1000.
- Glob.Match: covers only '*' and '?'. A '[' is matched as itself, whereas fnmatch reads `[...]` as a character class. glob drops names that start with '.' unless the pattern starts with '.'; that filter is left out, and it plays no part because the template starts with `LC08_`. A '/' is matched as itself; glob instead splits the template at '/' into directory levels (see Landsat.EspaDone).
- Landsat.EspaDone: a tile id holding glob characters ('*', '?' or '[') is not modelled. Such a tile id puts them into the file-name part of the template (line 105), where glob reads a bracket class the model reads literally. It also puts them into the directory part (lines 145 and 105), which glob expands into several directories, while the model lists the single directory of that literal name.
- Landsat.EspaDone: a tile id holding '/' is not modelled either. glob splits its template at '/' (line 105), so a pathrow `22/3067` makes glob look, inside each subdirectory matching `LC08_*_22`, for names matching `3067_<date>_*.tif`; the model instead looks in the product directory for one entry whose name holds a '/'.
- Landsat.EspaDone: a DATA_DIR holding glob characters is not modelled. glob expands such a directory part (lines 145 and 105) into every directory it matches, while the model lists the one directory of that literal name.
- Landsat.EspaDoneMeaning: requires a pathrow and a date without '*', '?', '[' or '/'. Together with a DATA_DIR without glob characters, this is the case the model describes faithfully; see the lines above.
- Values.Value: numbers are modelled as `real`. Python's int/float distinction and floating-point rounding play no part in these handlers.
