/** The Landsat stage handlers: download, atmospheric correction, publish
    and upload, each run over a mutable work descriptor (the `scene` dict).

    Every handler is specified twice: a function over descriptor values
    (`DownloadStep`, `CorrectionStep`, `PublishStep`, `UploadStep`) that
    states what the stage does, and a method of `LandsatTask` that performs
    the same steps on `Scene` and `CollectionItem` objects, in the order of
    the source, and is proved to leave exactly the state the function
    describes. External calls are answers read from a `World`, and each call
    is recorded in the task's ghost `trace`. */
module Landsat {
  import opened Values
  import opened PyStr
  import opened Glob
  import opened TileDate
  import opened SceneId

  // -----------------------------------------------------------------------
  // Data model

  /** A snapshot of the work descriptor. `args` is `None` when the dict has
      no 'args' key. */
  datatype Descriptor = Descriptor(
    collectionId: string,
    activityType: string,
    sceneId: string,
    args: Option<map<string, Value>>)

  /** The fields of the collection item that the download stage writes. */
  datatype Item = Item(compressedFile: Value, cloudCover: Value)

  /** The configuration values the handlers read. */
  datatype Config = Config(dataDir: string, bucket: string, espaUrl: string)

  /** The query parameters of the request to the correction service. */
  datatype EspaParams = EspaParams(app: string, sceneId: string, file: Value, pathrow: string)

  /** The correction service's answer: no answer at all (the request
      raised), or an HTTP status with a body that is JSON (`Some`) or not. */
  datatype EspaReply = Unreachable | Reply(status: int, body: Option<Value>)

  /** One call a handler makes to the outside. */
  datatype Effect =
    | Execution(activity: Descriptor)
    | MakeDirs(dir: string)
    | DownloadImages(link: Value, dir: string)
    | SaveItem(item: Item)
    | EspaRequest(url: string, params: EspaParams)
    | PublishItem(activity: Descriptor)
    | UploadFile(file: Value, bucket: string, key: string)

  /** What the outside answers during one handler run. */
  datatype World = World(
    storeUp: bool,                              // create_execution succeeds
    pathExists: string -> bool,                 // os.path.exists
    downloader: (Value, string) -> Option<string>, // download_landsat_images; None: it raises
    saveOk: bool,                               // collection_item.save() succeeds
    espa: EspaParams -> EspaReply,              // requests.get to the correction service
    listing: string -> set<string>,             // names of the entries of a directory
    publisher: Descriptor -> Option<Value>,     // publish(); None: it raises
    uploader: (Value, string, string) -> bool)  // upload_file; false: it raises

  /** The descriptor a handler leaves, the calls it made, and what it raised. */
  datatype Step = Step(desc: Descriptor, effects: seq<Effect>, err: Option<Exception>)

  datatype DownloadOutcome = DownloadOutcome(step: Step, item: Item)

  const CorrectionStage := "correctionLC8"
  const PublishStage := "publishLC8"
  const UploadStage := "uploadLC8"
  const CorrectedCollection := "LC8SR"

  /** `create_execution` is called once, as the first call, with `activity`. */
  predicate ExecutionFirst(effects: seq<Effect>, activity: Descriptor) {
    && |effects| >= 1
    && effects[0] == Execution(activity)
    && forall i :: 1 <= i < |effects| ==> !effects[i].Execution?
  }

  /** `args` carries `key` to `v` and every other key as before. */
  predicate UpdatesOnly(before: map<string, Value>, after: map<string, Value>, key: string, v: Value) {
    && after.Keys == before.Keys + {key}
    && after[key] == v
    && forall k :: k in before && k != key ==> after[k] == before[k]
  }

  // -----------------------------------------------------------------------
  // download (tasks.py:32-71)

  /** Lines 37-44: the product directory `<args.file>/<YYYY-MM>/<tile id>`,
      or the exception raised while computing it. */
  function DownloadDir(d: Descriptor): (r: Result<string, Exception>)
    ensures r.Ok? <==> && GetTileDate(d.sceneId).Ok? && GetTileId(d.sceneId).Ok?
                       && d.args.Some? && "file" in d.args.value && d.args.value["file"].VStr?
    // the first failing step decides the exception: the date (line 38), the
    // tile id (line 44), then os.path.join on a missing or non-string file
    ensures GetTileDate(d.sceneId).Err? ==> r == Err(GetTileDate(d.sceneId).error)
    ensures GetTileDate(d.sceneId).Ok? && GetTileId(d.sceneId).Err? ==> r == Err(GetTileId(d.sceneId).error)
    ensures GetTileDate(d.sceneId).Ok? && GetTileId(d.sceneId).Ok?
            && !(d.args.Some? && "file" in d.args.value && d.args.value["file"].VStr?)
            ==> r == Err(TypeError)
  {
    match GetTileDate(d.sceneId)
    case Err(e) => Err(e)
    case Ok(date) =>
      var args := d.args.GetOr(map[]);
      match GetTileId(d.sceneId)
      case Err(e) => Err(e)
      case Ok(tile) =>
        if "file" !in args || !args["file"].VStr? then Err(TypeError)
        else Ok(PathJoin(args["file"].s, FormatYm(date) + "/" + tile))
  }

  /** Lines 51-69, once the download returned `file`: record it on the item
      and in `args`, save the item and advance the stage. `args` is the
      descriptor's own dict (line 39), so the new 'file' is in the
      descriptor even when save() raises. */
  function SaveDownload(cfg: Config, d: Descriptor, item: Item, w: World, file: string): (r: DownloadOutcome)
    requires d.args.Some?
    ensures r.step.effects == [SaveItem(r.item)]
    ensures r.step.desc == d.(args := Some(d.args.value["file" := VStr(file)]),
                              activityType := if w.saveOk then CorrectionStage else d.activityType)
    ensures r.step.err == if w.saveOk then None else Some(Raised(ItemStore))
    ensures r.item.compressedFile == VStr(Replace(file, cfg.dataDir, ""))
    // cloud_cover is written only from a truthy args['cloud']
    ensures if "cloud" in d.args.value && Truthy(d.args.value["cloud"])
            then r.item.cloudCover == d.args.value["cloud"]
            else r.item.cloudCover == item.cloudCover
  {
    var args := d.args.value;
    var cloud := if "cloud" in args then args["cloud"] else VNull;
    var item' := Item(VStr(Replace(file, cfg.dataDir, "")), if Truthy(cloud) then cloud else item.cloudCover);
    var d' := d.(args := Some(args["file" := VStr(file)]));
    if !w.saveOk then DownloadOutcome(Step(d', [SaveItem(item')], Some(Raised(ItemStore))), item')
    else DownloadOutcome(Step(d'.(activityType := CorrectionStage), [SaveItem(item')], None), item')
  }

  /** Lines 46-69, once the product directory `dir` is known: create it if
      missing, download the scene, record it on the item and in `args`,
      save the item and advance the stage. */
  function DownloadInto(cfg: Config, d: Descriptor, item: Item, w: World, dir: string): (r: DownloadOutcome)
    requires d.args.Some?
    ensures forall i :: 0 <= i < |r.step.effects| ==> !r.step.effects[i].Execution?
    ensures r.step.desc.collectionId == d.collectionId && r.step.desc.sceneId == d.sceneId
    // success: next stage, args['file'] is the downloaded path, nothing else changes
    ensures r.step.err.None? ==>
              && r.step.desc.activityType == CorrectionStage
              && "link" in d.args.value
              && var link := d.args.value["link"];
                 && w.downloader(link, dir).Some?
                 && DownloadImages(link, dir) in r.step.effects
                 && r.step.desc.args.Some?
                 && UpdatesOnly(d.args.value, r.step.desc.args.value, "file", VStr(w.downloader(link, dir).value))
                 && r.item.compressedFile == VStr(Replace(w.downloader(link, dir).value, cfg.dataDir, ""))
    // cloud_cover is written only from a truthy args['cloud']
    ensures r.item.cloudCover == item.cloudCover
            || ("cloud" in d.args.value && Truthy(d.args.value["cloud"]) && r.item.cloudCover == d.args.value["cloud"])
    ensures r.step.err.None? && "cloud" in d.args.value && Truthy(d.args.value["cloud"])
            ==> r.item.cloudCover == d.args.value["cloud"]
    // failure: the stage does not advance; args change only when save() raised
    ensures r.step.err.Some? ==> r.step.desc.activityType == d.activityType
    ensures r.step.err.Some? && r.step.err != Some(Raised(ItemStore)) ==> r.step.desc == d && r.item == item
    // the directory is created only when it is missing
    ensures forall i :: 0 <= i < |r.step.effects| && r.step.effects[i].MakeDirs?
              ==> r.step.effects[i].dir == dir && !w.pathExists(dir)
    // it succeeds exactly when the link is there, the download and the save
    // work; otherwise the first of these that fails decides the exception
    ensures r.step.err.None? <==>
              "link" in d.args.value && w.downloader(d.args.value["link"], dir).Some? && w.saveOk
    ensures "link" !in d.args.value ==> r.step.err == Some(KeyError("link"))
    ensures "link" in d.args.value && w.downloader(d.args.value["link"], dir).None?
            ==> r.step.err == Some(Raised(Downloader))
    ensures "link" in d.args.value && w.downloader(d.args.value["link"], dir).Some? && !w.saveOk
            ==> r.step.err == Some(Raised(ItemStore))
    // the calls, in order: makedirs when the directory is missing, the
    // download when there is a link, and save() of the updated item when
    // the download returned a file
    ensures r.step.effects
            == (if w.pathExists(dir) then [] else [MakeDirs(dir)])
               + (if "link" !in d.args.value then []
                  else [DownloadImages(d.args.value["link"], dir)]
                       + (if w.downloader(d.args.value["link"], dir).None? then [] else [SaveItem(r.item)]))
    ensures !w.pathExists(dir) ==> MakeDirs(dir) in r.step.effects
    // a failing save() comes after args['file'] (the same dict as the
    // descriptor's args) and the item were written, so both stay written
    ensures r.step.err == Some(Raised(ItemStore)) ==>
              && "link" in d.args.value && w.downloader(d.args.value["link"], dir).Some?
              && var f := w.downloader(d.args.value["link"], dir).value;
                 && r.step.desc == d.(args := Some(d.args.value["file" := VStr(f)]))
                 && r.item.compressedFile == VStr(Replace(f, cfg.dataDir, ""))
  {
    var args := d.args.value;
    var mkdir := if w.pathExists(dir) then [] else [MakeDirs(dir)];
    if "link" !in args then DownloadOutcome(Step(d, mkdir, Some(KeyError("link"))), item)
    else
      var fetch := [DownloadImages(args["link"], dir)];
      match w.downloader(args["link"], dir)
      case None => DownloadOutcome(Step(d, mkdir + fetch, Some(Raised(Downloader))), item)
      case Some(file) =>
        var saved := SaveDownload(cfg, d, item, w, file);
        DownloadOutcome(saved.step.(effects := mkdir + fetch + saved.step.effects), saved.item)
  }

  /** The download stage. */
  function DownloadStep(cfg: Config, d: Descriptor, item: Item, w: World): (r: DownloadOutcome)
    // create_execution first and once, with the incoming descriptor
    ensures ExecutionFirst(r.step.effects, d)
    ensures r.step.desc.collectionId == d.collectionId && r.step.desc.sceneId == d.sceneId
    // success: next stage, args['file'] is the file downloaded into the
    // product directory, nothing else in args changes
    ensures r.step.err.None? ==>
              && w.storeUp && r.step.desc.activityType == CorrectionStage
              && DownloadDir(d).Ok? && d.args.Some? && "link" in d.args.value
              && var dir := DownloadDir(d).value;
                 var link := d.args.value["link"];
                 && w.downloader(link, dir).Some?
                 && DownloadImages(link, dir) in r.step.effects
                 && r.step.desc.args.Some?
                 && UpdatesOnly(d.args.value, r.step.desc.args.value, "file", VStr(w.downloader(link, dir).value))
                 && r.item.compressedFile == VStr(Replace(w.downloader(link, dir).value, cfg.dataDir, ""))
    ensures r.step.err.None? && "cloud" in d.args.value && Truthy(d.args.value["cloud"])
            ==> r.item.cloudCover == d.args.value["cloud"]
    ensures r.item.cloudCover == item.cloudCover
            || (d.args.Some? && "cloud" in d.args.value && Truthy(d.args.value["cloud"])
                && r.item.cloudCover == d.args.value["cloud"])
    // failure: the stage does not advance; args change only when save() raised
    ensures r.step.err.Some? ==> r.step.desc.activityType == d.activityType
    ensures r.step.err.Some? && r.step.err != Some(Raised(ItemStore)) ==> r.step.desc == d && r.item == item
    // nothing but create_execution happens before the directory is known
    ensures !w.storeUp ==> r.step.err == Some(Raised(Store)) && |r.step.effects| == 1
    ensures w.storeUp && DownloadDir(d).Err? ==> r.step.err == Some(DownloadDir(d).error) && |r.step.effects| == 1
    ensures forall i :: 0 <= i < |r.step.effects| && r.step.effects[i].MakeDirs?
              ==> DownloadDir(d) == Ok(r.step.effects[i].dir) && !w.pathExists(r.step.effects[i].dir)
    // it succeeds exactly when the store, the scene id, the link, the
    // download and the save all work
    ensures r.step.err.None? <==>
              && w.storeUp && DownloadDir(d).Ok? && d.args.Some? && "link" in d.args.value
              && w.downloader(d.args.value["link"], DownloadDir(d).value).Some? && w.saveOk
    ensures w.storeUp && DownloadDir(d).Ok? && d.args.Some? && "link" !in d.args.value
            ==> r.step.err == Some(KeyError("link"))
    ensures w.storeUp && DownloadDir(d).Ok? && d.args.Some? && "link" in d.args.value
            && w.downloader(d.args.value["link"], DownloadDir(d).value).None?
            ==> r.step.err == Some(Raised(Downloader))
    ensures w.storeUp && DownloadDir(d).Ok? && d.args.Some? && "link" in d.args.value
            && w.downloader(d.args.value["link"], DownloadDir(d).value).Some? && !w.saveOk
            ==> r.step.err == Some(Raised(ItemStore))
    // once the directory is known, the calls and the saved item are those
    // of DownloadInto, after create_execution
    ensures w.storeUp && DownloadDir(d).Ok? ==>
              var rest := DownloadInto(cfg, d, item, w, DownloadDir(d).value);
              && r.step.effects == [Execution(d)] + rest.step.effects && r.item == rest.item
              && r.step.desc == rest.step.desc && r.step.err == rest.step.err
  {
    if !w.storeUp then DownloadOutcome(Step(d, [Execution(d)], Some(Raised(Store))), item)
    else
      match DownloadDir(d)
      case Err(e) => DownloadOutcome(Step(d, [Execution(d)], Some(e)), item)
      case Ok(dir) =>
        var rest := DownloadInto(cfg, d, item, w, dir);
        DownloadOutcome(rest.step.(effects := [Execution(d)] + rest.step.effects), rest.item)
  }

  // -----------------------------------------------------------------------
  // correction (tasks.py:103-161)

  /** `espa_done(productdir, pathrow, date)`, given the names of the entries
      of `productdir`: some entry matches `LC08_*_<pathrow>_<date>_*.tif`. */
  predicate EspaDone(names: set<string>, pathrow: string, date: string): (r: bool)
    // an empty (or missing) product directory is never done
    ensures names == {} ==> !r
  {
    exists n :: n in names && Match(EspaPattern(pathrow, date), n)
  }

  /** The output directory of the correction stage,
      `<DATA_DIR>/Repository/Archive/<collection>/<YYYY-MM>/<pathrow>`. */
  function CorrectionDir(cfg: Config, collectionId: string, yyyymm: string, pathrow: string): (r: string)
    // below DATA_DIR, ending in the archive path of the collection, month and tile
    ensures |cfg.dataDir| <= |r| && r[..|cfg.dataDir|] == cfg.dataDir
    ensures var archive := "Repository/Archive/" + collectionId + "/" + yyyymm + "/" + pathrow;
            |archive| <= |r| && r[|r| - |archive|..] == archive
  {
    PathJoin(cfg.dataDir, "Repository/Archive/" + collectionId + "/" + yyyymm + "/" + pathrow)
  }

  /** Lines 139-142: what the decoded reply body raises, if anything. */
  function EspaVerdict(result: Value, sceneId: string): (r: Option<Exception>)
    ensures r.Some? ==> Truthy(result)
    ensures Truthy(result) && !result.VDict? ==> r == Some(AttributeError)
    ensures result.VDict? && Lookup(result.entries, "status") == Some(VStr("ERROR"))
            ==> r == Some(RuntimeError("Error in espa-science execution - " + sceneId))
    ensures result.VDict? && Lookup(result.entries, "status") != Some(VStr("ERROR")) ==> r.None?
  {
    if !Truthy(result) then None
    else if result.VDict? then
      (if Lookup(result.entries, "status") == Some(VStr("ERROR"))
       then Some(RuntimeError("Error in espa-science execution - " + sceneId))
       else None)
    else Some(AttributeError)
  }

  /** Lines 135-152: send the scene to the correction service with
      `params`, check the reply, and look for the output of the scene
      acquired on `date`. */
  function EspaRound(cfg: Config, d0: Descriptor, w: World, params: EspaParams, date: Date): (r: Step)
    requires d0.args.Some? && ValidDate(date) && d0.activityType == CorrectionStage
    ensures r.effects == [EspaRequest(cfg.espaUrl + "/espa", params)]
    ensures r.desc.collectionId == d0.collectionId && r.desc.sceneId == d0.sceneId
    ensures r.err.None? <==> r.desc.activityType == PublishStage
    ensures r.err.Some? ==> r.desc == d0
    ensures w.espa(params).Reply? && w.espa(params).status != 200 ==> r.err == Some(AssertionError)
    ensures w.espa(params).Reply? && w.espa(params).status == 200 && w.espa(params).body.Some?
            && w.espa(params).body.value.VDict?
            && Lookup(w.espa(params).body.value.entries, "status") == Some(VStr("ERROR"))
            ==> r.err == Some(RuntimeError("Error in espa-science execution - " + d0.sceneId))
    ensures r.err.None? ==>
              var dir := CorrectionDir(cfg, d0.collectionId, FormatYm(date), params.pathrow);
              && w.espa(params).Reply? && w.espa(params).status == 200 && w.espa(params).body.Some?
              && EspaVerdict(w.espa(params).body.value, d0.sceneId).None?
              && EspaDone(w.listing(dir), params.pathrow, FormatYmd(date))
              && r.desc.args.Some?
              && UpdatesOnly(d0.args.value, r.desc.args.value, "file", VStr(dir))
    ensures r.err == Some(RuntimeError("Error in atmospheric correction"))
            ==> !EspaDone(w.listing(CorrectionDir(cfg, d0.collectionId, FormatYm(date), params.pathrow)),
                          params.pathrow, FormatYmd(date))
    // it succeeds exactly when the reply and the output files are right;
    // otherwise the first check that fails decides the exception
    ensures r.err.None? <==>
              && w.espa(params).Reply? && w.espa(params).status == 200 && w.espa(params).body.Some?
              && EspaVerdict(w.espa(params).body.value, d0.sceneId).None?
              && EspaDone(w.listing(CorrectionDir(cfg, d0.collectionId, FormatYm(date), params.pathrow)),
                          params.pathrow, FormatYmd(date))
    ensures w.espa(params).Unreachable? ==> r.err == Some(Raised(EspaHttp))
    ensures w.espa(params).Reply? && w.espa(params).status == 200 && w.espa(params).body.None?
            ==> r.err == Some(Raised(JsonDecoder))
    ensures w.espa(params).Reply? && w.espa(params).status == 200 && w.espa(params).body.Some?
            && EspaVerdict(w.espa(params).body.value, d0.sceneId).Some?
            ==> r.err == EspaVerdict(w.espa(params).body.value, d0.sceneId)
    ensures w.espa(params).Reply? && w.espa(params).status == 200 && w.espa(params).body.Some?
            && EspaVerdict(w.espa(params).body.value, d0.sceneId).None?
            && !EspaDone(w.listing(CorrectionDir(cfg, d0.collectionId, FormatYm(date), params.pathrow)),
                         params.pathrow, FormatYmd(date))
            ==> r.err == Some(RuntimeError("Error in atmospheric correction"))
  {
    var effects := [EspaRequest(cfg.espaUrl + "/espa", params)];
    match w.espa(params)
    case Unreachable => Step(d0, effects, Some(Raised(EspaHttp)))
    case Reply(status, body) =>
      if status != 200 then Step(d0, effects, Some(AssertionError))
      else if body.None? then Step(d0, effects, Some(Raised(JsonDecoder)))
      else if EspaVerdict(body.value, d0.sceneId).Some? then
        Step(d0, effects, EspaVerdict(body.value, d0.sceneId))
      else
        var dir := CorrectionDir(cfg, d0.collectionId, FormatYm(date), params.pathrow);
        if !EspaDone(w.listing(dir), params.pathrow, FormatYmd(date)) then
          Step(d0, effects, Some(RuntimeError("Error in atmospheric correction")))
        else
          Step(d0.(args := Some(d0.args.value["file" := VStr(dir)]), activityType := PublishStage), effects, None)
  }

  /** The correction stage. */
  function CorrectionStep(cfg: Config, d: Descriptor, w: World): (r: Step)
    // collection and stage are forced before create_execution runs
    ensures ExecutionFirst(r.effects, d.(collectionId := CorrectedCollection, activityType := CorrectionStage))
    ensures r.desc.collectionId == CorrectedCollection && r.desc.sceneId == d.sceneId
    ensures r.err.None? <==> r.desc.activityType == PublishStage
    // failure: the descriptor never reaches publish and its args are untouched
    ensures r.err.Some? ==> r.desc.activityType == CorrectionStage && r.desc.args == d.args
    // the request goes out only with a file, a tile id and a date
    ensures |r.effects| <= 2
    ensures |r.effects| == 2 ==>
              && r.effects[1].EspaRequest?
              && r.effects[1].url == cfg.espaUrl + "/espa"
              && d.args.Some? && "file" in d.args.value
              && GetTileId(d.sceneId).Ok? && GetTileDate(d.sceneId).Ok?
              && r.effects[1].params == EspaParams(CorrectionStage, d.sceneId, d.args.value["file"],
                                                   GetTileId(d.sceneId).value)
    // the three raise cases of the reply
    ensures |r.effects| == 2 && w.espa(r.effects[1].params).Reply? && w.espa(r.effects[1].params).status != 200
            ==> r.err == Some(AssertionError)
    ensures |r.effects| == 2 && w.espa(r.effects[1].params).Reply? && w.espa(r.effects[1].params).status == 200
            && w.espa(r.effects[1].params).body.Some? && w.espa(r.effects[1].params).body.value.VDict?
            && Lookup(w.espa(r.effects[1].params).body.value.entries, "status") == Some(VStr("ERROR"))
            ==> r.err == Some(RuntimeError("Error in espa-science execution - " + d.sceneId))
    // success: the reply was 200 without ERROR and the output files are present
    ensures r.err.None? ==>
              && |r.effects| == 2
              && var p := r.effects[1].params;
                 var date := GetTileDate(d.sceneId).value;
                 var dir := CorrectionDir(cfg, CorrectedCollection, FormatYm(date), p.pathrow);
                 && w.espa(p).Reply? && w.espa(p).status == 200 && w.espa(p).body.Some?
                 && EspaVerdict(w.espa(p).body.value, d.sceneId).None?
                 && EspaDone(w.listing(dir), p.pathrow, FormatYmd(date))
                 && r.desc.args.Some?
                 && UpdatesOnly(d.args.value, r.desc.args.value, "file", VStr(dir))
    ensures |r.effects| == 2 && r.err == Some(RuntimeError("Error in atmospheric correction"))
            ==> var p := r.effects[1].params;
                var date := GetTileDate(d.sceneId).value;
                !EspaDone(w.listing(CorrectionDir(cfg, CorrectedCollection, FormatYm(date), p.pathrow)),
                          p.pathrow, FormatYmd(date))
  {
    var d0 := d.(collectionId := CorrectedCollection, activityType := CorrectionStage);
    var execution := [Execution(d0)];
    if !w.storeUp then Step(d0, execution, Some(Raised(Store)))
    else if d0.args.None? then Step(d0, execution, Some(KeyError("args")))
    else if "file" !in d0.args.value then Step(d0, execution, Some(KeyError("file")))
    else
      match GetTileId(d0.sceneId)
      case Err(e) => Step(d0, execution, Some(e))
      case Ok(pathrow) =>
        match GetTileDate(d0.sceneId)
        case Err(e) => Step(d0, execution, Some(e))
        case Ok(date) =>
          var params := EspaParams(d0.activityType, d0.sceneId, d0.args.value["file"], pathrow);
          var rest := EspaRound(cfg, d0, w, params, date);
          Step(rest.desc, execution + rest.effects, rest.err)
  }

  /** Before the request, the first check that fails decides the
      exception, and the request goes out exactly when all of them pass. */
  lemma CorrectionBeforeRequest(cfg: Config, d: Descriptor, w: World)
    ensures var r := CorrectionStep(cfg, d, w);
            && (!w.storeUp ==> r.err == Some(Raised(Store)) && |r.effects| == 1)
            && (w.storeUp && d.args.None? ==> r.err == Some(KeyError("args")))
            && (w.storeUp && d.args.Some? && "file" !in d.args.value ==> r.err == Some(KeyError("file")))
            && (w.storeUp && d.args.Some? && "file" in d.args.value && GetTileId(d.sceneId).Err?
                ==> r.err == Some(GetTileId(d.sceneId).error))
            && (w.storeUp && d.args.Some? && "file" in d.args.value && GetTileId(d.sceneId).Ok?
                && GetTileDate(d.sceneId).Err?
                ==> r.err == Some(GetTileDate(d.sceneId).error))
            && (|r.effects| == 2 <==>
                  && w.storeUp && d.args.Some? && "file" in d.args.value
                  && GetTileId(d.sceneId).Ok? && GetTileDate(d.sceneId).Ok?)
  {
  }

  /** Once the request is out, correction succeeds exactly when the reply
      and the output files are right, and each other reply raises its own
      exception. */
  lemma CorrectionAfterRequest(cfg: Config, d: Descriptor, w: World)
    ensures var r := CorrectionStep(cfg, d, w);
            |r.effects| == 2 ==>
              var reply := w.espa(r.effects[1].params);
              var p := r.effects[1].params;
              var date := GetTileDate(d.sceneId).value;
              && (r.err.None? <==>
                    && reply.Reply? && reply.status == 200 && reply.body.Some?
                    && EspaVerdict(reply.body.value, d.sceneId).None?
                    && EspaDone(w.listing(CorrectionDir(cfg, CorrectedCollection, FormatYm(date), p.pathrow)),
                                p.pathrow, FormatYmd(date)))
              && (reply.Unreachable? ==> r.err == Some(Raised(EspaHttp)))
              && (reply.Reply? && reply.status == 200 && reply.body.None? ==> r.err == Some(Raised(JsonDecoder)))
              && (reply.Reply? && reply.status == 200 && reply.body.Some?
                  && EspaVerdict(reply.body.value, d.sceneId).Some?
                  ==> r.err == EspaVerdict(reply.body.value, d.sceneId))
  {
  }

  // -----------------------------------------------------------------------
  // publish (tasks.py:73-89)

  /** The publish stage. */
  function PublishStep(d: Descriptor, w: World): (r: Step)
    ensures ExecutionFirst(r.effects, d.(activityType := PublishStage))
    ensures r.desc.collectionId == d.collectionId && r.desc.sceneId == d.sceneId
    ensures r.err.None? ==>
              && w.publisher(d.(activityType := PublishStage)).Some?
              && r.effects == [Execution(d.(activityType := PublishStage)), PublishItem(d.(activityType := PublishStage))]
              && r.desc.activityType == UploadStage
              && d.args.Some? && r.desc.args.Some?
              && UpdatesOnly(d.args.value, r.desc.args.value, "assets",
                             w.publisher(d.(activityType := PublishStage)).value)
    ensures r.err.Some? ==> r.desc.args == d.args
    // a failed publish stays at publish, except that a descriptor without
    // args raises only after the stage was advanced
    ensures r.err.Some? ==> (r.desc.activityType == UploadStage <==> r.err == Some(KeyError("args")))
    ensures r.err.Some? && r.err != Some(KeyError("args")) ==> r.desc.activityType == PublishStage
    // it succeeds exactly when the store and the publisher work and the
    // descriptor has args; otherwise the first that fails decides the exception
    ensures r.err.None? <==> w.storeUp && w.publisher(d.(activityType := PublishStage)).Some? && d.args.Some?
    ensures !w.storeUp ==> r.err == Some(Raised(Store)) && |r.effects| == 1
    ensures w.storeUp && w.publisher(d.(activityType := PublishStage)).None? ==> r.err == Some(Raised(Publisher))
    ensures w.storeUp && w.publisher(d.(activityType := PublishStage)).Some? && d.args.None?
            ==> r.err == Some(KeyError("args"))
    // once the execution is recorded, publish is called, whatever follows
    ensures w.storeUp ==> r.effects == [Execution(d.(activityType := PublishStage)), PublishItem(d.(activityType := PublishStage))]
  {
    var d0 := d.(activityType := PublishStage);
    var execution := [Execution(d0)];
    if !w.storeUp then Step(d0, execution, Some(Raised(Store)))
    else
      var effects := execution + [PublishItem(d0)];
      match w.publisher(d0)
      case None => Step(d0, effects, Some(Raised(Publisher)))
      case Some(assets) =>
        var d1 := d0.(activityType := UploadStage);
        if d1.args.None? then Step(d1, effects, Some(KeyError("args")))
        else Step(d1.(args := Some(d1.args.value["assets" := assets])), effects, None)
  }

  // -----------------------------------------------------------------------
  // upload (tasks.py:91-101)

  /** The destination key of an asset: the asset path with every
      `<bucket>/` removed. */
  function AssetKey(asset: string, bucket: string): (r: string)
    ensures |r| <= |asset|
  {
    Replace(asset, bucket + "/", "")
  }

  /** Lines 100-101 for one entry of the asset mapping: the upload_file call
      it makes, or the exception raised while reading the entry. */
  function EntryUpload(entry: Value, bucket: string): (r: Result<Effect, Exception>)
    ensures r.Ok? ==> r.value.UploadFile? && r.value.bucket == bucket
  {
    if !entry.VDict? then Err(TypeError)
    else
      match Lookup(entry.entries, "asset")
      case None => Err(KeyError("asset"))
      case Some(asset) =>
        if !asset.VStr? then Err(AttributeError)
        else
          match Lookup(entry.entries, "file")
          case None => Err(KeyError("file"))
          case Some(file) => Ok(UploadFile(file, bucket, AssetKey(asset.s, bucket)))
  }

  /** An entry uploads its 'file' under the key derived from its 'asset',
      and it fails exactly when it is not a dict, lacks one of the two keys,
      or has an 'asset' that is not a string. */
  lemma EntryUploadMeaning(entry: Value, bucket: string)
    ensures var r := EntryUpload(entry, bucket);
            && (r.Ok? <==> && entry.VDict?
                           && Lookup(entry.entries, "asset").Some? && Lookup(entry.entries, "asset").value.VStr?
                           && Lookup(entry.entries, "file").Some?)
            && (r.Ok? ==> r.value == UploadFile(Lookup(entry.entries, "file").value, bucket,
                                                AssetKey(Lookup(entry.entries, "asset").value.s, bucket)))
            && (!entry.VDict? ==> r == Err(TypeError))
            && (entry.VDict? && Lookup(entry.entries, "asset").None? ==> r == Err(KeyError("asset")))
            && (entry.VDict? && Lookup(entry.entries, "asset").Some? && !Lookup(entry.entries, "asset").value.VStr?
                ==> r == Err(AttributeError))
            && (entry.VDict? && Lookup(entry.entries, "asset").Some? && Lookup(entry.entries, "asset").value.VStr?
                && Lookup(entry.entries, "file").None?
                ==> r == Err(KeyError("file")))
  {
  }

  datatype Uploads = Uploads(effects: seq<Effect>, err: Option<Exception>)

  /** The loop of lines 99-101 over the entries of the asset mapping, in
      their order, stopping at the first exception. */
  function UploadRun(entries: seq<(string, Value)>, bucket: string, uploader: (Value, string, string) -> bool)
    : (r: Uploads)
    // at most one upload_file call per entry, and one for each when nothing raises
    ensures |r.effects| <= |entries|
    ensures r.err.None? ==> |r.effects| == |entries|
    decreases |entries|
  {
    if entries == [] then Uploads([], None)
    else
      match EntryUpload(entries[0].1, bucket)
      case Err(e) => Uploads([], Some(e))
      case Ok(call) =>
        if !uploader(call.file, call.bucket, call.key) then Uploads([call], Some(Raised(Uploader)))
        else
          var rest := UploadRun(entries[1..], bucket, uploader);
          Uploads([call] + rest.effects, rest.err)
  }

  /** The calls of the upload loop are in entry order, each the one its
      entry produces, and every call but a failing last one was accepted. */
  lemma {:induction false} UploadRunCalls(entries: seq<(string, Value)>, bucket: string,
                                          uploader: (Value, string, string) -> bool)
    ensures var r := UploadRun(entries, bucket, uploader);
            && (forall i :: 0 <= i < |r.effects| ==> EntryUpload(entries[i].1, bucket) == Ok(r.effects[i]))
            && (forall i :: 0 <= i < |r.effects| ==> r.effects[i].UploadFile?)
            && (forall i :: 0 <= i < |r.effects| && (r.err.None? || i + 1 < |r.effects|)
                  ==> uploader(r.effects[i].file, r.effects[i].bucket, r.effects[i].key))
    decreases |entries|
  {
    if entries != [] && EntryUpload(entries[0].1, bucket).Ok? {
      var call := EntryUpload(entries[0].1, bucket).value;
      if uploader(call.file, call.bucket, call.key) {
        var rest := entries[1..];
        UploadRunCalls(rest, bucket, uploader);
        var tail := UploadRun(rest, bucket, uploader);
        var r := UploadRun(entries, bucket, uploader);
        assert r.effects == [call] + tail.effects;
        assert forall i :: 1 <= i < |r.effects| ==> r.effects[i] == tail.effects[i - 1] && entries[i] == rest[i - 1];
      }
    }
  }

  /** An entry of the asset mapping is read without raising and its upload
      is accepted. */
  predicate EntryAccepted(entry: Value, bucket: string, uploader: (Value, string, string) -> bool) {
    && EntryUpload(entry, bucket).Ok?
    && var call := EntryUpload(entry, bucket).value;
       uploader(call.file, call.bucket, call.key)
  }

  /** The upload loop completes exactly when every entry is accepted; a run
      that raises stops either at an entry that cannot be read, raising that
      entry's exception after all earlier uploads were accepted, or at an
      upload that was refused. */
  lemma {:induction false} UploadRunOutcome(entries: seq<(string, Value)>, bucket: string,
                                            uploader: (Value, string, string) -> bool)
    ensures var r := UploadRun(entries, bucket, uploader);
            && (r.err.None? <==> forall i :: 0 <= i < |entries| ==> EntryAccepted(entries[i].1, bucket, uploader))
            && (r.err.Some? ==>
                  || (&& |r.effects| < |entries|
                      && EntryUpload(entries[|r.effects|].1, bucket) == Err(r.err.value)
                      && forall i :: 0 <= i < |r.effects| ==> EntryAccepted(entries[i].1, bucket, uploader))
                  || (&& r.err == Some(Raised(Uploader)) && |r.effects| >= 1
                      && !EntryAccepted(entries[|r.effects| - 1].1, bucket, uploader)
                      && forall i :: 0 <= i < |r.effects| - 1 ==> EntryAccepted(entries[i].1, bucket, uploader)))
    decreases |entries|
  {
    if entries != [] {
      var rest := entries[1..];
      assert forall i :: 1 <= i < |entries| ==> entries[i] == rest[i - 1];
      UploadRunOutcome(rest, bucket, uploader);
    }
  }

  /** One turn of the upload loop, at entry `i`. */
  lemma UploadRunAt(entries: seq<(string, Value)>, i: nat, bucket: string, uploader: (Value, string, string) -> bool)
    requires i < |entries|
    ensures UploadRun(entries[i..], bucket, uploader)
            == match EntryUpload(entries[i].1, bucket)
               case Err(e) => Uploads([], Some(e))
               case Ok(call) =>
                 if !uploader(call.file, call.bucket, call.key) then Uploads([call], Some(Raised(Uploader)))
                 else Uploads([call] + UploadRun(entries[i + 1..], bucket, uploader).effects,
                              UploadRun(entries[i + 1..], bucket, uploader).err)
  {
    assert entries[i..][0] == entries[i] && entries[i..][1..] == entries[i + 1..];
  }

  /** The upload stage; it returns nothing, so only the calls it makes and
      what it raises matter. */
  function UploadStep(cfg: Config, d: Descriptor, w: World): (r: Step)
    ensures ExecutionFirst(r.effects, d.(activityType := UploadStage))
    ensures r.desc == d.(activityType := UploadStage)
    ensures r.err.None? ==>
              && d.args.Some? && "assets" in d.args.value && d.args.value["assets"].VDict?
              && var entries := d.args.value["assets"].entries;
                 && |r.effects| == 1 + |entries|
                 && forall i :: 0 <= i < |entries| ==> EntryUpload(entries[i].1, cfg.bucket) == Ok(r.effects[i + 1])
    // it succeeds exactly when the store works, args['assets'] is a dict and
    // every entry is accepted; otherwise the first that fails decides the exception
    ensures r.err.None? <==>
              && w.storeUp && d.args.Some? && "assets" in d.args.value && d.args.value["assets"].VDict?
              && var entries := d.args.value["assets"].entries;
                 forall i :: 0 <= i < |entries| ==> EntryAccepted(entries[i].1, cfg.bucket, w.uploader)
    ensures !w.storeUp ==> r.err == Some(Raised(Store)) && |r.effects| == 1
    ensures w.storeUp && d.args.None? ==> r.err == Some(KeyError("args"))
    ensures w.storeUp && d.args.Some? && "assets" !in d.args.value ==> r.err == Some(KeyError("assets"))
    ensures w.storeUp && d.args.Some? && "assets" in d.args.value && !d.args.value["assets"].VDict?
            ==> r.err == Some(AttributeError)
    // the uploads are made only for a dict of assets, and then they are
    // exactly the loop's, after create_execution
    ensures !(w.storeUp && d.args.Some? && "assets" in d.args.value && d.args.value["assets"].VDict?)
            ==> r.effects == [Execution(d.(activityType := UploadStage))]
    ensures w.storeUp && d.args.Some? && "assets" in d.args.value && d.args.value["assets"].VDict?
            ==> var run := UploadRun(d.args.value["assets"].entries, cfg.bucket, w.uploader);
                r.effects == [Execution(d.(activityType := UploadStage))] + run.effects && r.err == run.err
  {
    var d0 := d.(activityType := UploadStage);
    var execution := [Execution(d0)];
    if !w.storeUp then Step(d0, execution, Some(Raised(Store)))
    else if d0.args.None? then Step(d0, execution, Some(KeyError("args")))
    else if "assets" !in d0.args.value then Step(d0, execution, Some(KeyError("assets")))
    else if !d0.args.value["assets"].VDict? then Step(d0, execution, Some(AttributeError))
    else
      var run := UploadRun(d0.args.value["assets"].entries, cfg.bucket, w.uploader);
      UploadRunOutcome(d0.args.value["assets"].entries, cfg.bucket, w.uploader);
      UploadRunCalls(d0.args.value["assets"].entries, cfg.bucket, w.uploader);
      Step(d0, execution + run.effects, run.err)
  }

  // -----------------------------------------------------------------------
  // Properties that relate the stages to the scene id and to each other

  /** `espa_done` looks for a name that begins with `LC08_`, ends with
      `.tif` and holds `_<pathrow>_<date>_` in between. */
  lemma EspaDoneMeaning(names: set<string>, pathrow: string, date: string)
    requires Literal(pathrow) && Literal(date)
    ensures EspaDone(names, pathrow, date) <==> exists n :: n in names && IsEspaOutput(n, pathrow, date)
  {
    forall n | n in names
      ensures Match(EspaPattern(pathrow, date), n) <==> IsEspaOutput(n, pathrow, date)
    {
      EspaPatternMeaning(n, pathrow, date);
    }
  }

  /** A product directory holding any `LC08_<x>_<pathrow>_<date>_<y>.tif`
      is done. */
  lemma EspaDoneWithOutput(names: set<string>, x: string, pathrow: string, date: string, y: string)
    requires Literal(pathrow) && Literal(date)
    requires "LC08_" + x + Core(pathrow, date) + y + ".tif" in names
    ensures EspaDone(names, pathrow, date)
  {
    OutputOfParts(x, pathrow, date, y);
    EspaOutputMatches("LC08_" + x + Core(pathrow, date) + y + ".tif", pathrow, date);
  }

  /** A scene id `<a>_<b>_<tile>_<YYYYMMDD>...` names the tile `tile` and a
      date whose `%Y-%m` form is `<YYYY>-<MM>`. */
  lemma SceneOfFields(a: string, b: string, tile: string, f: string, rest: string)
    requires '_' !in a && '_' !in b && '_' !in tile && '_' !in f
    requires rest == "" || rest[0] == '_'
    requires |f| == 8 && AllDigits(f) && ValidDate(Positional(f))
    ensures var s := a + "_" + b + "_" + tile + "_" + f + rest;
            && Strptime(f).Some?
            && GetTileId(s) == Ok(tile)
            && GetTileDate(s) == Ok(Strptime(f).value)
            && FormatYm(Strptime(f).value) == f[..4] + "-" + f[4..6]
            && FormatYmd(Strptime(f).value) == f
  {
    TileDateOfFields(a, b, tile, f, rest);
    StrptimeEightDigits(f);
    FormatOfStrptime(f);
    var p := a + "_" + b + "_" + tile;
    AppendAssoc(p, "_", f);
    AppendAssoc(p, "_" + f, rest);
    TileIdOfFields(a, b, tile, "_" + f + rest);
  }

  /** For such a scene id and a base directory `file` without a trailing
      '/', download writes into `<file>/<YYYY>-<MM>/<tile>`. */
  lemma DownloadDirOfFields(d: Descriptor, a: string, b: string, tile: string, f: string, rest: string, file: string)
    requires '_' !in a && '_' !in b && '_' !in tile && '_' !in f
    requires rest == "" || rest[0] == '_'
    requires |f| == 8 && AllDigits(f) && ValidDate(Positional(f))
    requires d.sceneId == a + "_" + b + "_" + tile + "_" + f + rest
    requires d.args.Some? && "file" in d.args.value && d.args.value["file"] == VStr(file)
    requires file != "" && file[|file| - 1] != '/'
    ensures DownloadDir(d) == Ok(file + "/" + (f[..4] + "-" + f[4..6] + "/" + tile))
  {
    SceneOfFields(a, b, tile, f, rest);
  }

  /** An example: scene `LC08_L1TP_223067_20200826_X` with base
      directory `/data` is downloaded into `/data/2020-08/223067`. */
  lemma ExampleDownloadDir(d: Descriptor)
    requires d.sceneId == "LC08_L1TP_223067_20200826_X"
    requires d.args.Some? && "file" in d.args.value && d.args.value["file"] == VStr("/data")
    ensures DownloadDir(d) == Ok("/data/2020-08/223067")
  {
    ExampleTileId();
    ExampleTileDate();
    ExampleYearMonth();
    ExampleDirPath();
  }

  lemma ExampleDirPath()
    ensures PathJoin("/data", "2020-08" + "/" + "223067") == "/data/2020-08/223067"
  {
    assert "2020-08" + "/" + "223067" == "2020-08/223067";
  }

  lemma ExampleYearMonth()
    ensures FormatYm(Date(2020, 8, 26)) == "2020-08"
  {
    assert Pad2(20) == "20" && Pad2(8) == "08";
    assert Pad4(2020) == "2020";
  }

  /** Whatever activity type it arrives with, on success the example
      descriptor moves to the correction stage with args['file'] pointing at
      the downloaded file and 'link' unchanged. */
  lemma DownloadExample(cfg: Config, d: Descriptor, item: Item, w: World, activity: string, link: Value,
                        path: string)
    requires d == Descriptor("LC8", activity, "LC08_L1TP_223067_20200826_X",
                             Some(map["link" := link, "file" := VStr("/data")]))
    requires w.storeUp && w.saveOk
    requires w.downloader(link, "/data/2020-08/223067") == Some(path)
    ensures var r := DownloadStep(cfg, d, item, w);
            && r.step.err.None?
            && r.step.effects[0] == Execution(d)
            && DownloadImages(link, "/data/2020-08/223067") in r.step.effects
            && r.step.desc.activityType == CorrectionStage
            && r.step.desc.args == Some(map["link" := link, "file" := VStr(path)])
  {
    ExampleDownloadDir(d);
    ExampleArgs(link, path);
    DownloadArgs(cfg, d, item, w, "/data/2020-08/223067", path);
  }

  lemma ExampleArgs(link: Value, path: string)
    ensures map["link" := link, "file" := VStr("/data")]["file" := VStr(path)]
            == map["link" := link, "file" := VStr(path)]
  {
  }

  /** A download that succeeds leaves args as they were but for 'file'. */
  lemma DownloadArgs(cfg: Config, d: Descriptor, item: Item, w: World, dir: string, path: string)
    requires w.storeUp && w.saveOk && DownloadDir(d) == Ok(dir)
    requires d.args.Some? && "link" in d.args.value && w.downloader(d.args.value["link"], dir) == Some(path)
    ensures var r := DownloadStep(cfg, d, item, w);
            && r.step.err.None?
            && r.step.effects[0] == Execution(d)
            && DownloadImages(d.args.value["link"], dir) in r.step.effects
            && r.step.desc.activityType == CorrectionStage
            && r.step.desc.args == Some(d.args.value["file" := VStr(path)])
  {
    var r := DownloadStep(cfg, d, item, w);
    assert UpdatesOnly(d.args.value, r.step.desc.args.value, "file", VStr(path));
    assert r.step.desc.args.value == d.args.value["file" := VStr(path)];
  }

  /** An asset path under `<bucket>/` is uploaded under the rest of its
      path, provided `<bucket>/` does not occur again in it. */
  lemma AssetKeyStripsBucket(bucket: string, key: string)
    requires !Occurs(key, bucket + "/")
    ensures AssetKey(bucket + "/" + key, bucket) == key
  {
    ReplaceLeading(bucket + "/", key);
  }

  /** A downloaded file under DATA_DIR is recorded by its path below it. */
  lemma CompressedFileBelowDataDir(dataDir: string, below: string)
    requires dataDir != "" && !Occurs(below, dataDir)
    ensures Replace(dataDir + below, dataDir, "") == below
  {
    ReplaceLeading(dataDir, below);
  }

  /** With an empty DATA_DIR the downloaded path is recorded unchanged. */
  lemma CompressedFileEmptyDataDir(file: string)
    ensures Replace(file, "", "") == file
  {
    ReplaceEmptyByEmpty(file);
  }

  /** The activity types create_execution was called with, in order. */
  function ExecutedStages(effects: seq<Effect>): seq<string>
    decreases |effects|
  {
    if effects == [] then []
    else (if effects[0].Execution? then [effects[0].activity.activityType] else []) + ExecutedStages(effects[1..])
  }

  lemma {:induction false} ExecutedStagesAppend(a: seq<Effect>, b: seq<Effect>)
    ensures ExecutedStages(a + b) == ExecutedStages(a) + ExecutedStages(b)
    decreases |a|
  {
    if a != [] {
      assert (a + b)[1..] == a[1..] + b;
      ExecutedStagesAppend(a[1..], b);
    } else {
      assert a + b == b;
    }
  }

  lemma {:induction false} ExecutedStagesNone(effects: seq<Effect>)
    requires forall i :: 0 <= i < |effects| ==> !effects[i].Execution?
    ensures ExecutedStages(effects) == []
    decreases |effects|
  {
    if effects != [] {
      ExecutedStagesNone(effects[1..]);
    }
  }

  /** A handler run records exactly one execution, for its own stage. */
  lemma ExecutedOnce(effects: seq<Effect>, activity: Descriptor)
    requires ExecutionFirst(effects, activity)
    ensures ExecutedStages(effects) == [activity.activityType]
  {
    ExecutedStagesNone(effects[1..]);
  }

  /** Four handler runs in a row record four executions, in order. */
  lemma FourExecutions(e1: seq<Effect>, e2: seq<Effect>, e3: seq<Effect>, e4: seq<Effect>,
                       a1: Descriptor, a2: Descriptor, a3: Descriptor, a4: Descriptor)
    requires ExecutionFirst(e1, a1) && ExecutionFirst(e2, a2) && ExecutionFirst(e3, a3) && ExecutionFirst(e4, a4)
    ensures ExecutedStages(e1 + e2 + e3 + e4) == [a1.activityType, a2.activityType, a3.activityType, a4.activityType]
  {
    ExecutedOnce(e1, a1);
    ExecutedOnce(e2, a2);
    ExecutedOnce(e3, a3);
    ExecutedOnce(e4, a4);
    ExecutedStagesAppend(e1, e2);
    ExecutedStagesAppend(e1 + e2, e3);
    ExecutedStagesAppend(e1 + e2 + e3, e4);
  }

  /** Running the four stages one after the other, each on the descriptor
      the previous one returned: the executions are recorded for the four
      stages in chain order, the descriptor ends in the corrected collection
      at the upload stage, and publish sees args['file'] pointing at the
      correction output. */
  lemma ChainStages(cfg: Config, d: Descriptor, item: Item, w1: World, w2: World, w3: World, w4: World)
    requires DownloadStep(cfg, d, item, w1).step.err.None?
    requires CorrectionStep(cfg, DownloadStep(cfg, d, item, w1).step.desc, w2).err.None?
    requires PublishStep(CorrectionStep(cfg, DownloadStep(cfg, d, item, w1).step.desc, w2).desc, w3).err.None?
    ensures var s1 := DownloadStep(cfg, d, item, w1).step;
            var s2 := CorrectionStep(cfg, s1.desc, w2);
            var s3 := PublishStep(s2.desc, w3);
            var s4 := UploadStep(cfg, s3.desc, w4);
            && ExecutedStages(s1.effects + s2.effects + s3.effects + s4.effects)
               == [d.activityType, CorrectionStage, PublishStage, UploadStage]
            && s4.desc.collectionId == CorrectedCollection
            && s4.desc.sceneId == d.sceneId
            && s4.desc.activityType == UploadStage
            && s3.desc.args.Some? && s2.desc.args.Some?
            && s3.desc.args.value["file"] == s2.desc.args.value["file"]
  {
    var s1 := DownloadStep(cfg, d, item, w1).step;
    var s2 := CorrectionStep(cfg, s1.desc, w2);
    var s3 := PublishStep(s2.desc, w3);
    var s4 := UploadStep(cfg, s3.desc, w4);
    FourExecutions(s1.effects, s2.effects, s3.effects, s4.effects,
                   d, s1.desc.(collectionId := CorrectedCollection, activityType := CorrectionStage),
                   s2.desc.(activityType := PublishStage), s3.desc.(activityType := UploadStage));
  }

  // -----------------------------------------------------------------------
  // The handlers as methods over mutable objects

  /** The work descriptor dict, which the handlers update in place. */
  class Scene {
    var collectionId: string
    var activityType: string
    var sceneId: string
    var args: Option<map<string, Value>>

    function Snapshot(): Descriptor
      reads this
    {
      Descriptor(collectionId, activityType, sceneId, args)
    }

    constructor (d: Descriptor)
      ensures Snapshot() == d
    {
      collectionId := d.collectionId;
      activityType := d.activityType;
      sceneId := d.sceneId;
      args := d.args;
    }
  }

  /** The collection item of the scene being processed. */
  class CollectionItem {
    var compressedFile: Value
    var cloudCover: Value

    function Snapshot(): Item
      reads this
    {
      Item(compressedFile, cloudCover)
    }

    constructor (i: Item)
      ensures Snapshot() == i
    {
      compressedFile := i.compressedFile;
      cloudCover := i.cloudCover;
    }
  }

  /** The Landsat task; `trace` records every outside call it makes. */
  class LandsatTask {
    const config: Config
    ghost var trace: seq<Effect>

    constructor (config: Config)
      ensures this.config == config && trace == []
    {
      this.config := config;
      trace := [];
    }

    /** create_execution for the descriptor as it stands. */
    method CreateExecution(scene: Scene, w: World) returns (ok: bool)
      modifies this
      ensures trace == old(trace) + [Execution(scene.Snapshot())]
      ensures ok == w.storeUp
    {
      trace := trace + [Execution(scene.Snapshot())];
      ok := w.storeUp;
    }

    method Download(scene: Scene, item: CollectionItem, w: World) returns (err: Option<Exception>)
      modifies this, scene, item
      ensures var r := DownloadStep(config, old(scene.Snapshot()), old(item.Snapshot()), w);
              && scene.Snapshot() == r.step.desc && item.Snapshot() == r.item
              && trace == old(trace) + r.step.effects && err == r.step.err
    {
      var ok := CreateExecution(scene, w);
      if !ok {
        return Some(Raised(Store));
      }
      var productDir := DownloadDir(scene.Snapshot());
      if productDir.Err? {
        return Some(productDir.error);
      }
      ghost var d0 := scene.Snapshot();
      err := FetchInto(scene, item, w, productDir.value);
      AppendAssoc(old(trace), [Execution(d0)], DownloadInto(config, d0, old(item.Snapshot()), w, productDir.value).step.effects);
    }

    /** Lines 46-69 once the product directory is known. */
    method FetchInto(scene: Scene, item: CollectionItem, w: World, productDir: string)
      returns (err: Option<Exception>)
      requires scene.args.Some?
      modifies this, scene, item
      ensures var r := DownloadInto(config, old(scene.Snapshot()), old(item.Snapshot()), w, productDir);
              && scene.Snapshot() == r.step.desc && item.Snapshot() == r.item
              && trace == old(trace) + r.step.effects && err == r.step.err
    {
      var args := scene.args.value;
      if !w.pathExists(productDir) {
        trace := trace + [MakeDirs(productDir)];
      }
      if "link" !in args {
        return Some(KeyError("link"));
      }
      trace := trace + [DownloadImages(args["link"], productDir)];
      var file := w.downloader(args["link"], productDir);
      if file.None? {
        return Some(Raised(Downloader));
      }
      ghost var t := trace;
      err := SaveFile(scene, item, w, file.value);
      AppendAssoc(old(trace), t[|old(trace)|..], SaveDownload(config, old(scene.Snapshot()), old(item.Snapshot()), w, file.value).step.effects);
    }

    /** Lines 51-69 once the download returned `file`. */
    method SaveFile(scene: Scene, item: CollectionItem, w: World, file: string) returns (err: Option<Exception>)
      requires scene.args.Some?
      modifies this, scene, item
      ensures var r := SaveDownload(config, old(scene.Snapshot()), old(item.Snapshot()), w, file);
              && scene.Snapshot() == r.step.desc && item.Snapshot() == r.item
              && trace == old(trace) + r.step.effects && err == r.step.err
    {
      var args := scene.args.value;
      item.compressedFile := VStr(Replace(file, config.dataDir, ""));
      var cloud := if "cloud" in args then args["cloud"] else VNull;
      if Truthy(cloud) {
        item.cloudCover := cloud;
      }
      // args is the dict stored in the descriptor, so the descriptor sees
      // the new file at once
      args := args["file" := VStr(file)];
      scene.args := Some(args);
      trace := trace + [SaveItem(item.Snapshot())];
      if !w.saveOk {
        return Some(Raised(ItemStore));
      }
      scene.activityType := CorrectionStage;
      return None;
    }

    method Correction(scene: Scene, w: World) returns (err: Option<Exception>)
      modifies this, scene
      ensures var r := CorrectionStep(config, old(scene.Snapshot()), w);
              scene.Snapshot() == r.desc && trace == old(trace) + r.effects && err == r.err
    {
      scene.collectionId := CorrectedCollection;
      scene.activityType := CorrectionStage;
      var sceneId := scene.sceneId;
      var ok := CreateExecution(scene, w);
      if !ok {
        return Some(Raised(Store));
      }
      if scene.args.None? {
        return Some(KeyError("args"));
      }
      if "file" !in scene.args.value {
        return Some(KeyError("file"));
      }
      var file := scene.args.value["file"];
      var pathrow := GetTileId(sceneId);
      if pathrow.Err? {
        return Some(pathrow.error);
      }
      var tileDate := GetTileDate(sceneId);
      if tileDate.Err? {
        return Some(tileDate.error);
      }
      var params := EspaParams(scene.activityType, sceneId, file, pathrow.value);
      ghost var d0 := scene.Snapshot();
      err := SubmitToEspa(scene, w, params, tileDate.value);
      AppendAssoc(old(trace), [Execution(d0)], EspaRound(config, d0, w, params, tileDate.value).effects);
    }

    /** Lines 135-152 of the correction stage. */
    method SubmitToEspa(scene: Scene, w: World, params: EspaParams, tileDate: Date) returns (err: Option<Exception>)
      requires scene.args.Some? && ValidDate(tileDate) && scene.activityType == CorrectionStage
      modifies this, scene
      ensures var r := EspaRound(config, old(scene.Snapshot()), w, params, tileDate);
              scene.Snapshot() == r.desc && trace == old(trace) + r.effects && err == r.err
    {
      var yyyymm := FormatYm(tileDate);
      var date := FormatYmd(tileDate);
      trace := trace + [EspaRequest(config.espaUrl + "/espa", params)];
      var reply := w.espa(params);
      if reply.Unreachable? {
        return Some(Raised(EspaHttp));
      }
      if reply.status != 200 {
        return Some(AssertionError);
      }
      if reply.body.None? {
        return Some(Raised(JsonDecoder));
      }
      var result := reply.body.value;
      if Truthy(result) {
        if !result.VDict? {
          return Some(AttributeError);
        }
        if Lookup(result.entries, "status") == Some(VStr("ERROR")) {
          return Some(RuntimeError("Error in espa-science execution - " + scene.sceneId));
        }
      }
      var productDir := PathJoin(config.dataDir, "Repository/Archive/" + scene.collectionId + "/" + yyyymm + "/" + params.pathrow);
      if !EspaDone(w.listing(productDir), params.pathrow, date) {
        return Some(RuntimeError("Error in atmospheric correction"));
      }
      scene.args := Some(scene.args.value["file" := VStr(productDir)]);
      scene.activityType := PublishStage;
      return None;
    }

    method Publish(scene: Scene, w: World) returns (err: Option<Exception>)
      modifies this, scene
      ensures var r := PublishStep(old(scene.Snapshot()), w);
              scene.Snapshot() == r.desc && trace == old(trace) + r.effects && err == r.err
    {
      scene.activityType := PublishStage;
      var ok := CreateExecution(scene, w);
      if !ok {
        return Some(Raised(Store));
      }
      trace := trace + [PublishItem(scene.Snapshot())];
      var assets := w.publisher(scene.Snapshot());
      if assets.None? {
        return Some(Raised(Publisher));
      }
      scene.activityType := UploadStage;
      if scene.args.None? {
        return Some(KeyError("args"));
      }
      scene.args := Some(scene.args.value["assets" := assets.value]);
      return None;
    }

    method Upload(scene: Scene, w: World) returns (err: Option<Exception>)
      modifies this, scene
      ensures var r := UploadStep(config, old(scene.Snapshot()), w);
              scene.Snapshot() == r.desc && trace == old(trace) + r.effects && err == r.err
    {
      scene.activityType := UploadStage;
      var ok := CreateExecution(scene, w);
      if !ok {
        return Some(Raised(Store));
      }
      if scene.args.None? {
        return Some(KeyError("args"));
      }
      if "assets" !in scene.args.value {
        return Some(KeyError("assets"));
      }
      var assets := scene.args.value["assets"];
      if !assets.VDict? {
        return Some(AttributeError);
      }
      ghost var d0 := scene.Snapshot();
      err := UploadEntries(assets.entries, w);
      AppendAssoc(old(trace), [Execution(d0)], UploadRun(assets.entries, config.bucket, w.uploader).effects);
    }

    /** The loop of lines 99-101 over the entries of the asset mapping. */
    method UploadEntries(entries: seq<(string, Value)>, w: World) returns (err: Option<Exception>)
      modifies this
      ensures var run := UploadRun(entries, config.bucket, w.uploader);
              trace == old(trace) + run.effects && err == run.err
    {
      var bucket := config.bucket;
      ghost var done: seq<Effect> := [];
      var i := 0;
      while i < |entries|
        invariant 0 <= i <= |entries|
        invariant trace == old(trace) + done
        invariant UploadRun(entries, bucket, w.uploader)
                  == Uploads(done + UploadRun(entries[i..], bucket, w.uploader).effects,
                             UploadRun(entries[i..], bucket, w.uploader).err)
      {
        ghost var tail := UploadRun(entries[i + 1..], bucket, w.uploader);
        UploadRunAt(entries, i, bucket, w.uploader);
        var call := EntryUpload(entries[i].1, bucket);
        if call.Err? {
          assert done + [] == done;
          return Some(call.error);
        }
        trace := trace + [call.value];
        AppendAssoc(old(trace), done, [call.value]);
        if !w.uploader(call.value.file, call.value.bucket, call.value.key) {
          return Some(Raised(Uploader));
        }
        AppendAssoc(done, [call.value], tail.effects);
        done := done + [call.value];
        i := i + 1;
      }
      assert entries[i..] == [];
      assert done + [] == done;
      return None;
    }
  }
}
