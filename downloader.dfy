// The Salesforce downloader: field metadata from `describe`, and `download`,
// which restricts each object's fields, tries the bulk API and falls back to
// the REST API, and records what it produced per object.

module Downloader {
  import opened Records
  import opened Soql
  import opened FieldRestriction
  import opened CsvShaping

  /** The options passed to the bulk client next to the unfiltered query. */
  datatype BulkOptions = BulkOptions(
    directoryPath: string,
    filenamePrefix: Option<string>,
    createdFrom: Option<string>,
    createdTo: Option<string>,
    singleBatch: Option<bool>)

  /** The bulk client either returns its file list or raises a StandardError
      (the exceptions a bare `rescue` catches). */
  datatype BulkResult = BulkOk(filenames: seq<string>) | BulkFailed

  /** The REST client either returns the rows or raises. */
  datatype RestResult = RestOk(rows: seq<Row>) | RestFailed

  /** A call made to a remote client, in the order made. */
  datatype ApiCall =
    | BulkQuery(obj: string, soql: string, options: BulkOptions)
    | RestQuery(soql: string)

  /** The remote clients, as oracles: the bulk query, the REST query, `describe`
      (already mapped to name/type/label records) and the server URL. */
  datatype Clients = Clients(
    instanceUrl: string,
    bulk: (string, string, BulkOptions) -> BulkResult,
    rest: string -> RestResult,
    describe: string -> seq<Field>)

  /** The file-system helpers the downloader relies on: the data directory,
      `generate_filename` and `File.absolute_path`. */
  datatype Env = Env(
    dataDirectory: string,
    generateFilename: string -> string,
    absolutePath: string -> string)

  /** The parameters the downloader reads. */
  datatype Params = Params(
    entities: seq<string>,
    createdFrom: Option<string>,
    createdTo: Option<string>,
    singleBatch: Option<bool>,
    limitEntityFields: Option<map<string, seq<string>>>,
    dssTablePrefix: Option<string>)

  /** A configured downloader: its parameters, clients and environment. */
  datatype Downloader = Downloader(params: Params, clients: Clients, env: Env)

  /** Why `download` raises. */
  datatype DownloadError =
    | MissingFieldMetadata(obj: string)
    | UnavailableFields(obj: string, names: set<string>)
    | RestQueryFailed(obj: string, soql: string)

  /** The main dataset: bulk result files, or REST rows still to be written. */
  datatype MainData = InFiles(filenames: seq<string>) | RestData(rows: seq<Row>)

  /** One run of `download_main_dataset`: its outcome and the calls it made. */
  datatype Attempt = Attempt(data: Result<MainData, DownloadError>, calls: seq<ApiCall>)

  /** The entry of `downloaded_info['objects']` for one object. */
  datatype ObjectInfo = ObjectInfo(fields: seq<Field>, filenames: seq<string>)

  /** `downloaded_info`: the per-object entries and `meta.salesforce_server`. */
  datatype DownloadedInfo = DownloadedInfo(objects: map<string, ObjectInfo>, salesforceServer: string)

  /** A CSV file written by the REST path. */
  datatype CsvFile = CsvFile(path: string, rows: CsvRows)

  /** The state of `download` after some objects: the entries so far, the field
      metadata (which the in-place restriction changes), the files written, the
      calls made, and the error once one is raised. */
  datatype Progress = Progress(
    objects: map<string, ObjectInfo>,
    metadata: map<string, seq<Field>>,
    written: seq<CsvFile>,
    calls: seq<ApiCall>,
    error: Option<DownloadError>)

  /** All that `download` leaves behind: its result (or the error it raised),
      the field metadata it modified, the files it wrote, the calls it made. */
  datatype DownloadRun = DownloadRun(
    info: Result<DownloadedInfo, DownloadError>,
    metadata: map<string, seq<Field>>,
    written: seq<CsvFile>,
    calls: seq<ApiCall>)

  // ---------------------------------------------------------------------------
  // get_field_metadata

  /** `get_field_metadata`: a map from each entity to its described fields,
      built by merging one entity at a time. */
  function FieldMetadata(clients: Clients, entities: seq<string>): (m: map<string, seq<Field>>)
    ensures m.Keys == ToSet(entities)
    ensures forall obj :: obj in m ==> m[obj] == clients.describe(obj)
    decreases |entities|
  {
    if |entities| == 0 then map[]
    else
      var last := entities[|entities| - 1];
      FieldMetadata(clients, entities[..|entities| - 1])[last := clients.describe(last)]
  }

  // ---------------------------------------------------------------------------
  // download_main_dataset

  /** The bulk options: data directory, `dss_table_prefix + '_'` when a prefix
      is given, the date bounds and the single-batch flag. */
  function BulkOptionsOf(d: Downloader): BulkOptions
  {
    BulkOptions(
      d.env.dataDirectory,
      if d.params.dssTablePrefix.Some? then Some(d.params.dssTablePrefix.value + "_") else None,
      d.params.createdFrom,
      d.params.createdTo,
      d.params.singleBatch)
  }

  /** The query handed to the bulk client: no date filter. */
  function BulkQueryText(obj: string, fields: seq<Field>): string
  {
    ConstructQuery(obj, Names(fields), None, None)
  }

  /** The query handed to the REST client: the same, with the date window. */
  function RestQueryText(d: Downloader, obj: string, fields: seq<Field>): string
  {
    ConstructQuery(obj, Names(fields), d.params.createdFrom, d.params.createdTo)
  }

  /** What `download_main_dataset` does: bulk first; on a bulk StandardError the
      REST client with the windowed query; a REST failure propagates. */
  function MainDataset(d: Downloader, obj: string, fields: seq<Field>): Attempt
  {
    var bulkCall := BulkQuery(obj, BulkQueryText(obj, fields), BulkOptionsOf(d));
    match d.clients.bulk(obj, BulkQueryText(obj, fields), BulkOptionsOf(d))
    case BulkOk(filenames) => Attempt(Ok(InFiles(filenames)), [bulkCall])
    case BulkFailed =>
      var q := RestQueryText(d, obj, fields);
      var calls := [bulkCall, RestQuery(q)];
      match d.clients.rest(q)
      case RestOk(rows) => Attempt(Ok(RestData(rows)), calls)
      case RestFailed => Attempt(Err(RestQueryFailed(obj, q)), calls)
  }

  /** `download_main_dataset` as an explicit bulk attempt followed, on
      failure, by one REST attempt. */
  method DownloadMainDataset(d: Downloader, obj: string, fields: seq<Field>) returns (a: Attempt)
    ensures a == MainDataset(d, obj, fields)
  {
    var q := BulkQueryText(obj, fields);
    var options := BulkOptionsOf(d);
    var calls := [BulkQuery(obj, q, options)];
    var bulkResult := d.clients.bulk(obj, q, options);
    if bulkResult.BulkOk? {
      return Attempt(Ok(InFiles(bulkResult.filenames)), calls);
    }
    // rescue: rebuild the query with the date window and use the REST client
    q := RestQueryText(d, obj, fields);
    calls := calls + [RestQuery(q)];
    var restResult := d.clients.rest(q);
    if restResult.RestOk? {
      a := Attempt(Ok(RestData(restResult.rows)), calls);
    } else {
      a := Attempt(Err(RestQueryFailed(obj, q)), calls);
    }
  }

  /** When the bulk call succeeds: one call, to the bulk client, with a query
      without WHERE clause, and the result is its file list. */
  lemma BulkSuccessUsesFiles(d: Downloader, obj: string, fields: seq<Field>)
    requires d.clients.bulk(obj, BulkQueryText(obj, fields), BulkOptionsOf(d)).BulkOk?
    ensures var a := MainDataset(d, obj, fields);
            && a.data == Ok(InFiles(d.clients.bulk(obj, BulkQueryText(obj, fields), BulkOptionsOf(d)).filenames))
            && a.calls == [BulkQuery(obj, BaseQuery(obj, Names(fields)), BulkOptionsOf(d))]
  {
    ConstructQueryIsBaseAndWindow(obj, Names(fields), None, None);
  }

  /** When the bulk call fails: the bulk call is followed by exactly one REST
      call, whose query is the bulk query followed by the date window; the
      dates reach the bulk client only as options. */
  lemma BulkFailureFallsBackToRest(d: Downloader, obj: string, fields: seq<Field>)
    requires d.clients.bulk(obj, BulkQueryText(obj, fields), BulkOptionsOf(d)).BulkFailed?
    ensures var a := MainDataset(d, obj, fields);
            var q := BaseQuery(obj, Names(fields)) + WindowFilter(d.params.createdFrom, d.params.createdTo);
            && a.calls == [BulkQuery(obj, BaseQuery(obj, Names(fields)), BulkOptionsOf(d)), RestQuery(q)]
            && a.calls[0].options.createdFrom == d.params.createdFrom
            && a.calls[0].options.createdTo == d.params.createdTo
            && (d.clients.rest(q).RestOk? ==> a.data == Ok(RestData(d.clients.rest(q).rows)))
            && (d.clients.rest(q).RestFailed? ==> a.data == Err(RestQueryFailed(obj, q)))
  {
    ConstructQueryIsBaseAndWindow(obj, Names(fields), None, None);
    ConstructQueryIsBaseAndWindow(obj, Names(fields), d.params.createdFrom, d.params.createdTo);
  }


  // ---------------------------------------------------------------------------
  // download

  /** `File.absolute_path` over a list of file names. */
  function AbsolutePaths(env: Env, names: seq<string>): (paths: seq<string>)
    ensures |paths| == |names|
  {
    seq(|names|, i requires 0 <= i < |names| => env.absolutePath(names[i]))
  }

  /** Records the main dataset of one object whose (restricted) fields are
      `fields`: a raised error; the bulk files; or the CSV file written from
      the REST rows. */
  function RecordMainData(d: Downloader, obj: string, fields: seq<Field>,
                          metadata: map<string, seq<Field>>, p: Progress, a: Attempt): Progress
  {
    var calls := p.calls + a.calls;
    match a.data
    case Err(e) => p.(metadata := metadata, calls := calls, error := Some(e))
    case Ok(InFiles(filenames)) =>
      var entry := ObjectInfo(fields, AbsolutePaths(d.env, filenames));
      p.(objects := p.objects[obj := entry], metadata := metadata, calls := calls)
    case Ok(RestData(rows)) =>
      var name := d.env.generateFilename(obj);
      var entry := ObjectInfo(fields, [d.env.absolutePath(name)]);
      var file := CsvFile(name, CsvContent(Names(fields), rows));
      p.(objects := p.objects[obj := entry], metadata := metadata,
         written := p.written + [file], calls := calls)
  }

  /** The body of the loop in `download` for one object. Once an error has
      been raised nothing more happens. */
  function ObjectStep(d: Downloader, obj: string, p: Progress): Progress
  {
    if p.error.Some? then p
    else if obj !in p.metadata then p.(error := Some(MissingFieldMetadata(obj)))
    else
      var requested := UserFields(d.params.limitEntityFields, obj);
      var r := RestrictFields(p.metadata[obj], requested);
      if r.Err? then p.(error := Some(UnavailableFields(obj, r.error)))
      else
        // keep_if filters the list in place, so the field metadata sees it too
        var metadata := if requested.Some? then p.metadata[obj := r.value] else p.metadata;
        RecordMainData(d, obj, r.value, metadata, p, MainDataset(d, obj, r.value))
  }

  /** The loop of `download` over the objects, from the given field metadata. */
  function Run(d: Downloader, metadata: map<string, seq<Field>>, objs: seq<string>): Progress
    decreases |objs|
  {
    if |objs| == 0 then Progress(map[], metadata, [], [], None)
    else ObjectStep(d, objs[|objs| - 1], Run(d, metadata, objs[..|objs| - 1]))
  }

  /** The result of `download` from its final state. */
  function Finish(d: Downloader, p: Progress): DownloadRun
  {
    var info := if p.error.Some? then Err(p.error.value)
                else Ok(DownloadedInfo(p.objects, d.clients.instanceUrl));
    DownloadRun(info, p.metadata, p.written, p.calls)
  }

  /** One pass of the loop in `download`: restrict the object's fields (in
      place), download its main dataset and record it, writing the CSV file on
      the REST path. */
  method DownloadObject(d: Downloader, obj: string, p: Progress) returns (q: Progress)
    requires p.error.None?
    ensures q == ObjectStep(d, obj, p)
  {
    if obj !in p.metadata {
      return p.(error := Some(MissingFieldMetadata(obj)));
    }
    var objFields := p.metadata[obj];
    var requested := UserFields(d.params.limitEntityFields, obj);
    var metadata := p.metadata;
    if requested.Some? {
      var missing := Unavailable(objFields, requested.value);
      if missing != {} {
        return p.(error := Some(UnavailableFields(obj, missing)));
      }
      objFields := KeepIf(objFields, ToSet(requested.value));
      metadata := metadata[obj := objFields];
    }
    var mainData := DownloadMainDataset(d, obj, objFields);
    var calls := p.calls + mainData.calls;
    if mainData.data.Err? {
      return p.(metadata := metadata, calls := calls, error := Some(mainData.data.error));
    }
    match mainData.data.value {
      case InFiles(filenames) =>
        var entry := ObjectInfo(objFields, AbsolutePaths(d.env, filenames));
        q := p.(objects := p.objects[obj := entry], metadata := metadata, calls := calls);
      case RestData(rows) =>
        var name := d.env.generateFilename(obj);
        var content := WriteCsv(Names(objFields), rows);
        var entry := ObjectInfo(objFields, [d.env.absolutePath(name)]);
        q := p.(objects := p.objects[obj := entry], metadata := metadata,
                written := p.written + [CsvFile(name, content)], calls := calls);
    }
  }

  /** `download(field_metadata)`: the objects in order, each restricted,
      downloaded and recorded; the first error ends the loop and is raised. */
  method Download(d: Downloader, fieldMetadata: map<string, seq<Field>>) returns (run: DownloadRun)
    ensures run == Finish(d, Run(d, fieldMetadata, d.params.entities))
  {
    var progress := Progress(map[], fieldMetadata, [], [], None);
    var entities := d.params.entities;
    var i := 0;
    while i < |entities|
      invariant 0 <= i <= |entities|
      invariant progress.error.None?
      invariant Run(d, fieldMetadata, entities[..i]) == progress
    {
      var q := DownloadObject(d, entities[i], progress);
      RunStep(d, fieldMetadata, entities, i);
      if q.error.Some? {
        ErrorIsFinal(d, fieldMetadata, entities, i + 1);
        return Finish(d, q);
      }
      progress := q;
      i := i + 1;
    }
    assert entities[..i] == entities;
    run := Finish(d, progress);
  }

  /** The fold over one more object is one more step. */
  lemma RunStep(d: Downloader, metadata: map<string, seq<Field>>, objs: seq<string>, i: nat)
    requires i < |objs|
    ensures Run(d, metadata, objs[..i + 1]) == ObjectStep(d, objs[i], Run(d, metadata, objs[..i]))
  {
    assert objs[..i + 1][..i] == objs[..i];
  }

  // ---------------------------------------------------------------------------
  // Properties of download

  /** Once an error is raised, the remaining objects change nothing. */
  lemma {:induction false} ErrorIsFinal(d: Downloader, metadata: map<string, seq<Field>>,
                                        objs: seq<string>, k: nat)
    requires k <= |objs|
    requires Run(d, metadata, objs[..k]).error.Some?
    ensures Run(d, metadata, objs) == Run(d, metadata, objs[..k])
    decreases |objs|
  {
    if k == |objs| {
      assert objs[..k] == objs;
    } else {
      var prefix := objs[..|objs| - 1];
      assert prefix[..k] == objs[..k];
      ErrorIsFinal(d, metadata, prefix, k);
    }
  }

  /** The restriction of an object as the field metadata was given. */
  function RestrictedAt(d: Downloader, metadata: map<string, seq<Field>>, obj: string): Result<seq<Field>, set<string>>
    requires obj in metadata
  {
    RestrictFields(metadata[obj], UserFields(d.params.limitEntityFields, obj))
  }

  /** Recording a main dataset installs the given metadata, appends the
      attempt's calls, and adds only the object's own entry. */
  lemma RecordFacts(d: Downloader, obj: string, fields: seq<Field>,
                    metadata: map<string, seq<Field>>, p: Progress, a: Attempt)
    ensures var q := RecordMainData(d, obj, fields, metadata, p, a);
            && q.metadata == metadata
            && q.calls == p.calls + a.calls
            && (q.error.None? ==> p.error.None? && a.data.Ok?)
            && (q.error.Some? ==> p.error.Some? || (a.data.Err? && q.error == Some(a.data.error)))
            && (q.error.None? ==>
                  && q.objects.Keys == p.objects.Keys + {obj}
                  && q.objects[obj].fields == fields
                  && forall o :: o in p.objects && o != obj ==> q.objects[o] == p.objects[o])
  {
  }

  /** What one pass of the loop changes: only the object's own metadata entry
      and objects entry, only bulk calls for that object, and no entry unless
      the restriction succeeded. */
  lemma StepFacts(d: Downloader, obj: string, p: Progress)
    ensures var q := ObjectStep(d, obj, p);
            && (p.error.Some? ==> q == p)
            && q.metadata.Keys == p.metadata.Keys
            && (forall o :: o in p.metadata && o != obj ==> q.metadata[o] == p.metadata[o])
            && (forall c :: c in q.calls && c.BulkQuery? ==> c in p.calls || c.obj == obj)
            && (p.error.None? && q.error.Some? && q.error.value.MissingFieldMetadata? ==> obj !in p.metadata)
            && (q.error.None? ==>
                  && p.error.None? && obj in p.metadata
                  && var r := RestrictFields(p.metadata[obj], UserFields(d.params.limitEntityFields, obj));
                  && r.Ok?
                  && q.metadata[obj] == r.value
                  && q.objects.Keys == p.objects.Keys + {obj}
                  && q.objects[obj].fields == r.value
                  && forall o :: o in p.objects && o != obj ==> q.objects[o] == p.objects[o])
  {
    if p.error.None? && obj in p.metadata {
      var requested := UserFields(d.params.limitEntityFields, obj);
      var r := RestrictFields(p.metadata[obj], requested);
      if r.Ok? {
        var a := MainDataset(d, obj, r.value);
        var metadata := if requested.Some? then p.metadata[obj := r.value] else p.metadata;
        var q := RecordMainData(d, obj, r.value, metadata, p, a);
        assert ObjectStep(d, obj, p) == q;
        RecordFacts(d, obj, r.value, metadata, p, a);
        assert a.data.Err? ==> a.data.error.RestQueryFailed?;
        assert forall c :: c in a.calls && c.BulkQuery? ==> c.obj == obj;
        assert forall c :: c in q.calls ==> c in p.calls || c in a.calls;
      }
    }
  }

  /** The metadata keeps its keys, and entries of objects not yet processed
      are as given. */
  ghost predicate MetadataFrame(metadata: map<string, seq<Field>>, objs: seq<string>, p: Progress)
  {
    && p.metadata.Keys == metadata.Keys
    && forall obj :: obj in metadata && obj !in objs ==> p.metadata[obj] == metadata[obj]
  }

  /** Every bulk call so far was for a processed object. */
  ghost predicate BulkCallsFor(objs: seq<string>, calls: seq<ApiCall>)
  {
    forall c :: c in calls && c.BulkQuery? ==> c.obj in objs
  }

  /** Without an error, every processed object has an entry holding its
      restricted fields, which the metadata now holds too, and no other. */
  ghost predicate EntriesRestricted(d: Downloader, metadata: map<string, seq<Field>>, objs: seq<string>, p: Progress)
  {
    p.error.None? ==>
      && p.objects.Keys == ToSet(objs)
      && forall obj :: obj in objs ==>
           && obj in metadata && obj in p.metadata && obj in p.objects
           && RestrictedAt(d, metadata, obj).Ok?
           && p.metadata[obj] == RestrictedAt(d, metadata, obj).value
           && p.objects[obj].fields == p.metadata[obj]
  }

  /** What `download` keeps true after each object. */
  ghost predicate Consistent(d: Downloader, metadata: map<string, seq<Field>>, objs: seq<string>, p: Progress)
  {
    MetadataFrame(metadata, objs, p) && BulkCallsFor(objs, p.calls) && EntriesRestricted(d, metadata, objs, p)
  }

  lemma FrameStep(d: Downloader, metadata: map<string, seq<Field>>, prefix: seq<string>, last: string, p: Progress)
    requires MetadataFrame(metadata, prefix, p)
    ensures MetadataFrame(metadata, prefix + [last], ObjectStep(d, last, p))
  {
    StepFacts(d, last, p);
  }

  lemma CallsStep(d: Downloader, prefix: seq<string>, last: string, p: Progress)
    requires BulkCallsFor(prefix, p.calls)
    ensures BulkCallsFor(prefix + [last], ObjectStep(d, last, p).calls)
  {
    StepFacts(d, last, p);
  }

  lemma EntriesStep(d: Downloader, metadata: map<string, seq<Field>>, prefix: seq<string>, last: string, p: Progress)
    requires MetadataFrame(metadata, prefix, p)
    requires EntriesRestricted(d, metadata, prefix, p)
    ensures EntriesRestricted(d, metadata, prefix + [last], ObjectStep(d, last, p))
  {
    var objs := prefix + [last];
    var q := ObjectStep(d, last, p);
    StepFacts(d, last, p);
    if q.error.None? {
      var requested := UserFields(d.params.limitEntityFields, last);
      var r := RestrictFields(p.metadata[last], requested);
      if last in prefix {
        // already restricted: restricting again changes nothing
        RestrictAgain(metadata[last], requested);
      }
      assert r.value == RestrictedAt(d, metadata, last).value;
      assert ToSet(objs) == ToSet(prefix) + {last};
      forall obj | obj in objs
        ensures && obj in metadata && obj in q.metadata && obj in q.objects
                && RestrictedAt(d, metadata, obj).Ok?
                && q.metadata[obj] == RestrictedAt(d, metadata, obj).value
                && q.objects[obj].fields == q.metadata[obj]
      {
        if obj != last {
          assert obj in prefix;
        }
      }
    }
  }

  lemma {:induction false} RunIsConsistent(d: Downloader, metadata: map<string, seq<Field>>, objs: seq<string>)
    ensures Consistent(d, metadata, objs, Run(d, metadata, objs))
    decreases |objs|
  {
    if |objs| == 0 {
      assert ToSet(objs) == {};
    } else {
      var prefix := objs[..|objs| - 1];
      var last := objs[|objs| - 1];
      assert objs == prefix + [last];
      RunIsConsistent(d, metadata, prefix);
      var p := Run(d, metadata, prefix);
      FrameStep(d, metadata, prefix, last, p);
      CallsStep(d, prefix, last, p);
      EntriesStep(d, metadata, prefix, last, p);
    }
  }

  /** On success `downloaded_info['objects']` has exactly one entry per entity,
      holding the restricted fields, which the field metadata now holds too. */
  lemma ObjectsOnePerEntity(d: Downloader, metadata: map<string, seq<Field>>)
    requires Run(d, metadata, d.params.entities).error.None?
    ensures var p := Run(d, metadata, d.params.entities);
            && p.objects.Keys == ToSet(d.params.entities)
            && forall obj :: obj in p.objects ==>
                 && obj in metadata
                 && obj in p.metadata
                 && RestrictedAt(d, metadata, obj).Ok?
                 && p.objects[obj].fields == RestrictedAt(d, metadata, obj).value
                 && p.metadata[obj] == p.objects[obj].fields
  {
    RunIsConsistent(d, metadata, d.params.entities);
  }

  lemma {:induction false} NoMissingMetadata(d: Downloader, metadata: map<string, seq<Field>>,
                                             objs: seq<string>, obj: string)
    requires forall o :: o in objs ==> o in metadata
    ensures Run(d, metadata, objs).error != Some(MissingFieldMetadata(obj))
    decreases |objs|
  {
    if |objs| > 0 {
      var prefix := objs[..|objs| - 1];
      var last := objs[|objs| - 1];
      assert forall o :: o in prefix ==> o in objs;
      assert last in objs;
      NoMissingMetadata(d, metadata, prefix, obj);
      RunIsConsistent(d, metadata, prefix);
      StepFacts(d, last, Run(d, metadata, prefix));
    }
  }

  /** Metadata built by describing every entity has an entry for each of them,
      so `download` on it never fails for want of one. */
  lemma DescribedMetadataIsComplete(d: Downloader)
    ensures var p := Run(d, FieldMetadata(d.clients, d.params.entities), d.params.entities);
            forall obj :: p.error != Some(MissingFieldMetadata(obj))
  {
    var metadata := FieldMetadata(d.clients, d.params.entities);
    forall obj ensures Run(d, metadata, d.params.entities).error != Some(MissingFieldMetadata(obj)) {
      NoMissingMetadata(d, metadata, d.params.entities, obj);
    }
  }

  /** An entity whose requested field list names a field it does not have
      makes `download` raise, and no bulk call is ever made for it. */
  lemma {:induction false} UnavailableFieldAborts(d: Downloader, metadata: map<string, seq<Field>>,
                                                  objs: seq<string>, obj: string)
    requires obj in objs && obj in metadata
    requires RestrictedAt(d, metadata, obj).Err?
    ensures var p := Run(d, metadata, objs);
            && p.error.Some?
            && forall c :: c in p.calls && c.BulkQuery? ==> c.obj != obj
    decreases |objs|
  {
    var prefix := objs[..|objs| - 1];
    var last := objs[|objs| - 1];
    assert objs == prefix + [last];
    RunIsConsistent(d, metadata, prefix);
    var p := Run(d, metadata, prefix);
    StepFacts(d, last, p);
    if obj in prefix {
      UnavailableFieldAborts(d, metadata, prefix, obj);
    } else {
      assert last == obj;
      if p.error.None? {
        assert p.metadata[obj] == metadata[obj];
        assert ObjectStep(d, obj, p).calls == p.calls;
      }
    }
  }

  /** A CSV file with a header and one cell per header cell on every line. */
  predicate Rectangular(rows: CsvRows)
  {
    |rows| >= 1 && forall k :: 0 <= k < |rows| ==> |rows[k]| == |rows[0]|
  }

  /** Every file in the list is rectangular. */
  predicate AllRectangular(files: seq<CsvFile>)
  {
    forall i :: 0 <= i < |files| ==> Rectangular(files[i].rows)
  }

  /** Every file the REST path writes has a header and as many cells on every
      line as in the header. */
  lemma {:induction false} WrittenFilesAreRectangular(d: Downloader, metadata: map<string, seq<Field>>, objs: seq<string>)
    ensures AllRectangular(Run(d, metadata, objs).written)
    decreases |objs|
  {
    if |objs| > 0 {
      var prefix := objs[..|objs| - 1];
      WrittenFilesAreRectangular(d, metadata, prefix);
      var p := Run(d, metadata, prefix);
      var obj := objs[|objs| - 1];
      var q := Run(d, metadata, objs);
      assert q == ObjectStep(d, obj, p);
      var wroteFile := false;
      if p.error.None? && obj in p.metadata {
        var requested := UserFields(d.params.limitEntityFields, obj);
        var r := RestrictFields(p.metadata[obj], requested);
        if r.Ok? {
          var a := MainDataset(d, obj, r.value);
          var metadata' := if requested.Some? then p.metadata[obj := r.value] else p.metadata;
          assert q == RecordMainData(d, obj, r.value, metadata', p, a);
          if a.data.Ok? && a.data.value.RestData? {
            wroteFile := true;
            var content := CsvContent(Names(r.value), a.data.value.rows);
            CsvContentShape(Names(r.value), a.data.value.rows);
            assert Rectangular(content);
            assert q.written == p.written + [CsvFile(d.env.generateFilename(obj), content)];
            forall i | 0 <= i < |q.written| ensures Rectangular(q.written[i].rows) {
              if i < |p.written| {
                assert q.written[i] == p.written[i];
              }
            }
          }
        }
      }
      if !wroteFile {
        assert q.written == p.written;
      }
    }
  }

  /** On the REST path an object's entry has exactly one file name, the
      absolute path of the file written for it, and that file's header is the
      entry's field names, so its length equals the number of fields. */
  lemma RestEntryHasOneFile(d: Downloader, obj: string, p: Progress)
    requires p.error.None? && obj in p.metadata
    requires RestrictFields(p.metadata[obj], UserFields(d.params.limitEntityFields, obj)).Ok?
    requires
      var fields := RestrictFields(p.metadata[obj], UserFields(d.params.limitEntityFields, obj)).value;
      MainDataset(d, obj, fields).data.Ok? && MainDataset(d, obj, fields).data.value.RestData?
    ensures var q := ObjectStep(d, obj, p);
            && q.error.None?
            && obj in q.objects
            && |q.objects[obj].filenames| == 1
            && |q.written| == |p.written| + 1
            && var file := q.written[|q.written| - 1];
               && |file.rows| >= 1
               && q.objects[obj].filenames[0] == d.env.absolutePath(file.path)
               && file.rows[0] == HeaderRow(Names(q.objects[obj].fields))
               && |file.rows[0]| == |q.objects[obj].fields|
  {
    var fields := RestrictFields(p.metadata[obj], UserFields(d.params.limitEntityFields, obj)).value;
    CsvContentShape(Names(fields), MainDataset(d, obj, fields).data.value.rows);
  }

  /** On the bulk path an object's entry lists the bulk files' absolute paths,
      nothing is written, and the only call is the unfiltered bulk query. */
  lemma BulkEntryUsesBulkFiles(d: Downloader, obj: string, p: Progress)
    requires p.error.None? && obj in p.metadata
    requires RestrictFields(p.metadata[obj], UserFields(d.params.limitEntityFields, obj)).Ok?
    requires
      var fields := RestrictFields(p.metadata[obj], UserFields(d.params.limitEntityFields, obj)).value;
      d.clients.bulk(obj, BulkQueryText(obj, fields), BulkOptionsOf(d)).BulkOk?
    ensures var fields := RestrictFields(p.metadata[obj], UserFields(d.params.limitEntityFields, obj)).value;
            var files := d.clients.bulk(obj, BulkQueryText(obj, fields), BulkOptionsOf(d)).filenames;
            var q := ObjectStep(d, obj, p);
            && q.error.None?
            && q.objects[obj] == ObjectInfo(fields, AbsolutePaths(d.env, files))
            && q.written == p.written
            && q.calls == p.calls + [BulkQuery(obj, BaseQuery(obj, Names(fields)), BulkOptionsOf(d))]
  {
    var fields := RestrictFields(p.metadata[obj], UserFields(d.params.limitEntityFields, obj)).value;
    BulkSuccessUsesFiles(d, obj, fields);
  }
}
