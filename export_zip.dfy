/** The photo archives and the single-photo download of
    lib/recall/export.ts. A JSZip archive is a map from entry path to
    content, where a later file under a path replaces the earlier one, plus
    the set of folders created. Downloads read the storage bucket through
    `Storage.DownloadPhoto`; the time formatters, the clock and the HTTP
    fetch are parameters. Saving the archive in the browser is not part of
    this model: the result is the archive and the name it is saved under. */
module ExportZip {
  import opened Wrappers
  import opened Text
  import opened RecallTypes
  import opened LogOrder
  import opened ExportNames
  import opened ExportSummary
  import opened Storage

  const SummaryEntry: string := "case_summary.txt"
  const ArchiveFailed: string := "Failed to create photo archive"
  const NoPhotosToExport: string := "No photos to export"
  const SingleDownloadFailed: string := "Failed to download photo"

  datatype Content = SummaryFile(text: string) | PhotoFile(data: Blob)

  datatype Zip = Zip(files: map<string, Content>, folders: set<string>)

  const EmptyZip: Zip := Zip(map[], {})

  /** An archive and the file name it is offered under. */
  datatype Archive = Archive(zip: Zip, fileName: string)

  /** The renderings of a timestamp the archive export uses: the UTC ISO
      text, the local time text, the local date-time text, and the local
      text of the current time. */
  datatype ZipEnv = ZipEnv(
    isoText: Timestamp -> string,
    timeText: Timestamp -> string,
    dateTimeText: Timestamp -> string,
    nowText: string)

  /** Whether the photo's object can be downloaded from the bucket. */
  predicate Downloadable(bucket: Bucket, p: RecallPhoto) {
    DownloadPhoto(bucket, p.storage_path).Ok?
  }

  /** Full entry path of a file put into `folder`, or at the root. */
  function Place(folder: Option<string>, name: string): string {
    if folder.Some? then folder.value + "/" + name else name
  }

  /** `zip.folder(f).file(name, data)` or, at the root, `zip.file(name, data)`. */
  function Put(z: Zip, folder: Option<string>, name: string, data: Blob): Zip {
    Zip(z.files[Place(folder, name) := PhotoFile(data)],
        if folder.Some? then z.folders + {folder.value} else z.folders)
  }

  /** The archive after the loop over `photos`: every photo whose download
      succeeds is put under its entry name, the others are skipped. */
  function AddPhotos(z: Zip, photos: seq<RecallPhoto>, folder: Option<string>, bucket: Bucket): Zip {
    if photos == [] then z
    else
      var before := AddPhotos(z, photos[..|photos| - 1], folder, bucket);
      var i := |photos| - 1;
      match DownloadPhoto(bucket, photos[i].storage_path)
      case Ok(blob) => Put(before, folder, EntryName(photos[i], i), blob)
      case Err(_) => before
  }

  /** The archive folder of a log: `{date}_{HHMM}_{log_type}` of its
      creation time. */
  function FolderOf(l: LogWithPhotos, env: ZipEnv): string {
    FolderName(l.log, env.isoText(l.log.created_at), env.timeText(l.log.created_at))
  }

  /** The archive after the loop over `logs`: a log without photos is
      skipped; the photos of the others go to the log's folder. */
  function AddLogs(z: Zip, logs: seq<LogWithPhotos>, bucket: Bucket, env: ZipEnv): Zip {
    if logs == [] then z
    else
      var before := AddLogs(z, logs[..|logs| - 1], bucket, env);
      var l := logs[|logs| - 1];
      if |l.photos| == 0 then before else AddPhotos(before, l.photos, Some(FolderOf(l, env)), bucket)
  }

  /** `totalPhotos`: the photos attempted, failed downloads included. */
  function PhotoCount(logs: seq<LogWithPhotos>): nat {
    if logs == [] then 0 else PhotoCount(logs[..|logs| - 1]) + |logs[|logs| - 1].photos|
  }

  /** The archive holding only the case summary. */
  function SummaryZip(case_: RecallCase, logs: seq<LogWithPhotos>, env: ZipEnv): Zip {
    Zip(map[SummaryEntry := SummaryFile(SummaryText(case_, logs, env.dateTimeText, env.nowText))], {})
  }

  /** The outcome of `exportCasePhotosToZip` for logs already in report
      order. The "No photos found to export" error is thrown inside the
      `try` whose handler replaces every error with `ArchiveFailed`, so
      that is the only error the caller sees. */
  function CaseArchive(case_: RecallCase, logs: seq<LogWithPhotos>, bucket: Bucket, env: ZipEnv): Result<Archive, string> {
    if PhotoCount(logs) == 0 then Err(ArchiveFailed)
    else Ok(Archive(AddLogs(SummaryZip(case_, logs, env), logs, bucket, env), ArchiveFileName(case_.title)))
  }

  /** `exportCasePhotosToZip`. Building the summary sorts the caller's logs
      oldest first, and the loop then walks them in that order. */
  method ExportCasePhotosToZip(case_: RecallCase, logs: array<LogWithPhotos>, bucket: Bucket, env: ZipEnv)
    returns (r: Result<Archive, string>)
    modifies logs
    ensures SortedByCreated(logs[..]) && multiset(logs[..]) == multiset(old(logs[..]))
    ensures SameTies(logs[..], old(logs[..]))
    ensures r == CaseArchive(case_, logs[..], bucket, env)
  {
    var summary := GenerateCaseSummary(case_, logs, env.dateTimeText, env.nowText);
    var zip := Zip(map[SummaryEntry := SummaryFile(summary)], {});
    var totalPhotos;
    zip, totalPhotos := AddAllLogs(zip, logs, bucket, env);
    if totalPhotos == 0 {
      r := Err(ArchiveFailed);
    } else {
      r := Ok(Archive(zip, ArchiveFileName(case_.title)));
    }
  }

  /** The outer loop of `exportCasePhotosToZip`. */
  method AddAllLogs(z: Zip, logs: array<LogWithPhotos>, bucket: Bucket, env: ZipEnv)
    returns (zip: Zip, totalPhotos: nat)
    ensures zip == AddLogs(z, logs[..], bucket, env)
    ensures totalPhotos == PhotoCount(logs[..])
  {
    zip, totalPhotos := z, 0;
    for k := 0 to logs.Length
      invariant zip == AddLogs(z, logs[..k], bucket, env)
      invariant totalPhotos == PhotoCount(logs[..k])
    {
      assert logs[..k + 1][..k] == logs[..k];
      var l := logs[k];
      if |l.photos| == 0 {
        continue;
      }
      var folderName := FolderName(l.log, env.isoText(l.log.created_at), env.timeText(l.log.created_at));
      var attempted;
      zip, attempted := AddLogPhotos(zip, l.photos, Some(folderName), bucket);
      totalPhotos := totalPhotos + attempted;
    }
    assert logs[..logs.Length] == logs[..];
  }

  /** The inner loop over one log's photos: each is counted, downloaded and,
      when that succeeds, put into the archive. */
  method AddLogPhotos(z: Zip, photos: seq<RecallPhoto>, folder: Option<string>, bucket: Bucket)
    returns (zip: Zip, attempted: nat)
    ensures zip == AddPhotos(z, photos, folder, bucket)
    ensures attempted == |photos|
  {
    zip, attempted := z, 0;
    for i := 0 to |photos|
      invariant zip == AddPhotos(z, photos[..i], folder, bucket)
      invariant attempted == i
    {
      assert photos[..i + 1][..i] == photos[..i];
      var photo := photos[i];
      attempted := attempted + 1;
      var download := DownloadPhoto(bucket, photo.storage_path);
      if download.Ok? {
        zip := Put(zip, folder, EntryName(photo, i), download.value);
      }
    }
    assert photos[..|photos|] == photos;
  }

  /** The outcome of `exportLogPhotosToZip`: the "No photos to export" error
      is raised before the `try`, so it reaches the caller as it is. */
  function LogArchive(l: LogWithPhotos, caseName: Option<string>, bucket: Bucket, isoText: Timestamp -> string)
    : Result<Archive, string>
  {
    if |l.photos| == 0 then Err(NoPhotosToExport)
    else Ok(Archive(AddPhotos(EmptyZip, l.photos, None, bucket), LogArchiveName(caseName, l.log, isoText(l.log.created_at))))
  }

  /** `exportLogPhotosToZip`: the log's photos at the archive root. */
  method ExportLogPhotosToZip(l: LogWithPhotos, caseName: Option<string>, bucket: Bucket, isoText: Timestamp -> string)
    returns (r: Result<Archive, string>)
    ensures r == LogArchive(l, caseName, bucket, isoText)
  {
    if |l.photos| == 0 {
      return Err(NoPhotosToExport);
    }
    var zip, _ := AddLogPhotos(EmptyZip, l.photos, None, bucket);
    r := Ok(Archive(zip, LogArchiveName(caseName, l.log, isoText(l.log.created_at))));
  }

  /** A downloaded file and the name it is saved under. */
  datatype SavedFile = SavedFile(name: string, data: Blob)

  /** `downloadSinglePhoto`: a signed URL is minted for the photo and
      fetched; `fetch` answers `None` when the request fails. Every failure
      reaches the caller as `SingleDownloadFailed`. */
  function DownloadSinglePhoto(bucket: Bucket, photo: RecallPhoto, mint: (string, nat) -> string, fetch: string -> Option<Blob>)
    : (r: Result<SavedFile, string>)
    ensures r.Ok? <==> !IsBlank(photo.storage_path) && photo.storage_path in bucket
                       && fetch(mint(photo.storage_path, DefaultExpiresIn)).Some?
    ensures r.Ok? ==> r.value == SavedFile(SinglePhotoName(photo), fetch(mint(photo.storage_path, DefaultExpiresIn)).value)
    ensures r.Err? ==> r.error == SingleDownloadFailed
  {
    match GetSignedUrl(bucket, photo.storage_path, mint)
    case Err(_) => Err(SingleDownloadFailed)
    case Ok(url) =>
      match fetch(url)
      case None => Err(SingleDownloadFailed)
      case Some(data) => Ok(SavedFile(SinglePhotoName(photo), data))
  }

  // Properties of the archives.

  /** No photos at all, exactly when every log's photo list is empty. */
  lemma {:induction false} PhotoCountZero(logs: seq<LogWithPhotos>)
    ensures PhotoCount(logs) == 0 <==> forall i | 0 <= i < |logs| :: logs[i].photos == []
  {
    if logs != [] {
      var init := logs[..|logs| - 1];
      PhotoCountZero(init);
      assert forall i | 0 <= i < |init| :: init[i] == logs[i];
    }
  }

  /** The case archive is refused exactly when no log has a photo; failed
      downloads alone never refuse it. */
  lemma CaseArchiveFailsIffNoPhotos(case_: RecallCase, logs: seq<LogWithPhotos>, bucket: Bucket, env: ZipEnv)
    ensures CaseArchive(case_, logs, bucket, env).Err?
        <==> forall i | 0 <= i < |logs| :: logs[i].photos == []
    ensures CaseArchive(case_, logs, bucket, env).Err? ==> CaseArchive(case_, logs, bucket, env).error == ArchiveFailed
  {
    PhotoCountZero(logs);
  }

  /** Putting photos into a folder leaves every root entry as it was. */
  lemma {:induction false} AddPhotosKeepsRoot(z: Zip, photos: seq<RecallPhoto>, folder: string, bucket: Bucket, key: string)
    requires '/' !in key
    ensures var r := AddPhotos(z, photos, Some(folder), bucket);
      (key in r.files <==> key in z.files) && (key in z.files ==> r.files[key] == z.files[key])
  {
    if photos != [] {
      AddPhotosKeepsRoot(z, photos[..|photos| - 1], folder, bucket, key);
      var p := Place(Some(folder), EntryName(photos[|photos| - 1], |photos| - 1));
      assert p[|folder|] == '/';
    }
  }

  /** The log loop leaves every root entry as it was. */
  lemma {:induction false} AddLogsKeepsRoot(z: Zip, logs: seq<LogWithPhotos>, bucket: Bucket, env: ZipEnv, key: string)
    requires '/' !in key
    ensures var r := AddLogs(z, logs, bucket, env);
      (key in r.files <==> key in z.files) && (key in z.files ==> r.files[key] == z.files[key])
  {
    if logs != [] {
      var init := logs[..|logs| - 1];
      var l := logs[|logs| - 1];
      AddLogsKeepsRoot(z, init, bucket, env, key);
      AddPhotosKeepsRoot(AddLogs(z, init, bucket, env), l.photos, FolderOf(l, env), bucket, key);
    }
  }

  /** A case archive always carries the case summary, which no photo entry
      can replace. */
  lemma CaseArchiveHasSummary(case_: RecallCase, logs: seq<LogWithPhotos>, bucket: Bucket, env: ZipEnv)
    requires CaseArchive(case_, logs, bucket, env).Ok?
    ensures var files := CaseArchive(case_, logs, bucket, env).value.zip.files;
      SummaryEntry in files && files[SummaryEntry] == SummaryFile(SummaryText(case_, logs, env.dateTimeText, env.nowText))
  {
    AddLogsKeepsRoot(SummaryZip(case_, logs, env), logs, bucket, env, SummaryEntry);
  }

  /** Some photo of the list can be downloaded. */
  predicate AnyDownloadable(bucket: Bucket, photos: seq<RecallPhoto>) {
    exists j | 0 <= j < |photos| :: Downloadable(bucket, photos[j])
  }

  /** A photo loop creates its folder exactly when one of its downloads
      succeeds. */
  lemma {:induction false} AddPhotosFolders(z: Zip, photos: seq<RecallPhoto>, folder: string, bucket: Bucket)
    ensures AddPhotos(z, photos, Some(folder), bucket).folders
         == z.folders + (if AnyDownloadable(bucket, photos) then {folder} else {})
  {
    if photos != [] {
      var init := photos[..|photos| - 1];
      AddPhotosFolders(z, init, folder, bucket);
      assert forall j | 0 <= j < |init| :: init[j] == photos[j];
      if AnyDownloadable(bucket, photos) && !Downloadable(bucket, photos[|photos| - 1]) {
        var j :| 0 <= j < |photos| && Downloadable(bucket, photos[j]);
        assert Downloadable(bucket, init[j]);
      }
    }
  }

  /** The folders of the logs with at least one downloadable photo. */
  function FoldersWithDownloads(logs: seq<LogWithPhotos>, bucket: Bucket, env: ZipEnv): set<string> {
    if logs == [] then {}
    else
      var l := logs[|logs| - 1];
      FoldersWithDownloads(logs[..|logs| - 1], bucket, env) + (if AnyDownloadable(bucket, l.photos) then {FolderOf(l, env)} else {})
  }

  /** The folder of every log with a downloadable photo is among them. */
  lemma {:induction false} FoldersWithDownloadsHas(logs: seq<LogWithPhotos>, bucket: Bucket, env: ZipEnv, i: nat)
    requires i < |logs| && AnyDownloadable(bucket, logs[i].photos)
    ensures FolderOf(logs[i], env) in FoldersWithDownloads(logs, bucket, env)
  {
    var n := |logs| - 1;
    var init := logs[..n];
    var l := logs[n];
    assert FoldersWithDownloads(logs, bucket, env)
        == FoldersWithDownloads(init, bucket, env) + (if AnyDownloadable(bucket, l.photos) then {FolderOf(l, env)} else {});
    if i < n {
      assert init[i] == logs[i];
      FoldersWithDownloadsHas(init, bucket, env, i);
    }
  }

  /** Every folder among them belongs to a log with a downloadable photo. */
  lemma {:induction false} FoldersWithDownloadsSound(logs: seq<LogWithPhotos>, bucket: Bucket, env: ZipEnv, x: string)
    requires x in FoldersWithDownloads(logs, bucket, env)
    ensures exists i | 0 <= i < |logs| :: AnyDownloadable(bucket, logs[i].photos) && x == FolderOf(logs[i], env)
  {
    var n := |logs| - 1;
    var init := logs[..n];
    if x in FoldersWithDownloads(init, bucket, env) {
      FoldersWithDownloadsSound(init, bucket, env, x);
      var i :| 0 <= i < |init| && AnyDownloadable(bucket, init[i].photos) && x == FolderOf(init[i], env);
      assert init[i] == logs[i];
    } else {
      assert AnyDownloadable(bucket, logs[n].photos) && x == FolderOf(logs[n], env);
    }
  }

  /** The folders of a case archive are exactly the folders of the logs
      with at least one photo that could be downloaded. */
  lemma {:induction false} AddLogsFolders(z: Zip, logs: seq<LogWithPhotos>, bucket: Bucket, env: ZipEnv)
    ensures AddLogs(z, logs, bucket, env).folders == z.folders + FoldersWithDownloads(logs, bucket, env)
  {
    if logs != [] {
      var init := logs[..|logs| - 1];
      var l := logs[|logs| - 1];
      AddLogsFolders(z, init, bucket, env);
      if |l.photos| > 0 {
        AddPhotosFolders(AddLogs(z, init, bucket, env), l.photos, FolderOf(l, env), bucket);
      } else {
        assert !AnyDownloadable(bucket, l.photos);
      }
    }
  }

  /** The entry paths of the downloadable photos, in `folder`. */
  function PlacedNames(photos: seq<RecallPhoto>, folder: Option<string>, bucket: Bucket): set<string> {
    if photos == [] then {}
    else
      var n := |photos| - 1;
      PlacedNames(photos[..n], folder, bucket)
      + (if Downloadable(bucket, photos[n]) then {Place(folder, EntryName(photos[n], n))} else {})
  }

  /** Every downloadable photo's path is placed. */
  lemma {:induction false} PlacedNamesHas(photos: seq<RecallPhoto>, folder: Option<string>, bucket: Bucket, j: nat)
    requires j < |photos| && Downloadable(bucket, photos[j])
    ensures Place(folder, EntryName(photos[j], j)) in PlacedNames(photos, folder, bucket)
  {
    var n := |photos| - 1;
    var init := photos[..n];
    assert PlacedNames(photos, folder, bucket)
        == PlacedNames(init, folder, bucket)
           + (if Downloadable(bucket, photos[n]) then {Place(folder, EntryName(photos[n], n))} else {});
    if j < n {
      assert init[j] == photos[j];
      PlacedNamesHas(init, folder, bucket, j);
    }
  }

  /** Every placed path is that of a downloadable photo. */
  lemma {:induction false} PlacedNamesSound(photos: seq<RecallPhoto>, folder: Option<string>, bucket: Bucket, x: string)
    requires x in PlacedNames(photos, folder, bucket)
    ensures exists j | 0 <= j < |photos| :: Downloadable(bucket, photos[j]) && x == Place(folder, EntryName(photos[j], j))
  {
    var n := |photos| - 1;
    var init := photos[..n];
    if x in PlacedNames(init, folder, bucket) {
      PlacedNamesSound(init, folder, bucket, x);
      var j :| 0 <= j < |init| && Downloadable(bucket, init[j]) && x == Place(folder, EntryName(init[j], j));
      assert init[j] == photos[j];
    } else {
      assert Downloadable(bucket, photos[n]) && x == Place(folder, EntryName(photos[n], n));
    }
  }

  /** The entry paths a photo loop adds: one per downloadable photo. */
  lemma {:induction false} AddPhotosKeys(z: Zip, photos: seq<RecallPhoto>, folder: Option<string>, bucket: Bucket)
    ensures AddPhotos(z, photos, folder, bucket).files.Keys == z.files.Keys + PlacedNames(photos, folder, bucket)
  {
    if photos != [] {
      AddPhotosKeys(z, photos[..|photos| - 1], folder, bucket);
    }
  }

  /** When the entry names of a log's photos are distinct, every photo that
      could be downloaded is in the archive with its own content. */
  lemma {:induction false} AddPhotosStores(z: Zip, photos: seq<RecallPhoto>, folder: Option<string>, bucket: Bucket, j: nat)
    requires j < |photos| && Downloadable(bucket, photos[j])
    requires forall a, b | 0 <= a < b < |photos| :: EntryName(photos[a], a) != EntryName(photos[b], b)
    ensures var files := AddPhotos(z, photos, folder, bucket).files;
      var key := Place(folder, EntryName(photos[j], j));
      key in files && files[key] == PhotoFile(bucket[photos[j].storage_path])
  {
    var n := |photos| - 1;
    var init := photos[..n];
    if j < n {
      assert forall a | 0 <= a < |init| :: init[a] == photos[a];
      AddPhotosStores(z, init, folder, bucket, j);
      PlaceInjective(folder, EntryName(photos[j], j), EntryName(photos[n], n));
    }
  }

  /** Distinct names stay distinct once placed in the same folder. */
  lemma PlaceInjective(folder: Option<string>, a: string, b: string)
    requires a != b
    ensures Place(folder, a) != Place(folder, b)
  {
    if folder.Some? {
      var f := folder.value + "/";
      assert Place(folder, a) == f + a && Place(folder, b) == f + b;
      assert (f + a)[|f|..] == a && (f + b)[|f|..] == b;
    }
  }

  /** The single-log archive is refused exactly when the log has no photos;
      otherwise its entries are the downloadable photos at the root. */
  lemma LogArchiveContents(l: LogWithPhotos, caseName: Option<string>, bucket: Bucket, isoText: Timestamp -> string)
    ensures LogArchive(l, caseName, bucket, isoText).Err? <==> l.photos == []
    ensures LogArchive(l, caseName, bucket, isoText).Err? ==> LogArchive(l, caseName, bucket, isoText).error == NoPhotosToExport
    ensures LogArchive(l, caseName, bucket, isoText).Ok? ==>
      forall k :: k in LogArchive(l, caseName, bucket, isoText).value.zip.files
        <==> exists j | 0 <= j < |l.photos| :: Downloadable(bucket, l.photos[j]) && k == EntryName(l.photos[j], j)
  {
    AddPhotosKeys(EmptyZip, l.photos, None, bucket);
    forall k | k in PlacedNames(l.photos, None, bucket)
      ensures exists j | 0 <= j < |l.photos| :: Downloadable(bucket, l.photos[j]) && k == EntryName(l.photos[j], j)
    {
      PlacedNamesSound(l.photos, None, bucket, k);
    }
    forall j | 0 <= j < |l.photos| && Downloadable(bucket, l.photos[j])
      ensures EntryName(l.photos[j], j) in PlacedNames(l.photos, None, bucket)
    {
      PlacedNamesHas(l.photos, None, bucket, j);
    }
  }
}
