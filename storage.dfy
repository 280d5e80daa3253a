/** Photo storage for Recall logs (lib/recall/storage.ts) over an in-memory
    stand-in for the `recall` bucket: a map from object path to bytes.

    The stand-in refuses an upload to a path that already holds an object
    (uploads never overwrite) and cannot mint a URL for, or download, a path
    that holds nothing. Failures of the backend that do not follow from the
    bucket's contents (a failed list or remove call) are passed in. */
module Storage {
  import opened Wrappers
  import opened Text

  newtype byte = x: int | 0 <= x < 256

  type Blob = seq<byte>

  /** The `recall` bucket: object path to content. */
  type Bucket = map<string, Blob>

  /** A file chosen in the browser; its `size` is its byte count. */
  datatype File = File(name: string, mimeType: string, data: Blob) {
    function Size(): nat {
      |data|
    }
  }

  datatype UploadResult = UploadResult(path: string)

  /** What the stand-in bucket reports when it refuses a call. */
  const AlreadyExists: string := "The resource already exists"
  const ObjectNotFound: string := "Object not found"

  /** The errors the storage helpers throw, with their messages. */
  datatype StorageError =
    | FileTooLarge
    | NotAnImage
    | UploadFailed(reason: string)
    | InvalidPath
    | SignedUrlFailed(reason: string)
    | DeletePhotoFailed(reason: string)
    | DeletePhotosFailed(reason: string)
    | ListFailed(reason: string)
    | DownloadFailed(reason: string)
    | NoData
  {
    function Message(): string {
      match this
      case FileTooLarge => "File size must be less than 5MB"
      case NotAnImage => "Only image files are allowed"
      case UploadFailed(r) => "Upload failed: " + r
      case InvalidPath => "Invalid storage path provided"
      case SignedUrlFailed(r) => "Failed to get signed URL: " + r
      case DeletePhotoFailed(r) => "Failed to delete photo: " + r
      case DeletePhotosFailed(r) => "Failed to delete photos: " + r
      case ListFailed(r) => "Failed to list case files: " + r
      case DownloadFailed(r) => "Failed to download photo: " + r
      case NoData => "No data returned from photo download"
    }
  }

  /** The upload size ceiling, 5 MiB. */
  const MaxUploadBytes: nat := 5 * 1024 * 1024

  /** Lifetime, in seconds, of a signed URL when the caller names none. */
  const DefaultExpiresIn: nat := 600

  /** Storage folder of one case. */
  function CaseFolder(caseId: string): string {
    "recall_cases/" + caseId
  }

  /** Storage folder of one log of a case. */
  function LogFolder(caseId: string, logId: string): string {
    CaseFolder(caseId) + "/logs/" + logId + "/"
  }

  /** The object path of an upload: `{uuid}.{ext}` inside the log's folder,
      where `ext` is the file name's text after its last '.'. */
  function UploadPath(caseId: string, logId: string, uuid: string, fileName: string): string {
    LogFolder(caseId, logId) + ObjectName(uuid, fileName)
  }

  /** The stored object's name: the generated `uuid`, a '.', and the
      original name's text after its last '.'. */
  function ObjectName(uuid: string, fileName: string): string {
    uuid + "." + AfterLastDot(fileName)
  }

  /** Every character of `s` at or after the start of its suffix `t` occurs in `t`. */
  lemma SuffixHolds(s: string, t: string, j: int)
    requires |t| <= |s| && t == s[|s| - |t|..]
    requires 0 <= |s| - |t| <= j < |s|
    ensures s[j] in t
  {
    assert t[j - (|s| - |t|)] == s[j];
  }

  lemma {:induction false} AfterLastDotOfDotted(p: string, u: string, e: string)
    requires '.' !in e
    ensures AfterLastDot(p + (u + "." + e)) == e
  {
    var s := p + (u + "." + e);
    var r := AfterLastDot(s);
    assert s[|s| - |e|..] == e;
    if |r| > |e| {
      SuffixHolds(s, r, |p| + |u|);
      assert false;
    } else if |r| < |e| {
      assert false;
    }
  }

  /** Every upload path lies in its log's folder, which lies in its case's. */
  lemma UploadPathInLogFolder(caseId: string, logId: string, uuid: string, fileName: string)
    ensures CaseFolder(caseId) + "/" <= LogFolder(caseId, logId)
    ensures LogFolder(caseId, logId) <= UploadPath(caseId, logId, uuid, fileName)
  {
  }

  /** The path keeps the file's extension: its text after the last '.' is
      the file name's. */
  lemma UploadPathKeepsExtension(caseId: string, logId: string, uuid: string, fileName: string)
    ensures AfterLastDot(UploadPath(caseId, logId, uuid, fileName)) == AfterLastDot(fileName)
  {
    AfterLastDotOfDotted(LogFolder(caseId, logId), uuid, AfterLastDot(fileName));
  }

  /** Distinct generated names give distinct paths, whatever the files are
      called, so uploads of one batch never collide. */
  lemma UploadPathsDistinct(caseId: string, logId: string, uuid1: string, name1: string, uuid2: string, name2: string)
    ensures UploadPath(caseId, logId, uuid1, name1) == UploadPath(caseId, logId, uuid2, name2) ==> uuid1 == uuid2
  {
    if UploadPath(caseId, logId, uuid1, name1) == UploadPath(caseId, logId, uuid2, name2) {
      DottedNameInjective(LogFolder(caseId, logId), uuid1, AfterLastDot(name1), uuid2, AfterLastDot(name2));
    }
  }

  /** Below a common folder, `{name}.{ext}` with a dot-free extension
      determines the name. */
  lemma DottedNameInjective(folder: string, u1: string, e1: string, u2: string, e2: string)
    requires '.' !in e1 && '.' !in e2
    requires folder + (u1 + "." + e1) == folder + (u2 + "." + e2)
    ensures u1 == u2
  {
    AfterLastDotOfDotted(folder, u1, e1);
    AfterLastDotOfDotted(folder, u2, e2);
    CancelAround(folder, u1, u2, e1);
  }

  /** `{folder}{name}.{ext}` determines the name once folder and extension are fixed. */
  lemma CancelAround(a: string, x: string, y: string, e: string)
    requires a + (x + "." + e) == a + (y + "." + e)
    ensures x == y
  {
    assert |x| == |y|;
    assert x == (a + (x + "." + e))[|a|..|a| + |x|];
  }

  predicate IsImageType(mimeType: string) {
    "image/" <= mimeType
  }

  /** `uploadPhoto`: size first, then type, then a create-only write. */
  function UploadPhoto(bucket: Bucket, file: File, caseId: string, logId: string, uuid: string)
    : (r: Result<(UploadResult, Bucket), StorageError>)
    ensures file.Size() > MaxUploadBytes ==> r == Err(FileTooLarge)
    ensures file.Size() <= MaxUploadBytes && !IsImageType(file.mimeType) ==> r == Err(NotAnImage)
    ensures r.Ok? <==>
      file.Size() <= MaxUploadBytes && IsImageType(file.mimeType)
      && UploadPath(caseId, logId, uuid, file.name) !in bucket
    ensures r.Ok? ==>
      var path := UploadPath(caseId, logId, uuid, file.name);
      r.value.0 == UploadResult(path) && r.value.1 == bucket[path := file.data]
    ensures r.Err? && r.error.UploadFailed? ==> r.error.reason == AlreadyExists
  {
    var path := UploadPath(caseId, logId, uuid, file.name);
    if file.Size() > MaxUploadBytes then Err(FileTooLarge)
    else if !IsImageType(file.mimeType) then Err(NotAnImage)
    else if path in bucket then Err(UploadFailed(AlreadyExists))
    else Ok((UploadResult(path), bucket[path := file.data]))
  }

  /** Exactly 5 MiB is accepted; one byte more is refused whatever the type. */
  lemma UploadSizeBoundary(bucket: Bucket, file: File, caseId: string, logId: string, uuid: string)
    requires IsImageType(file.mimeType) && UploadPath(caseId, logId, uuid, file.name) !in bucket
    ensures file.Size() == 5242880 ==> UploadPhoto(bucket, file, caseId, logId, uuid).Ok?
    ensures file.Size() == 5242881 ==> UploadPhoto(bucket, file, caseId, logId, uuid) == Err(FileTooLarge)
  {
  }

  /** The paths of a batch: the `i`-th file goes under the `i`-th generated name. */
  function BatchPaths(caseId: string, logId: string, uuids: seq<string>, files: seq<File>): (r: seq<string>)
    requires |uuids| == |files|
    ensures |r| == |files|
    ensures forall i | 0 <= i < |r| :: r[i] == UploadPath(caseId, logId, uuids[i], files[i].name)
  {
    seq(|files|, i requires 0 <= i < |files| => UploadPath(caseId, logId, uuids[i], files[i].name))
  }

  /** Every object of `bucket` is still in `after`, with the same content. */
  predicate Keeps(bucket: Bucket, after: Bucket) {
    forall p | p in bucket :: p in after && after[p] == bucket[p]
  }

  /** The first `n` files are stored at their paths. */
  predicate Stores(after: Bucket, paths: seq<string>, files: seq<File>, n: nat)
    requires n <= |paths| == |files|
  {
    forall i | 0 <= i < n :: paths[i] in after && after[paths[i]] == files[i].data
  }

  /** `after` holds the objects of `bucket` and the first `n` paths, and nothing else. */
  ghost predicate KeysAre(after: Bucket, bucket: Bucket, paths: seq<string>, n: nat)
    requires n <= |paths|
  {
    forall p :: p in after <==> p in bucket || p in paths[..n]
  }

  /** One more create-only write keeps all three batch facts. */
  lemma BatchStep(bucket: Bucket, before: Bucket, paths: seq<string>, files: seq<File>, n: nat)
    requires n < |paths| == |files|
    requires Keeps(bucket, before) && Stores(before, paths, files, n) && KeysAre(before, bucket, paths, n)
    requires paths[n] !in before
    ensures var after := before[paths[n] := files[n].data];
      Keeps(bucket, after) && Stores(after, paths, files, n + 1) && KeysAre(after, bucket, paths, n + 1)
  {
    assert paths[..n + 1] == paths[..n] + [paths[n]];
  }

  /** The i-th progress report is `(i + 1, n)`. */
  predicate Reports(progress: seq<(nat, nat)>, n: nat) {
    forall k | 0 <= k < |progress| :: progress[k] == (k + 1, n)
  }

  /** The i-th result names the i-th path. */
  predicate ResultsName(results: seq<UploadResult>, paths: seq<string>)
    requires |results| <= |paths|
  {
    forall k | 0 <= k < |results| :: results[k] == UploadResult(paths[k])
  }

  /** One more report, and one more result, keep the loop's facts. */
  lemma ReportsResultsSnoc(progress: seq<(nat, nat)>, n: nat, results: seq<UploadResult>, paths: seq<string>)
    requires Reports(progress, n) && |results| < |paths| && ResultsName(results, paths)
    ensures Reports(progress + [(|progress| + 1, n)], n)
    ensures ResultsName(results + [UploadResult(paths[|results|])], paths)
  {
  }

  /** Before the first upload the three batch facts hold of the bucket itself. */
  lemma BatchStart(bucket: Bucket, paths: seq<string>, files: seq<File>)
    requires |paths| == |files|
    ensures Keeps(bucket, bucket) && Stores(bucket, paths, files, 0) && KeysAre(bucket, bucket, paths, 0)
  {
  }

  /** `uploadPhotos`: the files in order, reporting progress `(i + 1, n)`
      before the i-th upload and stopping at the first failure. The returned
      `progress` is the sequence of progress reports; `uuids[i]` is the name
      generated for the i-th file. Every upload before the failing one stays
      stored. */
  method UploadPhotos(bucket: Bucket, files: seq<File>, caseId: string, logId: string, uuids: seq<string>)
    returns (outcome: Result<seq<UploadResult>, StorageError>, after: Bucket, progress: seq<(nat, nat)>)
    requires |uuids| == |files|
    ensures |progress| <= |files| && Reports(progress, |files|)
    ensures outcome.Ok? ==>
      && |progress| == |files| && |outcome.value| == |files|
      && ResultsName(outcome.value, BatchPaths(caseId, logId, uuids, files))
    ensures outcome.Err? ==>
      1 <= |progress|
      && UploadPhoto(after, files[|progress| - 1], caseId, logId, uuids[|progress| - 1]) == Err(outcome.error)
    ensures Keeps(bucket, after)
    ensures var stored := if outcome.Ok? then |files| else |progress| - 1;
      Stores(after, BatchPaths(caseId, logId, uuids, files), files, stored)
      && KeysAre(after, bucket, BatchPaths(caseId, logId, uuids, files), stored)
  {
    var paths := BatchPaths(caseId, logId, uuids, files);
    var results: seq<UploadResult> := [];
    after, progress := bucket, [];
    var i := 0;
    BatchStart(bucket, paths, files);
    while i < |files|
      invariant 0 <= i <= |files|
      invariant |progress| == i && Reports(progress, |files|)
      invariant |results| == i && ResultsName(results, paths)
      invariant Keeps(bucket, after) && Stores(after, paths, files, i) && KeysAre(after, bucket, paths, i)
    {
      ReportsResultsSnoc(progress, |files|, results, paths);
      progress := progress + [(i + 1, |files|)];
      var r := UploadPhoto(after, files[i], caseId, logId, uuids[i]);
      if r.Err? {
        outcome := Err(r.error);
        return;
      }
      BatchStep(bucket, after, paths, files, i);
      results := results + [r.value.0];
      after := r.value.1;
      i := i + 1;
    }
    outcome := Ok(results);
  }

  /** `getSignedUrl`: a blank path is refused before the bucket is asked;
      `mint` is the bucket's URL signer. */
  function GetSignedUrl(bucket: Bucket, path: string, mint: (string, nat) -> string, expiresIn: nat := DefaultExpiresIn)
    : (r: Result<string, StorageError>)
    ensures IsBlank(path) ==> r == Err(InvalidPath)
    ensures r.Ok? <==> !IsBlank(path) && path in bucket
    ensures r.Ok? ==> r.value == mint(path, expiresIn)
  {
    if IsBlank(path) then Err(InvalidPath)
    else if path !in bucket then Err(SignedUrlFailed(ObjectNotFound))
    else Ok(mint(path, expiresIn))
  }

  /** The paths `getSignedUrls` attempts: the non-blank ones, in order. */
  function NonBlankPaths(paths: seq<string>): (r: seq<string>)
    ensures forall p :: p in r <==> p in paths && !IsBlank(p)
  {
    if paths == [] then []
    else if IsBlank(paths[0]) then NonBlankPaths(paths[1..])
    else [paths[0]] + NonBlankPaths(paths[1..])
  }

  /** `getSignedUrls`: one attempt per non-blank path; a path whose URL
      cannot be minted is left out instead of failing the batch. */
  method GetSignedUrls(bucket: Bucket, paths: seq<string>, mint: (string, nat) -> string, expiresIn: nat := DefaultExpiresIn)
    returns (urls: map<string, string>)
    ensures forall p :: p in urls <==> p in paths && !IsBlank(p) && p in bucket
    ensures forall p | p in urls :: urls[p] == mint(p, expiresIn)
  {
    var validPaths := NonBlankPaths(paths);
    if |validPaths| == 0 {
      return map[];
    }
    urls := map[];
    for i := 0 to |validPaths|
      invariant forall p :: p in urls <==> p in validPaths[..i] && p in bucket
      invariant forall p | p in urls :: urls[p] == mint(p, expiresIn)
    {
      var r := GetSignedUrl(bucket, validPaths[i], mint, expiresIn);
      if r.Ok? {
        urls := urls[validPaths[i] := r.value];
      }
    }
    assert validPaths[..|validPaths|] == validPaths;
  }

  /** Keys of the signed-URL map are non-blank inputs, and an all-blank
      input gives the empty map. */
  lemma SignedUrlKeysAreNonBlankInputs(paths: seq<string>, urls: map<string, string>, bucket: Bucket)
    requires forall p :: p in urls <==> p in paths && !IsBlank(p) && p in bucket
    ensures urls.Keys <= set p | p in paths && !IsBlank(p)
    ensures (forall i | 0 <= i < |paths| :: IsBlank(paths[i])) ==> urls == map[]
  {
  }

  /** `deletePhoto`: one remove call for one path; `storeError` is what the
      bucket reports, if anything. */
  function DeletePhoto(bucket: Bucket, path: string, storeError: Option<string>): (r: Result<Bucket, StorageError>)
    ensures storeError.Some? <==> r.Err?
    ensures r.Ok? ==> r.value == bucket - {path}
  {
    if storeError.Some? then Err(DeletePhotoFailed(storeError.value)) else Ok(bucket - {path})
  }

  /** The remove request `deletePhotos` sends, if any. */
  function RemoveRequest(paths: seq<string>): (r: Option<seq<string>>)
    ensures r.None? <==> paths == []
    ensures r.Some? ==> r.value == paths
  {
    if |paths| == 0 then None else Some(paths)
  }

  /** `deletePhotos`: nothing is sent for an empty list, so a failing
      bucket cannot fail it; otherwise one remove call for all the paths. */
  function DeletePhotos(bucket: Bucket, paths: seq<string>, storeError: Option<string>): (r: Result<Bucket, StorageError>)
    ensures paths == [] ==> r == Ok(bucket)
    ensures paths != [] ==> (r.Err? <==> storeError.Some?)
    ensures r.Ok? ==> r.value.Keys == bucket.Keys - set p | p in paths
    ensures r.Ok? ==> forall p | p in r.value :: r.value[p] == bucket[p]
  {
    match RemoveRequest(paths)
    case None => Ok(bucket)
    case Some(request) =>
      if storeError.Some? then Err(DeletePhotosFailed(storeError.value))
      else Ok(bucket - set p | p in request)
  }

  /** The names `list` reports directly under `folder`: the first path
      segment below it of every object inside it (files and sub-folders
      alike; the listing does not descend). */
  function ChildNames(bucket: Bucket, folder: string): set<string> {
    set p | p in bucket && folder + "/" <= p :: BeforeFirst(p[|folder| + 1..], '/')
  }

  /** An object inside `folder` contributes its first segment below it. */
  lemma ChildNameOf(bucket: Bucket, folder: string, p: string)
    requires p in bucket && folder + "/" <= p
    ensures BeforeFirst(p[|folder| + 1..], '/') in ChildNames(bucket, folder)
  {
  }

  /** `deleteCaseFolder` as written: one remove of `recall_cases/{caseId}/{name}`
      for every entry of the listing, and nothing for an empty listing. */
  function DeleteCaseFolder(bucket: Bucket, caseId: string, listing: Result<seq<string>, string>, storeError: Option<string>)
    : (r: Result<Bucket, StorageError>)
    ensures listing.Err? ==> r == Err(ListFailed(listing.error))
    ensures listing == Ok([]) ==> r == Ok(bucket)
    ensures listing.Ok? && listing.value != [] ==>
      r == DeletePhotos(bucket, seq(|listing.value|, i requires 0 <= i < |listing.value| => CaseFolder(caseId) + "/" + listing.value[i]), storeError)
  {
    match listing
    case Err(e) => Err(ListFailed(e))
    case Ok(files) =>
      if |files| > 0 then
        DeletePhotos(bucket, seq(|files|, i requires 0 <= i < |files| => CaseFolder(caseId) + "/" + files[i]), storeError)
      else Ok(bucket)
  }

  /** With the listing the bucket gives for a case that holds one uploaded
      photo (its only entry is the `logs` folder), `deleteCaseFolder`
      succeeds and the photo is still stored. */
  lemma DeleteCaseFolderKeepsPhotos(caseId: string, logId: string, uuid: string, file: File)
    ensures
      var path := UploadPath(caseId, logId, uuid, file.name);
      var bucket: Bucket := map[path := file.data];
      && ChildNames(bucket, CaseFolder(caseId)) == {"logs"}
      && DeleteCaseFolder(bucket, caseId, Ok(["logs"]), None) == Ok(bucket)
  {
    SingleObjectUnderLogs(caseId, logId, ObjectName(uuid, file.name), file.data);
  }

  /** A bucket holding one object below a log folder lists `logs` as the
      case folder's only entry, and removing `{case folder}/logs` leaves it
      unchanged. */
  lemma SingleObjectUnderLogs(caseId: string, logId: string, name: string, data: Blob)
    ensures
      var path := LogFolder(caseId, logId) + name;
      var bucket: Bucket := map[path := data];
      && ChildNames(bucket, CaseFolder(caseId)) == {"logs"}
      && DeleteCaseFolder(bucket, caseId, Ok(["logs"]), None) == Ok(bucket)
  {
    var folder := CaseFolder(caseId);
    var path := LogFolder(caseId, logId) + name;
    var bucket: Bucket := map[path := data];
    var rest := "logs" + ['/'] + (logId + "/" + name);
    assert path == folder + "/" + rest;
    assert folder + "/" <= path;
    assert path[|folder| + 1..] == rest;
    BeforeFirstOfJoined("logs", '/', logId + "/" + name);
    assert BeforeFirst(path[|folder| + 1..], '/') == "logs";
    ChildNameOf(bucket, folder, path);
    assert bucket.Keys == {path};
    var target := folder + "/" + "logs";
    var listing := ["logs"];
    assert seq(|listing|, i requires 0 <= i < |listing| => CaseFolder(caseId) + "/" + listing[i]) == [target];
    assert |target| < |path|;
    assert (set p | p in [target]) == {target};
    assert bucket - {target} == bucket;
  }

  /** Every name `list` reports is a single path segment. */
  lemma ChildNamesAreSegments(bucket: Bucket, folder: string, n: string)
    requires n in ChildNames(bucket, folder)
    ensures '/' !in n
  {
    var p :| p in bucket && folder + "/" <= p && n == BeforeFirst(p[|folder| + 1..], '/');
  }

  /** For every bucket, whatever entries of the case folder the listing
      reports, `deleteCaseFolder` as written leaves each object that lies
      two or more levels below the case folder (every uploaded photo) in
      place. */
  lemma DeleteCaseFolderKeepsNested(bucket: Bucket, caseId: string, listing: seq<string>, p: string)
    requires forall n | n in listing :: n in ChildNames(bucket, CaseFolder(caseId))
    requires p in bucket && CaseFolder(caseId) + "/" <= p && '/' in p[|CaseFolder(caseId)| + 1..]
    ensures var r := DeleteCaseFolder(bucket, caseId, Ok(listing), None);
      r.Ok? && p in r.value && r.value[p] == bucket[p]
  {
    var folder := CaseFolder(caseId);
    var targets := seq(|listing|, i requires 0 <= i < |listing| => folder + "/" + listing[i]);
    forall i | 0 <= i < |listing|
      ensures targets[i] != p
    {
      ChildNamesAreSegments(bucket, folder, listing[i]);
    }
  }

  /** What `deleteCaseFolder` is for: remove every object stored under the
      case's folder, at any depth, and nothing else. */
  function PurgeCaseFolder(bucket: Bucket, caseId: string, storeError: Option<string>): (r: Result<Bucket, StorageError>)
    ensures r.Err? <==> storeError.Some?
    ensures r.Ok? ==> forall p | p in r.value :: p in bucket && r.value[p] == bucket[p] && !(CaseFolder(caseId) + "/" <= p)
    ensures r.Ok? ==> forall p | p in bucket && !(CaseFolder(caseId) + "/" <= p) :: p in r.value
  {
    if storeError.Some? then Err(DeletePhotosFailed(storeError.value))
    else Ok(map p | p in bucket && !(CaseFolder(caseId) + "/" <= p) :: bucket[p])
  }

  /** After a purge no photo uploaded for the case is left. */
  lemma PurgeRemovesUploads(bucket: Bucket, caseId: string, logId: string, uuid: string, fileName: string)
    requires PurgeCaseFolder(bucket, caseId, None).Ok?
    ensures UploadPath(caseId, logId, uuid, fileName) !in PurgeCaseFolder(bucket, caseId, None).value
  {
    UploadPathInLogFolder(caseId, logId, uuid, fileName);
  }

  /** `downloadPhoto`: only the empty path is refused up front (a path of
      spaces goes to the bucket); a missing object is a download error. */
  function DownloadPhoto(bucket: Bucket, path: string): (r: Result<Blob, StorageError>)
    ensures path == "" <==> r == Err(InvalidPath)
    ensures r.Ok? <==> path != "" && path in bucket
    ensures r.Ok? ==> r.value == bucket[path]
  {
    if path == "" then Err(InvalidPath)
    else if path !in bucket then Err(DownloadFailed(ObjectNotFound))
    else Ok(bucket[path])
  }

  /** A path of white space is refused by `getSignedUrl` but handed to the
      bucket by `downloadPhoto`. */
  lemma BlankPathGuardsDiffer(bucket: Bucket, path: string, mint: (string, nat) -> string)
    requires path != "" && IsBlank(path) && path in bucket
    ensures GetSignedUrl(bucket, path, mint) == Err(InvalidPath)
    ensures DownloadPhoto(bucket, path) == Ok(bucket[path])
  {
  }
}
