# showing-recap in Dafny

A model of the logic inside showing-recap, a Next.js application with two
halves:

- **Recall**: a contractor's case log. Cases hold logs, and logs hold
  photos stored in the `recall` bucket. Cases can be listed, searched,
  soft-deleted and restored, and exported as a PDF report, a text summary
  or photo archives.
- **Showings**: a real-estate agent books a property showing for a buyer.
  The buyer later gets a feedback link, optionally by SMS.

Every external service is replaced by an in-memory stand-in or by a
parameter:

- the database is three sequences of rows;
- the bucket is a map from object path to bytes;
- the auth service, the SMS provider, the PDF renderer's line wrapping,
  the date formatters, the clock and the UUID/token generators are passed
  in.

One module per source file:

- `Storage` (`lib/recall/storage.ts`): Object paths, upload checks, the batch upload loop, signed URLs, deletion, download.
- `ExportNames`, `LogOrder`, `ExportPdf`, `ExportSummary`, `ExportZip` (`lib/recall/export.ts`): File, folder and entry names; the in-place sort of the logs; the PDF cursor and page breaks; the `case_summary.txt` text; the two archives and the single-photo download.
- `Repo` (`lib/recall/supabase.ts`): Queries as functions of the tables (filter, order, window, nested counts), and the writes as methods of the `RecallDatabase` class.
- `ShowingsApi` (`app/api/showings/route.ts`): The guard chain and the normalised row.
- `SmsApi` (`app/api/sms/send/route.ts`): The guard order, the default message and the provider-code mapping.
- `ShowingForm` (`app/dashboard/new/page.tsx`): The client validator, built check by check into a map. The page's state and its submit/SMS script form the `NewShowingPage` class.
- `NewCasePage` (`app/recall/case/new/page.tsx`): The title check, the trimmed payload and the page state.
- `Auth` (`lib/auth-provider.tsx`): The route guard and the provider state.

`Wrappers`, `Text`, `RecallTypes` and `ShowingTypes` hold shared
datatypes and string helpers:

- JavaScript `trim`, with its full white-space set;
- ASCII case mapping;
- number printing;
- `replace` of the first occurrence;
- the rows of `lib/recall/types.ts` and `lib/types.ts`.

The client and the server check a showing differently, and the model
states both gaps:

- `ShowingForm.ShortPhoneGap`: the page accepts `+12345`, which the
  server answers with 400.
- `ShowingForm.LooseFieldsGap`: the server passes a nine-character
  state, a non-numeric ZIP and a past date, all of which the page refuses.

The page's help text says the feedback link is added to a custom SMS
automatically. The route sends a custom message as it is
(`SmsApi.CustomMessageVerbatim`).

## Model

| member | source | states |
|---|---|---|
| `Storage.UploadPathInLogFolder` | lib/recall/storage.ts:14-16 | An upload path lies inside `recall_cases/{caseId}/logs/{logId}/`, which lies inside the case folder. |
| `Storage.UploadPathKeepsExtension` | lib/recall/storage.ts:14-16 | The text after the last '.' of the path is that of the file name. |
| `Storage.UploadPathsDistinct` | lib/recall/storage.ts:15-16 | Two uploads to one log share a path only if their generated UUIDs are equal, whatever the file names. |
| `Storage.UploadPhoto` | lib/recall/storage.ts:9-43 | Size over 5 MiB is refused first, then a non-`image/` type. It succeeds exactly when both pass and the path is free. It then stores the file at that path and changes nothing else. The only bucket refusal modelled is a taken path. |
| `Storage.UploadSizeBoundary` | lib/recall/storage.ts:19 | 5,242,880 bytes are accepted and 5,242,881 are refused with the size error. |
| `Storage.BatchPaths` | lib/recall/storage.ts:54-59 | The i-th file of a batch goes to the upload path built from the i-th UUID. |
| `Storage.UploadPhotos` | lib/recall/storage.ts:46-68 | Progress `(i+1, n)` is reported before the i-th upload. On success there is one result per file, in order. On failure the error is that of the file last reported. Every earlier file stays stored, and nothing else is added or changed. |
| `Storage.GetSignedUrl` | lib/recall/storage.ts:71-83 | A blank path is refused before the bucket is asked. The call succeeds exactly for a non-blank stored path, with the URL minted for the given lifetime (default 600). |
| `Storage.NonBlankPaths` | lib/recall/storage.ts:88 | Keeps exactly the non-blank inputs. |
| `Storage.GetSignedUrls` | lib/recall/storage.ts:86-106 | Result keys are exactly the non-blank inputs that exist. Each maps to its minted URL, and a failed path is left out without failing the batch. |
| `Storage.SignedUrlKeysAreNonBlankInputs` | lib/recall/storage.ts:88-92 | The keys are a subset of the non-blank inputs, and an all-blank input yields `{}`. |
| `Storage.DeletePhoto` | lib/recall/storage.ts:109-117 | Fails exactly when the bucket reports an error. Otherwise it removes the path. |
| `Storage.RemoveRequest` | lib/recall/storage.ts:121 | No remove call is made for an empty list. Otherwise the list is sent whole. |
| `Storage.DeletePhotos` | lib/recall/storage.ts:120-130 | An empty list succeeds untouched, even with a failing bucket. Otherwise the call fails exactly on a bucket error, or removes exactly the listed paths and keeps the rest intact. |
| `Storage.DeleteCaseFolder` | lib/recall/storage.ts:133-149 | A failed listing is reported. An empty listing removes nothing. Otherwise it removes `recall_cases/{caseId}/{name}` for each listed entry. |
| `Storage.DeleteCaseFolderKeepsPhotos` | lib/recall/storage.ts:133-149 | For a case holding one uploaded photo, the listing's only entry is `logs`, and the deletion succeeds with the photo still stored. |
| `Storage.DeleteCaseFolderKeepsNested` | lib/recall/storage.ts:133-149 | For every bucket and any listing of the case folder's direct entries, the deletion as written succeeds and leaves in place every object two or more levels below the case folder. |
| `Storage.PurgeCaseFolder` | lib/recall/storage.ts:132-149 | Fails exactly on a bucket error. Otherwise it removes every object under the case folder at any depth and keeps every other object unchanged. |
| `Storage.PurgeRemovesUploads` | lib/recall/storage.ts:132 | After the purge no upload path of the case remains. |
| `Storage.DownloadPhoto` | lib/recall/storage.ts:162-180 | Only the empty path is refused up front. The call succeeds exactly for a stored path, with its content. |
| `Storage.BlankPathGuardsDiffer` | lib/recall/storage.ts:162-165 | A path of spaces is refused by the signed-URL guard but handed to the bucket by the download. |
| `ExportNames.Sanitize` | lib/recall/export.ts:83 | Same length, and every character is kept or replaced by '_' as the class decides. |
| `ExportNames.Slug` | lib/recall/export.ts:83 | The stem has the title's length and uses only `[a-z0-9_]`. It has '_' exactly where the title has a non-alphanumeric, and lower-cases the title's letters. |
| `ExportNames.SlugIdempotent` | lib/recall/export.ts:83 | Slugging a slug changes nothing. |
| `ExportNames.ReportFileName` | lib/recall/export.ts:83 | The report name is the slug followed by `_case_report.pdf`. |
| `ExportNames.ArchiveFileName` | lib/recall/export.ts:133 | The case archive name is the slug followed by `_photos.zip`. |
| `ExportNames.IsoDate` | lib/recall/export.ts:105 | The date part is a prefix of the ISO text without 'T'. |
| `ExportNames.HourMinuteOfClock` | lib/recall/export.ts:106 | For a time text `HH:MM…` the result is `HHMM`. |
| `ExportNames.FolderName` | lib/recall/export.ts:105-107 | A log folder name starts with the date part of the ISO text (everything before the first `T`), then `_`, and ends with the log type. |
| `ExportNames.FolderNameOfClock` | lib/recall/export.ts:105-107 | For an ISO text `{date}T…` and a time text `HH:MM…` the folder is exactly `{date}_{HHMM}_{log_type}`. |
| `ExportNames.EntryName` | lib/recall/export.ts:115 | An entry is named by the original file name when one is present, else `photo_{i+1}.jpg`. |
| `ExportNames.FallbackNamesDistinct` | lib/recall/export.ts:115 | Fallback names of different positions never coincide. |
| `ExportNames.SinglePhotoName` | lib/recall/export.ts:242 | A single photo is saved under its original name, else `photo.jpg`. It is never empty. |
| `ExportNames.LogArchiveName` | lib/recall/export.ts:172-177 | The single-log archive name uses only `[a-z0-9_.]` and ends with `_photos.zip`. |
| `ExportNames.LogArchiveNameLeadsWithType` | lib/recall/export.ts:173-177 | Without a case name, the archive name starts with the lower-cased log type and '_'. |
| `LogOrder.SortByCreated` | lib/recall/export.ts:42 | Sorts the caller's array in place, oldest first, as a permutation of the old contents. Logs created at the same time keep their relative order, as `Array.prototype.sort` is stable. |
| `LogOrder.InsertLast` | lib/recall/export.ts:42 | One step of the sort: the first `i+1` logs become ordered. The multiset and the order among logs of equal creation time are unchanged. |
| `LogOrder.StableOrderIsUnique` | lib/recall/export.ts:42 | Two sorted orders that keep the logs of every creation time in the same order are equal. So the contract of `SortByCreated` fixes its result. |
| `ExportPdf.AddText` | lib/recall/export.ts:16-20 | Appends one item at the cursor and moves the cursor down by 7 per wrapped line, plus 5. |
| `ExportPdf.BreakIfLow` | lib/recall/export.ts:44-47 | Below y = 250 the cursor moves to y = 20 of the next page. Otherwise nothing changes. The cursor never ends below 250. |
| `ExportPdf.ListedLabels` | lib/recall/export.ts:64 | At most the first three photos are listed, each by its original name or `photo`. |
| `ExportPdf.SectionsPlaceHeadings` | lib/recall/export.ts:42-70 | After any number of log sections, every log heading lies between y = 20 and y = 250 of its page. |
| `ExportPdf.ReportLayout` | lib/recall/export.ts:44-80 | Every log heading of a report lies between y = 20 and y = 250. The two footer lines share a page, 10 apart, the first between y = 30 and y = 260. |
| `ExportPdf.ReportHeadings` | lib/recall/export.ts:42-50 | The report's headings are exactly one per log, in the order of the logs. |
| `ExportPdf.SectionShape` | lib/recall/export.ts:49-67 | A log adds its heading, then its note only when not blank, then the photo count only with photos, then the file list only with photos and `includePhotos`. |
| `ExportPdf.PhotoCountWording` | lib/recall/export.ts:60 | One photo reads "1 photo attached". More than one read "N photos attached". |
| `ExportPdf.FilesLineAccountsForAll` | lib/recall/export.ts:64-65 | Listed names plus the "+N more" count make up the photo count. "+N more" appears only when more than three photos exist. |
| `ExportPdf.ExportCaseToPdf` | lib/recall/export.ts:7-85 | Sorts the caller's logs oldest first in place, stably, then writes exactly the report of the sorted logs, and names it by the slug. |
| `ExportPdf.WriteHeader` | lib/recall/export.ts:22-39 | Writes the title, the client and location lines when present, and the creation date, then leaves a gap of 10. |
| `ExportPdf.WriteSection` | lib/recall/export.ts:42-70 | One loop turn writes exactly one log's section. |
| `ExportPdf.WriteNote` | lib/recall/export.ts:53-55 | The note is written only when not blank. |
| `ExportPdf.WritePhotoLines` | lib/recall/export.ts:57-67 | The count line is written only when the log has photos. The file line is written only then and only with `includePhotos`, at x = 25. |
| `ExportPdf.WriteFooter` | lib/recall/export.ts:72-80 | The footer goes on a new page when the cursor is below 250. |
| `ExportSummary.GenerateCaseSummary` | lib/recall/export.ts:190-230 | Sorts the caller's logs oldest first in place, stably, and returns the summary text of the sorted logs. |
| `ExportSummary.WriteHeader` | lib/recall/export.ts:194-207 | Builds the header: case line, optional lines, dates and count banner. |
| `ExportSummary.AppendOptional` | lib/recall/export.ts:196-202 | A client or location line is appended only for a non-empty value. |
| `ExportSummary.AppendDates` | lib/recall/export.ts:204-205 | Appends the created and updated lines, then a blank line. |
| `ExportSummary.AppendEntries` | lib/recall/export.ts:211-224 | Appends the entries of all logs in array order. |
| `ExportSummary.AppendEntry` | lib/recall/export.ts:212-223 | Appends one entry with the number `index+1`. |
| `ExportSummary.SummaryStartsWithCase` | lib/recall/export.ts:194 | The summary starts with `Case: {title}\n`. |
| `ExportSummary.ClientLineIffNamed` | lib/recall/export.ts:196-198 | A client line follows the case line exactly when the case has a non-empty client name. |
| `ExportSummary.SummaryBanner` | lib/recall/export.ts:207 | The header ends with `=== LOGS ({n}) ===` and a blank line, where n is the number of logs. |
| `ExportSummary.EntriesNumbered` | lib/recall/export.ts:211-224 | The entries are the logs' entries in order, the i-th numbered i+1. |
| `ExportSummary.EntryStartsWithNumber` | lib/recall/export.ts:212 | Every entry opens with its number, a dot and a space. |
| `ExportSummary.SummaryEndsWithSignature` | lib/recall/export.ts:226-227 | The text ends with `Recall - Case Management System` and no trailing newline. |
| `ExportZip.ExportCasePhotosToZip` | lib/recall/export.ts:88-143 | Sorts the caller's logs oldest first in place, stably, then yields exactly the case archive of the sorted logs, or the rewrapped error. |
| `ExportZip.AddAllLogs` | lib/recall/export.ts:101-121 | The outer loop builds the archive of all logs and counts every photo attempted. |
| `ExportZip.AddLogPhotos` | lib/recall/export.ts:109-120 | The inner loop stores every downloadable photo under its entry name and counts all photos. |
| `ExportZip.PhotoCountZero` | lib/recall/export.ts:102-111 | The attempted-photo count is zero exactly when no log has photos. |
| `ExportZip.CaseArchiveFailsIffNoPhotos` | lib/recall/export.ts:123-141 | The case export fails exactly when no log has a photo, and then only with "Failed to create photo archive". Failed downloads never make it fail. |
| `ExportZip.CaseArchiveHasSummary` | lib/recall/export.ts:95-96 | The archive always holds `case_summary.txt` with the summary text, untouched by any photo. |
| `ExportZip.AddLogsKeepsRoot` | lib/recall/export.ts:101-116 | Photo entries never replace a root entry. |
| `ExportZip.AddPhotosFolders` | lib/recall/export.ts:113-116 | A log's folder is created exactly when one of its photos downloads. |
| `ExportZip.AddLogsFolders` | lib/recall/export.ts:101-116 | The folders are exactly those of the logs with a downloadable photo, so a log without photos gets no folder. |
| `ExportZip.AddPhotosKeys` | lib/recall/export.ts:109-120 | The entries added are exactly the placed names of the downloadable photos. |
| `ExportZip.AddPhotosStores` | lib/recall/export.ts:113-116 | With distinct entry names, every downloadable photo is stored with its own content. |
| `ExportZip.ExportLogPhotosToZip` | lib/recall/export.ts:146-187 | Yields exactly the single-log archive. |
| `ExportZip.LogArchiveContents` | lib/recall/export.ts:150-167 | The single-log export fails exactly for a log without photos, with "No photos to export". Otherwise its entries are exactly the downloadable photos' names, flat at the root. |
| `ExportZip.DownloadSinglePhoto` | lib/recall/export.ts:233-251 | Succeeds exactly when the path is non-blank, stored and fetchable. It then saves under the single-photo name. Every failure is "Failed to download photo". |
| `Repo.SortDesc` | lib/recall/supabase.ts:35 | Orders by a key, largest first, as a permutation of the rows. |
| `Repo.Window` | lib/recall/supabase.ts:36 | The rows at positions offset .. offset+limit-1 that exist. |
| `Repo.Limit` | lib/recall/supabase.ts:78 | The first n rows. |
| `Repo.FirstCount` | lib/recall/supabase.ts:52 | The first nested count, or 0 when absent or empty. |
| `Repo.CountsAreRowCounts` | lib/recall/supabase.ts:50-54 | `log_count` is the number of the case's logs. `photo_count` is the number of photos attached to them. |
| `Repo.TableCountsAreRowCounts` | lib/recall/supabase.ts:50-54 | Given unique log ids, the same counts hold for the table's own rows. |
| `Repo.DatabaseCountsAreRowCounts` | lib/recall/supabase.ts:50-54 | On a valid database (unique ids in every table), the counts are row counts. |
| `Repo.AtMostOneWithId` | lib/recall/supabase.ts:149-160 | With unique case ids at most one active row has a given id. |
| `Repo.LogsOf` | lib/recall/supabase.ts:108-130 | The embedded logs are exactly the table's logs of the case. |
| `Repo.PhotosOf` | lib/recall/supabase.ts:108-130 | The embedded photos are exactly the table's photos of the log. |
| `Repo.ActiveCases` | lib/recall/supabase.ts:33-35 | Exactly the caller's rows with no `deleted_at`, most recently updated first. |
| `Repo.DeletedCases` | lib/recall/supabase.ts:75-77 | Exactly the caller's soft-deleted rows, most recently deleted first. |
| `Repo.GetCases` | lib/recall/supabase.ts:15-55 | Fails exactly without a user. Otherwise returns the window `offset .. offset+limit-1` of the caller's active cases ordered newest update first (empty past the end), each with its counts. |
| `Repo.EveryCaseOnSomePage` | lib/recall/supabase.ts:15-36 | Paging with `offset = page*limit` reaches every active case of the caller, for any `limit` of at least 1. |
| `Repo.FirstPageIsComplete` | lib/recall/supabase.ts:36 | When the active cases fit in `limit`, the first page holds every one of them. |
| `Repo.GetDeletedCases` | lib/recall/supabase.ts:57-97 | Fails exactly without a user. Otherwise returns the first `min(limit, n)` of the caller's `n` deleted cases ordered newest deletion first, each with its counts. |
| `Repo.ActiveAndDeletedPartition` | lib/recall/supabase.ts:76 | The two listings' filters split the caller's cases between them. |
| `Repo.ActiveWithId` | lib/recall/supabase.ts:123-124 | Exactly the active rows with the id. |
| `Repo.GetCase` | lib/recall/supabase.ts:108-130 | Succeeds exactly when one active row has the id, and returns that row. It embeds the case's logs in table order, each with exactly its own photos. |
| `Repo.GetCaseSkipsDeleted` | lib/recall/supabase.ts:124 | A soft-deleted case is never returned. |
| `Repo.SearchCases` | lib/recall/supabase.ts:297-323 | Fails exactly without a user. Otherwise returns the first `min(50, n)` of the `n` matching cases ordered newest update first, with `log_count` and no `photo_count`. |
| `Repo.MatchingCases` | lib/recall/supabase.ts:307-312 | A case is kept exactly when it is in the table, owned by the caller, active, and its title or client name contains the query ignoring case. |
| `Repo.SmallCaseSearchIsComplete` | lib/recall/supabase.ts:297-323 | When at most 50 cases match, every matching case is in the search result. |
| `Repo.WithLogCounts` | lib/recall/supabase.ts:319-322 | Each search row carries the case's log count and no photo count. |
| `Repo.SearchLogs` | lib/recall/supabase.ts:325-355 | Returns the first `min(100, n)` of the `n` logs meeting every given filter, newest first, each with its photo count. It asks for no user. |
| `Repo.MatchingLogs` | lib/recall/supabase.ts:334-344 | A log is kept exactly when it is in the table and meets every given filter. |
| `Repo.SmallLogSearchIsComplete` | lib/recall/supabase.ts:325-355 | When at most 100 logs match, every matching log is in the search result. |
| `Repo.WithPhotoCounts` | lib/recall/supabase.ts:351-354 | Each log carries the number of its photos. |
| `Repo.LogFiltersConjoin` | lib/recall/supabase.ts:334-344 | A log matches exactly when it matches each filter on its own. |
| `Repo.GetAllCasePhotos` | lib/recall/supabase.ts:226-255 | Returns no photos for a case without logs. Otherwise returns exactly the photos of the case's logs, newest first. |
| `Repo.SetDeletedAt` | lib/recall/supabase.ts:162-169 | Only the rows with the id change, and only in `deleted_at`. |
| `Repo.DeleteThenRestore` | lib/recall/supabase.ts:99-106 | Delete then restore gives back the table of an active case unchanged. |
| `Repo.DeleteMovesToDeleted` | lib/recall/supabase.ts:162-169 | A deleted case leaves the active listing and enters the deleted listing. |
| `Repo.UpdateActive` | lib/recall/supabase.ts:149-156 | Only the active rows with the id take the updates. |
| `Repo.UpdateSkipsDeleted` | lib/recall/supabase.ts:154 | An update never touches a soft-deleted row. |
| `Repo.RecallDatabase.DeleteCase` | lib/recall/supabase.ts:162-169 | Stamps `deleted_at` with now on the rows with the id. Logs and photos are unchanged. |
| `Repo.RecallDatabase.RestoreCase` | lib/recall/supabase.ts:99-106 | Clears `deleted_at` on the rows with the id and nothing else. |
| `Repo.RecallDatabase.UpdateCase` | lib/recall/supabase.ts:149-160 | Updates the active rows with the id. It succeeds with the updated row exactly when there is one such row. On a valid database it fails exactly when there is none. Ids stay unique. |
| `Repo.RecallDatabase.CreateCase` | lib/recall/supabase.ts:132-147 | Refused without a user, with the table unchanged. An id already in the table is refused as a duplicate key, with the table unchanged. Otherwise it appends the caller's active row, and ids stay unique. |
| `Repo.RecallDatabase.CreateLog` | lib/recall/supabase.ts:187-202 | Refused without a user. An id already in the table is refused as a duplicate key, with the table unchanged. Otherwise it appends the caller's log, and ids stay unique. |
| `Repo.RecallDatabase.CreatePhoto` | lib/recall/supabase.ts:268-285 | Refused without a user. An id already in the table is refused as a duplicate key, with the table unchanged. Otherwise it appends the caller's photo row, and ids stay unique. |
| `Repo.RecallDatabase.DeleteLog` | lib/recall/supabase.ts:216-223 | Removes exactly the logs with the id. |
| `Repo.RecallDatabase.DeletePhoto` | lib/recall/supabase.ts:287-294 | Removes exactly the photo rows with the id. |
| `Repo.DeleteRestoreRoundTrip` | lib/recall/supabase.ts:99-106 | On the database object, delete then restore leaves the case table as it was. |
| `ShowingTypes.BearerTokenOfHeader` | app/api/showings/route.ts:50 | `Bearer {token}` yields the token. |
| `ShowingsApi.Normalise` | app/api/showings/route.ts:64-77 | The row belongs to the user and carries the fresh token and the converted date. Each text field is the trimmed input, and the state is the trimmed input upper-cased. The email is kept, trimmed, exactly when it is given and not blank; otherwise it is null. |
| `ShowingsApi.NormaliseIsSettled` | app/api/showings/route.ts:64-77 | Normalising again changes nothing: every stored text is its own trim, and the state is its own trimmed upper-case form. |
| `ShowingsApi.CreateShowing` | app/api/showings/route.ts:10-104 | An unparsable body gives 500 "Internal server error". Then missing fields give 400, then a bad phone, and every 400 has one of those causes. After that, a missing header gives 401 "No authorization header" and a rejected token gives 401 "Invalid authentication". A date that does not convert gives 500 "Internal server error", and a failed insert gives 500 "Failed to create showing". A success carries the created showing and `{appUrl}/r/{token}`. |
| `ShowingsApi.ValidationBeforeAuth` | app/api/showings/route.ts:25-58 | A 400 answer is the same whatever the header, auth service or database. |
| `ShowingsApi.MissingHeaderIs401` | app/api/showings/route.ts:41-47 | A valid body with no or an empty header gets 401. |
| `ShowingsApi.CreatedIff` | app/api/showings/route.ts:10-95 | A showing is created exactly when the body parses, the fields and phone pass, the token resolves, the date converts and the insert succeeds. |
| `ShowingsApi.BlankFieldStoredEmpty` | app/api/showings/route.ts:69-75 | A whitespace-only required field passes and is stored as "". |
| `ShowingsApi.ServerSkipsFormatChecks` | app/api/showings/route.ts:25-38 | A bad state length, ZIP and past date get no 400. |
| `SmsApi.SmsBody` | app/api/sms/send/route.ts:63-65 | A truthy custom message is sent as it is. Otherwise the default text is sent. |
| `SmsApi.DefaultBodyCarriesLink` | app/api/sms/send/route.ts:63-65 | The default text contains the buyer name, the address and the feedback link. |
| `SmsApi.CustomMessageVerbatim` | app/api/sms/send/route.ts:64 | A custom message gets no link appended. |
| `SmsApi.ErrorResponse` | app/api/sms/send/route.ts:86-115 | Codes 21211, 21608 and 21614 map to fixed 400s. Any other code gives "Twilio error: …" with 400. No code gives 500. |
| `SmsApi.SendSms` | app/api/sms/send/route.ts:10-117 | An unparsable body gives 500 "Failed to send SMS". Once the body parses, missing configuration gives 400 before any other check. For an owned showing, a provider failure with a code and a message is answered by `ErrorResponse` of that code and message, and a sent message by its sid and the recipient. A 2xx answer always reports a sent message. |
| `SmsApi.ConfigurationFirst` | app/api/sms/send/route.ts:15-20 | Unconfigured, the answer is the same for every header and auth service. |
| `SmsApi.AuthThenOwnership` | app/api/sms/send/route.ts:23-54 | A missing header gives 401, then an unresolved token gives 401. Then a showing id with no row owned by the caller in the showings table gives 404. |
| `SmsApi.OwnedWithId` | app/api/sms/send/route.ts:42-47 | Exactly the table's rows with the id and the caller as agent. |
| `SmsApi.FindShowing` | app/api/sms/send/route.ts:42-54 | Finds a showing exactly when one row has the id and the caller as agent, and returns that row. |
| `SmsApi.ForeignShowingIs404` | app/api/sms/send/route.ts:41-54 | With a valid token, asking for a showing the caller owns no row of gives 404 "Showing not found or access denied". |
| `SmsApi.SentToBuyer` | app/api/sms/send/route.ts:42-80 | A success is for a showing row with the requested id owned by the caller. It sends the chosen body from the configured number to that row's buyer phone and echoes the recipient. |
| `ShowingForm.FormData.Set` | app/dashboard/new/page.tsx:175-178 | Only the named field changes. |
| `ShowingForm.Flag` | app/dashboard/new/page.tsx:48-83 | A failing check sets its field's message, replacing any earlier one. Nothing else changes. |
| `ShowingForm.ContactRequiredChecks` | app/dashboard/new/page.tsx:48-49 | After the name and phone checks the map holds the name's final message and the phone's required message. |
| `ShowingForm.PlaceRequiredChecks` | app/dashboard/new/page.tsx:50-51 | The address and city entries hold their final messages. |
| `ShowingForm.RestRequiredChecks` | app/dashboard/new/page.tsx:52-54 | The state, ZIP and date entries hold their required messages. The date is only checked for emptiness. |
| `ShowingForm.ContactFormatChecks` | app/dashboard/new/page.tsx:57-64 | The phone and email entries hold their final messages, format overriding required. |
| `ShowingForm.PlaceFormatChecks` | app/dashboard/new/page.tsx:67-74 | The state and ZIP entries hold their final messages. |
| `ShowingForm.DateFormatCheck` | app/dashboard/new/page.tsx:77-83 | The date entry holds its final message. |
| `ShowingForm.AgreeingIsFormErrors` | app/dashboard/new/page.tsx:44-87 | A map holding every field's final message is the error map. |
| `ShowingForm.PassesIffValid` | app/dashboard/new/page.tsx:44-87 | The form validates exactly when every field condition holds. |
| `ShowingForm.ValidIffNoFieldError` | app/dashboard/new/page.tsx:86 | Valid exactly when no field has an error. |
| `ShowingForm.BlankRequiredFieldFails` | app/dashboard/new/page.tsx:48-54 | A blank required field has an error under its own key. |
| `ShowingForm.WhitespacePhoneReportsFormat` | app/dashboard/new/page.tsx:57-59 | A whitespace-only phone reports the format message, not the required one. |
| `ShowingForm.EmailChecks` | app/dashboard/new/page.tsx:62-64 | An empty email passes. The unanchored pattern accepts text around an address and rejects `a@b`, `@b.c` and `a@.c`. |
| `ShowingForm.StateLengthUntrimmed` | app/dashboard/new/page.tsx:67-69 | `" CA"` fails the length check, and `"  "` is reported as missing. |
| `ShowingForm.ZipShapes` | app/dashboard/new/page.tsx:72-74 | Five digits, or five digits, a dash and four digits, and nothing else shown. |
| `ShowingForm.DateMustBeLater` | app/dashboard/new/page.tsx:77-83 | A date equal to now fails. A later date or an unparseable one passes. |
| `ShowingForm.ClientValidMeetsServerFields` | app/dashboard/new/page.tsx:44-87 | A form the page accepts has every field the server requires. The server's phone rule then needs only 10 characters. |
| `ShowingForm.ShortPhoneGap` | app/dashboard/new/page.tsx:57-59 | The page accepts `+12345`. The server answers it with 400. |
| `ShowingForm.LooseFieldsGap` | app/dashboard/new/page.tsx:67-83 | A form refused only on state, ZIP and date passes every 400 check of the server. |
| `ShowingForm.ErrorText` | app/dashboard/new/page.tsx:117 | The server's error text when truthy, else the fallback. |
| `ShowingForm.AlertOf` | app/dashboard/new/page.tsx:116-128 | An alert appears exactly when creation did not succeed, and it shows the server's error. |
| `ShowingForm.SmsBodyOf` | app/dashboard/new/page.tsx:150-153 | The request names the showing. An empty custom message is sent as absent. |
| `ShowingForm.NewShowingPage.constructor` | app/dashboard/new/page.tsx:24-41 | The page starts with an empty form and no errors, requests or navigations. |
| `ShowingForm.NewShowingPage.ValidateForm` | app/dashboard/new/page.tsx:44-87 | Stores the error map and returns true exactly when it is empty. |
| `ShowingForm.NewShowingPage.HandleInputChange` | app/dashboard/new/page.tsx:173-187 | Only the named field changes. Only its error is blanked, and only when one is set. |
| `ShowingForm.NewShowingPage.SendSmsNotification` | app/dashboard/new/page.tsx:134-171 | With a session, one SMS request is sent. The recorded result follows the reply, and loading ends. |
| `ShowingForm.NewShowingPage.HandleSubmit` | app/dashboard/new/page.tsx:89-132 | An invalid form sends nothing and changes only the errors. A valid one runs the submit script. |
| `ShowingForm.NewShowingPage.CreateShowingRequest` | app/dashboard/new/page.tsx:96-131 | Without a session the page goes to `/login` with `loading` still set. Otherwise it sends the create request, and the SMS follows only after a success with the box checked. |
| `NewCasePage.CaseForm.Set` | app/recall/case/new/page.tsx:46-47 | Only the named field changes. |
| `NewCasePage.TrimOrAbsent` | app/recall/case/new/page.tsx:33-34 | Absent exactly for blank text. Otherwise the trimmed, non-empty text. |
| `NewCasePage.PayloadIsTrimmed` | app/recall/case/new/page.tsx:31-35 | A non-blank title yields a non-empty title with no outer white space. Optional fields are absent or non-empty, and nothing grows. |
| `NewCasePage.PayloadIdempotent` | app/recall/case/new/page.tsx:31-35 | Normalising a payload's own texts again gives the same payload. |
| `NewCasePage.NewCaseScreen.constructor` | app/recall/case/new/page.tsx:11-17 | The page starts with an empty form, no error and nothing sent. |
| `NewCasePage.NewCaseScreen.HandleChange` | app/recall/case/new/page.tsx:46-49 | Only the named field changes, and the error is cleared. |
| `NewCasePage.NewCaseScreen.HandleSubmit` | app/recall/case/new/page.tsx:19-44 | A blank title shows "Title is required" and calls nothing. Otherwise it submits the trimmed payload. |
| `NewCasePage.NewCaseScreen.CreateAndNavigate` | app/recall/case/new/page.tsx:27-43 | The payload is passed on. A success navigates to `/recall/case/{id}` and a failure shows the fixed message. `loading` is false either way. |
| `NewCasePage.EnabledSubmitCreates` | app/recall/case/new/page.tsx:134 | An enabled button means the title check passes. |
| `NewCasePage.ChangeKeepsLimits` | app/recall/case/new/page.tsx:95-127 | Edits capped at 200/100/200 keep the form within its limits. |
| `Auth.Redirect.Pushed` | lib/auth-provider.tsx:90-96 | At most one navigation, and none exactly for no redirect. |
| `Auth.AuthRedirect` | lib/auth-provider.tsx:86-97 | Login exactly without a session on a path neither public nor open. Dashboard exactly with a session on `/login`. The two never both apply. |
| `Auth.PublicRouteIff` | lib/auth-provider.tsx:31-34 | A path is public exactly when it starts with `/login` or `/r/`. |
| `Auth.RouteExamples` | lib/auth-provider.tsx:31-39 | `/loginx` and `/r/abc123` are public and `/r` is not. Only `/` is open. |
| `Auth.RedirectFollowsSession` | lib/auth-provider.tsx:90-95 | A signed-in user is never sent to login, and a visitor is never sent to the dashboard. |
| `Auth.RedirectTargetIsStable` | lib/auth-provider.tsx:86-96 | The page a redirect leads to asks for no further redirect. |
| `Auth.AuthProvider.constructor` | lib/auth-provider.tsx:42-46 | No user, no session, loading. |
| `Auth.AuthProvider.HandleAuthRedirect` | lib/auth-provider.tsx:86-97 | Pushes exactly the guard's navigation. |
| `Auth.AuthProvider.OnSession` | lib/auth-provider.tsx:48-84 | Stores the session and its user, ends loading, and applies the guard to the path seen at mount. |
| `Auth.AuthProvider.OnSessionAt` | lib/auth-provider.tsx:68-78 | The corrected listener applies the guard to the current path. |
| `Auth.StaleListenerExample` | lib/auth-provider.tsx:68-84 | A provider mounted on `/` does not redirect when the session ends, although `/dashboard` needs a session. |
| `Auth.ExpiredSessionRedirects` | lib/auth-provider.tsx:86-92 | With the corrected listener, an ended session on a protected page goes to `/login`. |
| `Auth.AuthProvider.SignOut` | lib/auth-provider.tsx:99-106 | After a sign-out, navigates to `/login`. A failure changes nothing. |

## Left out

- Transport and hosting: HTTP, Next.js request parsing, React rendering and the router. Navigations are recorded as a list of pushed paths.
- The Supabase SDK, PostgREST and Postgres:
  - Tables are sequences of rows.
  - Row-level security is not modelled.
  - `updated_at` triggers are not modelled.
  - Database errors other than `.single()` refusals and duplicate primary keys are not modelled.
- Rows that compare equal on the sort key keep table order. Postgres leaves their order unspecified.
- `getLog`, `updateLog` and `getPhotosForLog` (lib/recall/supabase.ts:172-214, 257-266) are not part of this model. The core operations do not call them.
- `checkStorageBucket` is an external probe with no logic of its own.
- The listing limit of 1000 entries and its sort order in `deleteCaseFolder` are not modelled.
- jsPDF internals are not modelled:
  - font sizes and styles;
  - text rendering;
  - `save`.
  Line wrapping is an opaque line count.
- JSZip `generateAsync`, object URLs and the anchor clicks are not modelled. An export's result is the archive and its file name.
- Dates are integers or opaque texts. Locale and time-zone formatting are parameters, and so are date parsing, the clock, `crypto.randomUUID` and the public token.
- The Twilio client, the environment and the auth service are parameters.
- `copyToClipboard`, the SMS text area's 300-character cap and the loading spinners are not modelled.
- `useAuth`, the context's default value and the listener's `unsubscribe` are not modelled.
- `Storage.DownloadPhoto`: the "No data returned from photo download" branch is not modelled. The stand-in always returns data for a stored path.
- `Storage.DownloadPhoto`: bucket errors other than an absent path (network, permission, a missing bucket) are not modelled.
- `Storage.UploadPhoto`: bucket errors other than a taken path (network, permission, a missing bucket, a quota) are not modelled, so a refusal by the bucket always means the path was taken.
- `Storage.GetSignedUrl`: bucket errors other than an absent path are not modelled, so for a non-blank path the call fails exactly when nothing is stored there.
- `ShowingsApi.Normalise`: upper-casing maps the ASCII letters only. JavaScript's `toUpperCase` also maps other letters, for example `é` to `É` and `ß` to `SS`, which changes the length.
- `Repo.SearchCases`: the query is matched as a plain substring, so `%` and `_` inside it are not wildcards. Filter-string splicing is not modelled. Case folding is ASCII only.
- `Repo.SearchLogs`: the embedded `case:recall_cases(title, client_name)` is not carried in the result. Matching is ASCII-case-insensitive only.
- `Repo.GetCase`: the photo rows are embedded whole, not only the four selected columns.
- `Repo.RecallDatabase.UpdateCase`: `updated_at` is not advanced, since that is a trigger's job.
- `ShowingsApi.CreateShowing`: request values are strings or absent. A non-string JSON value, which would make the handler throw, is not modelled. A 2xx reply without a showing is not modelled on the page side.
- `ShowingForm.NewShowingPage.HandleInputChange`: the browser's `maxLength` caps are not applied. The error map holds the eight fields only.
- `NewCasePage.NewCaseScreen.HandleChange`: the `maxLength` caps appear only as the `WithinLimits` invariant of `ChangeKeepsLimits`.
- `NewCasePage.NewCaseScreen.HandleSubmit`: what `createCase` returns or throws is a parameter. The page and the repository are connected only through the payload.
- `Auth.AuthProvider.OnSession`: a `getSession` error is only logged, and the model receives the session that came back (`None`).
- Strings are sequences of Unicode characters, while JavaScript's `length` counts UTF-16 code units. The two differ for characters outside the Basic Multilingual Plane, for example in the state's length check.
- `middleware.ts` has no observable behaviour.

## Findings

| source | as written | input that shows it | evidently intended | confidence | as-written member | corrected member |
|---|---|---|---|---|---|---|
| lib/recall/storage.ts:133-149 | `deleteCaseFolder` lists `recall_cases/{caseId}` without descending. It then removes `recall_cases/{caseId}/{name}` for each entry, and the only entry is the `logs` folder. | A case with one photo at `recall_cases/c/logs/l/u.jpg`: the listing is `["logs"]`, the remove targets `recall_cases/c/logs`, and the photo stays. | Every object under the case folder is removed. | medium, not executed | `Storage.DeleteCaseFolderKeepsNested` | `Storage.PurgeRemovesUploads` |
| lib/auth-provider.tsx:48-84 | The effect runs once (`[]` dependencies), so the auth listener applies the guard to the path seen at mount. | Mount on `/`, navigate to `/dashboard`, then the session ends: the listener checks `/` and no redirect happens. | The guard is applied to the current path. | medium, not executed | `Auth.StaleListenerExample` | `Auth.ExpiredSessionRedirects` |
