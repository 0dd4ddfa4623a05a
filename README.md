# CWRC preservation and Swift migration, modelled in Dafny

This project models the decision and bookkeeping logic of the CWRC
preservation scripts. They copy objects of the CWRC repository into OpenStack
Swift, reconcile the two stores and report on them. The project also models
the Python scripts that migrate those objects between two Swift instances.

Each source file of the core has its own module:

| module | source | what it covers |
|---|---|---|
| `AuditReport` | cwrc_audit_report.rb | the paging loop over the Swift listing, the per-pid classification (`'x'`, `'s'`, `''`) with deletion of matched keys, the `'d'` rows of leftover keys, the summary filter |
| `Preserver` | cwrc_preserver.rb | the zip name of a pid, the deposit/skip decision with its reprocess and lookup-failure overrides, the download, the deposit, the two ledger files, removal of the local file |
| `CwrcCommon` | cwrc_common.rb | the inventory path, removal of the first timestamp occurrence from the response, the bounded retry loop of the download (delays 10, 30, 90, 300, 900; read timeout +30 per retry) |
| `Ingestor` | ingestor.rb | `File.basename`, `get_file_from_swit`, the AIP metadata merge and key prefix, the update-versus-create choice of `deposit_file` |
| `Reconcile` | cwrc_reconcile.rb | the per-object missing/present verdict and the two output files |
| `Migration` | migration/migrate.py | `validate`, `validate_checksum`, `build_swift_upload_object`, `download_from_source`, `log_upload`, `upload_to_destination`, `csv_init` (the `DbWriter` class) and `process` |
| `LegacyMigrate` | migrate.py | the older script: the inline header build, upload errors that carry Python's builtin `id`, no checksum and no ledger; `validate` is shared with `Migration` because the two are line for line the same |
| `MigrationAudit` | migration/migrate_audit.py | the validator that logs instead of raising, and the id loop that pauses after each id and ends at the first exception |

`Wrappers` holds `Option` and `Result`. `SeqFacts` holds two sequence
identities that the loop proofs use as single steps.

The outside world is supplied as input:
- Swift containers are maps from object name to object.
- Listings are maps from name to (timestamp, size).
- `stat` results are header lists and header maps.
- Download and upload results are sequences of records.
- The outcome of each HTTP attempt is a function from the attempt number to its result.
- `to_time` is a function from text to an optional instant.
- MD5 and SHA-256 are functions from content to digest text.
- Temporary files are a map from path to content.

The run loops of the Ruby scripts and the Python scripts are methods. Each is
proved equal to a recursive specification function (`RunFrom`, `Entries`,
`ProcessAll`, `AuditAll`, `UploadAll`, `DownloadAll`), and the lemmas state
the promised properties about those functions. The audit report's loops keep
the Ruby code's in-place map updates as reassigned `map` variables.

Where the model follows the code as written rather than the evident intent:
- migrate.py raises its upload `SwiftError`s with Python's builtin function
  `id` as the object, not the id being migrated. The model carries the text
  `<built-in function id>` (`LegacyMigrate.BuiltinId`).
- In migration/migrate.py a failed segment upload (a result with
  `for_object` but no `object`) reads `dst_item['object']`. That raises
  `KeyError('object')`, which is what `Migration.UploadOne` returns.
- The Swift name of a CWRC object in cwrc_preserver.rb is the pid with `:`
  turned into `_`, plus `.zip`. This is not injective
  (`Preserver.ZipNameCollides`). The reconciler and the audit report look
  objects up by the raw pid, so a preserver deposit is invisible to their
  lookup (`Preserver.DepositInvisibleToRawLookup`).

## Model

| member | source | states |
|---|---|---|
| AuditReport.AccumulatedKeys | cwrc_audit_report.rb:96-99 | a key is in the merged listing exactly when it is in the first page or in one of the pages merged so far |
| AuditReport.AccumulatedGrows | cwrc_audit_report.rb:97-98 | merging a page never loses a key, so the merged count never goes down |
| AuditReport.MergePage | cwrc_audit_report.rb:98 | `merge`: the keys of both maps, the later page's entry winning on a clash, and the size of the result |
| AuditReport.CollectListing | cwrc_audit_report.rb:96-99 | the paging loop stops exactly when the merged map holds at least the reported count (or the pages run out), and every earlier merge was below that count |
| AuditReport.BelowTotalBefore | cwrc_audit_report.rb:97 | below the count before the last merge implies below it before every earlier merge |
| AuditReport.Classify | cwrc_audit_report.rb:120-126 | `'x'` iff the CWRC time is strictly later; otherwise `'s'` iff the size is below 20, else `''` |
| AuditReport.CwrcRowsAt | cwrc_audit_report.rb:110-134 | the row of the object at position i is its row against the listing minus the pids of the objects before it |
| AuditReport.DistinctPidsRows | cwrc_audit_report.rb:113-134 | with distinct pids, a pid in the listing gets the listing's timestamp, size and classified status under its own pid; an absent pid gets `'x'` with empty Swift columns |
| AuditReport.PrintedAll | cwrc_audit_report.rb:137-139 | without summary mode every CWRC row is printed, in input order |
| AuditReport.PrintedSummary | cwrc_audit_report.rb:137-139 | in summary mode a row is printed iff it is a CWRC row whose status is not `''` |
| AuditReport.ClassifyOne | cwrc_audit_report.rb:111-134 | one object's row against the current map, and the map with the matched pid deleted |
| AuditReport.ClassifyNext | cwrc_audit_report.rb:110-140 | one iteration keeps the classification loop's invariant: the map left is the listing minus the pids seen |
| AuditReport.ClassifyAll | cwrc_audit_report.rb:110-140 | the printed rows are the filtered CWRC rows in order, and the map left is the listing minus every CWRC pid |
| AuditReport.LeftoverRows | cwrc_audit_report.rb:143-146 | exactly one `'d'` row, with empty CWRC columns, per leftover Swift key, and nothing else |
| AuditReport.Report | cwrc_audit_report.rb:110-146 | the output is the filtered CWRC rows followed by the `'d'` rows of the keys no CWRC pid matched |
| CwrcCommon.Later | cwrc_reconcile.rb:39 | `a.to_time > b.to_time`: defined iff both sides parse, and then true iff strictly later |
| CwrcCommon.NotLaterThanItself | cwrc_preserver.rb:76-77 | a parsable timestamp is never strictly later than itself |
| CwrcCommon.AuditPath | cwrc_common.rb:50-54 | `audit_by_date/<ts>` for a non-empty timestamp, `audit` otherwise |
| CwrcCommon.AuditPathInjective | cwrc_common.rb:50-54 | different timestamps request different paths |
| CwrcCommon.SliceFirst | cwrc_common.rb:63 | `slice!`: the first occurrence is cut out, and the body is unchanged when there is none |
| CwrcCommon.GetCwrcObjs | cwrc_common.rb:49-65 | the path requested, and the JSON text is the response body with the first timestamp occurrence removed |
| CwrcCommon.TimedOutIffSixTimeouts | cwrc_common.rb:72-84 | the download gives up with a timeout iff all six attempts time out |
| CwrcCommon.Download | cwrc_common.rb:67-89 | at most 6 attempts; delays consumed in the order 10, 30, 90, 300, 900; attempt k runs with timeout base + 30k; only read timeouts are retried; the result is the first response body, the first other error, or the re-raised timeout |
| Ingestor.StripTrailingSlashes | ingestor.rb:37 | the path without its trailing slashes |
| Ingestor.AfterLastSlash | ingestor.rb:37 | the slash-free suffix after the last slash |
| Ingestor.PlainNameIsOwnBasename | ingestor.rb:37 | a name without slashes is its own basename |
| Ingestor.GetFile | ingestor.rb:35-41 | `nil` iff the basename is not in the container, otherwise the object stored under it |
| Ingestor.DepositMetadata | ingestor.rb:50-55 | the keys are `project`, `project_id`, `promise`, `aip_version` plus the custom keys; custom values win; defaults `@project`, the basename, `bronze`, `1.0` |
| Ingestor.WithPrefix | ingestor.rb:59 | every key gets `X-Object-Meta-` and keeps its value; no other key appears |
| Ingestor.PrefixInjective | ingestor.rb:59 | prefixing keys never merges two keys |
| Ingestor.UpdateAndCreateAgree | ingestor.rb:61-76 | the update path and the create path store the same etag, content type and metadata |
| Ingestor.DepositFile | ingestor.rb:43-78 | stored under the basename with etag the MD5, the caller's content type and the prefixed metadata; update iff the name exists; returns the deposited object |
| Ingestor.DepositReadBack | ingestor.rb:50-55 | a deposited object's metadata reads back every custom entry, and `project_id` is the basename unless overridden |
| Preserver.ColonsToUnderscores | cwrc_preserver.rb:62 | `tr(':', '_')`: same length, colons become underscores, everything else unchanged |
| Preserver.ZipName | cwrc_preserver.rb:62 | the converted pid followed by `.zip` |
| Preserver.ZipNameCollides | cwrc_preserver.rb:62 | `a:b` and `a_b` get the same name |
| Preserver.ZipNameInjectiveWithoutUnderscores | cwrc_preserver.rb:62 | among pids without `_` the name is injective |
| Preserver.DepositInvisibleToRawLookup | cwrc_preserver.rb:62-70 | a deposit under the zip name does not change what a lookup by the raw pid finds |
| Preserver.ShouldDeposit | cwrc_preserver.rb:68-77 | deposit when forced, when Swift has no copy, or when the CWRC timestamp is strictly later; a failed comparison raises |
| Preserver.ProcessObject | cwrc_preserver.rb:60-106 | the loop body computes the same step as the specification `Process` |
| Preserver.RunFrom | cwrc_preserver.rb:60-106 | at most one outcome per object, and one for every object unless an exception ended the run |
| Preserver.Run | cwrc_preserver.rb:60-106 | the loop over all objects computes `RunFrom` |
| Preserver.ForcedObjectIsDownloaded | cwrc_preserver.rb:68-73 | reprocess mode or a raising lookup never skips and never compares timestamps |
| Preserver.EqualTimestampSkips | cwrc_preserver.rb:76-77 | an equal stored timestamp skips the object with nothing changed |
| Preserver.FailedDepositLedger | cwrc_preserver.rb:94-99 | a failed deposit appends exactly `pid\n` to the failure file and nothing to the success file, and the local zip file is removed |
| Preserver.DepositAppendsLine | cwrc_preserver.rb:101-105 | a deposit appends its success line to the success file and nothing to the failure file, and the local zip file is removed |
| Preserver.DepositedLedger | cwrc_preserver.rb:101-105 | a deposit appends one line, beginning with `pid `, to the success file only |
| Preserver.SuccessLineStarts | cwrc_preserver.rb:105 | a success line begins with the pid and a space |
| Preserver.QuietOutcomeLedger | cwrc_preserver.rb:76-86 | a skip or a download timeout changes neither ledger, Swift nor the local files |
| Preserver.DepositThenSkip | cwrc_preserver.rb:93 | after a deposit the Swift copy carries the CWRC timestamp, so the same object is skipped next time unless forced |
| Preserver.RunLedger | cwrc_preserver.rb:94-105 | over a run, one failure line per failed deposit, one success line per deposit, and no local file left behind |
| Reconcile.CheckMeaning | cwrc_reconcile.rb:36-44 | missing iff Swift has no copy under the raw pid or the CWRC timestamp is strictly later; present entries carry the stored timestamp; a failed comparison writes nothing |
| Reconcile.EqualTimestampIsPresent | cwrc_reconcile.rb:39 | equal timestamps count as present |
| Reconcile.Entries | cwrc_reconcile.rb:32-46 | one entry per object until a comparison raises, which ends the run at that object |
| Reconcile.EntriesAreVerdicts | cwrc_reconcile.rb:32-46 | the entry at position i is the verdict on object i |
| Reconcile.ExactlyOneFile | cwrc_reconcile.rb:38-45 | every entry goes to exactly one of the two files |
| Reconcile.MissingFileLists | cwrc_reconcile.rb:40-41 | a missing object's `pid\n` is in `swift_missing_objs.txt` |
| Reconcile.ObjectsFileLists | cwrc_reconcile.rb:43-44 | a present object's `pid timestamp\n` is in `swift_objs.txt` |
| Reconcile.FilesAppend | cwrc_reconcile.rb:39-45 | one more entry appends its line to its own file and nothing to the other |
| Reconcile.Reconcile | cwrc_reconcile.rb:32-46 | the loop writes the two files of the entries, in input order, and reports whether a comparison aborted it |
| Reconcile.AbortedStays | cwrc_reconcile.rb:39 | once a comparison raised, the later objects are never looked at |
| Migration.AllExceptions | migration/migrate.py:91-98 | the caller's exceptions plus `last-modified`, `x-timestamp`, `x-trans-id`, `x-openstack-request-id`, `date` |
| Migration.Judge | migration/migrate.py:104-115 | excepted iff listed; a problem iff not excepted and missing, or differing without the CWRC zip exemption |
| Migration.FirstProblemNoneIff | migration/migrate.py:100-115 | validation passes iff no source header is a problem |
| Migration.FirstProblemIsFirst | migration/migrate.py:104-113 | the error raised is the first problem header's: every header before it passes, and the message says missing or differs |
| Migration.Validate | migration/migrate.py:86-115 | the checking loop raises exactly the first problem, with container and `['id']`; migrate.py:80-109 is the same validator |
| Migration.DestinationOnlyKeysIgnored | migration/migrate.py:104 | keys present only in the destination never change the result |
| Migration.CwrcZipContentTypePasses | migration/tests/migrate_unit_tests.py:37-46 | the CWRC zip content type with a differing `date` passes |
| Migration.MissingHeaderRaises | migration/tests/migrate_unit_tests.py:49-56 | a missing header raises `a not present in destination: b` for `['a:1']` |
| Migration.DifferingHeaderRaises | migration/tests/migrate_unit_tests.py:59-66 | a differing header raises `a differs: b <> invalid` |
| Migration.NonCwrcContentTypeRaises | migration/tests/migrate_unit_tests.py:70-77 | outside CWRC a zip content type is a difference |
| Migration.ValidateChecksum | migration/migrate.py:134-138 | succeeds iff the MD5 equals the etag, returning both digests; otherwise the client error with both digests |
| Migration.FirstMissing | migration/migrate.py:146-157 | none iff every required header is present in the download; otherwise a required header the download lacks |
| Migration.CopiedHeader | migration/migrate.py:144-152 | exactly the four metadata headers and the content type, with the source values |
| Migration.UploadHeader | migration/migrate.py:142-158 | for `CWRC` also the last-mod timestamp, and the content type forced to zip; otherwise the source content type and no last-mod key |
| Migration.BuildUploadObject | migration/migrate.py:142-166 | a `KeyError` for the first missing header iff one is missing; else the path, object name and upload headers |
| Migration.UploadObjectOfTestItem | migration/tests/migrate_unit_tests.py:99-112 | for the test item: the CWRC headers `a`..`d`, zip and `f`; for another container `e` and no last-mod key |
| Migration.DownloadAll | migration/migrate.py:179-190 | on success one upload object per download result |
| Migration.FailedItemStopsDownload | migration/migrate.py:182-183 | an unsuccessful result always makes the download fail, whatever comes before or after it |
| Migration.FirstFailedItemRaises | migration/migrate.py:179-190 | when every earlier result is accepted (success, all headers, etag, matching MD5), the first unsuccessful result raises exactly the `ClientException` `ERROR: id:[['<id>']] error: <error>` |
| Migration.DownloadOnePasses | migration/migrate.py:181-188 | a result that succeeded, has every header read, an etag and a matching MD5 is downloaded |
| Migration.DownloadOneFails | migration/migrate.py:182-183 | an unsuccessful first result is the client error of the whole download |
| Migration.DownloadBuildsEach | migration/migrate.py:185 | on success object i is the one built from result i |
| Migration.HandleDownload | migration/migrate.py:181-188 | one result: the error check, the file write, the object build and the checksum test |
| Migration.DownloadFromSource | migration/migrate.py:170-190 | the download loop computes `DownloadAll` |
| Migration.Record | migration/migrate.py:204 | `writerow` writes one value per ledger column, in column order, and each column the row has gets the row's value |
| Migration.DbWriter.CsvInit | migration/migrate.py:253-264 | the header record is the seven column names in order |
| Migration.DbWriter.WriteRow | migration/migrate.py:204 | each call appends exactly one record |
| Migration.LogRow | migration/migrate.py:194-203 | the row has exactly the ledger columns |
| Migration.LogRecord | migration/migrate.py:194-204 | the record is id, md5, sha256, uploader, last-modified, container, empty notes |
| Migration.UploadAll | migration/migrate.py:208-227 | at most one ledger record per upload result |
| Migration.UploadedFileLoggedThenRemoved | migration/migrate.py:221-227 | an uploaded file with a matching MD5 gets one record with its id and is removed; a mismatch raises and keeps it |
| Migration.UploadOfTestItem | migration/tests/migrate_unit_tests.py:115-142 | for the test upload: no error, the file is gone, one record with id `a:1` |
| Migration.HandleUpload | migration/migrate.py:209-227 | one result: the error raised, or its record appended and the files left |
| Migration.UploadToDestination | migration/migrate.py:208-227 | the loop appends exactly the records of `UploadAll` and leaves its files |
| Migration.StripLeft | migration/migrate.py:237 | leading `str.isspace` characters removed (ASCII TAB to CR, FS to US, SPACE, NEL, NO-BREAK SPACE and the Unicode separators), the rest a suffix of the line starting with a non-space |
| Migration.StripRight | migration/migrate.py:237 | trailing `str.isspace` characters removed, the rest a prefix of the line ending with a non-space |
| Migration.Strip | migration/migrate.py:237 | `strip()`: no `str.isspace` character at either end, and empty iff the line is all whitespace |
| Migration.StripUnicodeSpaces | migration/migrate.py:237 | NO-BREAK SPACE and IDEOGRAPHIC SPACE around an id are stripped, as Python does |
| Migration.ProcessAll | migration/migrate.py:231-249 | the loop completes every id iff it ends normally |
| Migration.StopIgnoresLaterIds | migration/migrate.py:234-244 | an error ends the loop for good: more ids change nothing |
| Migration.HandleId | migration/migrate.py:237-241 | one id: download, upload, validate, in that order |
| Migration.ProcessNext | migration/migrate.py:236-241 | one id's records are added and the run either ends there or goes on |
| Migration.Process | migration/migrate.py:231-249 | the loop writes exactly the records of `ProcessAll` and reports its end |
| LegacyMigrate.DownloadAll | migrate.py:122-152 | on success one upload object per download result |
| LegacyMigrate.UnsuccessfulItemRaises | migrate.py:125-126 | an unsuccessful result raises the client error naming the id before any later result |
| LegacyMigrate.DownloadBuildsEach | migrate.py:128-150 | on success object i has the headers `build_swift_upload_object` builds from result i |
| LegacyMigrate.SameObjectAsMigration | migrate.py:128-150 | whenever migration/migrate.py accepts a result, this script builds the same object and file |
| LegacyMigrate.DownloadFromSource | migrate.py:113-152 | the download loop computes `DownloadAll` |
| LegacyMigrate.UploadOne | migrate.py:157-170 | raises iff failed with `object` or `for_object`, the error naming the builtin `id`; otherwise an uploaded file is removed |
| LegacyMigrate.FirstRaising | migrate.py:160-167 | the first result that raises: all before it pass |
| LegacyMigrate.UploadRemovesUploadedFiles | migrate.py:156-170 | the loop raises exactly at the first raising result, having removed the files of the uploads before it, and touches no other file |
| LegacyMigrate.UploadedPathsCons | migrate.py:169-170 | the uploaded paths of a prefix: the first result's path plus those of the rest |
| LegacyMigrate.UploadToDestination | migrate.py:156-170 | the loop computes `UploadAll` |
| LegacyMigrate.ProcessAll | migrate.py:174-187 | the loop completes every id iff it ends normally |
| LegacyMigrate.StopIgnoresLaterIds | migrate.py:177-187 | the `try` wraps the loop: an error ends it for good |
| LegacyMigrate.HandleId | migrate.py:180-184 | one id: download, upload, validate |
| LegacyMigrate.Process | migrate.py:174-187 | the loop computes `ProcessAll` |
| MigrationAudit.KeyLog | migration/migrate_audit.py:97-108 | one entry per non-excepted header, at error level iff the header is a problem |
| MigrationAudit.AuditLogAppend | migration/migrate_audit.py:97-108 | checking goes on after a problem: the log of a list is the logs of its parts in order |
| MigrationAudit.OneEntryPerCheckedKey | migration/migrate_audit.py:97-108 | exactly one entry per non-excepted source header |
| MigrationAudit.KeyLogHasError | migration/migrate_audit.py:98-108 | a header's entries hold an error iff it is a problem |
| MigrationAudit.ErrorLoggedIffRaised | migration/migrate_audit.py:99-106 | the audit logs an error iff the raising validator would raise |
| MigrationAudit.CwrcZipLoggedAsExpected | migration/migrate_audit.py:102-103 | the CWRC zip type is logged as expected, at info level |
| MigrationAudit.ValidateAll | migration/migrate_audit.py:93-108 | with both results no exception; a destination without headers raises iff some key is not excepted |
| MigrationAudit.Validate | migration/migrate_audit.py:79-108 | the logging validator computes `ValidateAll` |
| MigrationAudit.AuditAll | migration/migrate_audit.py:112-128 | one pause per completed id; the loop completes every id iff no exception ended it |
| MigrationAudit.ProblemsNeverStopTheAudit | migration/migrate_audit.py:99-106 | header problems never stop the loop: with all headers present, every id is audited |
| MigrationAudit.StopIgnoresLaterIds | migration/migrate_audit.py:115-128 | an exception ends the loop over the remaining ids for good |
| MigrationAudit.Process | migration/migrate_audit.py:112-128 | the loop computes `AuditAll` |

## Left out

- HTTP and session code (cookie login and caching, `Net::HTTP` plumbing): responses and attempt outcomes are inputs.
- Swift and swiftclient calls (`stat`, `download`, `upload`, `objects_detail`, `create_object`, `write`) are what they yield, as input. Segmented-object options are library behaviour.
- Configuration, environment and CLI parsing (`set_env`, YAML, `argparse`, `OptionParser`, `main`).
- MD5 and SHA-256 are input functions. The 4096-byte chunk loop of `file_checksum` only feeds them.
- `Time.parse` and `to_time` are an input function; timezone handling is not modelled.
- Floating-point size and rate statistics: the end of a success line is an input text. Sleeps are not modelled: the retry loop records its delays, and the audit loop counts its pauses.
- The MySQL inserts of ingestor.rb:80-88; the model ends where the method returns without a database.
- All logging and `print` output, except the report rows `puts` writes in cwrc_audit_report.rb and the log of migration/migrate_audit.py, which are those scripts' results.
- The reprocess list of cwrc_preserver.rb:50-53 keeps one entry of identical `'pid'` keys, unchomped. It is not modelled: the run takes its object list as input.
- Preserver.ProcessObject: models the evidently intended `deposit_file(name, content_type, container, timestamp:)`. The call at cwrc_preserver.rb:93 passes the container where ingestor.rb:43 expects the content type.
- Migration.Process: the `finally` at migration/migrate.py:247-249 is not modelled. `db_writer` is a `csv.DictWriter`, which has no `flush`, so `db_writer.flush()` raises `AttributeError` on every run: after a normal end, after a caught `ClientException`, and in place of any `SwiftError` or `KeyError` already propagating. `os.fsync()` is never reached. `Ending` (and so `Migration.ProcessAll`) describes how the `try` body ends, not what `process` finally raises.
- LegacyMigrate.UploadOne: the `segment_index` argument of the segmented-object error is dropped. The error carries message, container and object.
- Reconcile.Reconcile: an exception from the Swift lookup is not modelled. An unrescued lookup error would end the run like a failed comparison.
- `validate` in every script: each `stat` call yields one result for the single id. In migration/migrate.py and migrate.py the results always carry headers; only the audit models a result without them, as the `KeyError` that ends its loop.
- Python's `repr` quoting of the id list covers plain ids only (`['a:1']`); an id holding a quote would print differently.
- AuditReport.CollectListing: the loop of cwrc_audit_report.rb:97-99 has no exit other than reaching the reported count. A page that adds no new key while the count is below it makes the script loop for ever. The model's pages are a finite input, so it stops with `complete` false when they run out; the non-termination is a fact about the source, not modelled.
- AuditReport.CollectListing: each page is an input, not a function of the marker `swift_objs.keys.last`; which page Swift returns for a marker is not modelled.
- AuditReport.LeftoverRows: the `'d'` rows are emitted in an order the model picks. cwrc_audit_report.rb:143-146 emits them in the hash's insertion order; the model promises the set of rows, one per leftover key, not their order.
- The cwrc_preserver_test.rb network cassettes are not part of this model.
