# Clowder archival extractors, modelled in Dafny

Clowder hands its extractors "archive file X" and "unarchive file X" messages.
Two extractors act on them:

- The S3 archiver (`archival-s3/s3-archival.py`) looks up the file's metadata
  record. It then copies the file's S3 object onto itself with a new storage
  class: REDUCED_REDUNDANCY to archive, STANDARD to unarchive.
- The disk archiver (`archival-disk/disk-archival.py`) looks up the record and
  moves the file from the upload directory (the *archive source*) to the
  archive directory (the *archive target*), then tries to report the new status.

The model has four modules:

- `Python` (python.dfy): the Python behaviour the code relies on. Exceptions
  are values (`Result`, `Exception`). The module also models `str.find`, `in`
  on strings, `str.split`, indexing the split list, and the POSIX
  `os.path.isabs` and `os.path.dirname`.
- `Clowder` (clowder.dfy): the message and the metadata reply, plus the tests
  both `process_message` methods share. These are the action filter, the
  operation lookup, the Content-Type test and `r.json()`.
- `S3Archival` (s3_archival.dfy): the configuration check, the copy-in-place,
  `process_message` and `list_contains_key`.
- `DiskArchival` (disk_archival.dfy): the configuration check, path
  derivation, `moveFile`, `archive`, `unarchive` and `process_message`.

The outside world is an `Environment` object in each module. It holds:

- the S3 objects (a map from (bucket, key) to body, metadata and storage
  class), or the disk (a map from path to contents, plus a set of directories);
- the trace of calls made so far;
- the world's fixed answers: the metadata endpoint's reply for each URL, the
  objects S3 refuses to rewrite, the paths where I/O fails, and
  `os.path.abspath`.

Each `process_message`, `archive`, `moveFile` and `change_storage_class` is a
method that updates the environment. Its postcondition equates the outcome,
the calls appended to the trace and the new state with a pure function
(`Handle`, `ArchiveRun`, `MoveFileRun`, `AfterClassChange`). The lemmas state
the properties of those functions: which messages cause no call, the order of
the calls, what changes in storage, and round trips.

The code is modelled as written, defects included:

- the disk unarchive can never move a file;
- the disk archive raises after its move instead of reporting the status;
- the S3 extractor never reports a status;
- the S3 extractor swallows the ClientErrors of a storage-class change.

The model follows the code as written, which differs from what an archiver
is usually expected to do:

- No variant reads the file's current status before acting, so there is no
  idempotency check. Archiving twice repeats every request (`S3Archival.ArchiveTwice`).
- The disk variant does not check that the file lies under the archive
  source. It only needs the source path to occur somewhere in the file path;
  otherwise `split(...)[1]` raises IndexError.
- The storage classes are fixed constants, not configuration. The region is
  never validated, and every S3 configuration error exits with code 1.
- For an unrecognised operation, the disk variant still makes the metadata
  request first. For an unarchive message, the S3 variant checks neither the
  resource type nor the Content-Type.
- A ClientError from the S3 copy is logged and ignored, not reported. An
  empty object key is different: botocore's ParamValidationError is not a
  ClientError and propagates out of `process_message`.

## Model

| member | source | states |
|---|---|---|
| Python.Find | archival-s3/s3-archival.py:148 | the index found is an occurrence of the substring and no earlier index is one; None means no index is |
| Python.Contains | archival-s3/s3-archival.py:148 | `sub in s` is true exactly when `sub` occurs at some index of `s` |
| Python.Split | archival-disk/disk-archival.py:71 | `s.split(sep)` raises ValueError exactly for an empty separator, else yields at least one piece |
| Python.JoinPieces | archival-disk/disk-archival.py:59 | joining the pieces of a split with the separator gives back the string |
| Python.PiecesAvoidSeparator | archival-disk/disk-archival.py:59 | no piece of a split contains the separator |
| Python.SecondPiece | archival-disk/disk-archival.py:59 | `s.split(sep)[1]` succeeds exactly when `sep` occurs in `s`, else raises IndexError; it is the text after the first occurrence, up to the first occurrence in that rest (all of the rest when there is none) |
| Python.SplitItem | archival-disk/disk-archival.py:59 | `s.split(sep)[index]`, with ValueError for an empty separator and IndexError for a short list; no contract of its own, `SecondPiece` states its value at index 1 |
| Python.SplitRooted | archival-disk/disk-archival.py:59 | a path made of the root and a suffix without the root splits into "" and the suffix |
| Python.Dirname | archival-disk/disk-archival.py:84 | `os.path.dirname` is a prefix of the path, empty exactly when the path has no slash |
| Python.IsAbs | archival-disk/disk-archival.py:44 | POSIX `os.path.isabs` (also line 52): the path starts with '/'; a definition, used by `DiskArchival.CheckConfig` |
| Clowder.Accepts | archival-s3/s3-archival.py:114-116 | the handler goes on exactly when the action is missing, empty or 'manual-submission' (the disk variant's lines 89-91 are the same) |
| Clowder.OperationOf | archival-s3/s3-archival.py:119-120 | reading the operation raises AttributeError exactly when the user parameters are missing, else yields the optional operation |
| Clowder.MetadataUrl | archival-s3/s3-archival.py:125 | the file-record URL `<host>api/files/<id>/metadata?key=<key>` (also s3 line 140 and disk line 99); a definition, the first call of every lookup in the `Handle` lemmas |
| Clowder.DeclaresJson | archival-s3/s3-archival.py:148 | the Content-Type test raises TypeError exactly when the header is missing, else is true exactly when 'json' occurs in it |
| Clowder.DecodeJson | archival-s3/s3-archival.py:128 | `r.json()` yields exactly the body's record when the body is JSON, else raises JsonDecodeError |
| S3Archival.CheckConfig | archival-s3/s3-archival.py:52-62 | ready exactly when access key, secret key and bucket name are non-empty; otherwise exit code 1 naming the first empty one in that order; the region plays no part |
| S3Archival.Start | archival-s3/s3-archival.py:46-62 | an extractor holding the given settings exists exactly when the configuration check passes |
| S3Archival.CopyResult | archival-s3/s3-archival.py:101-107 | S3's server-side copy fails exactly when the source is missing or the target is refused; otherwise the target holds the source's body, the new class and (with 'COPY') the source's metadata, and every other object is kept |
| S3Archival.AfterClassChange | archival-s3/s3-archival.py:93-110 | the copy onto itself changes only the object's storage class, keeping its body and metadata and every other object; if S3 refuses, nothing changes |
| S3Archival.GetObject | archival-s3/s3-archival.py:76-84 | the object is named by the configured bucket and the record's key; a missing key raises ValueError |
| S3Archival.Retier | archival-s3/s3-archival.py:128-130 | returns normally exactly when the body is JSON with a non-empty 'object-key'; then it sends one self-copy and leaves the class-changed store; otherwise it sends nothing and the store is unchanged |
| S3Archival.Handle | archival-s3/s3-archival.py:113-168 | `process_message` as a function of the store and the message; no contract of its own, the lemmas below state its properties |
| S3Archival.Environment.GetMetadata | archival-s3/s3-archival.py:127 | the metadata GET is appended to the trace and the endpoint's reply is returned, with S3 unchanged |
| S3Archival.Environment.Copy | archival-s3/s3-archival.py:101-107 | an empty key is rejected before sending (nothing appended, nothing changed); otherwise the copy request is appended and S3 applies `CopyResult`, or answers a ClientError and keeps the store |
| S3Archival.S3Archiver.ChangeStorageClass | archival-s3/s3-archival.py:93-110 | for a non-empty key: one copy with the same bucket and key as source and target, directive 'COPY' and class STANDARD by default, after which the store is the class-changed store (or as it was on a ClientError) and the method returns normally; for an empty key it raises ParamValidationError with nothing sent |
| S3Archival.S3Archiver.RetierFromReply | archival-s3/s3-archival.py:128-130 | decode the reply, name the object and change its class, as `Retier` describes |
| S3Archival.S3Archiver.ProcessMessage | archival-s3/s3-archival.py:113-168 | outcome, appended calls and new store are those of `Handle` on the old store |
| S3Archival.S3Archiver.ListContainsKey | archival-s3/s3-archival.py:170-179 | true exactly when some item matches and every earlier item has the field with another value; KeyError exactly when the first item without the field comes before any match; false exactly when every item has the field and none matches (so false on the empty list); when every item has the field, true exactly when some item matches |
| S3Archival.IgnoresOtherActions | archival-s3/s3-archival.py:114-116 | a non-empty action other than 'manual-submission' returns with no call and no change |
| S3Archival.MissingParametersRaiseFirst | archival-s3/s3-archival.py:119-120 | missing user parameters raise AttributeError before any call |
| S3Archival.UnarchiveSetsStandard | archival-s3/s3-archival.py:121-130 | unarchive makes exactly one metadata GET, then sets the returned key's class to STANDARD, for any resource type and any Content-Type; a non-JSON body, a missing key or an empty key raises after the GET |
| S3Archival.ArchiveNeedsFileAndJson | archival-s3/s3-archival.py:137-165 | archive looks up only file resources; a copy happens exactly when the resource is a file and the reply declares JSON and carries a non-empty object key; that copy is the second call, in place, to REDUCED_REDUNDANCY; for a non-empty key the run is exactly the GET, the self-copy of `(bucket, key)` with 'COPY', a normal return and the class-changed store; a missing Content-Type raises TypeError, a non-JSON body JsonDecodeError, a missing key ValueError and an empty key ParamValidationError, each after the GET alone with the store unchanged; every run without a copy leaves the store unchanged |
| S3Archival.OtherOperationsDoNothing | archival-s3/s3-archival.py:166-168 | any other operation, or none, makes no call and changes nothing |
| S3Archival.NeverPostsStatus | archival-s3/s3-archival.py:132-135 | no run posts a status update to Clowder (the calls at lines 157-159 are commented out too) |
| S3Archival.OnlyStorageClassChanges | archival-s3/s3-archival.py:93-107 | every run keeps the set of objects and every object's body and metadata |
| S3Archival.RetierKeepsContents | archival-s3/s3-archival.py:128-130 | one decode-and-retier step keeps every object's body and metadata and the set of objects |
| S3Archival.HandleStore | archival-s3/s3-archival.py:113-168 | a run leaves the store as it was, or as the STANDARD or the REDUCED_REDUNDANCY class change of the looked-up object leaves it |
| S3Archival.RefusedChangeIsSwallowed | archival-s3/s3-archival.py:109-110 | when S3 answers the copy with a ClientError (object missing or not writable), the handler still returns normally and the store is unchanged |
| S3Archival.ArchiveThenUnarchive | archival-s3/s3-archival.py:121-153 | archiving a writable STANDARD object changes the store, and unarchiving it then restores the store exactly |
| S3Archival.ArchiveTwice | archival-s3/s3-archival.py:137-153 | a second archive of the same file repeats the same calls and leaves the same store: nothing checks the current status |
| DiskArchival.CheckConfig | archival-disk/disk-archival.py:41-54 | ready exactly when both directories are absolute; source checked before target; exit 1 for an empty directory, exit 2 for a non-absolute one |
| DiskArchival.Start | archival-disk/disk-archival.py:37-54 | an extractor holding both directories exists exactly when both checks pass |
| DiskArchival.MakeDirsResult | archival-disk/disk-archival.py:84 | making the directory succeeds exactly when the path is non-empty, not a file and free of I/O errors; the directory then exists and no file changes |
| DiskArchival.MoveResult | archival-disk/disk-archival.py:85 | a successful move puts the source's contents at the destination and removes the source (unless both are the same path), with no other entry changed; it succeeds exactly when the source is a file, the destination is not a directory, its parent exists and no I/O error occurs |
| DiskArchival.MoveFileRun | archival-disk/disk-archival.py:82-85 | the destination's directory is made first and the move is attempted exactly when that succeeds (two calls if and only if makedirs succeeded); a failure leaves every file as it was; a success leaves the parent directory existing, the former source contents at the destination, the source gone and all other files unchanged |
| DiskArchival.Environment.GetMetadata | archival-disk/disk-archival.py:101 | the metadata GET is appended to the trace and the endpoint's reply is returned, with the disk unchanged |
| DiskArchival.Environment.MakeDirectories | archival-disk/disk-archival.py:84 | the makedirs call is appended to the trace and the disk follows `MakeDirsResult` |
| DiskArchival.Environment.MovePath | archival-disk/disk-archival.py:85 | the move call is appended to the trace and the disk follows `MoveResult` |
| DiskArchival.DiskArchiver.MoveFile | archival-disk/disk-archival.py:82-85 | outcome, appended calls and new disk are those of `MoveFileRun` |
| DiskArchival.RelocationPaths | archival-disk/disk-archival.py:59-61 | a missing filepath raises AttributeError, an empty root ValueError and a filepath without the root IndexError; a filepath that contains a non-empty root always succeeds; on success both paths are `abspath` of a root plus `filepath.split(fromRoot)[1]`, a suffix free of the root (that a failed derivation makes no call is `ArchiveRejectsForeignPath`) |
| DiskArchival.MoveForRecord | archival-disk/disk-archival.py:59-64 | the derived paths, then `file['id']` (KeyError when missing), then `moveFile`; a definition, whose runs `ArchiveShape` and `IntendedStep` describe |
| DiskArchival.ArchiveRun | archival-disk/disk-archival.py:58-67 | `archive(file)` as written; no contract of its own, `ArchiveShape` and `ArchiveRaisesAfterMove` state its properties |
| DiskArchival.UnarchiveRun | archival-disk/disk-archival.py:70-79 | `unarchive(file)` as written; no contract of its own, `UnarchiveNeverMoves` states its properties |
| DiskArchival.Handle | archival-disk/disk-archival.py:88-120 | `process_message` as a function of the disk and the message; no contract of its own, the lemmas below state its properties |
| DiskArchival.RelocatesRootedPath | archival-disk/disk-archival.py:59-61 | a filepath made of the root and a suffix free of the root relocates by exactly that suffix |
| DiskArchival.DiskArchiver.Archive | archival-disk/disk-archival.py:58-67 | outcome, appended calls and new disk are those of `ArchiveRun` |
| DiskArchival.DiskArchiver.Unarchive | archival-disk/disk-archival.py:70-79 | the outcome is that of `UnarchiveRun`: it always raises, and it touches nothing |
| DiskArchival.DiskArchiver.ProcessMessage | archival-disk/disk-archival.py:88-120 | outcome, appended calls and new disk are those of `Handle` on the old disk |
| DiskArchival.IgnoresOtherActions | archival-disk/disk-archival.py:89-91 | a non-empty action other than 'manual-submission' returns with no call and no change |
| DiskArchival.IgnoresOtherResources | archival-disk/disk-archival.py:97-120 | a resource other than a file causes no metadata GET and no move |
| DiskArchival.StopsAfterLookup | archival-disk/disk-archival.py:97-117 | for a file, the GET comes first; a reply not declaring JSON returns, a missing Content-Type or undecodable body raises, and an unrecognised operation returns, each with the GET as the only call |
| DiskArchival.MovesOnlyAfterChecks | archival-disk/disk-archival.py:97-114 | a makedirs or move call happens only for an accepted archive message about a file whose reply declares JSON, after the GET, with makedirs of the destination's parent immediately before the move |
| DiskArchival.FilesChangeOnlyByMove | archival-disk/disk-archival.py:82-85 | the files change only through the run's one move, the third call: its destination then holds the source's former contents, the source is gone (unless it is the destination), and every other file is kept with its contents; no path becomes both file and directory |
| DiskArchival.ArchiveRejectsForeignPath | archival-disk/disk-archival.py:59 | `archive` on a file path that does not contain the archive source raises IndexError with no call and the disk unchanged |
| DiskArchival.ForeignPathRaisesBeforeMove | archival-disk/disk-archival.py:97-114 | an accepted archive message about such a file raises IndexError right after the metadata GET, which is the only call, and leaves the disk unchanged |
| DiskArchival.NeverPostsStatus | archival-disk/disk-archival.py:64-67 | no run of `process_message` posts a status update |
| DiskArchival.UnarchiveMessageNeverMoves | archival-disk/disk-archival.py:109-111 | an unarchive message leaves the disk unchanged, makes at most the GET, and raises once a JSON record was read |
| DiskArchival.ArchiveShape | archival-disk/disk-archival.py:58-67 | `archive` as written always raises and makes at most a makedirs of the destination's parent followed by the move; when the files change, they differ by exactly that move (destination holds the source's contents, source gone, every other file kept); files and directories stay apart |
| DiskArchival.ArchiveRaisesAfterMove | archival-disk/disk-archival.py:64-67 | `archive` never returns normally and never posts; after a successful move it raises NameError, with the move done |
| DiskArchival.UnarchiveNeverMoves | archival-disk/disk-archival.py:71-72 | `unarchive` raises with no call and no change; with a filepath and a non-empty target it raises TypeError |
| DiskArchival.IntendedArchiveRun | archival-disk/disk-archival.py:58-67 | the corrected archive step; no contract of its own, `IntendedArchivePostsAfterMove`, `IntendedStep` and `IntendedRoundTrip` state its properties |
| DiskArchival.IntendedUnarchiveRun | archival-disk/disk-archival.py:70-79 | the corrected unarchive step (roots swapped, item 1 of the split); no contract of its own, `IntendedRoundTrip` states its properties |
| DiskArchival.IntendedArchivePostsAfterMove | archival-disk/disk-archival.py:64-67 | corrected archive: the status is posted exactly when the run returns, which is exactly when `moveFile` returned, and then it is the last call after makedirs and a move that moved the file and nothing else (`MovedOnly`); a failure posts nothing and leaves every file as it was |
| DiskArchival.IntendedStep | archival-disk/disk-archival.py:58-67 | one corrected step on a rooted path makes the destination's directory, moves the file and then posts |
| DiskArchival.IntendedRoundTrip | archival-disk/disk-archival.py:58-79 | with corrected steps, archiving a file and unarchiving it from its archived path each move once and post once after the move, and together restore every file |

## Left out

- HTTP: each request to Clowder is a trace entry. The GET's answer is the
  environment's `reply` function: Content-Type and decoded record. Connection
  errors and timeouts of `requests` are not modelled.
- boto3: session and resource construction are left out, and an S3 object is
  just a (bucket, key) pair. Which copies S3 refuses, besides a missing
  source, is an input (`denied`). The managed multipart copy is not modelled.
- S3Archival.Environment.Copy: of the failures that are not ClientErrors, only
  the empty-key ParamValidationError is modelled. Connection failures
  (`EndpointConnectionError` and other `BotoCoreError`s) would propagate out
  of `process_message`; the model has no input for them and lets every
  request with a non-empty key reach S3.
- `get_object`'s `except ClientError` branch is not modelled, because naming
  an object makes no request. `S3Archival.GetObject` models only the
  ValueError for a missing key.
- `test_upload` is test scaffolding and is never called.
- Logging, `print`, environment-variable defaults, argparse and the
  `Extractor` host (`start()`, message delivery) are left out. Configuration
  values are inputs to `Start`.
- `os.path.abspath` is the environment's uninterpreted `abspath` function.
  Its normalisation of `..` and duplicate slashes is not modelled.
- `os.path.isabs` is the POSIX rule: the path starts with '/'.
- DiskArchival.MakeDirsResult: records only the named directory, not its
  missing ancestors. An I/O failure (permissions, full disk) is an input
  (`ioErrors`).
- DiskArchival.MoveResult: a destination that is an existing directory is
  treated as a failure. `shutil.move` would move the file inside that
  directory. A source that is a directory (not a file) always fails, where
  `shutil.move` would move the whole tree. Cross-device fallback and
  permissions are not modelled beyond success or failure.
- A resource without `type` or `id` (KeyError) is not modelled: `Resource` always has both.
- JSON bodies that are not objects, and operation values that are not
  strings, are not modelled.
- Concurrency between requests for the same file is left out. The code has
  no guard and no state shared across requests.

## Findings

| source | as written | input that shows it | evidently intended | confidence | as-written member | corrected member |
|---|---|---|---|---|---|---|
| archival-disk/disk-archival.py:67 | the status request formats `host`, `resource` and `secret_key`, which are not defined inside `archive`, so it raises NameError after the file has moved | an accepted archive message for a file whose path contains the archive source and whose move succeeds | post `api/files/<id>/archive` with the message's host, resource id and key once the move has returned | high; not executed | DiskArchival.ArchiveRaisesAfterMove | DiskArchival.IntendedArchivePostsAfterMove |
| archival-disk/disk-archival.py:71-72 | `split(self.archive_target)` keeps the whole list, so `archive_target + path_suffix` raises TypeError before any move | any unarchive message whose record has a filepath | take item 1 of the split, as `archive` does, move the file back under the archive source and post `api/files/<id>/unarchive` | high; not executed | DiskArchival.UnarchiveNeverMoves | DiskArchival.IntendedRoundTrip |

`DiskArchival.Handle` and `DiskArchiver.ProcessMessage` model the code as
written. The corrected steps `IntendedArchiveRun` and `IntendedUnarchiveRun`
share their path derivation and move (`RelocationPaths`, `MoveForRecord`,
`MoveFileRun`) with the as-written steps. They differ only where the two
defects are.
