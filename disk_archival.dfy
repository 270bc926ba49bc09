/** The disk archival extractor: archiving a file moves it from Clowder's
    upload directory (the archive source) to the archive directory (the
    archive target), keeping its path below the root; unarchiving is meant
    to move it back. */
module DiskArchival {
  import opened Python
  import opened Clowder

  /** The settings `__init__` checks, in the order it checks them. */
  datatype ConfigField = ArchiveSource | ArchiveTarget

  /** `__init__`'s checks: the archive source, then the archive target, must
      each be non-empty (else exit code 1) and absolute (else exit code 2). */
  function CheckConfig(archiveSource: string, archiveTarget: string): (r: Startup<ConfigField>)
    ensures r.Ready? <==> IsAbs(archiveSource) && IsAbs(archiveTarget)
    ensures r == Exit(ArchiveSource, 1) <==> archiveSource == ""
    ensures r == Exit(ArchiveSource, 2) <==> archiveSource != "" && !IsAbs(archiveSource)
    ensures r == Exit(ArchiveTarget, 1) <==> IsAbs(archiveSource) && archiveTarget == ""
    ensures r == Exit(ArchiveTarget, 2) <==> IsAbs(archiveSource) && archiveTarget != "" && !IsAbs(archiveTarget)
    ensures r.Exit? ==> r.code == 1 || r.code == 2
  {
    if archiveSource == "" then Exit(ArchiveSource, 1)
    else if !IsAbs(archiveSource) then Exit(ArchiveSource, 2)
    else if archiveTarget == "" then Exit(ArchiveTarget, 1)
    else if !IsAbs(archiveTarget) then Exit(ArchiveTarget, 2)
    else Ready
  }

  type Bytes = seq<bv8>

  /** The file system: the contents of every file, and the directories. */
  datatype Disk = Disk(files: map<string, Bytes>, dirs: set<string>)

  /** No path is both a file and a directory. */
  predicate WellFormed(disk: Disk)
  {
    forall p :: p in disk.files ==> p !in disk.dirs
  }

  /** The requests and system calls the extractor makes, in order. */
  datatype Call =
    | MetadataGet(url: string)
    | MakeDirs(path: string)
    | Move(source: string, dest: string)
    | StatusPost(url: string)

  /** `os.makedirs(path, exist_ok=True)`: fails on the empty path, on a path
      that is a file, and on an I/O error. */
  function MakeDirsResult(disk: Disk, ioErrors: set<string>, path: string): (r: Result<Disk>)
    ensures r.Ok? <==> path != "" && path !in ioErrors && path !in disk.files
    ensures r.Ok? ==> r.value.files == disk.files && path in r.value.dirs && disk.dirs <= r.value.dirs
    ensures r.Ok? && WellFormed(disk) ==> WellFormed(r.value)
    ensures r.Raise? ==> r.exception == OSError
  {
    if path == "" || path in ioErrors || path in disk.files then Raise(OSError)
    else Ok(disk.(dirs := disk.dirs + {path}))
  }

  /** The parent directory of `path` exists, or `path` has no directory part. */
  predicate ParentExists(disk: Disk, path: string)
  {
    Dirname(path) == "" || Dirname(path) in disk.dirs
  }

  /** `shutil.move(source, dest)` for a file: the contents go to `dest`
      (replacing a file there) and `source` disappears; moving a path onto
      itself changes nothing. It fails when `source` is not a file, when
      `dest` is a directory or has no parent directory, and on an I/O error. */
  function MoveResult(disk: Disk, ioErrors: set<string>, source: string, dest: string): (r: Result<Disk>)
    ensures r.Ok? <==> source in disk.files && source !in ioErrors && dest !in ioErrors &&
                       dest !in disk.dirs && ParentExists(disk, dest)
    ensures r.Raise? ==> r.exception == OSError
    ensures r.Ok? ==> r.value.dirs == disk.dirs && dest in r.value.files && r.value.files[dest] == disk.files[source]
    ensures r.Ok? && source != dest ==> source !in r.value.files
    ensures r.Ok? ==> forall p :: p != source && p != dest ==>
                        (p in r.value.files <==> p in disk.files) &&
                        (p in disk.files ==> r.value.files[p] == disk.files[p])
    ensures r.Ok? && WellFormed(disk) ==> WellFormed(r.value)
  {
    if source !in disk.files || source in ioErrors || dest in ioErrors ||
       dest in disk.dirs || !ParentExists(disk, dest) then Raise(OSError)
    else if source == dest then Ok(disk)
    else Ok(disk.(files := disk.files[dest := disk.files[source]] - {source}))
  }

  /** One run of a step of the extractor: how it ends, the calls it made,
      and the file system afterwards. */
  datatype Run = Run(outcome: Outcome, calls: seq<Call>, disk: Disk)

  /** `moveFile(source, dest)`: create the destination's directory, then move.
      Nothing is moved unless the directory could be made, and a successful
      run leaves the former contents of `source` at `dest`, removes `source`,
      and leaves every other file as it was. */
  function MoveFileRun(disk: Disk, ioErrors: set<string>, source: string, dest: string): (r: Run)
    ensures |r.calls| >= 1 && r.calls[0] == MakeDirs(Dirname(dest))
    ensures r.calls == [MakeDirs(Dirname(dest))] || r.calls == [MakeDirs(Dirname(dest)), Move(source, dest)]
    ensures |r.calls| == 2 <==> MakeDirsResult(disk, ioErrors, Dirname(dest)).Ok?
    ensures r.outcome.Raised? ==> r.disk.files == disk.files && r.outcome.exception == OSError
    ensures r.outcome == Returned ==>
      r.calls == [MakeDirs(Dirname(dest)), Move(source, dest)] &&
      Dirname(dest) in r.disk.dirs && disk.dirs <= r.disk.dirs &&
      source in disk.files && dest in r.disk.files && r.disk.files[dest] == disk.files[source] &&
      (source != dest ==> source !in r.disk.files) &&
      forall p :: p != source && p != dest ==>
        (p in r.disk.files <==> p in disk.files) && (p in disk.files ==> r.disk.files[p] == disk.files[p])
    ensures WellFormed(disk) ==> WellFormed(r.disk)
  {
    var parent := Dirname(dest);
    match MakeDirsResult(disk, ioErrors, parent)
    case Raise(e) => Run(Raised(e), [MakeDirs(parent)], disk)
    case Ok(made) =>
      match MoveResult(made, ioErrors, source, dest)
      case Raise(e) => Run(Raised(e), [MakeDirs(parent), Move(source, dest)], made)
      case Ok(moved) => Run(Returned, [MakeDirs(parent), Move(source, dest)], moved)
  }

  /** `path_suffix = filepath.split(fromRoot)[1]`, then
      `abspath(fromRoot + path_suffix)` and `abspath(toRoot + path_suffix)`:
      both paths are built from the same suffix, and the derivation fails
      when the file path is missing or does not contain `fromRoot`. */
  function RelocationPaths(filepath: Option<string>, fromRoot: string, toRoot: string,
                           abspath: string -> string): (r: Result<(string, string)>)
    ensures filepath.None? ==> r == Raise(AttributeError("split"))
    ensures filepath.Some? && fromRoot == "" ==> r == Raise(ValueError)
    ensures filepath.Some? && fromRoot != "" && !Contains(filepath.value, fromRoot) ==> r == Raise(IndexError)
    ensures filepath.Some? && fromRoot != "" && Contains(filepath.value, fromRoot) ==> r.Ok?
    ensures r.Ok? ==> filepath.Some? && fromRoot != "" && Contains(filepath.value, fromRoot)
    ensures r.Ok? ==> exists suffix :: !Contains(suffix, fromRoot) &&
                        r.value == (abspath(fromRoot + suffix), abspath(toRoot + suffix))
    ensures r.Ok? ==> var suffix := SplitItem(filepath.value, fromRoot, 1).value;
                      r.value == (abspath(fromRoot + suffix), abspath(toRoot + suffix))
  {
    match filepath
    case None => Raise(AttributeError("split"))
    case Some(path) =>
      if fromRoot == "" then Raise(ValueError)
      else
        SecondPiece(path, fromRoot);
        match SplitItem(path, fromRoot, 1)
        case Raise(e) => Raise(e)
        case Ok(suffix) => Ok((abspath(fromRoot + suffix), abspath(toRoot + suffix)))
  }

  /** A file path made of the root and a suffix with no further occurrence of
      the root is relocated by that suffix. */
  lemma RelocatesRootedPath(fromRoot: string, toRoot: string, suffix: string, abspath: string -> string)
    requires fromRoot != "" && !Contains(suffix, fromRoot)
    ensures RelocationPaths(Some(fromRoot + suffix), fromRoot, toRoot, abspath) ==
            Ok((abspath(fromRoot + suffix), abspath(toRoot + suffix)))
  {
    SplitRooted(fromRoot, suffix);
  }

  /** Derive the paths, read `file['id']` for the log line, then move. */
  function MoveForRecord(disk: Disk, ioErrors: set<string>, paths: Result<(string, string)>, record: FileRecord): (r: Run)
  {
    match paths
    case Raise(e) => Run(Raised(e), [], disk)
    case Ok(p) =>
      if record.id.None? then Run(Raised(KeyError("id")), [], disk)
      else MoveFileRun(disk, ioErrors, p.0, p.1)
  }

  /** `archive(file)` as written: after a successful move the status request
      formats `host`, which is not defined in `archive`, so it raises
      NameError and no request goes out. */
  function ArchiveRun(disk: Disk, ioErrors: set<string>, abspath: string -> string,
                      archiveSource: string, archiveTarget: string, record: FileRecord): (r: Run)
  {
    var moved := MoveForRecord(disk, ioErrors, RelocationPaths(record.filepath, archiveSource, archiveTarget, abspath), record);
    if moved.outcome.Raised? then moved
    else Run(Raised(NameError("host")), moved.calls, moved.disk)
  }

  /** `unarchive(file)` as written: the whole split list is kept, so
      `archive_target + path_suffix` adds a list to a string and raises
      TypeError before anything is moved. */
  function UnarchiveRun(disk: Disk, archiveTarget: string, record: FileRecord): (r: Run)
  {
    match record.filepath
    case None => Run(Raised(AttributeError("split")), [], disk)
    case Some(path) =>
      match Split(path, archiveTarget)
      case Raise(e) => Run(Raised(e), [], disk)
      case Ok(pieces) => Run(Raised(TypeError), [], disk)
  }

  /** `process_message` as a function of the file system, the services'
      answers and the message. */
  function Handle(disk: Disk, ioErrors: set<string>, abspath: string -> string, reply: string -> MetadataResponse,
                  archiveSource: string, archiveTarget: string,
                  conn: Connection, resource: Resource, parameters: Parameters): (r: Run)
  {
    if !Accepts(parameters.action) then Run(Returned, [], disk)
    else
      match OperationOf(parameters)
      case Raise(e) => Run(Raised(e), [], disk)
      case Ok(operation) =>
        if resource.kind != FileKind then Run(Returned, [], disk)
        else
          var url := MetadataUrl(conn, resource.id);
          var get := [MetadataGet(url)];
          match DeclaresJson(reply(url))
          case Raise(e) => Run(Raised(e), get, disk)
          case Ok(false) => Run(Returned, get, disk)
          case Ok(true) =>
            match DecodeJson(reply(url))
            case Raise(e) => Run(Raised(e), get, disk)
            case Ok(record) =>
              if operation == Some(UnarchiveOperation) then
                var rest := UnarchiveRun(disk, archiveTarget, record);
                Run(rest.outcome, get + rest.calls, rest.disk)
              else if operation == Some(ArchiveOperation) then
                var rest := ArchiveRun(disk, ioErrors, abspath, archiveSource, archiveTarget, record);
                Run(rest.outcome, get + rest.calls, rest.disk)
              else Run(Returned, get, disk)
  }

  /** The services the extractor talks to: the file system, the metadata
      endpoint's replies, and the calls made to either so far. */
  class Environment {
    var disk: Disk
    var calls: seq<Call>
    /** The paths on which the operating system reports an I/O error. */
    const ioErrors: set<string>
    /** `os.path.abspath`, which depends on the working directory. */
    const abspath: string -> string
    /** What the metadata endpoint answers for each URL. */
    const reply: string -> MetadataResponse

    constructor (disk: Disk, ioErrors: set<string>, abspath: string -> string, reply: string -> MetadataResponse)
      ensures this.disk == disk && this.ioErrors == ioErrors && this.abspath == abspath && this.reply == reply
      ensures calls == []
    {
      this.disk := disk;
      this.ioErrors := ioErrors;
      this.abspath := abspath;
      this.reply := reply;
      calls := [];
    }

    /** `requests.get(url)`. */
    method GetMetadata(url: string) returns (response: MetadataResponse)
      modifies this
      ensures response == reply(url)
      ensures calls == old(calls) + [MetadataGet(url)] && disk == old(disk)
    {
      calls := calls + [MetadataGet(url)];
      response := reply(url);
    }

    /** `os.makedirs(path, exist_ok=True)`. */
    method MakeDirectories(path: string) returns (outcome: Outcome)
      modifies this
      ensures calls == old(calls) + [MakeDirs(path)]
      ensures var r := MakeDirsResult(old(disk), ioErrors, path);
              (outcome == Returned <==> r.Ok?) &&
              (r.Ok? ==> disk == r.value) && (r.Raise? ==> disk == old(disk) && outcome == Raised(r.exception))
    {
      calls := calls + [MakeDirs(path)];
      var r := MakeDirsResult(disk, ioErrors, path);
      if r.Ok? {
        disk := r.value;
        outcome := Returned;
      } else {
        outcome := Raised(r.exception);
      }
    }

    /** `shutil.move(source, dest)`. */
    method MovePath(source: string, dest: string) returns (outcome: Outcome)
      modifies this
      ensures calls == old(calls) + [Move(source, dest)]
      ensures var r := MoveResult(old(disk), ioErrors, source, dest);
              (outcome == Returned <==> r.Ok?) &&
              (r.Ok? ==> disk == r.value) && (r.Raise? ==> disk == old(disk) && outcome == Raised(r.exception))
    {
      calls := calls + [Move(source, dest)];
      var r := MoveResult(disk, ioErrors, source, dest);
      if r.Ok? {
        disk := r.value;
        outcome := Returned;
      } else {
        outcome := Raised(r.exception);
      }
    }
  }

  class DiskArchiver {
    const archiveSource: string
    const archiveTarget: string

    constructor (archiveSource: string, archiveTarget: string)
      requires CheckConfig(archiveSource, archiveTarget).Ready?
      ensures this.archiveSource == archiveSource && this.archiveTarget == archiveTarget
    {
      this.archiveSource := archiveSource;
      this.archiveTarget := archiveTarget;
    }

    /** `moveFile(source, dest)`. */
    method MoveFile(env: Environment, source: string, dest: string) returns (outcome: Outcome)
      modifies env
      ensures var run := MoveFileRun(old(env.disk), env.ioErrors, source, dest);
              outcome == run.outcome && env.calls == old(env.calls) + run.calls && env.disk == run.disk
    {
      outcome := env.MakeDirectories(Dirname(dest));
      if outcome.Raised? {
        return;
      }
      outcome := env.MovePath(source, dest);
    }

    /** `archive(file)`. */
    method Archive(env: Environment, file: FileRecord) returns (outcome: Outcome)
      modifies env
      ensures var run := ArchiveRun(old(env.disk), env.ioErrors, env.abspath, archiveSource, archiveTarget, file);
              outcome == run.outcome && env.calls == old(env.calls) + run.calls && env.disk == run.disk
    {
      var paths := RelocationPaths(file.filepath, archiveSource, archiveTarget, env.abspath);
      if paths.Raise? {
        return Raised(paths.exception);
      }
      var (sourcePath, destPath) := paths.value;
      if file.id.None? {
        return Raised(KeyError("id"));
      }
      outcome := MoveFile(env, sourcePath, destPath);
      if outcome.Raised? {
        return;
      }
      outcome := Raised(NameError("host"));
    }

    /** `unarchive(file)`. */
    method Unarchive(env: Environment, file: FileRecord) returns (outcome: Outcome)
      ensures outcome == UnarchiveRun(env.disk, archiveTarget, file).outcome
    {
      if file.filepath.None? {
        return Raised(AttributeError("split"));
      }
      var pieces := Split(file.filepath.value, archiveTarget);
      if pieces.Raise? {
        return Raised(pieces.exception);
      }
      outcome := Raised(TypeError);
    }

    /** `process_message`. */
    method ProcessMessage(env: Environment, conn: Connection, resource: Resource, parameters: Parameters)
      returns (outcome: Outcome)
      modifies env
      ensures var run := Handle(old(env.disk), env.ioErrors, env.abspath, env.reply, archiveSource, archiveTarget,
                                conn, resource, parameters);
              outcome == run.outcome && env.calls == old(env.calls) + run.calls && env.disk == run.disk
    {
      if !Accepts(parameters.action) {
        return Returned;
      }
      var operation := OperationOf(parameters);
      if operation.Raise? {
        return Raised(operation.exception);
      }
      if resource.kind == FileKind {
        var response := env.GetMetadata(MetadataUrl(conn, resource.id));
        var json := DeclaresJson(response);
        if json.Raise? {
          return Raised(json.exception);
        }
        if !json.value {
          return Returned;
        }
        var file := DecodeJson(response);
        if file.Raise? {
          return Raised(file.exception);
        }
        if operation.value == Some(UnarchiveOperation) {
          outcome := Unarchive(env, file.value);
        } else if operation.value == Some(ArchiveOperation) {
          ghost var rest := ArchiveRun(env.disk, env.ioErrors, env.abspath, archiveSource, archiveTarget, file.value);
          outcome := Archive(env, file.value);
          assert env.calls == old(env.calls) + ([MetadataGet(MetadataUrl(conn, resource.id))] + rest.calls);
        } else {
          outcome := Returned;
        }
      } else {
        outcome := Returned;
      }
    }
  }

  /** `__init__`: the extractor exists only when the configuration passes. */
  method Start(archiveSource: string, archiveTarget: string)
    returns (status: Startup<ConfigField>, archiver: DiskArchiver?)
    ensures status == CheckConfig(archiveSource, archiveTarget)
    ensures archiver != null <==> status.Ready?
    ensures archiver != null ==> fresh(archiver) && archiver.archiveSource == archiveSource &&
                                 archiver.archiveTarget == archiveTarget
  {
    status := CheckConfig(archiveSource, archiveTarget);
    if status.Ready? {
      archiver := new DiskArchiver(archiveSource, archiveTarget);
    } else {
      archiver := null;
    }
  }

  /* Properties of `process_message` as written. */

  /** A message whose action is set, non-empty and not 'manual-submission'
      makes no call and changes nothing. */
  lemma IgnoresOtherActions(disk: Disk, ioErrors: set<string>, abspath: string -> string, reply: string -> MetadataResponse,
                            archiveSource: string, archiveTarget: string,
                            conn: Connection, resource: Resource, parameters: Parameters)
    requires parameters.action.Some? && parameters.action.value != "" && parameters.action.value != ManualSubmission
    ensures Handle(disk, ioErrors, abspath, reply, archiveSource, archiveTarget, conn, resource, parameters) ==
            Run(Returned, [], disk)
  {
  }

  /** A resource that is not a file is neither looked up nor moved. */
  lemma IgnoresOtherResources(disk: Disk, ioErrors: set<string>, abspath: string -> string, reply: string -> MetadataResponse,
                              archiveSource: string, archiveTarget: string,
                              conn: Connection, resource: Resource, parameters: Parameters)
    requires Accepts(parameters.action) && OperationOf(parameters).Ok? && resource.kind != FileKind
    ensures Handle(disk, ioErrors, abspath, reply, archiveSource, archiveTarget, conn, resource, parameters) ==
            Run(Returned, [], disk)
  {
  }

  /** After the metadata request, a reply that does not declare JSON, a body
      that does not decode, or an operation that is neither 'archive' nor
      'unarchive' ends the run with no further call. */
  lemma StopsAfterLookup(disk: Disk, ioErrors: set<string>, abspath: string -> string, reply: string -> MetadataResponse,
                         archiveSource: string, archiveTarget: string,
                         conn: Connection, resource: Resource, parameters: Parameters)
    requires Accepts(parameters.action) && OperationOf(parameters).Ok? && resource.kind == FileKind
    ensures var run := Handle(disk, ioErrors, abspath, reply, archiveSource, archiveTarget, conn, resource, parameters);
            var url := MetadataUrl(conn, resource.id);
            var operation := OperationOf(parameters).value;
            |run.calls| >= 1 && run.calls[0] == MetadataGet(url) &&
            (DeclaresJson(reply(url)) == Ok(false) ==> run == Run(Returned, [MetadataGet(url)], disk)) &&
            (reply(url).contentType.None? ==> run == Run(Raised(TypeError), [MetadataGet(url)], disk)) &&
            (DeclaresJson(reply(url)) == Ok(true) && reply(url).json.None? ==>
               run == Run(Raised(JsonDecodeError), [MetadataGet(url)], disk)) &&
            (DeclaresJson(reply(url)) == Ok(true) && reply(url).json.Some? &&
             operation != Some(ArchiveOperation) && operation != Some(UnarchiveOperation) ==>
               run == Run(Returned, [MetadataGet(url)], disk))
  {
  }

  /** A file is moved only for an accepted 'archive' message about a file
      whose metadata reply declares JSON, and only after the metadata request
      and the creation of the destination's directory; the move is the last
      call. */
  lemma MovesOnlyAfterChecks(disk: Disk, ioErrors: set<string>, abspath: string -> string, reply: string -> MetadataResponse,
                             archiveSource: string, archiveTarget: string,
                             conn: Connection, resource: Resource, parameters: Parameters)
    ensures var run := Handle(disk, ioErrors, abspath, reply, archiveSource, archiveTarget, conn, resource, parameters);
            var url := MetadataUrl(conn, resource.id);
            (exists i :: 0 <= i < |run.calls| && (run.calls[i].Move? || run.calls[i].MakeDirs?)) ==>
              Accepts(parameters.action) && OperationOf(parameters) == Ok(Some(ArchiveOperation)) &&
              resource.kind == FileKind && DeclaresJson(reply(url)) == Ok(true) &&
              2 <= |run.calls| <= 3 && run.calls[0] == MetadataGet(url) && run.calls[1].MakeDirs? &&
              (|run.calls| == 3 ==> run.calls[2].Move? && run.calls[1].path == Dirname(run.calls[2].dest))
  {
    if Accepts(parameters.action) && OperationOf(parameters).Ok? && resource.kind == FileKind {
      var response := reply(MetadataUrl(conn, resource.id));
      if DeclaresJson(response) == Ok(true) && response.json.Some? &&
         OperationOf(parameters).value == Some(ArchiveOperation) {
        ArchiveShape(disk, ioErrors, abspath, archiveSource, archiveTarget, response.json.value);
      }
    }
  }

  /** Files change only by the one move the run made: the destination then
      holds what the source held. */
  lemma FilesChangeOnlyByMove(disk: Disk, ioErrors: set<string>, abspath: string -> string, reply: string -> MetadataResponse,
                              archiveSource: string, archiveTarget: string,
                              conn: Connection, resource: Resource, parameters: Parameters)
    ensures var run := Handle(disk, ioErrors, abspath, reply, archiveSource, archiveTarget, conn, resource, parameters);
            run.disk.files != disk.files ==>
              |run.calls| == 3 && run.calls[2].Move? &&
              MovedOnly(disk.files, run.disk.files, run.calls[2].source, run.calls[2].dest)
    ensures var run := Handle(disk, ioErrors, abspath, reply, archiveSource, archiveTarget, conn, resource, parameters);
            WellFormed(disk) ==> WellFormed(run.disk)
  {
    if Accepts(parameters.action) && OperationOf(parameters).Ok? && resource.kind == FileKind {
      var response := reply(MetadataUrl(conn, resource.id));
      if DeclaresJson(response) == Ok(true) && response.json.Some? &&
         OperationOf(parameters).value == Some(ArchiveOperation) {
        ArchiveShape(disk, ioErrors, abspath, archiveSource, archiveTarget, response.json.value);
      }
    }
  }

  /** The files after differ from the files before by one move of `source`
      to `dest` and nothing else. */
  ghost predicate MovedOnly(before: map<string, Bytes>, after: map<string, Bytes>, source: string, dest: string)
  {
    source in before && dest in after && after[dest] == before[source] &&
    (source != dest ==> source !in after) &&
    forall p :: p != source && p != dest ==>
      (p in after <==> p in before) && (p in before ==> after[p] == before[p])
  }

  /** An archive message whose record's file path does not contain the
      archive source fails with IndexError right after the metadata request,
      before any directory is made or any file moved. */
  lemma ForeignPathRaisesBeforeMove(disk: Disk, ioErrors: set<string>, abspath: string -> string,
                                    reply: string -> MetadataResponse, archiveSource: string, archiveTarget: string,
                                    conn: Connection, resource: Resource, parameters: Parameters)
    requires Accepts(parameters.action) && OperationOf(parameters) == Ok(Some(ArchiveOperation))
    requires resource.kind == FileKind && archiveSource != ""
    requires var response := reply(MetadataUrl(conn, resource.id));
             DeclaresJson(response) == Ok(true) && response.json.Some? &&
             response.json.value.filepath.Some? && !Contains(response.json.value.filepath.value, archiveSource)
    ensures Handle(disk, ioErrors, abspath, reply, archiveSource, archiveTarget, conn, resource, parameters) ==
            Run(Raised(IndexError), [MetadataGet(MetadataUrl(conn, resource.id))], disk)
  {
    ArchiveRejectsForeignPath(disk, ioErrors, abspath, archiveSource, archiveTarget,
                              reply(MetadataUrl(conn, resource.id)).json.value);
  }

  /** `archive(file)` on a file path that does not contain the archive
      source raises IndexError at `split(...)[1]` before any call. */
  lemma ArchiveRejectsForeignPath(disk: Disk, ioErrors: set<string>, abspath: string -> string,
                                  archiveSource: string, archiveTarget: string, record: FileRecord)
    requires archiveSource != "" && record.filepath.Some? && !Contains(record.filepath.value, archiveSource)
    ensures ArchiveRun(disk, ioErrors, abspath, archiveSource, archiveTarget, record) == Run(Raised(IndexError), [], disk)
  {
  }

  /** No run reports a new status to Clowder. */
  lemma NeverPostsStatus(disk: Disk, ioErrors: set<string>, abspath: string -> string, reply: string -> MetadataResponse,
                         archiveSource: string, archiveTarget: string,
                         conn: Connection, resource: Resource, parameters: Parameters)
    ensures var run := Handle(disk, ioErrors, abspath, reply, archiveSource, archiveTarget, conn, resource, parameters);
            forall i :: 0 <= i < |run.calls| ==> !run.calls[i].StatusPost?
  {
  }

  /** An 'unarchive' message never moves a file and never returns normally
      once the record has been read. */
  lemma UnarchiveMessageNeverMoves(disk: Disk, ioErrors: set<string>, abspath: string -> string, reply: string -> MetadataResponse,
                                   archiveSource: string, archiveTarget: string,
                                   conn: Connection, resource: Resource, parameters: Parameters)
    requires Accepts(parameters.action) && OperationOf(parameters) == Ok(Some(UnarchiveOperation))
    ensures var run := Handle(disk, ioErrors, abspath, reply, archiveSource, archiveTarget, conn, resource, parameters);
            var url := MetadataUrl(conn, resource.id);
            run.disk == disk && |run.calls| <= 1 &&
            (resource.kind == FileKind && DeclaresJson(reply(url)) == Ok(true) ==> run.outcome.Raised?)
  {
  }

  /** What one run of `archive(file)` as written can do: at most a makedirs
      of the destination's parent and then the move, with the files changed
      only by that move; it always raises and never posts. */
  lemma ArchiveShape(disk: Disk, ioErrors: set<string>, abspath: string -> string,
                     archiveSource: string, archiveTarget: string, record: FileRecord)
    ensures var run := ArchiveRun(disk, ioErrors, abspath, archiveSource, archiveTarget, record);
            run.outcome.Raised? && |run.calls| <= 2 &&
            (|run.calls| >= 1 ==> run.calls[0].MakeDirs?) &&
            (|run.calls| == 2 ==> run.calls[1].Move? && run.calls[0].path == Dirname(run.calls[1].dest)) &&
            (run.disk.files != disk.files ==>
               |run.calls| == 2 && MovedOnly(disk.files, run.disk.files, run.calls[1].source, run.calls[1].dest)) &&
            (WellFormed(disk) ==> WellFormed(run.disk))
  {
  }

  /** `archive(file)` as written never returns normally and never reports
      the status: a successful move is followed by NameError. */
  lemma ArchiveRaisesAfterMove(disk: Disk, ioErrors: set<string>, abspath: string -> string,
                               archiveSource: string, archiveTarget: string, record: FileRecord)
    ensures var run := ArchiveRun(disk, ioErrors, abspath, archiveSource, archiveTarget, record);
            var moved := MoveForRecord(disk, ioErrors, RelocationPaths(record.filepath, archiveSource, archiveTarget, abspath), record);
            run.outcome.Raised? && (forall i :: 0 <= i < |run.calls| ==> !run.calls[i].StatusPost?) &&
            (moved.outcome == Returned ==>
               run == Run(Raised(NameError("host")), moved.calls, moved.disk) && |run.calls| == 2 && run.calls[1].Move?)
  {
  }

  /** `unarchive(file)` as written raises before any call, whatever the record. */
  lemma UnarchiveNeverMoves(disk: Disk, archiveTarget: string, record: FileRecord)
    ensures var run := UnarchiveRun(disk, archiveTarget, record);
            run.outcome.Raised? && run.calls == [] && run.disk == disk
    ensures archiveTarget != "" && record.filepath.Some? ==> UnarchiveRun(disk, archiveTarget, record).outcome == Raised(TypeError)
  {
  }

  /* The archive and unarchive steps as they are evidently meant to be: the
     status request uses the message's host, resource id and key, and the
     unarchive suffix is item 1 of the split. */

  /** `'%sapi/files/%s/%s?key=%s' % (host, resource['id'], transition, secret_key)`. */
  function StatusUrl(conn: Connection, resourceId: string, transition: string): (r: string)
  {
    conn.host + "api/files/" + resourceId + "/" + transition + "?key=" + conn.secretKey
  }

  /** Report the new status only once the move has returned. */
  function Reported(moved: Run, url: string): (r: Run)
  {
    if moved.outcome.Raised? then moved
    else Run(Returned, moved.calls + [StatusPost(url)], moved.disk)
  }

  function IntendedArchiveRun(disk: Disk, ioErrors: set<string>, abspath: string -> string,
                              archiveSource: string, archiveTarget: string,
                              conn: Connection, resource: Resource, record: FileRecord): (r: Run)
  {
    var paths := RelocationPaths(record.filepath, archiveSource, archiveTarget, abspath);
    Reported(MoveForRecord(disk, ioErrors, paths, record), StatusUrl(conn, resource.id, ArchiveOperation))
  }

  function IntendedUnarchiveRun(disk: Disk, ioErrors: set<string>, abspath: string -> string,
                                archiveSource: string, archiveTarget: string,
                                conn: Connection, resource: Resource, record: FileRecord): (r: Run)
  {
    var paths := RelocationPaths(record.filepath, archiveTarget, archiveSource, abspath);
    Reported(MoveForRecord(disk, ioErrors, paths, record), StatusUrl(conn, resource.id, UnarchiveOperation))
  }

  /** In the intended archive, the status is posted exactly when the move
      succeeded, and as the last call, after the move; a failed step leaves
      every file as it was and posts nothing. */
  lemma IntendedArchivePostsAfterMove(disk: Disk, ioErrors: set<string>, abspath: string -> string,
                                      archiveSource: string, archiveTarget: string,
                                      conn: Connection, resource: Resource, record: FileRecord)
    ensures var run := IntendedArchiveRun(disk, ioErrors, abspath, archiveSource, archiveTarget, conn, resource, record);
            var moved := MoveForRecord(disk, ioErrors, RelocationPaths(record.filepath, archiveSource, archiveTarget, abspath), record);
            ((exists i :: 0 <= i < |run.calls| && run.calls[i].StatusPost?) <==> run.outcome == Returned) &&
            (run.outcome == Returned <==> moved.outcome == Returned) &&
            (run.outcome == Returned ==>
               |run.calls| == 3 && run.calls[0].MakeDirs? && run.calls[1].Move? &&
               run.calls[2] == StatusPost(StatusUrl(conn, resource.id, ArchiveOperation)) &&
               MovedOnly(disk.files, run.disk.files, run.calls[1].source, run.calls[1].dest)) &&
            (run.outcome.Raised? ==> run.disk.files == disk.files)
  {
  }

  /** One corrected step on a file path made of the root it leaves and a
      suffix: with nothing in its way, it makes the destination's directory,
      moves the file and reports. */
  lemma IntendedStep(disk: Disk, ioErrors: set<string>, abspath: string -> string,
                     fromRoot: string, toRoot: string, suffix: string, id: string, url: string)
    requires fromRoot != "" && !Contains(suffix, fromRoot)
    requires var source := fromRoot + suffix;
             var dest := toRoot + suffix;
             abspath(source) == source && abspath(dest) == dest && source != dest &&
             source in disk.files && dest !in disk.dirs && Dirname(dest) != dest &&
             Dirname(dest) != "" && Dirname(dest) !in disk.files &&
             source !in ioErrors && dest !in ioErrors && Dirname(dest) !in ioErrors
    ensures var source := fromRoot + suffix;
            var dest := toRoot + suffix;
            var paths := RelocationPaths(Some(source), fromRoot, toRoot, abspath);
            Reported(MoveForRecord(disk, ioErrors, paths, FileRecord(Some(id), Some(source), None)), url) ==
            Run(Returned, [MakeDirs(Dirname(dest)), Move(source, dest), StatusPost(url)],
                Disk(disk.files[dest := disk.files[source]] - {source}, disk.dirs + {Dirname(dest)}))
  {
    RelocatesRootedPath(fromRoot, toRoot, suffix, abspath);
  }

  /** With the corrected steps, archiving a file and unarchiving it from
      where it was put restores every file, and each step reports its status
      after its move. */
  lemma IntendedRoundTrip(disk: Disk, ioErrors: set<string>, abspath: string -> string,
                          archiveSource: string, archiveTarget: string,
                          conn: Connection, resource: Resource, id: string, suffix: string)
    requires WellFormed(disk)
    requires archiveSource != "" && archiveTarget != ""
    requires !Contains(suffix, archiveSource) && !Contains(suffix, archiveTarget)
    requires var active := archiveSource + suffix;
             var archived := archiveTarget + suffix;
             abspath(active) == active && abspath(archived) == archived &&
             active in disk.files && archived !in disk.files && archived !in disk.dirs &&
             Dirname(active) != "" && Dirname(active) !in disk.files && Dirname(active) != archived &&
             Dirname(archived) != "" && Dirname(archived) !in disk.files &&
             Dirname(active) != active && Dirname(archived) != archived &&
             active !in ioErrors && archived !in ioErrors &&
             Dirname(active) !in ioErrors && Dirname(archived) !in ioErrors
    ensures var active := archiveSource + suffix;
            var archived := archiveTarget + suffix;
            var there := IntendedArchiveRun(disk, ioErrors, abspath, archiveSource, archiveTarget, conn, resource,
                                            FileRecord(Some(id), Some(active), None));
            var back := IntendedUnarchiveRun(there.disk, ioErrors, abspath, archiveSource, archiveTarget, conn, resource,
                                             FileRecord(Some(id), Some(archived), None));
            there.outcome == Returned && back.outcome == Returned &&
            there.calls == [MakeDirs(Dirname(archived)), Move(active, archived),
                            StatusPost(StatusUrl(conn, resource.id, ArchiveOperation))] &&
            back.calls == [MakeDirs(Dirname(active)), Move(archived, active),
                           StatusPost(StatusUrl(conn, resource.id, UnarchiveOperation))] &&
            archived in there.disk.files && active !in there.disk.files &&
            back.disk.files == disk.files
  {
    var active := archiveSource + suffix;
    var archived := archiveTarget + suffix;
    var archiveUrl := StatusUrl(conn, resource.id, ArchiveOperation);
    var unarchiveUrl := StatusUrl(conn, resource.id, UnarchiveOperation);
    var there := Disk(disk.files[archived := disk.files[active]] - {active}, disk.dirs + {Dirname(archived)});
    assert IntendedArchiveRun(disk, ioErrors, abspath, archiveSource, archiveTarget, conn, resource,
                              FileRecord(Some(id), Some(active), None)) ==
           Run(Returned, [MakeDirs(Dirname(archived)), Move(active, archived), StatusPost(archiveUrl)], there) by {
      IntendedStep(disk, ioErrors, abspath, archiveSource, archiveTarget, suffix, id, archiveUrl);
    }
    var back := Disk(there.files[active := there.files[archived]] - {archived}, there.dirs + {Dirname(active)});
    assert IntendedUnarchiveRun(there, ioErrors, abspath, archiveSource, archiveTarget, conn, resource,
                                FileRecord(Some(id), Some(archived), None)) ==
           Run(Returned, [MakeDirs(Dirname(active)), Move(archived, active), StatusPost(unarchiveUrl)], back) by {
      assert active != Dirname(archived);
      IntendedStep(there, ioErrors, abspath, archiveTarget, archiveSource, suffix, id, unarchiveUrl);
    }
    MoveBackRestores(disk.files, active, archived);
  }

  /** Moving a file away and back again restores the file map. */
  lemma MoveBackRestores(files: map<string, Bytes>, source: string, dest: string)
    requires source in files && dest !in files
    ensures var there := files[dest := files[source]] - {source};
            there[source := there[dest]] - {dest} == files
  {
  }
}
