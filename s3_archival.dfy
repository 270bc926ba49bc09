/** The S3 archival extractor: archiving a file rewrites its S3 object in
    place with the REDUCED_REDUNDANCY storage class, unarchiving rewrites it
    with STANDARD. The bytes never move, and Clowder is never told the new
    status. */
module S3Archival {
  import opened Python
  import opened Clowder

  const Standard := "STANDARD"
  const ReducedRedundancy := "REDUCED_REDUNDANCY"
  const CopyMetadata := "COPY"

  /** The settings `__init__` checks, in the order it checks them. */
  datatype ConfigField = AccessKey | SecretKey | BucketName

  /** `__init__`'s checks: each of the access key, the secret key and the
      bucket name must be non-empty, else the process exits with code 1. */
  function CheckConfig(accessKey: string, secretKey: string, bucketName: string, awsRegion: string): (r: Startup<ConfigField>)
    ensures r.Ready? <==> accessKey != "" && secretKey != "" && bucketName != ""
    ensures r.Exit? ==> r.code == 1
    ensures r.Exit? && r.field == AccessKey <==> accessKey == ""
    ensures r.Exit? && r.field == SecretKey <==> accessKey != "" && secretKey == ""
    ensures r.Exit? && r.field == BucketName <==> accessKey != "" && secretKey != "" && bucketName == ""
  {
    if accessKey == "" then Exit(AccessKey, 1)
    else if secretKey == "" then Exit(SecretKey, 1)
    else if bucketName == "" then Exit(BucketName, 1)
    else Ready
  }

  /** An S3 object is named by its bucket and key. */
  datatype ObjectRef = ObjectRef(bucket: string, key: string)

  /** What S3 holds for one object. */
  datatype StoredObject = StoredObject(body: seq<bv8>, metadata: map<string, string>, storageClass: string)

  type Store = map<ObjectRef, StoredObject>

  /** The requests the extractor sends out, in order. */
  datatype Call =
    | MetadataGet(url: string)
    | CopyObject(source: ObjectRef, target: ObjectRef, storageClass: string, metadataDirective: string)
    | StatusPost(url: string)

  /** botocore checks a request's parameters before sending it, and rejects
      an empty object key with ParamValidationError, which is not a
      ClientError. */
  predicate Sendable(obj: ObjectRef)
  {
    obj.key != ""
  }

  /** How S3's CopyObject request ends. */
  datatype CopyAnswer = Copied | ClientError | Unsendable

  /** S3's server-side copy: None is the ClientError S3 answers when the
      source does not exist or the target may not be written. */
  function CopyResult(objects: Store, denied: set<ObjectRef>, source: ObjectRef, target: ObjectRef,
                      storageClass: string, directive: string): (r: Option<Store>)
    ensures r.None? <==> source !in objects || target in denied
    ensures r.Some? ==> r.value.Keys == objects.Keys + {target}
    ensures r.Some? ==> r.value[target].body == objects[source].body && r.value[target].storageClass == storageClass
    ensures r.Some? ==> r.value[target].metadata == (if directive == CopyMetadata then objects[source].metadata else map[])
    ensures r.Some? ==> forall o :: o in objects && o != target ==> r.value[o] == objects[o]
  {
    if source !in objects || target in denied then None
    else
      var s := objects[source];
      var metadata := if directive == CopyMetadata then s.metadata else map[];
      Some(objects[target := StoredObject(s.body, metadata, storageClass)])
  }

  /** The store after `change_storage_class(obj, storageClass)`: the object is
      copied onto itself with the new class, keeping its body and metadata;
      when S3 refuses, the error is swallowed and nothing changes. */
  function AfterClassChange(objects: Store, denied: set<ObjectRef>, obj: ObjectRef, storageClass: string): (r: Store)
    ensures r.Keys == objects.Keys
    ensures obj in objects && obj !in denied ==> r[obj] == objects[obj].(storageClass := storageClass)
    ensures obj !in objects || obj in denied ==> r == objects
    ensures forall o :: o in objects && o != obj ==> r[o] == objects[o]
  {
    match CopyResult(objects, denied, obj, obj, storageClass, CopyMetadata)
    case None => objects
    case Some(after) => after
  }

  /** `get_object(object_key)`: the S3 client refuses to name an object
      without a key, raising ValueError, which `get_object` does not catch. */
  function GetObject(bucket: string, key: Option<string>): (r: Result<ObjectRef>)
    ensures r.Ok? <==> key.Some?
    ensures r.Ok? ==> r.value.bucket == bucket && r.value.key == key.value
    ensures r.Raise? ==> r.exception == ValueError
  {
    match key
    case None => Raise(ValueError)
    case Some(k) => Ok(ObjectRef(bucket, k))
  }

  /** One run of `process_message`: how it ends, the requests it made, and
      the store afterwards. */
  datatype Run = Run(outcome: Outcome, calls: seq<Call>, objects: Store)

  /** Decode the metadata reply, name the object and change its class. */
  function Retier(bucket: string, objects: Store, denied: set<ObjectRef>,
                  response: MetadataResponse, storageClass: string): (r: Run)
    ensures r.outcome == Returned <==>
              response.json.Some? && response.json.value.objectKey.Some? && response.json.value.objectKey.value != ""
    ensures r.outcome == Returned ==>
              var obj := ObjectRef(bucket, response.json.value.objectKey.value);
              r.calls == [CopyObject(obj, obj, storageClass, CopyMetadata)] &&
              r.objects == AfterClassChange(objects, denied, obj, storageClass)
    ensures r.outcome != Returned ==> r.calls == [] && r.objects == objects
  {
    match DecodeJson(response)
    case Raise(e) => Run(Raised(e), [], objects)
    case Ok(record) =>
      match GetObject(bucket, record.objectKey)
      case Raise(e) => Run(Raised(e), [], objects)
      case Ok(obj) =>
        if !Sendable(obj) then Run(Raised(ParamValidationError), [], objects)
        else
          Run(Returned, [CopyObject(obj, obj, storageClass, CopyMetadata)],
              AfterClassChange(objects, denied, obj, storageClass))
  }

  /** `process_message` as a function of the store, the services' answers and
      the message. */
  function Handle(bucket: string, objects: Store, denied: set<ObjectRef>, reply: string -> MetadataResponse,
                  conn: Connection, resource: Resource, parameters: Parameters): (r: Run)
  {
    if !Accepts(parameters.action) then Run(Returned, [], objects)
    else
      match OperationOf(parameters)
      case Raise(e) => Run(Raised(e), [], objects)
      case Ok(operation) =>
        var url := MetadataUrl(conn, resource.id);
        if operation == Some(UnarchiveOperation) then
          var rest := Retier(bucket, objects, denied, reply(url), Standard);
          Run(rest.outcome, [MetadataGet(url)] + rest.calls, rest.objects)
        else if operation == Some(ArchiveOperation) then
          if resource.kind != FileKind then Run(Returned, [], objects)
          else
            match DeclaresJson(reply(url))
            case Raise(e) => Run(Raised(e), [MetadataGet(url)], objects)
            case Ok(false) => Run(Returned, [MetadataGet(url)], objects)
            case Ok(true) =>
              var rest := Retier(bucket, objects, denied, reply(url), ReducedRedundancy);
              Run(rest.outcome, [MetadataGet(url)] + rest.calls, rest.objects)
        else Run(Returned, [], objects)
  }

  /** The services the extractor talks to: S3's objects, the metadata
      endpoint's replies, and the requests sent to either so far. */
  class Environment {
    var objects: Store
    var calls: seq<Call>
    /** The objects S3 refuses to rewrite (permissions, throttling, …). */
    const denied: set<ObjectRef>
    /** What the metadata endpoint answers for each URL. */
    const reply: string -> MetadataResponse

    constructor (objects: Store, denied: set<ObjectRef>, reply: string -> MetadataResponse)
      ensures this.objects == objects && this.denied == denied && this.reply == reply && calls == []
    {
      this.objects := objects;
      this.denied := denied;
      this.reply := reply;
      calls := [];
    }

    /** `requests.get(url)`. */
    method GetMetadata(url: string) returns (response: MetadataResponse)
      modifies this
      ensures response == reply(url)
      ensures calls == old(calls) + [MetadataGet(url)] && objects == old(objects)
    {
      calls := calls + [MetadataGet(url)];
      response := reply(url);
    }

    /** S3's CopyObject request: botocore refuses to send it for an empty
        key; otherwise S3 applies it or answers with a ClientError. */
    method Copy(source: ObjectRef, target: ObjectRef, storageClass: string, directive: string)
      returns (answer: CopyAnswer)
      modifies this
      ensures !Sendable(source) || !Sendable(target) ==>
                answer == Unsendable && calls == old(calls) && objects == old(objects)
      ensures Sendable(source) && Sendable(target) ==>
                calls == old(calls) + [CopyObject(source, target, storageClass, directive)] &&
                var r := CopyResult(old(objects), denied, source, target, storageClass, directive);
                answer == (if r.Some? then Copied else ClientError) &&
                objects == (if r.Some? then r.value else old(objects))
    {
      if !Sendable(source) || !Sendable(target) {
        return Unsendable;
      }
      calls := calls + [CopyObject(source, target, storageClass, directive)];
      var r := CopyResult(objects, denied, source, target, storageClass, directive);
      if r.Some? {
        objects := r.value;
        answer := Copied;
      } else {
        answer := ClientError;
      }
    }
  }

  class S3Archiver {
    const accessKey: string
    const secretKey: string
    const bucketName: string
    const awsRegion: string

    constructor (accessKey: string, secretKey: string, bucketName: string, awsRegion: string)
      requires CheckConfig(accessKey, secretKey, bucketName, awsRegion).Ready?
      ensures this.accessKey == accessKey && this.secretKey == secretKey
      ensures this.bucketName == bucketName && this.awsRegion == awsRegion
    {
      this.accessKey := accessKey;
      this.secretKey := secretKey;
      this.bucketName := bucketName;
      this.awsRegion := awsRegion;
    }

    /** `change_storage_class(obj, storage_class='STANDARD')`: copy the object
        onto itself (same bucket, same key) with the new class and its
        metadata copied; a ClientError is logged and swallowed, but botocore's
        ParamValidationError for an empty key propagates. */
    method ChangeStorageClass(env: Environment, obj: ObjectRef, storageClass: string := Standard)
      returns (outcome: Outcome)
      modifies env
      ensures Sendable(obj) ==>
                outcome == Returned &&
                env.calls == old(env.calls) + [CopyObject(obj, obj, storageClass, CopyMetadata)] &&
                env.objects == AfterClassChange(old(env.objects), env.denied, obj, storageClass)
      ensures !Sendable(obj) ==>
                outcome == Raised(ParamValidationError) && env.calls == old(env.calls) && env.objects == old(env.objects)
    {
      var copySource := ObjectRef(obj.bucket, obj.key);
      var answer := env.Copy(copySource, obj, storageClass, CopyMetadata);
      if answer == Unsendable {
        return Raised(ParamValidationError);
      }
      outcome := Returned;
    }

    /** The common tail of both branches: read the object key from the reply,
        name the object and change its storage class. */
    method RetierFromReply(env: Environment, response: MetadataResponse, storageClass: string) returns (outcome: Outcome)
      modifies env
      ensures var run := Retier(bucketName, old(env.objects), env.denied, response, storageClass);
              outcome == run.outcome && env.calls == old(env.calls) + run.calls && env.objects == run.objects
    {
      var record := DecodeJson(response);
      if record.Raise? {
        return Raised(record.exception);
      }
      var obj := GetObject(bucketName, record.value.objectKey);
      if obj.Raise? {
        return Raised(obj.exception);
      }
      outcome := ChangeStorageClass(env, obj.value, storageClass);
    }

    /** `process_message`. */
    method ProcessMessage(env: Environment, conn: Connection, resource: Resource, parameters: Parameters)
      returns (outcome: Outcome)
      modifies env
      ensures var run := Handle(bucketName, old(env.objects), env.denied, env.reply, conn, resource, parameters);
              outcome == run.outcome && env.calls == old(env.calls) + run.calls && env.objects == run.objects
    {
      if !Accepts(parameters.action) {
        return Returned;
      }
      var operation := OperationOf(parameters);
      if operation.Raise? {
        return Raised(operation.exception);
      }
      if operation.value == Some(UnarchiveOperation) {
        var response := env.GetMetadata(MetadataUrl(conn, resource.id));
        outcome := RetierFromReply(env, response, Standard);
      } else if operation.value == Some(ArchiveOperation) {
        if resource.kind == FileKind {
          var response := env.GetMetadata(MetadataUrl(conn, resource.id));
          var json := DeclaresJson(response);
          if json.Raise? {
            return Raised(json.exception);
          }
          if json.value {
            outcome := RetierFromReply(env, response, ReducedRedundancy);
          } else {
            outcome := Returned;
          }
        } else {
          outcome := Returned;
        }
      } else {
        outcome := Returned;
      }
    }

    /** `list_contains_key`: scan the items in order; the first item without
        the field raises KeyError, the first whose field equals the value
        gives true. */
    method ListContainsKey<V(==)>(items: seq<map<string, V>>, field: string, value: V) returns (r: Result<bool>)
      ensures r == Ok(true) || r == Ok(false) || r == Raise(KeyError(field))
      ensures r == Ok(true) <==>
        exists i :: 0 <= i < |items| && Passed(items, field, value, i) && field in items[i] && items[i][field] == value
      ensures r == Raise(KeyError(field)) <==>
        exists i :: 0 <= i < |items| && Passed(items, field, value, i) && field !in items[i]
      ensures r == Ok(false) <==> Passed(items, field, value, |items|)
      ensures (forall i :: 0 <= i < |items| ==> field in items[i]) ==>
        r == Ok(exists i :: 0 <= i < |items| && items[i][field] == value)
    {
      var n := 0;
      while n < |items|
        invariant 0 <= n <= |items|
        invariant Passed(items, field, value, n)
      {
        var item := items[n];
        if field !in item {
          return Raise(KeyError(field));
        }
        if item[field] == value {
          return Ok(true);
        }
        n := n + 1;
      }
      return Ok(false);
    }
  }

  /** The first `n` items all have the field, with a value other than `value`. */
  predicate Passed<V(==)>(items: seq<map<string, V>>, field: string, value: V, n: nat)
    requires n <= |items|
  {
    forall j :: 0 <= j < n ==> field in items[j] && items[j][field] != value
  }

  /** `__init__`: the extractor exists only when the configuration passes. */
  method Start(accessKey: string, secretKey: string, bucketName: string, awsRegion: string)
    returns (status: Startup<ConfigField>, archiver: S3Archiver?)
    ensures status == CheckConfig(accessKey, secretKey, bucketName, awsRegion)
    ensures archiver != null <==> status.Ready?
    ensures archiver != null ==> fresh(archiver) && archiver.bucketName == bucketName && archiver.awsRegion == awsRegion
    ensures archiver != null ==> archiver.accessKey == accessKey && archiver.secretKey == secretKey
  {
    status := CheckConfig(accessKey, secretKey, bucketName, awsRegion);
    if status.Ready? {
      archiver := new S3Archiver(accessKey, secretKey, bucketName, awsRegion);
    } else {
      archiver := null;
    }
  }

  /* Properties of `process_message`. */

  /** A message whose action is set, non-empty and not 'manual-submission'
      makes no request and changes nothing. */
  lemma IgnoresOtherActions(bucket: string, objects: Store, denied: set<ObjectRef>, reply: string -> MetadataResponse,
                            conn: Connection, resource: Resource, parameters: Parameters)
    requires parameters.action.Some? && parameters.action.value != "" && parameters.action.value != ManualSubmission
    ensures Handle(bucket, objects, denied, reply, conn, resource, parameters) == Run(Returned, [], objects)
  {
  }

  /** Missing user parameters raise before any request. */
  lemma MissingParametersRaiseFirst(bucket: string, objects: Store, denied: set<ObjectRef>, reply: string -> MetadataResponse,
                                    conn: Connection, resource: Resource, parameters: Parameters)
    requires Accepts(parameters.action) && parameters.userParameters.None?
    ensures Handle(bucket, objects, denied, reply, conn, resource, parameters) == Run(Raised(AttributeError("get")), [], objects)
  {
  }

  /** Unarchiving makes exactly one metadata request and then sets the class
      of the returned object key to STANDARD, whatever the resource type and
      whatever the Content-Type of the reply; an undecodable body, a missing
      key or an empty key raises after the request. */
  lemma UnarchiveSetsStandard(bucket: string, objects: Store, denied: set<ObjectRef>, reply: string -> MetadataResponse,
                              conn: Connection, resource: Resource, parameters: Parameters)
    requires Accepts(parameters.action) && OperationOf(parameters) == Ok(Some(UnarchiveOperation))
    ensures var run := Handle(bucket, objects, denied, reply, conn, resource, parameters);
            var url := MetadataUrl(conn, resource.id);
            var response := reply(url);
            1 <= |run.calls| <= 2 && run.calls[0] == MetadataGet(url) &&
            (response.json.None? ==> run == Run(Raised(JsonDecodeError), [MetadataGet(url)], objects)) &&
            (response.json.Some? && response.json.value.objectKey.None? ==>
               run == Run(Raised(ValueError), [MetadataGet(url)], objects)) &&
            (response.json.Some? && response.json.value.objectKey == Some("") ==>
               run == Run(Raised(ParamValidationError), [MetadataGet(url)], objects)) &&
            (response.json.Some? && response.json.value.objectKey.Some? && response.json.value.objectKey.value != "" ==>
               var obj := ObjectRef(bucket, response.json.value.objectKey.value);
               run == Run(Returned, [MetadataGet(url), CopyObject(obj, obj, Standard, CopyMetadata)],
                          AfterClassChange(objects, denied, obj, Standard)))
  {
  }

  /** Archiving changes the class to REDUCED_REDUNDANCY only for a file
      resource whose metadata reply declares JSON and names a non-empty key;
      then it copies exactly that object onto itself and returns normally. A
      resource of another type is not even looked up, each raising case is
      given exactly, and every run that sends no copy leaves the store as it
      was. */
  lemma ArchiveNeedsFileAndJson(bucket: string, objects: Store, denied: set<ObjectRef>, reply: string -> MetadataResponse,
                                conn: Connection, resource: Resource, parameters: Parameters)
    requires Accepts(parameters.action) && OperationOf(parameters) == Ok(Some(ArchiveOperation))
    ensures var run := Handle(bucket, objects, denied, reply, conn, resource, parameters);
            var url := MetadataUrl(conn, resource.id);
            var response := reply(url);
            (resource.kind != FileKind ==> run == Run(Returned, [], objects)) &&
            (resource.kind == FileKind ==> |run.calls| >= 1 && run.calls[0] == MetadataGet(url)) &&
            (resource.kind == FileKind && DeclaresJson(response) == Ok(false) ==>
               run == Run(Returned, [MetadataGet(url)], objects)) &&
            (resource.kind == FileKind && DeclaresJson(response).Raise? ==>
               run == Run(Raised(TypeError), [MetadataGet(url)], objects)) &&
            (resource.kind == FileKind && DeclaresJson(response) == Ok(true) && response.json.None? ==>
               run == Run(Raised(JsonDecodeError), [MetadataGet(url)], objects)) &&
            (resource.kind == FileKind && DeclaresJson(response) == Ok(true) && response.json.Some? &&
             response.json.value.objectKey.None? ==>
               run == Run(Raised(ValueError), [MetadataGet(url)], objects)) &&
            (resource.kind == FileKind && DeclaresJson(response) == Ok(true) && response.json.Some? &&
             response.json.value.objectKey == Some("") ==>
               run == Run(Raised(ParamValidationError), [MetadataGet(url)], objects)) &&
            (resource.kind == FileKind && DeclaresJson(response) == Ok(true) && response.json.Some? &&
             response.json.value.objectKey.Some? && response.json.value.objectKey.value != "" ==>
               var obj := ObjectRef(bucket, response.json.value.objectKey.value);
               run == Run(Returned, [MetadataGet(url), CopyObject(obj, obj, ReducedRedundancy, CopyMetadata)],
                          AfterClassChange(objects, denied, obj, ReducedRedundancy))) &&
            ((exists i :: 0 <= i < |run.calls| && run.calls[i].CopyObject?) <==>
               resource.kind == FileKind && DeclaresJson(response) == Ok(true) &&
               response.json.Some? && response.json.value.objectKey.Some? &&
               response.json.value.objectKey.value != "") &&
            (!(exists i :: 0 <= i < |run.calls| && run.calls[i].CopyObject?) ==> run.objects == objects) &&
            (forall i :: 0 <= i < |run.calls| && run.calls[i].CopyObject? ==>
               run.calls[i].storageClass == ReducedRedundancy && run.calls[i].source == run.calls[i].target &&
               run.calls[i].metadataDirective == CopyMetadata && i == 1)
  {
    var run := Handle(bucket, objects, denied, reply, conn, resource, parameters);
    var response := reply(MetadataUrl(conn, resource.id));
    if resource.kind == FileKind && DeclaresJson(response) == Ok(true) &&
       response.json.Some? && response.json.value.objectKey.Some? && response.json.value.objectKey.value != "" {
      assert run.calls[1].CopyObject?;
    }
  }

  /** Any other operation, or none, makes no request and changes nothing. */
  lemma OtherOperationsDoNothing(bucket: string, objects: Store, denied: set<ObjectRef>, reply: string -> MetadataResponse,
                                 conn: Connection, resource: Resource, parameters: Parameters)
    requires Accepts(parameters.action) && OperationOf(parameters).Ok?
    requires OperationOf(parameters).value != Some(ArchiveOperation) && OperationOf(parameters).value != Some(UnarchiveOperation)
    ensures Handle(bucket, objects, denied, reply, conn, resource, parameters) == Run(Returned, [], objects)
  {
  }

  /** No path reports the new status to Clowder. */
  lemma NeverPostsStatus(bucket: string, objects: Store, denied: set<ObjectRef>, reply: string -> MetadataResponse,
                         conn: Connection, resource: Resource, parameters: Parameters)
    ensures var run := Handle(bucket, objects, denied, reply, conn, resource, parameters);
            forall i :: 0 <= i < |run.calls| ==> !run.calls[i].StatusPost?
  {
  }

  /** Every run changes at most the storage class of one object. */
  lemma OnlyStorageClassChanges(bucket: string, objects: Store, denied: set<ObjectRef>, reply: string -> MetadataResponse,
                                conn: Connection, resource: Resource, parameters: Parameters)
    ensures var run := Handle(bucket, objects, denied, reply, conn, resource, parameters);
            SameContents(run.objects, objects)
  {
    var response := reply(MetadataUrl(conn, resource.id));
    HandleStore(bucket, objects, denied, reply, conn, resource, parameters);
    RetierKeepsContents(bucket, objects, denied, response, Standard);
    RetierKeepsContents(bucket, objects, denied, response, ReducedRedundancy);
  }

  /** A run leaves the store as it was, or as one class change left it. */
  lemma HandleStore(bucket: string, objects: Store, denied: set<ObjectRef>, reply: string -> MetadataResponse,
                    conn: Connection, resource: Resource, parameters: Parameters)
    ensures var run := Handle(bucket, objects, denied, reply, conn, resource, parameters);
            var response := reply(MetadataUrl(conn, resource.id));
            run.objects == objects ||
            run.objects == Retier(bucket, objects, denied, response, Standard).objects ||
            run.objects == Retier(bucket, objects, denied, response, ReducedRedundancy).objects
  {
    if Accepts(parameters.action) && OperationOf(parameters).Ok? {
      var operation := OperationOf(parameters).value;
      if operation == Some(ArchiveOperation) && resource.kind == FileKind {
        match DeclaresJson(reply(MetadataUrl(conn, resource.id)))
        case Raise(_) =>
        case Ok(_) =>
      }
    }
  }

  /** Two stores hold the same objects with the same bodies and metadata. */
  predicate SameContents(after: Store, before: Store)
  {
    after.Keys == before.Keys &&
    forall o :: o in before ==> after[o].body == before[o].body && after[o].metadata == before[o].metadata
  }

  lemma RetierKeepsContents(bucket: string, objects: Store, denied: set<ObjectRef>,
                            response: MetadataResponse, storageClass: string)
    ensures SameContents(Retier(bucket, objects, denied, response, storageClass).objects, objects)
  {
  }

  /** When S3 refuses the copy with a ClientError, the handler still returns
      normally and the store is as it was. */
  lemma RefusedChangeIsSwallowed(bucket: string, objects: Store, denied: set<ObjectRef>, reply: string -> MetadataResponse,
                                 conn: Connection, resource: Resource, parameters: Parameters)
    requires Accepts(parameters.action) && OperationOf(parameters).Ok?
    requires OperationOf(parameters).value == Some(ArchiveOperation) && resource.kind == FileKind ==>
             DeclaresJson(reply(MetadataUrl(conn, resource.id))).Ok?
    requires var response := reply(MetadataUrl(conn, resource.id));
             response.json.Some? && response.json.value.objectKey.Some? && response.json.value.objectKey.value != "" &&
             var obj := ObjectRef(bucket, response.json.value.objectKey.value);
             obj !in objects || obj in denied
    ensures var run := Handle(bucket, objects, denied, reply, conn, resource, parameters);
            run.outcome == Returned && run.objects == objects
  {
  }

  /** Archiving a STANDARD object and then unarchiving it gives back the
      store exactly as it was. */
  lemma ArchiveThenUnarchive(bucket: string, objects: Store, denied: set<ObjectRef>,
                             reply: string -> MetadataResponse, conn: Connection,
                             resource: Resource, archive: Parameters, unarchive: Parameters)
    requires Accepts(archive.action) && OperationOf(archive) == Ok(Some(ArchiveOperation))
    requires Accepts(unarchive.action) && OperationOf(unarchive) == Ok(Some(UnarchiveOperation))
    requires resource.kind == FileKind
    requires var response := reply(MetadataUrl(conn, resource.id));
             DeclaresJson(response) == Ok(true) && response.json.Some? && response.json.value.objectKey.Some? &&
             response.json.value.objectKey.value != "" &&
             var obj := ObjectRef(bucket, response.json.value.objectKey.value);
             obj in objects && obj !in denied && objects[obj].storageClass == Standard
    ensures var first := Handle(bucket, objects, denied, reply, conn, resource, archive);
            var second := Handle(bucket, first.objects, denied, reply, conn, resource, unarchive);
            first.outcome == Returned && second.outcome == Returned &&
            first.objects != objects && second.objects == objects
  {
    var response := reply(MetadataUrl(conn, resource.id));
    var obj := ObjectRef(bucket, response.json.value.objectKey.value);
    var first := Handle(bucket, objects, denied, reply, conn, resource, archive);
    assert first.objects == AfterClassChange(objects, denied, obj, ReducedRedundancy);
    assert first.objects[obj].storageClass == ReducedRedundancy != Standard;
    var second := Handle(bucket, first.objects, denied, reply, conn, resource, unarchive);
    assert second.objects == AfterClassChange(first.objects, denied, obj, Standard);
    assert second.objects[obj] == objects[obj];
    assert second.objects == objects by {
      forall o | o in objects ensures second.objects[o] == objects[o] {
        if o != obj {
          assert first.objects[o] == objects[o];
        }
      }
    }
  }

  /** Nothing checks the file's current status: archiving an archived file
      again sends the same requests again and leaves the same store. */
  lemma ArchiveTwice(bucket: string, objects: Store, denied: set<ObjectRef>, reply: string -> MetadataResponse,
                     conn: Connection, resource: Resource, parameters: Parameters)
    requires Accepts(parameters.action) && OperationOf(parameters) == Ok(Some(ArchiveOperation))
    ensures var first := Handle(bucket, objects, denied, reply, conn, resource, parameters);
            var second := Handle(bucket, first.objects, denied, reply, conn, resource, parameters);
            second.calls == first.calls && second.outcome == first.outcome && second.objects == first.objects
  {
    var first := Handle(bucket, objects, denied, reply, conn, resource, parameters);
    var response := reply(MetadataUrl(conn, resource.id));
    if resource.kind == FileKind && DeclaresJson(response) == Ok(true) && response.json.Some? &&
       response.json.value.objectKey.Some? && response.json.value.objectKey.value != "" {
      var obj := ObjectRef(bucket, response.json.value.objectKey.value);
      var second := Handle(bucket, first.objects, denied, reply, conn, resource, parameters);
      if obj in objects && obj !in denied {
        assert second.objects == first.objects by {
          forall o | o in first.objects ensures second.objects[o] == first.objects[o] {
          }
        }
      }
    }
  }
}
