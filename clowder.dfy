/** What both archival extractors receive from Clowder and how they read it:
    the message's resource and parameters, the reply of the file metadata
    endpoint, and the tests `process_message` makes before it does anything. */
module Clowder {
  import opened Python

  /** `resource['type']` and `resource['id']`. */
  datatype Resource = Resource(kind: string, id: string)

  /** The user's parameters, `parameters['parameters']`. */
  datatype UserParameters = UserParameters(operation: Option<string>)

  /** The message's `parameters` dictionary: `action` and `parameters` may be missing. */
  datatype Parameters = Parameters(action: Option<string>, userParameters: Option<UserParameters>)

  /** The `host` and `secret_key` that come with every message. */
  datatype Connection = Connection(host: string, secretKey: string)

  /** The fields of a file's metadata record the extractors look up. */
  datatype FileRecord = FileRecord(id: Option<string>, filepath: Option<string>, objectKey: Option<string>)

  /** A reply of the metadata endpoint: its Content-Type header, if any, and
      its body, if the body decodes as JSON. */
  datatype MetadataResponse = MetadataResponse(contentType: Option<string>, json: Option<FileRecord>)

  /** How `process_message` (or any method it calls) ends. */
  datatype Outcome = Returned | Raised(exception: Exception)

  /** How `__init__` ends: the extractor is built, or the process exits with
      `code` after rejecting `field`. */
  datatype Startup<F> = Ready | Exit(field: F, code: int)

  const ManualSubmission := "manual-submission"
  const ArchiveOperation := "archive"
  const UnarchiveOperation := "unarchive"
  const FileKind := "file"

  /** Python truthiness of an optional string. */
  predicate Truthy(s: Option<string>)
  {
    s.Some? && s.value != ""
  }

  /** `process_message` goes past `if action and action != 'manual-submission': return`. */
  function Accepts(action: Option<string>): (r: bool)
    ensures r <==> action == None || action == Some("") || action == Some(ManualSubmission)
  {
    !(Truthy(action) && action.value != ManualSubmission)
  }

  /** `parameters.get('parameters').get('operation')`: the first `get` returns
      None when the user parameters are missing, and the second then raises. */
  function OperationOf(parameters: Parameters): (r: Result<Option<string>>)
    ensures r.Raise? <==> parameters.userParameters.None?
    ensures r.Raise? ==> r.exception == AttributeError("get")
    ensures r.Ok? ==> r.value == parameters.userParameters.value.operation
  {
    match parameters.userParameters
    case None => Raise(AttributeError("get"))
    case Some(user) => Ok(user.operation)
  }

  /** `'%sapi/files/%s/metadata?key=%s' % (host, resource['id'], secret_key)`. */
  function MetadataUrl(conn: Connection, fileId: string): (r: string)
  {
    conn.host + "api/files/" + fileId + "/metadata?key=" + conn.secretKey
  }

  /** `'json' in r.headers.get('Content-Type')`: a missing header makes `in`
      raise TypeError. */
  function DeclaresJson(response: MetadataResponse): (r: Result<bool>)
    ensures r.Raise? <==> response.contentType.None?
    ensures r.Raise? ==> r.exception == TypeError
    ensures r.Ok? ==> (r.value <==> exists j :: 0 <= j <= |response.contentType.value| && OccursAt(response.contentType.value, "json", j))
  {
    match response.contentType
    case None => Raise(TypeError)
    case Some(contentType) => Ok(Contains(contentType, "json"))
  }

  /** `r.json()`: raises when the body is not JSON. */
  function DecodeJson(response: MetadataResponse): (r: Result<FileRecord>)
    ensures r.Ok? <==> response.json.Some?
    ensures r.Ok? ==> r.value == response.json.value
    ensures r.Raise? ==> r.exception == JsonDecodeError
  {
    match response.json
    case None => Raise(JsonDecodeError)
    case Some(record) => Ok(record)
  }
}
