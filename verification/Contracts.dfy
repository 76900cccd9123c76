/** The coding request: validation, its dictionary form, and the hash that decides
  * whether a retransmission is the same request.
  */
module Contracts {
  import opened Wrappers

  /** The fields the contract names; any other field name is `Other`. */
  datatype Key =
    | Schema | WorkflowId | RunId | ExecutionId | Iteration | WorkspaceId
    | ExpectedBranch | ExpectedHead | HandoffMarkdown | RequestSha256 | ExpectedCodeFingerprint
    | Other(name: string)

  datatype Json =
    | Null
    | Bool(b: bool)
    | Int(i: int)
    | Float(r: real)
    | Str(s: string)
    | List(items: seq<Json>)
    | Object(fields: map<Key, Json>)

  const PROFILE := "urn:handoff-automation:coding-task:v1"

  datatype ContractError =
    | NotAnObject
    | UnsupportedSchema
    | BadMarkdown
    | NotAString(key: Key)
    | DigestMismatch
    | BadFingerprint
    | NotAUuid(key: Key)
    | BadIteration

  datatype CodingRequest = CodingRequest(
    workflowId: string,
    runId: string,
    executionId: string,
    iteration: int,
    workspaceId: string,
    expectedBranch: string,
    expectedHead: string,
    handoffMarkdown: string,
    requestSha256: string,
    codeFingerprint: Option<string>)

  /** What the contract takes from outside: SHA-256, the UUID syntax, and the
    * double nearest to an integer. */
  datatype Platform = Platform(sha256: string -> string, isUuid: string -> bool, nearest: int -> real)

  /** The named fields of a payload, `Null` where absent. */
  datatype Fields = Fields(
    schema: Json, workflowId: Json, runId: Json, executionId: Json, iteration: Json, workspaceId: Json,
    branch: Json, head: Json, markdown: Json, sha256: Json, fingerprint: Json)

  function Get(payload: map<Key, Json>, key: Key): Json {
    if key in payload then payload[key] else Null
  }

  function FieldsOf(payload: map<Key, Json>): Fields {
    Fields(Get(payload, Schema), Get(payload, WorkflowId), Get(payload, RunId), Get(payload, ExecutionId),
           Get(payload, Iteration), Get(payload, WorkspaceId), Get(payload, ExpectedBranch),
           Get(payload, ExpectedHead), Get(payload, HandoffMarkdown), Get(payload, RequestSha256),
           Get(payload, ExpectedCodeFingerprint))
  }

  /** `_require_str` */
  function RequireStr(value: Json, key: Key): Result<string, ContractError> {
    if value.Str? && value.s != "" then Ok(value.s) else Err(NotAString(key))
  }

  /** `_require_uuid` */
  function RequireUuid(on: Platform, value: Json, key: Key): Result<string, ContractError> {
    var text := RequireStr(value, key);
    if text.Ok? && !on.isUuid(text.value) then Err(NotAUuid(key)) else text
  }

  /** `_require_iteration`: an integer, or a float with an integer value. */
  function RequireIteration(on: Platform, value: Json): Result<int, ContractError> {
    match value
    case Int(i) => if on.nearest(i) == i as real && i >= 1 then Ok(i) else Err(BadIteration)
    case Float(r) => if r == r.Floor as real && r.Floor >= 1 then Ok(r.Floor) else Err(BadIteration)
    case _ => Err(BadIteration)
  }

  /** The optional workspace fingerprint: absent, null, or a non-empty string. */
  function OptionalFingerprint(value: Json): Result<Option<string>, ContractError> {
    match value
    case Null => Ok(None)
    case Str(s) => if s != "" then Ok(Some(s)) else Err(BadFingerprint)
    case _ => Err(BadFingerprint)
  }

  /** The identity fields, in the order they are validated. */
  function BuildRequest(on: Platform, f: Fields, markdown: string, digest: string,
                        fingerprint: Option<string>): Result<CodingRequest, ContractError>
  {
    var workflow, run := RequireStr(f.workflowId, WorkflowId), RequireStr(f.runId, RunId);
    var execution, iteration := RequireUuid(on, f.executionId, ExecutionId), RequireIteration(on, f.iteration);
    var workspace := RequireStr(f.workspaceId, WorkspaceId);
    var branch, head := RequireStr(f.branch, ExpectedBranch), RequireStr(f.head, ExpectedHead);
    if workflow.Err? then Err(workflow.error)
    else if run.Err? then Err(run.error)
    else if execution.Err? then Err(execution.error)
    else if iteration.Err? then Err(iteration.error)
    else if workspace.Err? then Err(workspace.error)
    else if branch.Err? then Err(branch.error)
    else if head.Err? then Err(head.error)
    else Ok(CodingRequest(workflow.value, run.value, execution.value, iteration.value, workspace.value,
                          branch.value, head.value, markdown, digest, fingerprint))
  }

  function ParseFields(on: Platform, f: Fields): Result<CodingRequest, ContractError> {
    var digest, fingerprint := RequireStr(f.sha256, RequestSha256), OptionalFingerprint(f.fingerprint);
    if f.schema != Str(PROFILE) then Err(UnsupportedSchema)
    else if !f.markdown.Str? || f.markdown.s == "" then Err(BadMarkdown)
    else if digest.Err? then Err(digest.error)
    else if digest.value != on.sha256(f.markdown.s) then Err(DigestMismatch)
    else if fingerprint.Err? then Err(fingerprint.error)
    else BuildRequest(on, f, f.markdown.s, digest.value, fingerprint.value)
  }

  /** `parse_coding_request` */
  function Parse(on: Platform, payload: Json): Result<CodingRequest, ContractError> {
    if payload.Object? then ParseFields(on, FieldsOf(payload.fields)) else Err(NotAnObject)
  }

  /** `CodingRequest.to_dict` */
  function ToDict(r: CodingRequest): Json {
    var fields := map[
      Schema := Str(PROFILE),
      WorkflowId := Str(r.workflowId),
      RunId := Str(r.runId),
      ExecutionId := Str(r.executionId),
      Iteration := Int(r.iteration),
      WorkspaceId := Str(r.workspaceId),
      ExpectedBranch := Str(r.expectedBranch),
      ExpectedHead := Str(r.expectedHead),
      HandoffMarkdown := Str(r.handoffMarkdown),
      RequestSha256 := Str(r.requestSha256)];
    Object(if r.codeFingerprint.Some?
           then fields[ExpectedCodeFingerprint := Str(r.codeFingerprint.value)]
           else fields)
  }

  /** A dictionary after the message transport, where every number is a double. */
  function Carried(on: Platform, payload: Json): Json {
    if payload.Object? then
      Object(map k | k in payload.fields ::
        if payload.fields[k].Int? then Float(on.nearest(payload.fields[k].i)) else payload.fields[k])
    else payload
  }

  /** A request that validation can produce. */
  predicate Valid(on: Platform, r: CodingRequest) {
    && r.workflowId != "" && r.runId != "" && r.executionId != "" && on.isUuid(r.executionId)
    && on.nearest(r.iteration) == r.iteration as real && r.iteration >= 1
    && r.workspaceId != "" && r.expectedBranch != "" && r.expectedHead != ""
    && r.handoffMarkdown != "" && r.requestSha256 != "" && r.requestSha256 == on.sha256(r.handoffMarkdown)
    && (r.codeFingerprint.Some? ==> r.codeFingerprint.value != "")
  }

  /** The named fields of a request's dictionary, with its iteration as `iteration`. */
  function DictFields(r: CodingRequest, iteration: Json): Fields {
    Fields(Str(PROFILE), Str(r.workflowId), Str(r.runId), Str(r.executionId), iteration, Str(r.workspaceId),
           Str(r.expectedBranch), Str(r.expectedHead), Str(r.handoffMarkdown), Str(r.requestSha256),
           if r.codeFingerprint.Some? then Str(r.codeFingerprint.value) else Null)
  }

  lemma FieldsOfDict(on: Platform, r: CodingRequest)
    ensures FieldsOf(ToDict(r).fields) == DictFields(r, Int(r.iteration))
    ensures Carried(on, ToDict(r)).Object?
    ensures FieldsOf(Carried(on, ToDict(r)).fields) == DictFields(r, Float(on.nearest(r.iteration)))
  {
  }

  /** Exactly the valid requests come back from their dictionary form. */
  lemma ParseOfDict(on: Platform, r: CodingRequest)
    ensures Parse(on, ToDict(r)) == Ok(r) <==> Valid(on, r)
  {
    FieldsOfDict(on, r);
  }

  /** And nothing but valid requests ever comes out of validation, of a payload that names
    * the profile; an integral float read from JSON is a double. */
  lemma ParsedIsValid(on: Platform, payload: Json)
    requires Parse(on, payload).Ok?
    requires var n := FieldsOf(payload.fields).iteration; n.Float? ==> on.nearest(n.r.Floor) == n.r.Floor as real
    ensures Valid(on, Parse(on, payload).value) && FieldsOf(payload.fields).schema == Str(PROFILE)
  {
  }

  /** What the server parses when this request is saved, loaded and sent. */
  function Received(on: Platform, r: CodingRequest): Result<CodingRequest, ContractError> {
    Parse(on, Carried(on, ToDict(r)))
  }

  /** Retransmitting a validated request is the same request to the server. */
  lemma ReceivedIsSent(on: Platform, r: CodingRequest)
    requires Valid(on, r)
    ensures Received(on, r) == Ok(r)
  {
    FieldsOfDict(on, r);
  }

  /** However often it is parsed, saved and sent again. */
  lemma {:induction false} RetransmissionIsTheSame(on: Platform, sent: seq<CodingRequest>, n: nat)
    requires n < |sent| && Valid(on, sent[0])
    requires forall i | 0 < i < |sent| :: Received(on, sent[i - 1]) == Ok(sent[i])
    ensures sent[n] == sent[0]
  {
    if n > 0 {
      RetransmissionIsTheSame(on, sent, n - 1);
      ReceivedIsSent(on, sent[0]);
      assert Received(on, sent[n - 1]) == Ok(sent[n]);
    }
  }

  /** `request_canonical_hash`: SHA-256 of the canonical text of the dictionary,
    * taken here as injective, so the dictionary stands for its hash. */
  function Hash(r: CodingRequest): Json { ToDict(r) }

  /** A changed request has another hash. */
  lemma HashTellsRequestsApart(a: CodingRequest, b: CodingRequest)
    ensures Hash(a) == Hash(b) <==> a == b
  {
    assert FieldsOf(ToDict(a).fields) == DictFields(a, Int(a.iteration));
    assert FieldsOf(ToDict(b).fields) == DictFields(b, Int(b.iteration));
  }
}
