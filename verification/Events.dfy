/** Immutable execution events. A hash is modelled by its preimage, so equal digests mean equal contents. */
module Events {
  import opened Wrappers
  import opened Relational
  import Memory
  import opened Context
  import opened Payloads

  // What one request derives further identities for.
  datatype Purpose =
    | ChatContext | ChatPending | ChatSucceeded | ChatFailed | ChatInterrupted | ChatToolRequest | ChatResponse
    | ReadClaimed | ReadObservation | ReadFailed(failure: FailureKind)
    | FollowupPending | FollowupSucceeded | FollowupFailed | FollowupResponse
    | OtherPurpose(name: string)

  // An identity handed in by a client, or derived from one by hashing it with a purpose.
  datatype EventId = Client(token: nat) | Derived(token: nat, purpose: Purpose)

  datatype RunId = ChatRun(request: nat) | OtherRun(token: nat)

  datatype Denial =
    | AuthorizationInvalid | ScopeUnknown | GrantConflict | GrantNotFound | GrantConsumed | SubjectMismatch
    | GrantNotYetValid | GrantExpired | ExtensionDenied | ScopeUnavailable | FileUnavailable | ScopeEscape
    | SizeExceeded | FileChanged | EncodingDenied

  datatype FailureKind =
    | RequestFailure | ResponseFailure | TimeoutFailure | RepeatedToolRequest | DeniedFailure(code: Denial)

  datatype ActorType = Human | Model | Tool | System

  datatype Actor = Actor(name: string, kind: ActorType)

  // A time a client hands in: the instant, and its distance from universal time in microseconds.
  datatype Timestamp = Timestamp(instant: int, offset: int)

  // Contracts write the offset in hours and minutes alone.
  predicate ContractTime(t: Timestamp) {
    t.offset % 60000000 == 0
  }

  datatype ProviderIdentity = ProviderIdentity(kind: string, model: string, actor: string, operation: string, configuration: Memory.Digest)

  datatype ModelIdentity = ModelIdentity(provider: string, name: string, configuration: Memory.Digest)

  datatype EventType = Message | ModelCall | ToolCall | Observed | MemoryProposal | Approval | CorrectionEvent | Retraction | Outcome

  datatype StepKind =
    | RequestRecorded | ContextCompiled | ModelCallPending | ModelCallSucceeded | ModelCallFailed | ModelCallInterrupted
    | ToolRequested | GrantApproved | GrantDenied | ToolCallClaimed | Observation | ToolFailed | FinalResponse

  // The operation a payload declares: none, a step of a run, the one older name of a model call, or something else.
  datatype Operation =
    | NoOperation | Step(kind: StepKind) | FakeProviderChat
    | ArtifactImport | ArtifactAssociation | AssociationReview(proposal: Option<EventId>) | OtherOperation(name: string)

  datatype ToolRequest = ToolRequest(scope: string, target: string, maxBytes: nat)

  datatype Reading = Reading(grant: nat, scope: string, target: string, content: string)

  datatype Citation = Citation(record: Memory.RecordId, hash: Memory.Digest, title: string, rank: int, score: int)

  // What an artifact holds, and the content address of an artifact.
  datatype Blob = ManifestBlob(manifest: ContextManifest) | ReadingBlob(reading: Reading) | Bytes(content: string)

  datatype Ref = RefTo(blob: Blob)

  datatype SelectedFile = SelectedFile(scope: string, target: string)

  datatype ImportFailure = ScopeMissing | SourceUnavailable | PathEscape | ExtensionNotAllowed | SourceTooLarge | StoreFailed | SourceUnreadable

  datatype Detail =
    | NoDetail
    | RequestDetail(message: string, budget: int)
    | ContextDetail(manifest: Ref)
    | ProviderDetail(provider: ProviderIdentity, sources: seq<Ref>)
    | FailureDetail(failure: FailureKind)
    | ToolDetail(tool: ToolRequest)
    | DecisionDetail(approved: bool, grant: nat, toolEvent: EventId, subject: string, requested: ToolRequest)
    | ClaimDetail(claimed: nat, use: ToolRequest)
    | ReadingDetail(observed: nat, content: Ref)
    | AnswerDetail(answer: string, citations: seq<Citation>)
    | ImportedDetail(source: SelectedFile, name: string, media: string, logical: nat, unique: nat, deduplicated: bool)
    | ImportFailedDetail(code: ImportFailure, source: SelectedFile, name: string)
    | AssociationDetail(record: Option<Memory.RecordId>)
    | ReviewDetail(accepted: bool, target: Memory.RecordId)

  datatype Payload = Payload(operation: Operation, detail: Detail)

  datatype Event = Event(
    id: EventId,
    session: string,
    run: RunId,
    task: string,
    actor: Actor,
    eventType: EventType,
    observedAt: int,
    recordedAt: int,
    refs: seq<Ref>,
    parents: seq<EventId>,
    trust: TrustClass,
    payload: Payload,
    model: Option<ModelIdentity>)

  // ---------- the JSON form of a payload ----------

  // Identities and digests count for their length alone.
  const IDENTITY := Payloads.Text("evt_" + Zeros(26))
  const DIGEST := Payloads.Text("sha256:" + Zeros(64))

  function Zeros(n: nat): (s: string)
    ensures |s| == n && forall i :: 0 <= i < n ==> s[i] == '0'
  {
    if n == 0 then "" else Zeros(n - 1) + "0"
  }

  function DenialCode(code: Denial): string {
    match code
    case AuthorizationInvalid => "authorization_invalid"
    case ScopeUnknown => "scope_unknown"
    case GrantConflict => "grant_conflict"
    case GrantNotFound => "grant_not_found"
    case GrantConsumed => "grant_consumed"
    case SubjectMismatch => "subject_mismatch"
    case GrantNotYetValid => "grant_not_yet_valid"
    case GrantExpired => "grant_expired"
    case ExtensionDenied => "extension_denied"
    case ScopeUnavailable => "scope_unavailable"
    case FileUnavailable => "file_unavailable"
    case ScopeEscape => "scope_escape"
    case SizeExceeded => "size_exceeded"
    case FileChanged => "file_changed"
    case EncodingDenied => "encoding_denied"
  }

  function FailureCode(failure: FailureKind): string {
    match failure
    case RequestFailure => "request"
    case ResponseFailure => "response"
    case TimeoutFailure => "timeout"
    case RepeatedToolRequest => "repeated_tool_request"
    case DeniedFailure(code) => DenialCode(code)
  }

  function ImportCode(code: ImportFailure): string {
    match code
    case ScopeMissing => "scope_unavailable"
    case SourceUnavailable => "source_unavailable"
    case PathEscape => "path_escape"
    case ExtensionNotAllowed => "extension_not_allowed"
    case SourceTooLarge => "source_too_large"
    case StoreFailed => "artifact_store_error"
    case SourceUnreadable => "source_read_failed"
  }

  function StepName(k: StepKind): string {
    match k
    case RequestRecorded => "request_recorded"
    case ContextCompiled => "context_compiled"
    case ModelCallPending => "model_call_pending"
    case ModelCallSucceeded => "model_call_succeeded"
    case ModelCallFailed => "model_call_failed"
    case ModelCallInterrupted => "model_call_interrupted"
    case ToolRequested => "tool_requested"
    case GrantApproved => "grant_approved"
    case GrantDenied => "grant_denied"
    case ToolCallClaimed => "tool_call_claimed"
    case Observation => "observation"
    case ToolFailed => "tool_failed"
    case FinalResponse => "final_response"
  }

  function Member(name: string, v: Value): Property {
    Property(Some(name), v)
  }

  function TextMember(name: string, text: string): Property {
    Member(name, Payloads.Text(text))
  }

  function OperationMembers(op: Operation): seq<Property> {
    match op
    case NoOperation => []
    case Step(k) => [TextMember("operation", StepName(k))]
    case FakeProviderChat => [TextMember("operation", "fake_provider_chat")]
    case ArtifactImport => [TextMember("operation", "artifact_import")]
    case ArtifactAssociation => [TextMember("operation", "artifact_association")]
    case AssociationReview(proposal) =>
      [TextMember("operation", "artifact_association_review")] + (if proposal.Some? then [Member("proposal_id", IDENTITY)] else [])
    case OtherOperation(name) => [TextMember("operation", name)]
  }

  function RequestForm(tool: ToolRequest): Value {
    Object(false, [Member("schema_version", Int(1)), TextMember("operation", "file.read"), TextMember("scope_id", tool.scope),
                   TextMember("target", tool.target), Member("max_bytes", Int(tool.maxBytes))])
  }

  function CitationForm(c: Citation): Value {
    Object(false, [Member("record_id", IDENTITY), Member("content_hash", DIGEST), TextMember("title", c.title),
                   Member("retrieval_rank", Int(c.rank)), Member("retrieval_score", Int(c.score))])
  }

  function CitationForms(citations: seq<Citation>): Value {
    Array(false, seq(|citations|, i requires 0 <= i < |citations| => CitationForm(citations[i])))
  }

  function SourceMembers(sources: seq<Ref>): seq<Property> {
    (if |sources| > 0 then [Member("context_manifest_id", IDENTITY), Member("context_manifest_ref", DIGEST)] else [])
    + (if |sources| > 1 then [Member("observation_ref", DIGEST)] else [])
  }

  function ReadingMembers(content: Ref): seq<Property> {
    match content.blob
    case ReadingBlob(r) =>
      [TextMember("scope_id", r.scope), TextMember("target", r.target), Member("byte_count", Int(|r.content|)), Member("content_hash", DIGEST)]
    case _ => []
  }

  function DetailMembers(d: Detail): seq<Property> {
    match d
    case NoDetail => []
    case RequestDetail(message, budget) => [TextMember("message", message), Member("token_budget", Int(budget))]
    case ContextDetail(_) => [Member("context_manifest_id", IDENTITY), Member("context_manifest_ref", DIGEST)]
    case ProviderDetail(p, sources) =>
      [TextMember("provider_kind", p.kind), TextMember("provider_model", p.model), TextMember("provider_actor_id", p.actor),
       TextMember("provider_operation", p.operation)] + SourceMembers(sources)
    case FailureDetail(failure) => [TextMember("failure_kind", FailureCode(failure))]
    case ToolDetail(tool) => [Member("request", RequestForm(tool))]
    case DecisionDetail(approved, _, _, subject, tool) =>
      [TextMember("decision", if approved then "approved" else "denied"), Member("grant_id", IDENTITY),
       Member("tool_request_event_id", IDENTITY), TextMember("subject_actor_id", subject), TextMember("scope_id", tool.scope),
       TextMember("target", tool.target), Member("max_bytes", Int(tool.maxBytes))]
    case ClaimDetail(_, tool) => [Member("grant_id", IDENTITY), TextMember("scope_id", tool.scope), TextMember("target", tool.target)]
    case ReadingDetail(_, content) => [Member("grant_id", IDENTITY), Member("observation_ref", DIGEST)] + ReadingMembers(content)
    case AnswerDetail(answer, citations) => [TextMember("answer", answer), Member("citations", CitationForms(citations))]
    case ImportedDetail(source, name, media, logical, unique, deduplicated) =>
      [TextMember("status", "imported"), TextMember("source_scope_id", source.scope), TextMember("source_name", name),
       Member("selection_hash", DIGEST), TextMember("media_type", media), Member("logical_bytes", Int(logical)),
       Member("unique_physical_bytes", Int(unique)), Member("deduplicated", Payloads.Bool(deduplicated))]
    case ImportFailedDetail(code, source, name) =>
      [TextMember("status", "failed"), TextMember("error_code", ImportCode(code)), TextMember("source_scope_id", source.scope),
       TextMember("source_name", name), Member("selection_hash", DIGEST)]
    case AssociationDetail(record) =>
      [TextMember("status", "pending_review")] + (if record.Some? then [Member("target_record_id", IDENTITY)] else [])
    case ReviewDetail(accepted, _) =>
      [TextMember("decision", if accepted then "approved" else "rejected"), Member("target_record_id", IDENTITY)]
  }

  // The JSON value a payload is stored as.
  function Form(p: Payload): Value {
    Object(false, OperationMembers(p.operation) + DetailMembers(p.detail))
  }

  // ---------- the contracts of what an event is made of ----------

  predicate LowerAlphaNumeric(c: char) {
    'a' <= c <= 'z' || '0' <= c <= '9'
  }

  function KindPrefix(kind: ActorType): string {
    match kind
    case Human => "human_"
    case Model => "model_"
    case Tool => "tool_"
    case System => "system_"
  }

  predicate Slug(s: string) {
    && 2 <= |s| <= 63
    && LowerAlphaNumeric(s[0])
    && forall i :: 1 <= i < |s| ==> LowerAlphaNumeric(s[i]) || s[i] == '_' || s[i] == '-'
  }

  // The name of an actor begins with its kind.
  predicate ActorFits(a: Actor) {
    KindPrefix(a.kind) <= a.name && Slug(a.name[|KindPrefix(a.kind)|..])
  }

  predicate IsSpace(c: char) {
    || '\U{9}' <= c <= '\U{D}' || c == ' ' || c == '\U{85}' || c == '\U{A0}' || c == '\U{1680}'
    || '\U{2000}' <= c <= '\U{200A}' || c == '\U{2028}' || c == '\U{2029}' || c == '\U{202F}' || c == '\U{205F}' || c == '\U{3000}'
  }

  const MAX_LABEL := 128

  // A label of a model identity: not blank, and not longer than its contract allows.
  predicate LabelFits(s: string) {
    |s| <= MAX_LABEL && exists i :: 0 <= i < |s| && !IsSpace(s[i])
  }

  predicate ModelFits(m: ModelIdentity) {
    LabelFits(m.provider) && LabelFits(m.name)
  }

  predicate TrustAllowed(kind: ActorType, trust: TrustClass) {
    match kind
    case Human => trust == HumanVerified || trust == ExternalUntrusted
    case Model => trust == ModelGenerated
    case Tool => trust == ToolVerified || trust == ExternalUntrusted
    case System => trust == SystemTrust || trust == ExternalUntrusted
  }

  predicate NeedsModel(e: Event) {
    e.eventType == ModelCall || e.actor.kind == Model
  }

  // The validators of the event contract and of the contracts it is made of.
  predicate ValidEvent(e: Event) {
    && ActorFits(e.actor)
    && (e.model.Some? ==> ModelFits(e.model.value))
    && Acceptable(Form(e.payload))
    && NoDuplicates(e.refs)
    && NoDuplicates(e.parents)
    && e.id !in e.parents
    && e.recordedAt >= e.observedAt
    && (NeedsModel(e) <==> e.model.Some?)
    && TrustAllowed(e.actor.kind, e.trust)
  }
}
