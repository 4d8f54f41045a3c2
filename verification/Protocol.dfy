/** The two services that drive a run, as step programs that may stop between any two steps. */
module Protocol {
  import opened Wrappers
  import opened Relational
  import opened Payloads
  import opened Events
  import opened EventContracts
  import opened Ledger
  import opened Runs
  import opened Context
  import Crockford
  import Memory

  datatype ChatRequest = ChatRequest(id: nat, session: string, message: string, budget: nat)

  const MAX_MESSAGE := 16384
  const MAX_BUDGET := 32768
  const MAX_ANSWER := 1048576

  datatype InspectError = NotFound | Incomplete

  // The bounds of the request contract.
  predicate RequestFits(q: ChatRequest) {
    1 <= |q.message| <= MAX_MESSAGE && 1 <= q.budget <= MAX_BUDGET
  }

  datatype Decision = Decision(id: nat, approved: bool)

  datatype ProviderResult = Answers(text: string) | Asks(tool: ToolRequest) | Fails(failure: FailureKind) | Breaks

  // The kinds of failure a provider has.
  predicate OfProvider(failure: FailureKind) {
    failure == RequestFailure || failure == ResponseFailure || failure == TimeoutFailure
  }

  // The bounds of the result contract; a provider may answer more than an event can record.
  predicate ResultFits(result: ProviderResult) {
    match result
    case Answers(text) => 1 <= |text| <= MAX_ANSWER
    case Asks(tool) => ToolFits(tool)
    case Fails(failure) => OfProvider(failure)
    case Breaks => true
  }

  datatype Response =
    | Answered(session: string, run: nat, task: string, provider: string, model: string, answer: string, citations: seq<Citation>, manifest: ContextManifest)
    | Awaiting(session: string, run: nat, task: string, provider: string, model: string, subject: string, toolEvent: EventId, tool: ToolRequest)
    | DeniedReply(session: string, run: nat, toolEvent: EventId)
    | Refusing(error: CallError)
    | Raising(error: CallError)

  // What a call raises: it refuses before it has stored an event, or raises after that. A failed provider raises by the
  // kind of its failure, and so does reading such a run back.
  datatype CallError =
    | KeyConflict
    | NotInspectable(inspection: InspectError)
    | DispatchUncertain
    | ProviderFailed(kind: FailureKind)
    | WasInterrupted
    | NotPending
    | IdentityMismatch
    | LoopFailed(kind: FailureKind)
    | FollowupRaised
    | FollowupBroke
    | GrantRefused
    | ContextUnavailable
    | EventRejected
    | LedgerFailed(error: LedgerError)

  // Task identities are derived from requests; what matters is that a request determines its own.
  function TaskOf(run: nat): string {
    "tsk_" + Crockford.Token(run, Crockford.TOKEN_LENGTH)
  }

  const RUNTIME := Actor("system_agent_runtime", System)
  const FILE_TOOL := Actor("tool_file_read", Tool)

  function ModelOf(p: ProviderIdentity): ModelIdentity {
    ModelIdentity(p.kind, p.model, p.configuration)
  }

  // ---------- the events of the chat service ----------

  function RunEvent(session: string, run: nat, id: EventId, actor: Actor, k: StepKind, at: int, refs: seq<Ref>,
                    parents: seq<EventId>, trust: TrustClass, detail: Detail, model: Option<ModelIdentity>): Event
  {
    Event(id, session, ChatRun(run), TaskOf(run), actor, TypeOf(k), at, at, refs, parents, trust, Payload(Step(k), detail), model)
  }

  function RequestEvent(q: ChatRequest, actor: string, at: int): Event {
    RunEvent(q.session, q.id, Client(q.id), Actor(actor, Human), RequestRecorded, at, [], [], ExternalUntrusted,
             RequestDetail(q.message, q.budget), None)
  }

  function ContextEvent(q: ChatRequest, manifest: Ref, at: int): Event {
    RunEvent(q.session, q.id, Derived(q.id, ChatContext), RUNTIME, ContextCompiled, at, [manifest], [Client(q.id)],
             SystemTrust, ContextDetail(manifest), None)
  }

  function PendingEvent(q: ChatRequest, p: ProviderIdentity, manifest: Ref, at: int): Event {
    RunEvent(q.session, q.id, Derived(q.id, ChatPending), RUNTIME, ModelCallPending, at, [], [Derived(q.id, ChatContext)],
             SystemTrust, ProviderDetail(p, [manifest]), Some(ModelOf(p)))
  }

  function TerminalEvent(q: ChatRequest, failure: Option<FailureKind>, at: int): Event {
    var k := if failure.Some? then ModelCallFailed else ModelCallInterrupted;
    RunEvent(q.session, q.id, Derived(q.id, if failure.Some? then ChatFailed else ChatInterrupted), RUNTIME, k, at, [],
             [Derived(q.id, ChatPending)], SystemTrust, if failure.Some? then FailureDetail(failure.value) else NoDetail, None)
  }

  function SuccessEvent(q: ChatRequest, p: ProviderIdentity, at: int): Event {
    RunEvent(q.session, q.id, Derived(q.id, ChatSucceeded), Actor(p.actor, Model), ModelCallSucceeded, at, [],
             [Derived(q.id, ChatPending)], ModelGenerated, ProviderDetail(p, []), Some(ModelOf(p)))
  }

  function ToolRequestEvent(q: ChatRequest, p: ProviderIdentity, tool: ToolRequest, at: int): Event {
    RunEvent(q.session, q.id, Derived(q.id, ChatToolRequest), Actor(p.actor, Model), ToolRequested, at, [],
             [Derived(q.id, ChatSucceeded)], ModelGenerated, ToolDetail(tool), Some(ModelOf(p)))
  }

  function AnswerEvent(q: ChatRequest, p: ProviderIdentity, answer: string, citations: seq<Citation>, at: int): Event {
    RunEvent(q.session, q.id, Derived(q.id, ChatResponse), Actor(p.actor, Model), FinalResponse, at, [],
             [Derived(q.id, ChatSucceeded)], ModelGenerated, AnswerDetail(answer, citations), Some(ModelOf(p)))
  }

  // ---------- the events of the decision service ----------

  // One call of the decision service, with what it read from the run before it began.
  datatype Call = Call(
    session: string,
    run: nat,
    toolEvent: EventId,
    decision: Decision,
    key: Key,
    actor: string,
    provider: ProviderIdentity,
    tool: ToolRequest,
    manifest: ContextManifest)

  function DecisionEvent(c: Call, at: int): Event {
    RunEvent(c.session, c.run, Client(c.decision.id), Actor(c.actor, Human), if c.decision.approved then GrantApproved else GrantDenied,
             at, [], [c.toolEvent], HumanVerified,
             DecisionDetail(c.decision.approved, c.decision.id, c.toolEvent, c.provider.actor, c.tool), None)
  }

  function ToolFailedEvent(c: Call, parent: EventId, failure: FailureKind, at: int): Event {
    RunEvent(c.session, c.run, Derived(c.decision.id, ReadFailed(failure)), RUNTIME, ToolFailed, at, [], [parent], SystemTrust,
             FailureDetail(failure), None)
  }

  function ClaimedEvent(c: Call, at: int): Event {
    RunEvent(c.session, c.run, Derived(c.decision.id, ReadClaimed), FILE_TOOL, ToolCallClaimed, at, [], [Client(c.decision.id)],
             ToolVerified, ClaimDetail(c.decision.id, c.tool), None)
  }

  function ObservationEvent(c: Call, content: Ref, at: int): Event {
    RunEvent(c.session, c.run, Derived(c.decision.id, ReadObservation), FILE_TOOL, Observation, at, [content],
             [Derived(c.decision.id, ReadClaimed)], ExternalUntrusted, ReadingDetail(c.decision.id, content), None)
  }

  function FollowupPendingEvent(c: Call, content: Ref, at: int): Event {
    RunEvent(c.session, c.run, Derived(c.decision.id, FollowupPending), RUNTIME, ModelCallPending, at, [content],
             [Derived(c.decision.id, ReadObservation)], SystemTrust,
             ProviderDetail(c.provider, [RefTo(ManifestBlob(c.manifest)), content]), Some(ModelOf(c.provider)))
  }

  function FollowupFailedEvent(c: Call, failure: FailureKind, at: int): Event {
    RunEvent(c.session, c.run, Derived(c.decision.id, FollowupFailed), RUNTIME, ModelCallFailed, at, [],
             [Derived(c.decision.id, FollowupPending)], SystemTrust, FailureDetail(failure), None)
  }

  function FollowupSuccessEvent(c: Call, at: int): Event {
    RunEvent(c.session, c.run, Derived(c.decision.id, FollowupSucceeded), Actor(c.provider.actor, Model), ModelCallSucceeded, at, [],
             [Derived(c.decision.id, FollowupPending)], ModelGenerated, ProviderDetail(c.provider, []), Some(ModelOf(c.provider)))
  }

  function FollowupAnswerEvent(c: Call, answer: string, citations: seq<Citation>, at: int): Event {
    RunEvent(c.session, c.run, Derived(c.decision.id, FollowupResponse), Actor(c.provider.actor, Model), FinalResponse, at, [],
             [Derived(c.decision.id, FollowupSucceeded)], ModelGenerated, AnswerDetail(answer, citations), Some(ModelOf(c.provider)))
  }

  // ---------- the selected records ----------

  predicate HasRank(i: ContextItem) {
    i.rank.Some? && i.score.Some?
  }

  function CitationOf(i: ContextItem, title: string): Citation
    requires HasRank(i)
  {
    Citation(i.record, i.hash, title, i.rank.value, i.score.value)
  }

  // The citations of a chat call: one for each item of its manifest.
  function CitationsOf(m: ContextManifest): seq<Citation>
    requires forall i :: i in m.items ==> HasRank(i)
  {
    seq(|m.items|, k requires 0 <= k < |m.items| => CitationOf(m.items[k], m.items[k].title.raw))
  }

  // The content an item selected is still the current content of its record, and approved.
  predicate IsCurrent(t: Memory.Tables, i: ContextItem) {
    var r := Memory.Get(t, i.record);
    r.Some? && r.value.hash == i.hash && r.value.authority == Memory.Approved && HasRank(i)
  }

  // The citations of a follow-up call; none when one of the selected contents is no longer to be had.
  function Loaded(t: Memory.Tables, m: ContextManifest): Option<seq<Citation>> {
    if forall i :: i in m.items ==> IsCurrent(t, i)
      then Some(seq(|m.items|, k requires 0 <= k < |m.items| && IsCurrent(t, m.items[k]) => LoadedCitation(t, m.items[k]))) else None
  }

  function LoadedCitation(t: Memory.Tables, i: ContextItem): Citation
    requires IsCurrent(t, i)
  {
    CitationOf(i, Memory.Get(t, i.record).value.body.title.raw)
  }

  // ---------- which events can be built ----------

  lemma {:induction false} SystemActorsFit()
    ensures ActorFits(RUNTIME) && ActorFits(FILE_TOOL)
  {
    SlugsFit();
    hide Slug;
    assert RUNTIME.name == "system_" + "agent_runtime" && FILE_TOOL.name == "tool_" + "file_read";
    assert RUNTIME.name[|"system_"|..] == "agent_runtime" && FILE_TOOL.name[|"tool_"|..] == "file_read";
  }

  lemma {:induction false} SlugsFit()
    ensures Slug("agent_runtime") && Slug("file_read")
  {
  }

  lemma {:induction false} ModelOfFits(p: ProviderIdentity)
    requires IdentityFits(p)
    ensures ModelFits(ModelOf(p)) <==> LabelFits(p.model)
  {
    assert !IsSpace(p.kind[0]);
  }

  // The validators that do not look at the payload, the actor or the model.
  predicate Linked(e: Event) {
    && NoDuplicates(e.refs) && NoDuplicates(e.parents) && e.id !in e.parents && e.recordedAt >= e.observedAt
    && (NeedsModel(e) <==> e.model.Some?) && TrustAllowed(e.actor.kind, e.trust)
  }

  lemma {:induction false} ValidWhen(e: Event)
    ensures ValidEvent(e)
      <==> Linked(e) && ActorFits(e.actor) && (e.model.Some? ==> ModelFits(e.model.value)) && Acceptable(Form(e.payload))
  {
    hide Form, Acceptable, ActorFits, ModelFits;
  }

  lemma {:induction false} RequestIsValid(q: ChatRequest, actor: string, at: int)
    requires RequestFits(q)
    ensures ValidEvent(RequestEvent(q, actor, at))
      <==> ActorFits(Actor(actor, Human)) && TextBytes(q.message) + DecimalLength(q.budget) <= 65475
  {
    hide TaskOf, Form, Acceptable, ActorFits, TextBytes, DecimalLength;
    ValidWhen(RequestEvent(q, actor, at));
    RequestFitsExactly(q.message, q.budget);
  }

  lemma {:induction false} ContextIsValid(q: ChatRequest, x: Ref, at: int)
    ensures ValidEvent(ContextEvent(q, x, at))
  {
    hide TaskOf, Form, Acceptable, ActorFits;
    ValidWhen(ContextEvent(q, x, at));
    ContextFits(ContextCompiled, x);
    SystemActorsFit();
  }

  lemma {:induction false} ProviderEventsAreValid(q: ChatRequest, p: ProviderIdentity, x: Ref, at: int)
    requires IdentityFits(p)
    ensures ValidEvent(PendingEvent(q, p, x, at)) <==> LabelFits(p.model)
    ensures ValidEvent(SuccessEvent(q, p, at)) <==> LabelFits(p.model)
  {
    hide TaskOf, Form, Acceptable, ActorFits, ModelFits, LabelFits;
    ValidWhen(PendingEvent(q, p, x, at));
    ValidWhen(SuccessEvent(q, p, at));
    ModelOfFits(p);
    ProviderFits(ModelCallPending, p, [x]);
    ProviderFits(ModelCallSucceeded, p, []);
    SystemActorsFit();
  }

  lemma {:induction false} ToolEventIsValid(q: ChatRequest, p: ProviderIdentity, tool: ToolRequest, at: int)
    requires IdentityFits(p) && ToolFits(tool)
    ensures ValidEvent(ToolRequestEvent(q, p, tool, at)) <==> LabelFits(p.model)
  {
    hide TaskOf, Form, Acceptable, ActorFits, ModelFits, LabelFits, ToolFits;
    ValidWhen(ToolRequestEvent(q, p, tool, at));
    ModelOfFits(p);
    ToolRequestFits(ToolRequested, tool);
  }

  lemma {:induction false} AnswerIsValid(q: ChatRequest, p: ProviderIdentity, answer: string, citations: seq<Citation>, at: int)
    requires IdentityFits(p)
    ensures ValidEvent(AnswerEvent(q, p, answer, citations, at)) <==> LabelFits(p.model) && AnswerFits(answer, citations)
  {
    hide TaskOf, Form, Acceptable, ActorFits, ModelFits, LabelFits, AnswerFits;
    ValidWhen(AnswerEvent(q, p, answer, citations, at));
    ModelOfFits(p);
    AnswerFitsExactly(answer, citations);
  }

  lemma {:induction false} TerminalIsValid(q: ChatRequest, failure: Option<FailureKind>, at: int)
    ensures ValidEvent(TerminalEvent(q, failure, at))
  {
    hide TaskOf, Form, Acceptable, ActorFits;
    ValidWhen(TerminalEvent(q, failure, at));
    PlainStepFits(ModelCallFailed, if failure.Some? then failure.value else RequestFailure);
    PlainStepFits(ModelCallInterrupted, RequestFailure);
    SystemActorsFit();
  }

  // The events of the chat service, built from values of their contracts. A request can be recorded exactly when its
  // canonical form fits, whatever names the model exactly when its label fits, and an answer exactly when it is at most
  // 16,384 characters long, cites at most 64 records and takes at most 64 KiB; all other events can always be built.
  lemma {:induction false} ChatEventsAreValid(q: ChatRequest, p: ProviderIdentity, actor: string, tool: ToolRequest, answer: string,
                                              citations: seq<Citation>, x: Ref, f: Option<FailureKind>, at: int)
    requires RequestFits(q) && IdentityFits(p) && ToolFits(tool)
    ensures ValidEvent(RequestEvent(q, actor, at))
      <==> ActorFits(Actor(actor, Human)) && TextBytes(q.message) + DecimalLength(q.budget) <= 65475
    ensures ValidEvent(ContextEvent(q, x, at)) && ValidEvent(TerminalEvent(q, f, at))
    ensures ValidEvent(PendingEvent(q, p, x, at)) <==> LabelFits(p.model)
    ensures ValidEvent(SuccessEvent(q, p, at)) && ValidEvent(ToolRequestEvent(q, p, tool, at)) <==> LabelFits(p.model)
    ensures ValidEvent(AnswerEvent(q, p, answer, citations, at)) <==> LabelFits(p.model) && AnswerFits(answer, citations)
  {
    hide ValidEvent, RequestFits, IdentityFits, ToolFits, LabelFits, AnswerFits, ActorFits, TextBytes, DecimalLength;
    RequestIsValid(q, actor, at);
    ContextIsValid(q, x, at);
    TerminalIsValid(q, f, at);
    ProviderEventsAreValid(q, p, x, at);
    ToolEventIsValid(q, p, tool, at);
    AnswerIsValid(q, p, answer, citations, at);
  }

  // The events of the decision service: all but the decision itself can always be built, and that exactly when its
  // author is a human name and it is not the event it decides on.
  lemma {:induction false} DecisionEventsAreValid(c: Call, r: Reading, f: FailureKind, at: int)
    requires IdentityFits(c.provider) && ToolFits(c.tool) && ReadingFits(r)
    ensures ValidEvent(DecisionEvent(c, at)) <==> ActorFits(Actor(c.actor, Human)) && c.toolEvent != Client(c.decision.id)
    ensures ValidEvent(ClaimedEvent(c, at)) && ValidEvent(ObservationEvent(c, RefTo(ReadingBlob(r)), at))
    ensures ValidEvent(ToolFailedEvent(c, Client(c.decision.id), f, at))
    ensures ValidEvent(ToolFailedEvent(c, Derived(c.decision.id, ReadClaimed), f, at))
  {
    hide TaskOf, Form, Acceptable, ActorFits, ToolFits, ReadingFits;
    ValidWhen(DecisionEvent(c, at));
    ValidWhen(ClaimedEvent(c, at));
    ValidWhen(ObservationEvent(c, RefTo(ReadingBlob(r)), at));
    ValidWhen(ToolFailedEvent(c, Client(c.decision.id), f, at));
    ValidWhen(ToolFailedEvent(c, Derived(c.decision.id, ReadClaimed), f, at));
    DecisionFits(if c.decision.approved then GrantApproved else GrantDenied, c.decision.approved, c.decision.id, c.toolEvent, c.provider.actor, c.tool);
    ClaimFits(ToolCallClaimed, c.decision.id, c.tool);
    ObservationFits(Observation, c.decision.id, r);
    PlainStepFits(ToolFailed, f);
    SystemActorsFit();
  }

  // The events of the follow-up call, as those of the first one.
  lemma {:induction false} FollowupEventsAreValid(c: Call, answer: string, citations: seq<Citation>, x: Ref, f: FailureKind, at: int)
    requires IdentityFits(c.provider)
    ensures ValidEvent(FollowupPendingEvent(c, x, at)) <==> LabelFits(c.provider.model)
    ensures ValidEvent(FollowupFailedEvent(c, f, at))
    ensures ValidEvent(FollowupSuccessEvent(c, at)) <==> LabelFits(c.provider.model)
    ensures ValidEvent(FollowupAnswerEvent(c, answer, citations, at)) <==> LabelFits(c.provider.model) && AnswerFits(answer, citations)
  {
    hide TaskOf, Form, Acceptable, ActorFits, ModelFits, LabelFits, AnswerFits;
    ValidWhen(FollowupPendingEvent(c, x, at));
    ValidWhen(FollowupFailedEvent(c, f, at));
    ValidWhen(FollowupSuccessEvent(c, at));
    ValidWhen(FollowupAnswerEvent(c, answer, citations, at));
    ModelOfFits(c.provider);
    ProviderFits(ModelCallPending, c.provider, [RefTo(ManifestBlob(c.manifest)), x]);
    ProviderFits(ModelCallSucceeded, c.provider, []);
    AnswerFitsExactly(answer, citations);
    PlainStepFits(ModelCallFailed, f);
    SystemActorsFit();
  }

  // ---------- reading a run back ----------

  function OfRun(rows: seq<Row>, run: nat): seq<Row> {
    if |rows| == 0 then [] else
    var last := rows[|rows| - 1];
    OfRun(rows[..|rows| - 1], run) + (if last.event.run == ChatRun(run) then [last] else [])
  }

  function EventsOf(rows: seq<Row>): seq<Event> {
    seq(|rows|, i requires 0 <= i < |rows| => rows[i].event)
  }

  // The events of one session that belong to one run.
  function Selected(events: seq<Event>, run: nat): seq<Event> {
    if |events| == 0 then [] else
    var last := events[|events| - 1];
    Selected(events[..|events| - 1], run) + (if last.run == ChatRun(run) then [last] else [])
  }

  datatype Inspection = Inspection(events: seq<Event>, manifest: ContextManifest)

  ghost function Inspect(rows: seq<Row>, artifacts: set<Ref>, session: string, run: nat): Result<Inspection, InspectError> {
    var es := Selected(Stream(rows, session), run);
    if |es| == 0 then Failure(NotFound)
    else if !Accepted(es) then Failure(Incomplete)
    else
      match ManifestOf(es)
      case None => Failure(Incomplete)
      case Some(ref) =>
        if ref !in artifacts || !ref.blob.ManifestBlob? || ref.blob.manifest.task != es[0].task then Failure(Incomplete)
        else Success(Inspection(es, ref.blob.manifest))
  }

  function LastKind(es: seq<Event>): Option<StepKind> {
    if |es| == 0 then None else KindOf(es[|es| - 1])
  }

  // The response a completed run stands for.
  function CompletedOf(es: seq<Event>, run: nat, manifest: ContextManifest): Option<Response> {
    if LastKind(es) != Some(FinalResponse) then None else
    var last := es[|es| - 1];
    if !last.payload.detail.AnswerDetail? || last.model.None? then None
    else Some(Answered(es[0].session, run, es[0].task, last.model.value.provider, last.model.value.name,
                        last.payload.detail.answer, last.payload.detail.citations, manifest))
  }

  // The response a run waiting for approval stands for.
  function AwaitingOf(es: seq<Event>, run: nat): Option<Response> {
    if LastKind(es) != Some(ToolRequested) then None else
    var last := es[|es| - 1];
    if !last.payload.detail.ToolDetail? || last.model.None? then None
    else Some(Awaiting(es[0].session, run, es[0].task, last.model.value.provider, last.model.value.name,
                       last.actor.name, last.id, last.payload.detail.tool))
  }

  predicate SameRequest(e: Event, q: ChatRequest) {
    && e.id == Client(q.id)
    && e.session == q.session
    && e.run == ChatRun(q.id)
    && e.payload.detail == RequestDetail(q.message, q.budget)
  }

  predicate SameDecision(e: Event, session: string, run: nat, toolEvent: EventId, d: Decision) {
    && e.id == Client(d.id)
    && e.session == session
    && e.run == ChatRun(run)
    && e.payload.detail.DecisionDetail?
    && e.payload.detail.approved == d.approved
    && e.payload.detail.toolEvent == toolEvent
  }

  // What a service call finds before it writes: an answer, an error, or a free way.
  datatype Found<T> = Proceed(what: T) | Returned(response: Response) | Raised(error: CallError)

  // The failure the last event of a run records, if it records one.
  function FailureOf(es: seq<Event>): Option<FailureKind> {
    if |es| == 0 || !es[|es| - 1].payload.detail.FailureDetail? then None else Some(es[|es| - 1].payload.detail.failure)
  }

  // What a chat call raises over a run that is neither completed nor waiting for a decision.
  function ChatErrorOf(es: seq<Event>): CallError {
    var failure := FailureOf(es);
    var last := LastKind(es);
    if (last == Some(ModelCallFailed) || last == Some(ToolFailed)) && failure.Some? && OfProvider(failure.value)
      then ProviderFailed(failure.value) else DispatchUncertain
  }

  function DecisionErrorOf(es: seq<Event>): CallError {
    var failure := FailureOf(es);
    if failure.Some? then LoopFailed(failure.value) else NotPending
  }

  ghost function ChatLookup(rows: seq<Row>, artifacts: set<Ref>, q: ChatRequest, key: Key): Found<()> {
    match ByKey(rows, key)
    case None => Proceed(())
    case Some(existing) =>
      if !SameRequest(existing, q) then Raised(KeyConflict) else
      match Inspect(rows, artifacts, q.session, q.id)
      case Failure(e) => Raised(NotInspectable(e))
      case Success(found) =>
        if CompletedOf(found.events, q.id, found.manifest).Some? then Returned(CompletedOf(found.events, q.id, found.manifest).value)
        else if AwaitingOf(found.events, q.id).Some? then Returned(AwaitingOf(found.events, q.id).value)
        else Raised(ChatErrorOf(found.events))
  }

  predicate SameIdentity(e: Event, p: ProviderIdentity) {
    e.actor.name == p.actor && e.model == Some(ModelOf(p))
  }

  ghost function DecisionLookup(rows: seq<Row>, artifacts: set<Ref>, session: string, run: nat, toolEvent: EventId,
                                d: Decision, key: Key, actor: string, p: ProviderIdentity): Found<Call>
  {
    match Inspect(rows, artifacts, session, run)
    case Failure(e) => Raised(NotInspectable(e))
    case Success(found) =>
      var last := found.events[|found.events| - 1];
      match ByKey(rows, key)
      case Some(existing) =>
        if !SameDecision(existing, session, run, toolEvent, d) then Raised(KeyConflict)
        else if CompletedOf(found.events, run, found.manifest).Some? then Returned(CompletedOf(found.events, run, found.manifest).value)
        else if KindOf(last) == Some(GrantDenied) then Returned(DeniedReply(session, run, toolEvent))
        else Raised(DecisionErrorOf(found.events))
      case None =>
        if AwaitingOf(found.events, run).None? || last.id != toolEvent then Raised(NotPending)
        else if !SameIdentity(last, p) then Raised(IdentityMismatch)
        else Proceed(Call(session, run, toolEvent, d, key, actor, p, last.payload.detail.tool, found.manifest))
  }
}
