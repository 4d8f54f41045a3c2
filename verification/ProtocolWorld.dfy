/** All handlers at once: every interleaving of calls, steps, crashes and other writers of the stores. */
module ProtocolWorld {
  import opened Wrappers
  import opened Events
  import opened EventContracts
  import opened Ledger
  import opened Runs
  import opened Context
  import opened Protocol
  import Broker
  import Memory
  import Targets

  // What a chat call carries from step to step.
  datatype Chat = Chat(
    request: ChatRequest,
    key: Key,
    actor: string,
    provider: ProviderIdentity,
    manifest: ContextManifest,
    citations: seq<Citation>,
    at: int)

  // Where a call stands: the next thing it does to the stores or to the outside.
  datatype Handler =
    | Preparing(chat: Chat)
    | Dispatching(chat: Chat)
    | WaitingForProvider(chat: Chat)
    | Finishing(chat: Chat, result: ProviderResult)
    | Deciding(call: Call)
    | Registering(call: Call, grant: Broker.Grant)
    | Claiming(call: Call)
    | ReadingFile(call: Call)
    | FailingTool(call: Call, parent: EventId, failure: FailureKind)
    | Observing(call: Call, reading: Events.Reading)
    | LoadingRecords(call: Call, content: Ref)
    | DispatchingFollowup(call: Call, citations: seq<Citation>)
    | WaitingForFollowup(call: Call, citations: seq<Citation>)
    | FinishingFollowup(call: Call, citations: seq<Citation>, result: ProviderResult)

  datatype Dispatch = Dispatch(run: nat, pending: EventId, ledgerLength: nat)

  datatype Origin =
    | FromChat(request: ChatRequest, key: Key)
    | FromDecision(session: string, toolEvent: EventId, decision: Decision, key: Key)

  datatype Reply = Reply(run: nat, origin: Origin, response: Response)

  datatype World = World(
    rows: seq<Row>,
    artifacts: set<Ref>,
    broker: Broker.History,
    active: map<nat, Handler>,
    dispatched: seq<Dispatch>,
    replies: seq<Reply>)

  const START := World([], {}, Broker.History(map[], []), map[], [], [])

  // What one step may meet outside: the clock, the provider, the file system, the memory store.
  datatype Outside = Outside(
    at: int,
    result: ProviderResult,
    scopes: set<string>,
    disk: Broker.Disk,
    memory: Memory.Tables)

  datatype Step =
    | StartChat(chat: Chat)
    | StartDecision(session: string, run: nat, toolEvent: EventId, decision: Decision, key: Key, actor: string, provider: ProviderIdentity)
    | Advance(run: nat, outside: Outside)
    | Crash(run: nat)
    | OtherAppend(entries: seq<Row>)
    | OtherArtifact(ref: Ref)
    | OtherBroker(op: Broker.Op)

  function ManifestRef(m: ContextManifest): Ref { RefTo(ManifestBlob(m)) }

  // What compiling the context of a request yields: a valid manifest of ranked items, and their citations.
  predicate CompiledFor(c: Chat) {
    && c.manifest.task == TaskOf(c.request.id)
    && c.manifest.compiledAt == c.at
    && c.manifest.budget == c.request.budget
    && ManifestValid(c.manifest)
    && (forall i :: i in c.manifest.items ==> HasRank(i))
    && c.citations == CitationsOf(c.manifest)
  }

  // Requests, provider identities and results are values of their contracts, handlers of one run are serialised, other
  // writers use other run identities, and a chat call carries what was compiled for its request.
  ghost predicate Enabled(w: World, step: Step) {
    match step
    case StartChat(c) =>
      c.request.id !in w.active && CompiledFor(c) && RequestFits(c.request) && IdentityFits(c.provider)
    case StartDecision(_, run, _, _, _, _, p) => run !in w.active && IdentityFits(p)
    case Advance(run, o) => run in w.active && ResultFits(o.result)
    case Crash(run) => run in w.active
    case OtherAppend(entries) => forall x :: x in entries ==> x.event.run.OtherRun?
    case OtherArtifact(_) => true
    case OtherBroker(op) => op.RegisterOp? ==> op.event == ById(w.rows, op.grant.authorization)
  }

  // ---------- what a handler appends ----------

  function PrepareBatch(c: Chat): seq<Row> {
    [Row(RequestEvent(c.request, c.actor, c.at), c.key),
     Row(ContextEvent(c.request, ManifestRef(c.manifest), c.at), c.key + ":context"),
     Row(PendingEvent(c.request, c.provider, ManifestRef(c.manifest), c.at), c.key + ":model:pending")]
  }

  function FinishBatch(c: Chat, result: ProviderResult, at: int): seq<Row> {
    match result
    case Fails(failure) => [Row(TerminalEvent(c.request, Some(failure), at), c.key + ":model:failed")]
    case Breaks => [Row(TerminalEvent(c.request, None, at), c.key + ":model:interrupted")]
    case Asks(tool) =>
      [Row(SuccessEvent(c.request, c.provider, at), c.key + ":model:success"),
       Row(ToolRequestEvent(c.request, c.provider, tool, at), c.key + ":tool:request")]
    case Answers(text) =>
      [Row(SuccessEvent(c.request, c.provider, at), c.key + ":model:success"),
       Row(AnswerEvent(c.request, c.provider, text, c.citations, at), c.key + ":response")]
  }

  function FollowupFailure(result: ProviderResult): FailureKind {
    match result
    case Fails(failure) => failure
    case _ => RepeatedToolRequest
  }

  // An outcome the service does not catch leaves the run as it is.
  function FollowupBatch(c: Call, citations: seq<Citation>, result: ProviderResult, at: int): seq<Row> {
    match result
    case Breaks => []
    case Answers(text) =>
      [Row(FollowupSuccessEvent(c, at), c.key + ":followup:success"),
       Row(FollowupAnswerEvent(c, text, citations, at), c.key + ":followup:response")]
    case _ => [Row(FollowupFailedEvent(c, FollowupFailure(result), at), c.key + ":followup:failed")]
  }

  // The rows the next step of a handler appends, if it appends any.
  function Batch(h: Handler, o: Outside): seq<Row> {
    match h
    case Preparing(c) => PrepareBatch(c)
    case Finishing(c, result) => FinishBatch(c, result, o.at)
    case Deciding(c) => [Row(DecisionEvent(c, o.at), c.key)]
    case Claiming(c) => [Row(ClaimedEvent(c, o.at), c.key + ":claimed")]
    case FailingTool(c, parent, failure) => [Row(ToolFailedEvent(c, parent, failure, o.at), c.key + ":failed")]
    case Observing(c, reading) => [Row(ObservationEvent(c, RefTo(ReadingBlob(reading)), o.at), c.key + ":observation")]
    case LoadingRecords(c, content) =>
      if Loaded(o.memory, c.manifest).Some? then [Row(FollowupPendingEvent(c, content, o.at), c.key + ":followup:pending")] else []
    case FinishingFollowup(c, citations, result) => FollowupBatch(c, citations, result, o.at)
    case _ => []
  }

  // Every event of a batch is built before anything is appended.
  predicate Buildable(batch: seq<Row>) {
    forall x :: x in batch ==> ValidEvent(x.event)
  }

  // ---------- what a handler does next ----------

  const GRANT_SECONDS := 60

  function GrantFor(c: Call, at: int): Broker.Grant {
    Broker.Grant(c.decision.id, c.provider.actor, c.tool.scope, c.tool.target, at, GRANT_SECONDS, c.actor,
                 Client(c.decision.id), c.tool.maxBytes, [Targets.Suffix(c.tool.target)])
  }

  // The handler after an append that was committed; none when the call is over.
  function Continue(h: Handler, o: Outside): Option<Handler> {
    match h
    case Preparing(c) => Some(Dispatching(c))
    case Deciding(c) =>
      if !c.decision.approved then None
      else if Targets.Suffix(c.tool.target) == "" then Some(FailingTool(c, Client(c.decision.id), DeniedFailure(ExtensionDenied)))
      else if !Targets.GrantAcceptable(c.tool.target) then None
      else Some(Registering(c, GrantFor(c, o.at)))
    case Claiming(c) => Some(ReadingFile(c))
    case Observing(c, reading) => Some(LoadingRecords(c, RefTo(ReadingBlob(reading))))
    case LoadingRecords(c, _) =>
      if Loaded(o.memory, c.manifest).Some? then Some(DispatchingFollowup(c, Loaded(o.memory, c.manifest).value)) else None
    case _ => None
  }

  // The grant contract refuses a target that the tool request allowed.
  predicate RefusesGrant(c: Call) {
    c.decision.approved && Targets.Suffix(c.tool.target) != "" && !Targets.GrantAcceptable(c.tool.target)
  }

  // The response a call returns, or the error it raises, when the append of its last step was committed. A provider that
  // breaks off in a follow-up and a context that is gone are raised over a run that is left as it is.
  function Final(h: Handler, o: Outside): Option<Response> {
    match h
    case Finishing(c, Answers(text)) =>
      Some(Answered(c.request.session, c.request.id, TaskOf(c.request.id), c.provider.kind, c.provider.model, text, c.citations, c.manifest))
    case Finishing(c, Asks(tool)) =>
      Some(Awaiting(c.request.session, c.request.id, TaskOf(c.request.id), c.provider.kind, c.provider.model, c.provider.actor,
                    Derived(c.request.id, ChatToolRequest), tool))
    case Deciding(c) =>
      if !c.decision.approved then Some(DeniedReply(c.session, c.run, c.toolEvent))
      else if RefusesGrant(c) then Some(Raising(GrantRefused)) else None
    case LoadingRecords(c, _) => if Loaded(o.memory, c.manifest).None? then Some(Raising(ContextUnavailable)) else None
    case FinishingFollowup(c, citations, Answers(text)) =>
      Some(Answered(c.session, c.run, TaskOf(c.run), c.provider.kind, c.provider.model, text, citations, c.manifest))
    case Finishing(c, Fails(failure)) => Some(Raising(ProviderFailed(failure)))
    case Finishing(c, Breaks) => Some(Raising(WasInterrupted))
    case FailingTool(c, _, failure) => Some(Raising(LoopFailed(failure)))
    case FinishingFollowup(c, _, result) => Some(Raising(if result.Breaks? then FollowupBroke else FollowupRaised))
    case _ => None
  }

  function OriginOf(h: Handler): Origin {
    match h
    case Preparing(c) => FromChat(c.request, c.key)
    case Dispatching(c) => FromChat(c.request, c.key)
    case WaitingForProvider(c) => FromChat(c.request, c.key)
    case Finishing(c, _) => FromChat(c.request, c.key)
    case _ => FromDecision(h.call.session, h.call.toolEvent, h.call.decision, h.call.key)
  }

  function SetHandler(w: World, run: nat, h: Option<Handler>): World {
    w.(active := if h.Some? then w.active[run := h.value] else w.active - {run})
  }

  function Respond(w: World, run: nat, origin: Origin, response: Option<Response>): World {
    if response.None? then w else w.(replies := w.replies + [Reply(run, origin, response.value)])
  }

  // The first append of a call is the one that stores its request or its decision.
  predicate HasStored(h: Handler) {
    !h.Preparing? && !h.Deciding?
  }

  // What a failed append raises: a clash of keys is translated by the chat service, and for the decision itself.
  function AppendErrorOf(h: Handler, e: LedgerError): CallError {
    if e == IdempotencyConflict && (h.Preparing? || h.Finishing? || h.Deciding?) then KeyConflict else LedgerFailed(e)
  }

  // A call that raises is over.
  function Ended(w: World, run: nat, h: Handler, error: CallError): World {
    Respond(SetHandler(w, run, None), run, OriginOf(h), Some(if HasStored(h) then Raising(error) else Refusing(error)))
  }

  // A step that appends: on success the call goes on or returns. When an event cannot be built or the append fails it
  // raises and is over, and nothing is appended.
  function AppendStep(w: World, run: nat, h: Handler, o: Outside): World {
    if !Buildable(Batch(h, o)) then Ended(w, run, h, EventRejected) else
    match AppendMany(w.rows, w.artifacts, Batch(h, o))
    case Failure(e) => Ended(w, run, h, AppendErrorOf(h, e))
    case Success(grown) =>
      Respond(SetHandler(w.(rows := grown), run, Continue(h, o)), run, OriginOf(h), Final(h, o))
  }

  function DispatchStep(w: World, run: nat, pending: EventId, next: Handler): World {
    SetHandler(w.(dispatched := w.dispatched + [Dispatch(run, pending, |w.rows|)]), run, Some(next))
  }

  function RegisterStep(w: World, run: nat, c: Call, g: Broker.Grant, o: Outside): World {
    var event := ById(w.rows, g.authorization);
    var next := match Broker.Register(w.broker.grants, g, event, o.scopes)
      case Failure(code) => FailingTool(c, Client(c.decision.id), DeniedFailure(code))
      case Success(_) => Claiming(c);
    SetHandler(w.(broker := Broker.Apply(w.broker, Broker.RegisterOp(g, event, o.scopes))), run, Some(next))
  }

  // The claim and the read: whatever the read yields, the use is consumed.
  function ReadStep(w: World, run: nat, c: Call, o: Outside): World {
    var op := Broker.ClaimOp(c.decision.id, c.provider.actor, o.at, o.scopes);
    var v := w.(broker := Broker.Apply(w.broker, op));
    var parent := Derived(c.decision.id, ReadClaimed);
    match Broker.Claim(w.broker.grants, op.id, op.subject, op.now, op.scopes)
    case Failure(code) => SetHandler(v, run, Some(FailingTool(c, parent, DeniedFailure(code))))
    case Success(_) =>
      match Broker.ReadFile(w.broker.grants[op.id].grant, o.disk)
      case Failure(code) => SetHandler(v, run, Some(FailingTool(c, parent, DeniedFailure(code))))
      case Success(reading) =>
        SetHandler(v.(artifacts := v.artifacts + {RefTo(ReadingBlob(reading))}), run, Some(Observing(c, reading)))
  }

  function AdvanceStep(w: World, run: nat, o: Outside): World
    requires run in w.active
  {
    var h := w.active[run];
    match h
    case Dispatching(c) => DispatchStep(w, run, Derived(c.request.id, ChatPending), WaitingForProvider(c))
    case WaitingForProvider(c) => SetHandler(w, run, Some(Finishing(c, o.result)))
    case Registering(c, g) => RegisterStep(w, run, c, g, o)
    case ReadingFile(c) => ReadStep(w, run, c, o)
    case DispatchingFollowup(c, citations) =>
      DispatchStep(w, run, Derived(c.decision.id, FollowupPending), WaitingForFollowup(c, citations))
    case WaitingForFollowup(c, citations) => SetHandler(w, run, Some(FinishingFollowup(c, citations, o.result)))
    case _ => AppendStep(w, run, h, o)
  }

  ghost function StartChatStep(w: World, c: Chat): World {
    var run := c.request.id;
    var origin := FromChat(c.request, c.key);
    if !Memory.PortableToken(c.key) then Respond(w, run, origin, Some(Refusing(LedgerFailed(InvalidKey)))) else
    match ChatLookup(w.rows, w.artifacts, c.request, c.key)
    case Raised(error) => Respond(w, run, origin, Some(Refusing(error)))
    case Returned(response) => Respond(w, run, origin, Some(response))
    case Proceed(_) => SetHandler(w.(artifacts := w.artifacts + {ManifestRef(c.manifest)}), run, Some(Preparing(c)))
  }

  ghost function StartDecisionStep(w: World, session: string, run: nat, toolEvent: EventId, d: Decision, key: Key,
                                   actor: string, p: ProviderIdentity): World
  {
    var origin := FromDecision(session, toolEvent, d, key);
    if !Memory.PortableToken(key) then
      var inspected := Inspect(w.rows, w.artifacts, session, run);
      Respond(w, run, origin, Some(Refusing(if inspected.Failure? then NotInspectable(inspected.error) else LedgerFailed(InvalidKey))))
    else
    match DecisionLookup(w.rows, w.artifacts, session, run, toolEvent, d, key, actor, p)
    case Raised(error) => Respond(w, run, origin, Some(Refusing(error)))
    case Returned(response) => Respond(w, run, origin, Some(response))
    case Proceed(call) => SetHandler(w, run, Some(Deciding(call)))
  }

  ghost function Apply(w: World, step: Step): World
    requires Enabled(w, step)
  {
    match step
    case StartChat(c) => StartChatStep(w, c)
    case StartDecision(session, run, toolEvent, d, key, actor, p) => StartDecisionStep(w, session, run, toolEvent, d, key, actor, p)
    case Advance(run, o) => AdvanceStep(w, run, o)
    case Crash(run) => SetHandler(w, run, None)
    case OtherAppend(entries) =>
      (match AppendMany(w.rows, w.artifacts, entries) case Failure(_) => w case Success(grown) => w.(rows := grown))
    case OtherArtifact(ref) => w.(artifacts := w.artifacts + {ref})
    case OtherBroker(op) => w.(broker := Broker.Apply(w.broker, op))
  }
}
