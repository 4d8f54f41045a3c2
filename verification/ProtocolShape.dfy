/** The trajectory one run can take, position by position, and what one committed append adds to it. */
module ProtocolShape {
  import opened Wrappers
  import opened Relational
  import opened Events
  import opened Ledger
  import opened Runs
  import opened Protocol
  import opened ProtocolWorld

  predicate RecordsFailure(k: StepKind) {
    k == ModelCallFailed || k == ToolFailed
  }

  // What the event at each position of a run is.
  predicate Fits(run: nat, i: nat, e: Event) {
    && e.run == ChatRun(run)
    && e.task == TaskOf(run)
    && e.payload.operation.Step?
    && (e.payload.detail.FailureDetail? <==> RecordsFailure(e.payload.operation.kind))
    && var k, d := e.payload.operation.kind, e.payload.detail;
      match i
      case 0 => k == RequestRecorded && e.id == Client(run) && d.RequestDetail?
      case 1 => k == ContextCompiled && e.id.Derived? && |e.refs| == 1 && e.refs[0].blob.ManifestBlob? && e.refs[0].blob.manifest.task == TaskOf(run)
      case 2 => k == ModelCallPending && e.id == Derived(run, ChatPending)
      case 3 => (k == ModelCallSucceeded || k == ModelCallFailed || k == ModelCallInterrupted) && e.id.Derived?
      case 4 => e.id.Derived? && e.model.Some? && (if k == ToolRequested then d.ToolDetail? else k == FinalResponse && d.AnswerDetail?)
      case 5 => (k == GrantApproved || k == GrantDenied) && e.id.Client? && d.DecisionDetail?
      case 6 => (k == ToolCallClaimed || k == ToolFailed) && e.id.Derived?
      case 7 => (k == Observation || k == ToolFailed) && e.id.Derived?
      case 8 => k == ModelCallPending && e.id.Derived? && e.id.purpose == FollowupPending
      case 9 => (k == ModelCallSucceeded || k == ModelCallFailed) && e.id.Derived?
      case 10 => k == FinalResponse && e.id.Derived? && e.model.Some? && d.AnswerDetail?
      case _ => false
  }

  // The request, its context and the first provider intent are stored together or not at all.
  ghost predicate Shape(run: nat, es: seq<Event>) {
    && |es| != 1 && |es| != 2
    && (forall i :: 0 <= i < |es| ==> Fits(run, i, es[i]))
    && (|es| > 0 ==> Starts(es[0]))
    && forall i :: 1 <= i < |es| ==> Follows(es[i - 1], es[i])
  }

  lemma {:induction false} ShapeIsRun(run: nat, es: seq<Event>)
    requires Shape(run, es) && |es| > 0
    ensures Accepted(es) && |es| >= 3 && |es| <= 11
  {
    hide Fits, Starts, Follows;
    if |es| > 11 { TooLong(run, es); }
  }

  lemma {:induction false} TooLong(run: nat, es: seq<Event>)
    requires Shape(run, es)
    ensures |es| <= 11
  {
    if |es| > 11 {
      FitsAt(run, es, 11);
    }
  }

  lemma {:induction false} FitsNext(run: nat, es: seq<Event>, e: Event)
    requires Shape(run, es) && |es| >= 3 && Fits(run, |es|, e) && Follows(es[|es| - 1], e)
    ensures Shape(run, es + [e])
  {
    hide Fits, Starts, Follows;
    var more := es + [e];
    forall i | 1 <= i < |more|
      ensures Follows(more[i - 1], more[i])
    {
      if i < |es| { assert Follows(es[i - 1], es[i]); }
    }
  }

  lemma {:induction false} OneSession(run: nat, es: seq<Event>, i: nat)
    requires Shape(run, es) && i < |es|
    ensures es[i].session == es[0].session && es[i].run == ChatRun(run) && es[i].task == TaskOf(run)
  {
    if i > 0 {
      OneSession(run, es, i - 1);
      assert Follows(es[i - 1], es[i]);
    }
    assert Fits(run, i, es[i]);
  }

  // ---------- the context ----------

  lemma {:induction false} LastDecidesContext(run: nat, es: seq<Event>)
    requires |es| >= 2 && Fits(run, |es| - 1, es[|es| - 1])
    ensures |es| == 2 ==> ManifestOf(es) == Some(es[1].refs[0])
    ensures |es| > 2 ==> ManifestOf(es) == ManifestOf(es[..|es| - 1])
  {
    hide TaskOf;
  }

  lemma {:induction false} OnlyContext(run: nat, es: seq<Event>, n: nat)
    requires Shape(run, es) && 2 <= n <= |es|
    ensures ManifestOf(es[..n]) == Some(es[1].refs[0])
  {
    hide Shape, Fits, ManifestOf;
    FitsAt(run, es, n - 1);
    assert es[..n][..n - 1] == es[..n - 1];
    if n > 2 { OnlyContext(run, es, n - 1); }
    LastDecidesContext(run, es[..n]);
  }

  lemma {:induction false} ManifestIsSecond(run: nat, es: seq<Event>)
    requires Shape(run, es) && |es| > 0
    ensures |es| >= 3 && |es[1].refs| == 1 && es[1].refs[0].blob.ManifestBlob? && es[1].refs[0].blob.manifest.task == TaskOf(run)
    ensures ManifestOf(es) == Some(es[1].refs[0])
  {
    assert Fits(run, 1, es[1]);
    OnlyContext(run, es, |es|);
    assert es[..|es|] == es;
  }

  // ---------- counting ----------

  lemma {:induction false} OnceAt(run: nat, es: seq<Event>, n: nat, k: StepKind, at: nat)
    requires Shape(run, es) && n <= |es| && forall i, e :: Fits(run, i, e) && KindOf(e) == Some(k) ==> i == at
    ensures CountKind(es[..n], k) <= (if at < n then 1 else 0)
  {
    hide Shape, KindOf;
    if n > 0 {
      OnceAt(run, es, n - 1, k, at);
      assert es[..n][..n - 1] == es[..n - 1];
      FitsAt(run, es, n - 1);
    }
  }

  lemma {:induction false} FitsAt(run: nat, es: seq<Event>, i: nat)
    requires Shape(run, es) && i < |es|
    ensures Fits(run, i, es[i])
  {
  }

  // A run claims a tool at most once and observes at most once.
  lemma {:induction false} OneClaimOneObservation(run: nat, es: seq<Event>)
    requires Shape(run, es)
    ensures CountKind(es, ToolCallClaimed) <= 1 && CountKind(es, Observation) <= 1
  {
    hide Shape;
    OnceAt(run, es, |es|, ToolCallClaimed, 6);
    OnceAt(run, es, |es|, Observation, 7);
    assert es[..|es|] == es;
  }

  // ---------- where the handlers stand ----------

  // The provider was asked about pending events of the run only, once each.
  ghost predicate LogFits(es: seq<Event>, log: seq<EventId>) {
    && NoDuplicates(log)
    && forall id :: id in log ==> (|es| >= 3 && id == es[2].id) || (|es| >= 9 && id == es[8].id)
  }

  ghost predicate ChatStands(run: nat, rows: seq<Row>, c: Chat) {
    var es := EventsOf(rows);
    && c.request.id == run
    && |es| == 3
    && rows[0].key == c.key
    && SameRequest(es[0], c.request)
    && es[1].refs == [ManifestRef(c.manifest)]
  }

  ghost predicate CallStands(run: nat, rows: seq<Row>, c: Call, length: nat, last: StepKind) {
    var es := EventsOf(rows);
    && c.run == run
    && |es| == length >= 5
    && KindOf(es[length - 1]) == Some(last)
    && KindOf(es[4]) == Some(ToolRequested)
    && es[4].id == c.toolEvent
    && es[0].session == c.session
    && es[1].refs == [ManifestRef(c.manifest)]
    && (length > 5 ==> rows[5].key == c.key && SameDecision(es[5], c.session, run, c.toolEvent, c.decision) && c.decision.approved)
    && (length > 6 ==> es[6].id == Derived(c.decision.id, ReadClaimed))
    && (length > 7 ==> es[7].id == Derived(c.decision.id, ReadObservation))
    && (length > 8 ==> es[8].id == Derived(c.decision.id, FollowupPending))
  }

  ghost predicate Stands(run: nat, rows: seq<Row>, log: seq<EventId>, h: Handler) {
    match h
    case Preparing(c) =>
      c.request.id == run && c.manifest.task == TaskOf(run) && forall row :: row in rows ==> row.key != c.key
    case Dispatching(c) => ChatStands(run, rows, c) && Derived(run, ChatPending) !in log
    case WaitingForProvider(c) => ChatStands(run, rows, c)
    case Finishing(c, _) => ChatStands(run, rows, c)
    case Deciding(c) => CallStands(run, rows, c, 5, ToolRequested)
    case Registering(c, _) => CallStands(run, rows, c, 6, GrantApproved)
    case Claiming(c) => CallStands(run, rows, c, 6, GrantApproved)
    case ReadingFile(c) => CallStands(run, rows, c, 7, ToolCallClaimed)
    case FailingTool(c, parent, _) =>
      (CallStands(run, rows, c, 6, GrantApproved) && parent == Client(c.decision.id))
      || (CallStands(run, rows, c, 7, ToolCallClaimed) && parent == Derived(c.decision.id, ReadClaimed))
    case Observing(c, _) => CallStands(run, rows, c, 7, ToolCallClaimed)
    case LoadingRecords(c, _) => CallStands(run, rows, c, 8, Observation)
    case DispatchingFollowup(c, _) => CallStands(run, rows, c, 9, ModelCallPending) && Derived(c.decision.id, FollowupPending) !in log
    case WaitingForFollowup(c, _) => CallStands(run, rows, c, 9, ModelCallPending)
    case FinishingFollowup(c, _, _) => CallStands(run, rows, c, 9, ModelCallPending)
  }

  // What a response says is what the run says.
  ghost predicate Says(run: nat, es: seq<Event>, response: Response) {
    && |es| >= 3
    && match response
      case Answered(_, _, _, _, _, _, _, _) =>
        && |es[1].refs| == 1 && es[1].refs[0].blob.ManifestBlob?
        && CompletedOf(es, run, es[1].refs[0].blob.manifest) == Some(response)
      case Awaiting(_, _, _, _, _, _, _, _) => |es| >= 5 && AwaitingOf(es[..5], run) == Some(response)
      case DeniedReply(session, r, toolEvent) =>
        |es| == 6 && LastKind(es) == Some(GrantDenied) && session == es[0].session && r == run && SameTool(es[5], toolEvent)
      case Refusing(_) => false
      case Raising(error) => SaysError(es, error)
  }

  // The last event of a run records the failure a call raised, or the step at which the call ended.
  predicate SaysError(es: seq<Event>, error: CallError) {
    match error
    case ProviderFailed(kind) => |es| == 4 && LastKind(es) == Some(ModelCallFailed) && FailureOf(es) == Some(kind)
    case WasInterrupted => |es| == 4 && LastKind(es) == Some(ModelCallInterrupted) && FailureOf(es) == None
    case LoopFailed(kind) => |es| >= 7 && LastKind(es) == Some(ToolFailed) && FailureOf(es) == Some(kind)
    case FollowupRaised => |es| == 10 && LastKind(es) == Some(ModelCallFailed) && FailureOf(es).Some?
    case FollowupBroke => |es| == 9 && LastKind(es) == Some(ModelCallPending) && FailureOf(es) == None
    case GrantRefused => |es| == 6 && LastKind(es) == Some(GrantApproved) && FailureOf(es) == None
    case ContextUnavailable => |es| == 8 && LastKind(es) == Some(Observation) && FailureOf(es) == None
    case KeyConflict => |es| == 3 && LastKind(es) == Some(ModelCallPending) && FailureOf(es) == None
    case EventRejected => Unfinished(es)
    case LedgerFailed(_) => Unfinished(es)
    case _ => false
  }

  // A run whose call ended between two appends.
  predicate Unfinished(es: seq<Event>) {
    && LastKind(es).Some? && LastKind(es).value in [ModelCallPending, GrantApproved, ToolCallClaimed, Observation]
    && FailureOf(es) == None
  }

  predicate SameTool(e: Event, toolEvent: EventId) {
    e.payload.detail.DecisionDetail? && e.payload.detail.toolEvent == toolEvent
  }

  ghost predicate OriginStands(run: nat, rows: seq<Row>, origin: Origin) {
    var es := EventsOf(rows);
    match origin
    case FromChat(q, key) => q.id == run && |es| >= 3 && rows[0].key == key && SameRequest(es[0], q)
    case FromDecision(session, toolEvent, d, key) =>
      |es| >= 6 && rows[5].key == key && SameDecision(es[5], session, run, toolEvent, d)
  }

  // A refusal says nothing about the run.
  ghost predicate ReplyStands(run: nat, rows: seq<Row>, reply: Reply) {
    && reply.run == run
    && (reply.response.Refusing? || (OriginStands(run, rows, reply.origin) && Says(run, EventsOf(rows), reply.response)))
    && (reply.response.Raising? && reply.origin.FromChat? ==> |rows| <= 4)
  }

  // ---------- what the appended events fit ----------

  // The events a handler appends to its run, and where.
  lemma {:induction false} PreparedFits(c: Chat, run: nat)
    requires c.request.id == run && c.manifest.task == TaskOf(run)
    ensures Shape(run, EventsOf(PrepareBatch(c)))
  {
    hide TaskOf;
    var es := EventsOf(PrepareBatch(c));
    assert |es| == 3;
    assert es[0] == RequestEvent(c.request, c.actor, c.at);
    assert es[1] == ContextEvent(c.request, ManifestRef(c.manifest), c.at);
    assert es[2] == PendingEvent(c.request, c.provider, ManifestRef(c.manifest), c.at);
  }

  lemma {:induction false} EventsSnoc(rows: seq<Row>, row: Row)
    ensures EventsOf(rows + [row]) == EventsOf(rows) + [row.event]
  {
  }

  // One more row on a run.
  lemma {:induction false} RowFits(run: nat, rows: seq<Row>, row: Row)
    requires Shape(run, EventsOf(rows)) && |rows| >= 3
    requires Fits(run, |rows|, row.event) && Follows(rows[|rows| - 1].event, row.event)
    ensures Shape(run, EventsOf(rows + [row]))
  {
    hide Shape, Fits, Follows;
    EventsSnoc(rows, row);
    FitsNext(run, EventsOf(rows), row.event);
  }

  // Rows that continue a run: the first follows its last event, the second follows the first.
  ghost predicate Continues(run: nat, rows: seq<Row>, batch: seq<Row>)
    requires |rows| > 0
  {
    && |batch| <= 2
    && (|batch| >= 1 ==> Fits(run, |rows|, batch[0].event) && Follows(rows[|rows| - 1].event, batch[0].event))
    && (|batch| == 2 ==> Fits(run, |rows| + 1, batch[1].event) && Follows(batch[0].event, batch[1].event))
  }

  lemma {:induction false} ContinuedFits(run: nat, rows: seq<Row>, batch: seq<Row>)
    requires Shape(run, EventsOf(rows)) && |rows| >= 3 && Continues(run, rows, batch)
    ensures Shape(run, EventsOf(rows + batch))
    ensures |batch| >= 1 ==> Shape(run, EventsOf(rows + [batch[0]]))
  {
    hide Shape, Fits, Follows, EventsOf;
    if |batch| == 0 {
      assert rows + batch == rows;
    } else {
      RowFits(run, rows, batch[0]);
      if |batch| == 2 {
        RowFits(run, rows + [batch[0]], batch[1]);
        assert rows + batch == rows + [batch[0]] + [batch[1]];
      } else {
        assert rows + batch == rows + [batch[0]];
      }
    }
  }

  // A result of the first provider call continues a run of three events.
  lemma {:induction false} ChatResultFollows(before: Event, c: Chat, result: ProviderResult, at: int)
    requires KindOf(before) == Some(ModelCallPending) && before.id == Derived(c.request.id, ChatPending)
    requires before.session == c.request.session && before.run == ChatRun(c.request.id) && before.task == TaskOf(c.request.id)
    ensures var batch := FinishBatch(c, result, at);
      && (|batch| == 1 || |batch| == 2)
      && Fits(c.request.id, 3, batch[0].event) && Follows(before, batch[0].event)
  {
    hide TaskOf;
  }

  lemma {:induction false} ChatEndFollows(c: Chat, result: ProviderResult, at: int)
    ensures var batch := FinishBatch(c, result, at);
      |batch| == 2 ==> Fits(c.request.id, 4, batch[1].event) && Follows(batch[0].event, batch[1].event)
  {
    hide TaskOf;
  }

  lemma {:induction false} FinishContinues(run: nat, rows: seq<Row>, c: Chat, result: ProviderResult, at: int)
    requires Shape(run, EventsOf(rows)) && ChatStands(run, rows, c)
    ensures |rows| == 3 && Continues(run, rows, FinishBatch(c, result, at))
  {
    FitsAt(run, EventsOf(rows), 2);
    OneSession(run, EventsOf(rows), 2);
    hide Shape, TaskOf;
    ChatResultFollows(rows[2].event, c, result, at);
    ChatEndFollows(c, result, at);
    hide FinishBatch, Fits, Follows;
  }

  // The last event of a run a decision call works on, as far as the next one depends on it.
  ghost predicate LastFor(e: Event, c: Call, length: nat, last: StepKind) {
    && KindOf(e) == Some(last)
    && e.session == c.session && e.run == ChatRun(c.run) && e.task == TaskOf(c.run)
    && (length == 5 ==> e.id == c.toolEvent)
    && (length == 6 ==> e.id == Client(c.decision.id))
    && (length == 7 ==> e.id == Derived(c.decision.id, ReadClaimed))
    && (length == 8 ==> e.id == Derived(c.decision.id, ReadObservation))
    && (length == 9 ==> e.id == Derived(c.decision.id, FollowupPending))
  }

  lemma {:induction false} CallLast(run: nat, rows: seq<Row>, c: Call, length: nat, last: StepKind)
    requires Shape(run, EventsOf(rows)) && CallStands(run, rows, c, length, last)
    ensures c.run == run && |rows| == length >= 5 && LastFor(rows[length - 1].event, c, length, last)
  {
    OneSession(run, EventsOf(rows), length - 1);
  }

  lemma {:induction false} DecisionContinues(run: nat, rows: seq<Row>, c: Call, at: int)
    requires |rows| == 5 && c.run == run && LastFor(rows[4].event, c, 5, ToolRequested)
    ensures Continues(run, rows, [Row(DecisionEvent(c, at), c.key)])
  {
    hide TaskOf;
  }

  lemma {:induction false} ClaimContinues(run: nat, rows: seq<Row>, c: Call, at: int, key: Key)
    requires |rows| == 6 && c.run == run && LastFor(rows[5].event, c, 6, GrantApproved)
    ensures Continues(run, rows, [Row(ClaimedEvent(c, at), key)])
  {
    hide TaskOf;
  }

  lemma {:induction false} FailureContinues(run: nat, rows: seq<Row>, c: Call, parent: EventId, failure: FailureKind, at: int, key: Key)
    requires c.run == run
    requires || (|rows| == 6 && LastFor(rows[5].event, c, 6, GrantApproved) && parent == Client(c.decision.id))
             || (|rows| == 7 && LastFor(rows[6].event, c, 7, ToolCallClaimed) && parent == Derived(c.decision.id, ReadClaimed))
    ensures Continues(run, rows, [Row(ToolFailedEvent(c, parent, failure, at), key)])
  {
    hide TaskOf;
  }

  lemma {:induction false} ObservationContinues(run: nat, rows: seq<Row>, c: Call, content: Ref, at: int, key: Key)
    requires |rows| == 7 && c.run == run && LastFor(rows[6].event, c, 7, ToolCallClaimed)
    ensures Continues(run, rows, [Row(ObservationEvent(c, content, at), key)])
  {
    hide TaskOf;
  }

  lemma {:induction false} FollowupContinues(run: nat, rows: seq<Row>, c: Call, content: Ref, at: int, key: Key)
    requires |rows| == 8 && c.run == run && LastFor(rows[7].event, c, 8, Observation)
    ensures Continues(run, rows, [Row(FollowupPendingEvent(c, content, at), key)])
  {
    hide TaskOf;
  }

  lemma {:induction false} FollowupResultFollows(before: Event, c: Call, citations: seq<Citation>, result: ProviderResult, at: int)
    requires LastFor(before, c, 9, ModelCallPending)
    ensures var batch := FollowupBatch(c, citations, result, at);
      && |batch| <= 2
      && (|batch| > 0 ==> Fits(c.run, 9, batch[0].event) && Follows(before, batch[0].event))
  {
    hide TaskOf;
  }

  lemma {:induction false} FollowupEndFollows(c: Call, citations: seq<Citation>, result: ProviderResult, at: int)
    ensures var batch := FollowupBatch(c, citations, result, at);
      |batch| == 2 ==> Fits(c.run, 10, batch[1].event) && Follows(batch[0].event, batch[1].event)
  {
    hide TaskOf;
  }

  // Whatever a handler appends after the preparation continues its run.
  lemma {:induction false} BatchContinues(run: nat, rows: seq<Row>, log: seq<EventId>, h: Handler, o: Outside)
    requires Shape(run, EventsOf(rows)) && Stands(run, rows, log, h) && !h.Preparing?
    ensures |rows| >= 3 && Continues(run, rows, Batch(h, o))
  {
    hide Shape, CallStands, Fits, Follows, LastFor, FinishBatch, FollowupBatch, TaskOf;
    match h
    case Finishing(c, result) => FinishContinues(run, rows, c, result, o.at);
    case Deciding(c) =>
      CallLast(run, rows, c, 5, ToolRequested);
      DecisionContinues(run, rows, c, o.at);
    case Claiming(c) =>
      CallLast(run, rows, c, 6, GrantApproved);
      ClaimContinues(run, rows, c, o.at, c.key + ":claimed");
    case FailingTool(c, parent, failure) =>
      if CallStands(run, rows, c, 6, GrantApproved) && parent == Client(c.decision.id) {
        CallLast(run, rows, c, 6, GrantApproved);
      } else {
        CallLast(run, rows, c, 7, ToolCallClaimed);
      }
      FailureContinues(run, rows, c, parent, failure, o.at, c.key + ":failed");
    case Observing(c, reading) =>
      CallLast(run, rows, c, 7, ToolCallClaimed);
      ObservationContinues(run, rows, c, RefTo(ReadingBlob(reading)), o.at, c.key + ":observation");
    case LoadingRecords(c, content) =>
      CallLast(run, rows, c, 8, Observation);
      FollowupContinues(run, rows, c, content, o.at, c.key + ":followup:pending");
    case FinishingFollowup(c, citations, result) =>
      CallLast(run, rows, c, 9, ModelCallPending);
      FollowupResultFollows(rows[8].event, c, citations, result, o.at);
      FollowupEndFollows(c, citations, result, o.at);
    case Registering(c, _) => CallLast(run, rows, c, 6, GrantApproved);
    case ReadingFile(c) => CallLast(run, rows, c, 7, ToolCallClaimed);
    case DispatchingFollowup(c, _) => CallLast(run, rows, c, 9, ModelCallPending);
    case WaitingForFollowup(c, _) => CallLast(run, rows, c, 9, ModelCallPending);
    case _ =>
  }
}
