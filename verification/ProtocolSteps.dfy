/** What one step of a handler does to its own run: the trajectory, the provider log and the responses. */
module ProtocolSteps {
  import opened Wrappers
  import opened Relational
  import opened Events
  import opened Ledger
  import opened Runs
  import opened Protocol
  import opened ProtocolWorld
  import opened ProtocolShape
  import opened ProtocolLedger
  import Targets

  lemma {:induction false} EventsAppend(rows: seq<Row>, more: seq<Row>)
    ensures EventsOf(rows + more) == EventsOf(rows) + EventsOf(more)
  {
  }

  // A terminal step of a run stays its last one.
  lemma {:induction false} NothingAfterTerminal(run: nat, rows: seq<Row>, more: seq<Row>)
    requires Shape(run, EventsOf(rows + more)) && |rows| > 0
    requires LastKind(EventsOf(rows)).Some? && PendingOf(LastKind(EventsOf(rows)).value).None?
    ensures more == []
  {
    var es := EventsOf(rows + more);
    if |more| > 0 {
      assert es[|rows| - 1] == rows[|rows| - 1].event;
      hide Shape, TypeOf, WellFormed;
      ShapeFollows(run, es, |rows|);
      assert false;
    }
  }

  lemma {:induction false} ShapeFollows(run: nat, es: seq<Event>, i: nat)
    requires Shape(run, es) && 0 < i < |es|
    ensures Follows(es[i - 1], es[i])
  {
  }

  // A run that has answered, or was denied, has ended.
  lemma {:induction false} NothingFollows(run: nat, rows: seq<Row>, more: seq<Row>, reply: Reply)
    requires ReplyStands(run, rows, reply) && Shape(run, EventsOf(rows + more))
    requires reply.response.Answered? || reply.response.DeniedReply?
    ensures more == []
  {
    hide Shape, OriginStands, SameTool;
    NothingAfterTerminal(run, rows, more);
  }

  lemma {:induction false} AwaitingStays(run: nat, rows: seq<Row>, more: seq<Row>, reply: Reply)
    requires ReplyStands(run, rows, reply) && reply.response.Awaiting?
    ensures ReplyStands(run, rows + more, reply)
  {
    hide SameRequest, SameDecision, AwaitingOf, EventsOf;
    var es, later := EventsOf(rows), EventsOf(rows + more);
    EventsAppend(rows, more);
    SameLength(rows);
    SameLength(rows + more);
    assert forall i :: 0 <= i < |es| ==> later[i] == es[i];
    assert later[..5] == es[..5];
  }

  // A response that a run stood for once, it stands for ever after; an error, for as long as the run is left alone.
  lemma {:induction false} ReplyStaysTrue(run: nat, rows: seq<Row>, more: seq<Row>, reply: Reply)
    requires ReplyStands(run, rows, reply) && Shape(run, EventsOf(rows + more))
    requires reply.response.Raising? ==> more == []
    ensures ReplyStands(run, rows + more, reply)
  {
    hide Shape, OriginStands, Says;
    if reply.response.Answered? || reply.response.DeniedReply? { NothingFollows(run, rows, more, reply); }
    if more == [] {
      assert rows + more == rows;
    } else if reply.response.Awaiting? {
      AwaitingStays(run, rows, more, reply);
    }
  }

  lemma {:induction false} LogStays(es: seq<Event>, more: seq<Event>, log: seq<EventId>)
    requires LogFits(es, log)
    ensures LogFits(es + more, log)
  {
    hide NoDuplicates;
  }

  // ---------- the handler after an append ----------

  lemma {:induction false} PreparedStands(run: nat, c: Chat, log: seq<EventId>)
    requires Stands(run, [], log, Preparing(c)) && LogFits([], log)
    ensures Stands(run, PrepareBatch(c), log, Dispatching(c))
  {
    hide TaskOf;
    var rows := PrepareBatch(c);
    var es := EventsOf(rows);
    assert es[0] == RequestEvent(c.request, c.actor, c.at) && es[1] == ContextEvent(c.request, ManifestRef(c.manifest), c.at);
    assert SameRequest(es[0], c.request);
  }

  lemma {:induction false} CallGoesOn(run: nat, rows: seq<Row>, c: Call, length: nat, last: StepKind, row: Row, next: StepKind)
    requires CallStands(run, rows, c, length, last) && 5 <= length <= 8
    requires KindOf(row.event) == Some(next)
    requires length == 5 ==> row.key == c.key && SameDecision(row.event, c.session, run, c.toolEvent, c.decision) && c.decision.approved
    requires length == 6 ==> row.event.id == Derived(c.decision.id, ReadClaimed)
    requires length == 7 ==> row.event.id == Derived(c.decision.id, ReadObservation)
    requires length == 8 ==> row.event.id == Derived(c.decision.id, FollowupPending)
    ensures CallStands(run, rows + [row], c, length + 1, next)
  {
    hide SameDecision, KindOf;
    EventsSnoc(rows, row);
    var es, later := EventsOf(rows), EventsOf(rows + [row]);
    assert forall i :: 0 <= i < |es| ==> later[i] == es[i];
    assert forall i :: 0 <= i < |rows| ==> (rows + [row])[i] == rows[i];
    assert later[length] == row.event && (rows + [row])[length] == row;
  }

  lemma {:induction false} ContinueStands(run: nat, rows: seq<Row>, log: seq<EventId>, h: Handler, o: Outside)
    requires Shape(run, EventsOf(rows)) && Stands(run, rows, log, h) && LogFits(EventsOf(rows), log)
    requires !h.Preparing? && Continue(h, o).Some?
    ensures Stands(run, rows + Batch(h, o), log, Continue(h, o).value)
  {
    hide CallStands, Shape, TaskOf, ChatStands, Targets.Suffix, Targets.GrantAcceptable, Loaded;
    match h
    case Deciding(c) =>
      CallRun(run, rows, c, 5, ToolRequested);
      CallGoesOn(run, rows, c, 5, ToolRequested, Row(DecisionEvent(c, o.at), c.key), GrantApproved);
    case Claiming(c) =>
      CallRun(run, rows, c, 6, GrantApproved);
      CallGoesOn(run, rows, c, 6, GrantApproved, Row(ClaimedEvent(c, o.at), c.key + ":claimed"), ToolCallClaimed);
    case Observing(c, reading) =>
      CallRun(run, rows, c, 7, ToolCallClaimed);
      CallGoesOn(run, rows, c, 7, ToolCallClaimed,
                 Row(ObservationEvent(c, RefTo(ReadingBlob(reading)), o.at), c.key + ":observation"), Observation);
    case LoadingRecords(c, content) =>
      CallRun(run, rows, c, 8, Observation);
      CallGoesOn(run, rows, c, 8, Observation, Row(FollowupPendingEvent(c, content, o.at), c.key + ":followup:pending"), ModelCallPending);
      FirstPendingId(run, rows);
    case _ =>
  }

  lemma {:induction false} CallRun(run: nat, rows: seq<Row>, c: Call, length: nat, last: StepKind)
    requires CallStands(run, rows, c, length, last)
    ensures c.run == run && |rows| == length >= 5
  {
  }

  lemma {:induction false} FirstPendingId(run: nat, rows: seq<Row>)
    requires Shape(run, EventsOf(rows)) && |rows| > 0
    ensures |rows| >= 3 && EventsOf(rows)[2].id == Derived(run, ChatPending)
  {
    NotShort(run, EventsOf(rows));
    FitsAt(run, EventsOf(rows), 2);
  }

  // ---------- the provider log ----------

  lemma {:induction false} ChatDispatchFits(run: nat, rows: seq<Row>, log: seq<EventId>, c: Chat)
    requires Shape(run, EventsOf(rows)) && LogFits(EventsOf(rows), log) && Stands(run, rows, log, Dispatching(c))
    ensures LogFits(EventsOf(rows), log + [Derived(run, ChatPending)])
    ensures c.request.id == run && Stands(run, rows, log + [Derived(run, ChatPending)], WaitingForProvider(c))
    ensures |rows| >= 3 && rows[2].event.id == Derived(run, ChatPending) && KindOf(rows[2].event) == Some(ModelCallPending)
  {
    FirstPendingId(run, rows);
    FitsAt(run, EventsOf(rows), 2);
  }

  lemma {:induction false} FollowupDispatchFits(run: nat, rows: seq<Row>, log: seq<EventId>, c: Call, citations: seq<Citation>)
    requires LogFits(EventsOf(rows), log) && Stands(run, rows, log, DispatchingFollowup(c, citations))
    ensures LogFits(EventsOf(rows), log + [Derived(c.decision.id, FollowupPending)])
    ensures Stands(run, rows, log + [Derived(c.decision.id, FollowupPending)], WaitingForFollowup(c, citations))
    ensures |rows| >= 9 && rows[8].event.id == Derived(c.decision.id, FollowupPending) && KindOf(rows[8].event) == Some(ModelCallPending)
  {
    hide SameDecision;
  }

  lemma {:induction false} StandsWithResult(run: nat, rows: seq<Row>, log: seq<EventId>, c: Chat, result: ProviderResult)
    requires Stands(run, rows, log, WaitingForProvider(c))
    ensures Stands(run, rows, log, Finishing(c, result))
  {
    hide ChatStands;
  }

  lemma {:induction false} StandsWithFollowup(run: nat, rows: seq<Row>, log: seq<EventId>, c: Call, citations: seq<Citation>, result: ProviderResult)
    requires Stands(run, rows, log, WaitingForFollowup(c, citations))
    ensures Stands(run, rows, log, FinishingFollowup(c, citations, result))
  {
    hide CallStands;
  }

  // ---------- the responses ----------

  lemma {:induction false} ChatAnswerSays(run: nat, rows: seq<Row>, c: Chat, text: string, at: int)
    requires Shape(run, EventsOf(rows)) && ChatStands(run, rows, c)
    ensures var response := Answered(c.request.session, run, TaskOf(run), c.provider.kind, c.provider.model, text, c.citations, c.manifest);
      ReplyStands(run, rows + FinishBatch(c, Answers(text), at), Reply(run, FromChat(c.request, c.key), response))
  {
    FitsAt(run, EventsOf(rows), 0);
    hide Shape, TaskOf;
    var batch := FinishBatch(c, Answers(text), at);
    EventsAppend(rows, batch);
    var es, later := EventsOf(rows), EventsOf(rows + batch);
    assert later[0] == es[0] && later[1] == es[1] && |later| == 5;
    assert later[4] == AnswerEvent(c.request, c.provider, text, c.citations, at);
  }

  lemma {:induction false} ChatAskSays(run: nat, rows: seq<Row>, c: Chat, tool: ToolRequest, at: int)
    requires Shape(run, EventsOf(rows)) && ChatStands(run, rows, c)
    ensures var response := Awaiting(c.request.session, run, TaskOf(run), c.provider.kind, c.provider.model, c.provider.actor,
                                     Derived(run, ChatToolRequest), tool);
      ReplyStands(run, rows + FinishBatch(c, Asks(tool), at), Reply(run, FromChat(c.request, c.key), response))
  {
    FitsAt(run, EventsOf(rows), 0);
    hide Shape, TaskOf;
    var batch := FinishBatch(c, Asks(tool), at);
    EventsAppend(rows, batch);
    var es, later := EventsOf(rows), EventsOf(rows + batch);
    assert later[0] == es[0] && later[1] == es[1] && |later| == 5;
    assert later[4] == ToolRequestEvent(c.request, c.provider, tool, at);
    assert later[..5] == later;
  }

  lemma {:induction false} DenialSays(run: nat, rows: seq<Row>, c: Call, at: int)
    requires CallStands(run, rows, c, 5, ToolRequested) && !c.decision.approved
    ensures ReplyStands(run, rows + [Row(DecisionEvent(c, at), c.key)],
                        Reply(run, FromDecision(c.session, c.toolEvent, c.decision, c.key), DeniedReply(c.session, c.run, c.toolEvent)))
  {
    hide TaskOf;
    EventsSnoc(rows, Row(DecisionEvent(c, at), c.key));
    var es, later := EventsOf(rows), EventsOf(rows + [Row(DecisionEvent(c, at), c.key)]);
    assert later[0] == es[0] && |later| == 6;
    assert later[5] == DecisionEvent(c, at);
    assert SameDecision(later[5], c.session, run, c.toolEvent, c.decision);
  }

  lemma {:induction false} FollowupAnswerSays(run: nat, rows: seq<Row>, c: Call, citations: seq<Citation>, text: string, at: int)
    requires Shape(run, EventsOf(rows)) && CallStands(run, rows, c, 9, ModelCallPending)
    ensures var response := Answered(c.session, run, TaskOf(run), c.provider.kind, c.provider.model, text, citations, c.manifest);
      ReplyStands(run, rows + FollowupBatch(c, citations, Answers(text), at),
                  Reply(run, FromDecision(c.session, c.toolEvent, c.decision, c.key), response))
  {
    hide Shape, TaskOf, SameDecision, FailureOf, SaysError, AwaitingOf;
    FitsAt(run, EventsOf(rows), 0);
    var batch := FollowupBatch(c, citations, Answers(text), at);
    EventsAppend(rows, batch);
    var es, later := EventsOf(rows), EventsOf(rows + batch);
    assert later[0] == es[0] && later[1] == es[1] && later[5] == es[5] && |later| == 11;
    assert later[10] == FollowupAnswerEvent(c, text, citations, at);
    assert (rows + batch)[5] == rows[5];
  }

  // ---------- the errors ----------

  lemma {:induction false} ChatFailureSays(run: nat, rows: seq<Row>, c: Chat, result: ProviderResult, at: int)
    requires Shape(run, EventsOf(rows)) && ChatStands(run, rows, c) && (result.Fails? || result.Breaks?)
    ensures var error := if result.Fails? then ProviderFailed(result.failure) else WasInterrupted;
      ReplyStands(run, rows + FinishBatch(c, result, at), Reply(run, FromChat(c.request, c.key), Raising(error)))
  {
    FitsAt(run, EventsOf(rows), 0);
    hide Shape, TaskOf;
    var batch := FinishBatch(c, result, at);
    EventsAppend(rows, batch);
    var es, later := EventsOf(rows), EventsOf(rows + batch);
    assert later[0] == es[0] && |later| == 4;
    assert later[3] == TerminalEvent(c.request, if result.Fails? then Some(result.failure) else None, at);
  }

  lemma {:induction false} ToolFailureSays(run: nat, rows: seq<Row>, c: Call, parent: EventId, failure: FailureKind, at: int, key: Key)
    requires CallStands(run, rows, c, 6, GrantApproved) || CallStands(run, rows, c, 7, ToolCallClaimed)
    ensures ReplyStands(run, rows + [Row(ToolFailedEvent(c, parent, failure, at), key)],
                        Reply(run, FromDecision(c.session, c.toolEvent, c.decision, c.key), Raising(LoopFailed(failure))))
  {
    hide TaskOf, SameDecision;
    var row := Row(ToolFailedEvent(c, parent, failure, at), key);
    EventsSnoc(rows, row);
    var es, later := EventsOf(rows), EventsOf(rows + [row]);
    assert later[5] == es[5] && |later| == |es| + 1 && later[|es|] == row.event;
    assert (rows + [row])[5] == rows[5];
  }

  lemma {:induction false} FollowupFailureSays(run: nat, rows: seq<Row>, c: Call, citations: seq<Citation>, result: ProviderResult, at: int)
    requires CallStands(run, rows, c, 9, ModelCallPending) && (result.Fails? || result.Asks?)
    ensures ReplyStands(run, rows + FollowupBatch(c, citations, result, at),
                        Reply(run, FromDecision(c.session, c.toolEvent, c.decision, c.key), Raising(FollowupRaised)))
  {
    hide TaskOf, SameDecision;
    var batch := FollowupBatch(c, citations, result, at);
    EventsAppend(rows, batch);
    var es, later := EventsOf(rows), EventsOf(rows + batch);
    assert later[5] == es[5] && |later| == 10 && later[9] == FollowupFailedEvent(c, FollowupFailure(result), at);
    assert (rows + batch)[5] == rows[5];
  }

  // The last event of a run that records no failure.
  lemma {:induction false} NoFailure(run: nat, es: seq<Event>)
    requires Shape(run, es) && |es| > 0
    requires KindOf(es[|es| - 1]).Some? && !RecordsFailure(KindOf(es[|es| - 1]).value)
    ensures FailureOf(es) == None
  {
    FitsAt(run, es, |es| - 1);
  }

  lemma {:induction false} GrantRefusalSays(run: nat, rows: seq<Row>, c: Call, at: int)
    requires CallStands(run, rows, c, 5, ToolRequested) && c.decision.approved
    ensures ReplyStands(run, rows + [Row(DecisionEvent(c, at), c.key)],
                        Reply(run, FromDecision(c.session, c.toolEvent, c.decision, c.key), Raising(GrantRefused)))
  {
    hide TaskOf;
    EventsSnoc(rows, Row(DecisionEvent(c, at), c.key));
    var es, later := EventsOf(rows), EventsOf(rows + [Row(DecisionEvent(c, at), c.key)]);
    assert later[0] == es[0] && |later| == 6 && later[5] == DecisionEvent(c, at);
    assert SameDecision(later[5], c.session, run, c.toolEvent, c.decision);
  }

  // A call that ends without a further append says where its run stands.
  lemma {:induction false} CallEndSays(run: nat, rows: seq<Row>, c: Call, length: nat, last: StepKind, error: CallError)
    requires Shape(run, EventsOf(rows)) && CallStands(run, rows, c, length, last) && length >= 6
    requires last in [GrantApproved, ToolCallClaimed, Observation, ModelCallPending]
    requires match error
      case EventRejected => true
      case LedgerFailed(_) => true
      case ContextUnavailable => length == 8 && last == Observation
      case FollowupBroke => length == 9 && last == ModelCallPending
      case _ => false
    ensures ReplyStands(run, rows, Reply(run, FromDecision(c.session, c.toolEvent, c.decision, c.key), Raising(error)))
  {
    hide Shape, SameDecision, KindOf, FailureOf, EventsOf;
    assert |EventsOf(rows)| == |rows| by { SameLength(rows); }
    NoFailure(run, EventsOf(rows));
  }

  lemma {:induction false} SameLength(rows: seq<Row>)
    ensures |EventsOf(rows)| == |rows|
  {
  }

  lemma {:induction false} ChatEndSays(run: nat, rows: seq<Row>, c: Chat, error: CallError)
    requires Shape(run, EventsOf(rows)) && ChatStands(run, rows, c)
    requires error.EventRejected? || error.LedgerFailed? || error.KeyConflict?
    ensures ReplyStands(run, rows, Reply(run, FromChat(c.request, c.key), Raising(error)))
  {
    FitsAt(run, EventsOf(rows), 2);
    hide Shape, SameRequest, TaskOf;
  }

  // The error of a call whose next append fails is one its run stands for.
  lemma {:induction false} EndingSays(run: nat, rows: seq<Row>, log: seq<EventId>, h: Handler, error: CallError)
    requires Shape(run, EventsOf(rows)) && Stands(run, rows, log, h) && HasStored(h)
    requires error == EventRejected || error.LedgerFailed? || (error == KeyConflict && h.Finishing?)
    ensures ReplyStands(run, rows, Reply(run, OriginOf(h), Raising(error)))
  {
    hide CallStands, Shape, TaskOf, ChatStands, ReplyStands;
    match h
    case Dispatching(c) => ChatEndSays(run, rows, c, error);
    case WaitingForProvider(c) => ChatEndSays(run, rows, c, error);
    case Finishing(c, _) => ChatEndSays(run, rows, c, error);
    case Registering(c, _) => CallEndSays(run, rows, c, 6, GrantApproved, error);
    case Claiming(c) => CallEndSays(run, rows, c, 6, GrantApproved, error);
    case ReadingFile(c) => CallEndSays(run, rows, c, 7, ToolCallClaimed, error);
    case FailingTool(c, parent, _) =>
      if CallStands(run, rows, c, 6, GrantApproved) {
        CallEndSays(run, rows, c, 6, GrantApproved, error);
      } else {
        CallEndSays(run, rows, c, 7, ToolCallClaimed, error);
      }
    case Observing(c, _) => CallEndSays(run, rows, c, 7, ToolCallClaimed, error);
    case LoadingRecords(c, _) => CallEndSays(run, rows, c, 8, Observation, error);
    case DispatchingFollowup(c, _) => CallEndSays(run, rows, c, 9, ModelCallPending, error);
    case WaitingForFollowup(c, _) => CallEndSays(run, rows, c, 9, ModelCallPending, error);
    case FinishingFollowup(c, _, _) => CallEndSays(run, rows, c, 9, ModelCallPending, error);
  }

  // The response a call returns, or the error it raises, is what its run says once the last append is committed.
  lemma {:induction false} FinalSays(run: nat, rows: seq<Row>, log: seq<EventId>, h: Handler, o: Outside)
    requires Shape(run, EventsOf(rows)) && Stands(run, rows, log, h) && !h.Preparing? && Final(h, o).Some?
    ensures ReplyStands(run, rows + Batch(h, o), Reply(run, OriginOf(h), Final(h, o).value))
  {
    hide CallStands, Shape, TaskOf, ChatStands, ReplyStands, Targets.Suffix, Targets.GrantAcceptable, Loaded;
    match h
    case Finishing(c, Answers(text)) =>
      ChatRequestRun(run, rows, c);
      ChatAnswerSays(run, rows, c, text, o.at);
    case Finishing(c, Asks(tool)) =>
      ChatRequestRun(run, rows, c);
      ChatAskSays(run, rows, c, tool, o.at);
    case Deciding(c) =>
      CallRun(run, rows, c, 5, ToolRequested);
      if c.decision.approved { GrantRefusalSays(run, rows, c, o.at); } else { DenialSays(run, rows, c, o.at); }
    case LoadingRecords(c, _) =>
      assert rows + [] == rows;
      CallEndSays(run, rows, c, 8, Observation, ContextUnavailable);
    case FinishingFollowup(c, citations, Answers(text)) =>
      CallRun(run, rows, c, 9, ModelCallPending);
      FollowupAnswerSays(run, rows, c, citations, text, o.at);
    case Finishing(c, result) =>
      ChatRequestRun(run, rows, c);
      ChatFailureSays(run, rows, c, result, o.at);
    case FailingTool(c, parent, failure) => ToolFailureSays(run, rows, c, parent, failure, o.at, c.key + ":failed");
    case FinishingFollowup(c, _, Breaks) =>
      assert rows + [] == rows;
      CallEndSays(run, rows, c, 9, ModelCallPending, FollowupBroke);
    case FinishingFollowup(c, citations, result) =>
      FollowupFailureSays(run, rows, c, citations, result, o.at);
    case _ =>
  }

  lemma {:induction false} ChatRequestRun(run: nat, rows: seq<Row>, c: Chat)
    requires ChatStands(run, rows, c)
    ensures c.request.id == run
  {
  }
}
