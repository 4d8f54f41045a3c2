/** Runs that stand still for ever: what ends a call after its intent is stored, and why nothing takes the run up again. */
module ProtocolAbandoned {
  import opened Wrappers
  import opened Events
  import opened EventContracts
  import opened Ledger
  import opened Runs
  import opened Protocol
  import opened ProtocolWorld
  import opened ProtocolShape
  import opened ProtocolLedger
  import opened ProtocolSafety
  import opened ProtocolRuns
  import opened ProtocolProgress
  import Broker
  import Memory

  // A run that has begun, does not wait for a decision, and has no call that works on it. A call that begins under
  // another key stands in the way of nothing.
  ghost predicate Idle(w: World, run: nat) {
    && EventsOfRun(w, run) != []
    && LastKind(EventsOfRun(w, run)) != Some(ToolRequested)
    && (run in w.active ==> w.active[run].Preparing?)
  }

  ghost predicate SameRunIn(w: World, v: World, run: nat) {
    OfRun(v.rows, run) == OfRun(w.rows, run) && LogOf(v.dispatched, run) == LogOf(w.dispatched, run)
  }

  // ---------- one step ----------

  // The run an advancing handler appends to is its own.
  lemma {:induction false} AdvanceAppendsToOwn(w: World, own: nat, o: Outside, run: nat)
    requires Inv(w) && own in w.active && run != own
    ensures var v := AdvanceStep(w, own, o);
      SameRunIn(w, v, run) && (run in v.active <==> run in w.active) && (run in v.active ==> v.active[run] == w.active[run])
  {
    hide Inv, AppendStep, RegisterStep, ReadStep, DispatchStep, SetHandler, OfRun, LogOf;
    match w.active[own]
    case Dispatching(c) => DispatchElsewhere(w, own, Derived(c.request.id, ChatPending), WaitingForProvider(c), run);
    case DispatchingFollowup(c, citations) =>
      DispatchElsewhere(w, own, Derived(c.decision.id, FollowupPending), WaitingForFollowup(c, citations), run);
    case WaitingForProvider(c) => HandlerElsewhere(w, own, Some(Finishing(c, o.result)), run);
    case WaitingForFollowup(c, citations) => HandlerElsewhere(w, own, Some(FinishingFollowup(c, citations, o.result)), run);
    case Registering(c, g) => RegisterElsewhere(w, own, c, g, o, run);
    case ReadingFile(c) => ReadElsewhere(w, own, c, o, run);
    case Preparing(c) => PrepareElsewhere(w, own, o, run);
    case _ => AppendElsewhere(w, own, o, run);
  }

  lemma {:induction false} HandlerElsewhere(w: World, own: nat, h: Option<Handler>, run: nat)
    requires run != own
    ensures var v := SetHandler(w, own, h);
      SameRunIn(w, v, run) && (run in v.active <==> run in w.active) && (run in v.active ==> v.active[run] == w.active[run])
  {
    hide OfRun, LogOf;
  }

  lemma {:induction false} DispatchElsewhere(w: World, own: nat, pending: EventId, h: Handler, run: nat)
    requires run != own
    ensures var v := DispatchStep(w, own, pending, h);
      SameRunIn(w, v, run) && (run in v.active <==> run in w.active) && (run in v.active ==> v.active[run] == w.active[run])
  {
    LogSnoc(w.dispatched, Dispatch(own, pending, |w.rows|));
    hide OfRun, LogOf;
  }

  lemma {:induction false} RegisterElsewhere(w: World, own: nat, c: Call, g: Broker.Grant, o: Outside, run: nat)
    requires run != own
    ensures var v := RegisterStep(w, own, c, g, o);
      SameRunIn(w, v, run) && (run in v.active <==> run in w.active) && (run in v.active ==> v.active[run] == w.active[run])
  {
    hide OfRun, LogOf, Broker.Register, Broker.Apply, ById;
  }

  lemma {:induction false} ReadElsewhere(w: World, own: nat, c: Call, o: Outside, run: nat)
    requires run != own
    ensures var v := ReadStep(w, own, c, o);
      SameRunIn(w, v, run) && (run in v.active <==> run in w.active) && (run in v.active ==> v.active[run] == w.active[run])
  {
    hide OfRun, LogOf, Broker.Claim, Broker.Apply, Broker.ReadFile;
  }

  lemma {:induction false} PrepareElsewhere(w: World, own: nat, o: Outside, run: nat)
    requires Inv(w) && own in w.active && w.active[own].Preparing? && run != own
    ensures var v := AppendStep(w, own, w.active[own], o);
      SameRunIn(w, v, run) && (run in v.active <==> run in w.active) && (run in v.active ==> v.active[run] == w.active[run])
  {
    hide Inv, LedgerOk, OfRun, LogOf, LogFits, RunShaped, AppendMany, AppendStep, Buildable, PrepareBatch, Broker.Consistent, AppendErrorOf, Ended;
    RunOf(w, own);
    var c := w.active[own].chat;
    PrepareStepOutcome(w, own, c, o);
    if !Buildable(PrepareBatch(c)) {
      EndedElsewhere(w, own, Preparing(c), EventRejected, run);
    } else if AppendMany(w.rows, w.artifacts, PrepareBatch(c)).Failure? {
      EndedElsewhere(w, own, Preparing(c), AppendErrorOf(Preparing(c), AppendMany(w.rows, w.artifacts, PrepareBatch(c)).error), run);
    } else {
      PreparationAppended(w.rows, w.artifacts, own, c);
      PreparedEvents(c);
      OthersUntouched(w.rows, PrepareBatch(c), run);
    }
  }

  lemma {:induction false} AppendElsewhere(w: World, own: nat, o: Outside, run: nat)
    requires Inv(w) && own in w.active && !w.active[own].Preparing? && run != own
    ensures var v := AppendStep(w, own, w.active[own], o);
      SameRunIn(w, v, run) && (run in v.active <==> run in w.active) && (run in v.active ==> v.active[run] == w.active[run])
  {
    hide Inv, LedgerOk, OfRun, LogOf, LogFits, Shape, RunShaped, Stands, AppendMany, AppendStep, Buildable, Batch, Broker.Consistent, Continues,
      AppendErrorOf, Ended, Appended;
    RunOf(w, own);
    ShapeOf(w.rows, own);
    var h := w.active[own];
    AppendStepOutcome(w, own, h, o);
    if !Buildable(Batch(h, o)) {
      EndedElsewhere(w, own, h, EventRejected, run);
    } else if AppendMany(w.rows, w.artifacts, Batch(h, o)).Failure? {
      EndedElsewhere(w, own, h, AppendErrorOf(h, AppendMany(w.rows, w.artifacts, Batch(h, o)).error), run);
    } else {
      BatchContinues(own, OfRun(w.rows, own), LogOf(w.dispatched, own), h, o);
      BatchAppended(w.rows, w.artifacts, own, Batch(h, o));
      ContinuedRun(own, OfRun(w.rows, own), Batch(h, o));
      OthersUntouched(w.rows, Batch(h, o), run);
      AppendedElsewhere(w, own, h, o, w.rows + Batch(h, o), run);
    }
  }

  lemma {:induction false} EndedElsewhere(w: World, own: nat, h: Handler, error: CallError, run: nat)
    requires run != own
    ensures var v := Ended(w, own, h, error);
      SameRunIn(w, v, run) && (run in v.active <==> run in w.active) && (run in v.active ==> v.active[run] == w.active[run])
  {
    hide OfRun, LogOf, OriginOf;
  }

  lemma {:induction false} AppendedElsewhere(w: World, own: nat, h: Handler, o: Outside, grown: seq<Row>, run: nat)
    requires run != own && OfRun(grown, run) == OfRun(w.rows, run)
    ensures var v := Appended(w, own, h, o, grown);
      SameRunIn(w, v, run) && (run in v.active <==> run in w.active) && (run in v.active ==> v.active[run] == w.active[run])
  {
    hide OfRun, LogOf, OriginOf, Continue, Final;
  }

  // A preparation for a run that has begun fails.
  lemma {:induction false} PreparingEnds(w: World, run: nat, o: Outside)
    requires Inv(w) && run in w.active && w.active[run].Preparing? && EventsOfRun(w, run) != []
    ensures exists error :: AppendStep(w, run, w.active[run], o) == Ended(w, run, w.active[run], error)
  {
    RunOf(w, run);
    var c := w.active[run].chat;
    PrepareStepOutcome(w, run, c, o);
    hide Inv, LedgerOk, OfRun, LogOf, LogFits, RunShaped, AppendMany, AppendStep, Buildable, PrepareBatch, Broker.Consistent, Ended, AppendErrorOf;
    if AppendMany(w.rows, w.artifacts, PrepareBatch(c)).Success? {
      PreparationAppended(w.rows, w.artifacts, run, c);
      assert false;
    }
  }

  lemma {:induction false} IdleAdvance(w: World, own: nat, o: Outside, run: nat)
    requires Inv(w) && own in w.active && Idle(w, run)
    ensures Idle(AdvanceStep(w, own, o), run) && SameRunIn(w, AdvanceStep(w, own, o), run)
  {
    hide Inv, LastKind, OfRun, LogOf;
    if own == run {
      hide AppendStep, OriginOf;
      PreparingEnds(w, run, o);
    } else {
      hide AdvanceStep;
      AdvanceAppendsToOwn(w, own, o, run);
    }
  }

  // No decision finds an idle run waiting.
  lemma {:induction false} IdleDecision(w: World, session: string, run: nat, toolEvent: EventId, d: Decision, key: Key, actor: string, p: ProviderIdentity)
    requires Inv(w) && Idle(w, run)
    ensures !DecisionLookup(w.rows, w.artifacts, session, run, toolEvent, d, key, actor, p).Proceed?
  {
    RunOf(w, run);
    hide Inv, LedgerOk, OfRun, LogFits, Stands, ByKey, Inspect, Shape, Broker.Consistent, CompletedOf, SameDecision;
    InspectFinds(w.rows, w.artifacts, session, run);
  }

  lemma {:induction false} IdleStart(w: World, step: Step, run: nat)
    requires Inv(w) && Enabled(w, step) && Idle(w, run) && (step.StartChat? || step.StartDecision?)
    ensures Idle(Apply(w, step), run) && SameRunIn(w, Apply(w, step), run)
  {
    hide Inv, LastKind, OfRun, LogOf, ChatLookup, DecisionLookup, Memory.PortableToken, IdentityFits, RequestFits, CompiledFor, Inspect;
    match step
    case StartChat(c) =>
    case StartDecision(session, r, toolEvent, d, key, actor, p) =>
      if r == run { IdleDecision(w, session, run, toolEvent, d, key, actor, p); }
    case _ =>
  }

  lemma {:induction false} IdleOtherAppend(w: World, entries: seq<Row>, run: nat)
    requires Inv(w) && forall x :: x in entries ==> x.event.run.OtherRun?
    requires AppendMany(w.rows, w.artifacts, entries).Success?
    ensures OfRun(AppendMany(w.rows, w.artifacts, entries).value, run) == OfRun(w.rows, run)
  {
    RunOf(w, run);
    AppendManyKeeps(w.rows, w.artifacts, entries);
    var rows := AppendMany(w.rows, w.artifacts, entries).value;
    SoundIsDistinct(rows, w.artifacts);
    var more := rows[|w.rows|..];
    assert rows == w.rows + more;
    OtherRows(w.rows, more, entries);
    hide Inv, LedgerOk, AppendMany, OfRun, DistinctIds, DistinctKeys;
    OthersUntouched(w.rows, more, run);
  }

  lemma {:induction false} IdleStays(w: World, step: Step, run: nat)
    requires Inv(w) && Enabled(w, step) && Idle(w, run)
    ensures Idle(Apply(w, step), run) && SameRunIn(w, Apply(w, step), run)
  {
    hide Inv, LastKind, OfRun, LogOf, AppendMany, AdvanceStep, StartChatStep, StartDecisionStep, Broker.Apply, ResultFits, ById;
    match step
    case StartChat(_) => IdleStart(w, step, run);
    case StartDecision(_, _, _, _, _, _, _) => IdleStart(w, step, run);
    case Advance(own, o) => IdleAdvance(w, own, o, run);
    case OtherAppend(entries) =>
      if AppendMany(w.rows, w.artifacts, entries).Success? { IdleOtherAppend(w, entries, run); }
    case _ =>
  }

  // ---------- whole histories ----------

  lemma {:induction false} SameRunAgain(a: World, b: World, c: World, run: nat)
    requires SameRunIn(a, b, run) && SameRunIn(b, c, run)
    ensures SameRunIn(a, c, run)
  {
    hide OfRun, LogOf;
  }

  lemma {:induction false} PossibleFront(steps: seq<Step>, more: seq<Step>)
    requires Possible(steps + more) && |more| > 0
    ensures Possible(steps + more[..|more| - 1]) && Enabled(After(steps + more[..|more| - 1]), more[|more| - 1])
    ensures After(steps + more) == Apply(After(steps + more[..|more| - 1]), more[|more| - 1])
  {
    hide Enabled, Apply, Inv;
    assert (steps + more)[..|steps + more| - 1] == steps + more[..|more| - 1];
  }

  // Nothing that can happen later adds to an idle run, asks the provider about it, or takes it up again.
  lemma {:induction false} IdleForEver(steps: seq<Step>, more: seq<Step>, run: nat)
    requires Possible(steps) && Possible(steps + more) && Idle(After(steps), run)
    ensures Idle(After(steps + more), run) && SameRunIn(After(steps), After(steps + more), run)
  {
    if |more| == 0 {
      assert steps + more == steps;
    } else {
      hide Inv, Enabled, Apply, After, Possible, Idle, SameRunIn;
      PossibleFront(steps, more);
      var front := steps + more[..|more| - 1];
      IdleForEver(steps, more[..|more| - 1], run);
      Reached(front);
      IdleStays(After(front), more[|more| - 1], run);
      SameRunAgain(After(steps), After(front), After(steps + more), run);
    }
  }

  // What was answered stays answered.
  lemma {:induction false} RepliesStay(steps: seq<Step>, more: seq<Step>, reply: Reply)
    requires Possible(steps) && Possible(steps + more) && reply in After(steps).replies
    ensures reply in After(steps + more).replies
  {
    if |more| == 0 {
      assert steps + more == steps;
    } else {
      hide Inv, Enabled, Apply, After, Possible;
      PossibleFront(steps, more);
      RepliesStay(steps, more[..|more| - 1], reply);
      RepliesGrow(After(steps + more[..|more| - 1]), more[|more| - 1]);
    }
  }

  lemma {:induction false} RepliesGrow(w: World, step: Step)
    requires Enabled(w, step)
    ensures w.replies <= Apply(w, step).replies
  {
    hide Broker.Apply, Broker.Register, Broker.Claim, Broker.ReadFile, AppendMany, ChatLookup, DecisionLookup, Inspect, Batch, Buildable, Continue,
      Final, OriginOf, ById, Memory.PortableToken, CompiledFor, RequestFits, IdentityFits, ResultFits, AppendErrorOf;
  }

  lemma {:induction false} Reached(steps: seq<Step>)
    requires Possible(steps)
    ensures Inv(After(steps))
  {
  }

  // ---------- answers that cannot be recorded ----------

  lemma {:induction false} FirstOfRun(rows: seq<Row>, run: nat)
    requires RunShaped(rows, run) && OfRun(rows, run) != []
    ensures HasId(rows, Client(run))
  {
    OfRunMembers(rows, run);
    FitsAt(run, EventsOf(OfRun(rows, run)), 0);
    assert OfRun(rows, run)[0] in rows;
  }

  lemma {:induction false} NobodyAsked(log: seq<EventId>)
    requires LogFits([], log)
    ensures log == []
  {
    FirstIsIn(log);
  }

  lemma {:induction false} FirstIsIn<T>(s: seq<T>)
    ensures s == [] || s[0] in s
  {
  }

  // A run whose first identity is unused has no event yet, and nobody was asked about it.
  lemma {:induction false} NotBegun(w: World, run: nat)
    requires Inv(w) && !HasId(w.rows, Client(run))
    ensures OfRun(w.rows, run) == [] && LogOf(w.dispatched, run) == []
  {
    RunOf(w, run);
    assert EventsOf([]) == [];
    hide Inv, LedgerOk, HasId, RunShaped, OfRun, LogOf, LogFits, Stands, Broker.Consistent;
    if OfRun(w.rows, run) != [] {
      FirstOfRun(w.rows, run);
      assert false;
    }
    NobodyAsked(LogOf(w.dispatched, run));
  }

  lemma {:induction false} PreparedLast(c: Chat)
    ensures EventsOf(PrepareBatch(c)) != [] && LastKind(EventsOf(PrepareBatch(c))) == Some(ModelCallPending)
  {
    hide TaskOf;
  }

  // The run of a call that stored no more than its preparation.
  lemma {:induction false} OnlyPrepared(w: World, v: World, c: Chat, o: Outside)
    requires Inv(w) && !HasId(w.rows, Client(c.request.id)) && CalledTo(w, v, c, o) && !Recordable(c.citations, o.result)
    ensures var run := c.request.id;
      && Idle(v, run) && EventsOfRun(v, run) == EventsOf(PrepareBatch(c))
      && LastKind(EventsOfRun(v, run)) == Some(ModelCallPending) && LogOf(v.dispatched, run) == [Derived(run, ChatPending)]
  {
    var run := c.request.id;
    NotBegun(w, run);
    PreparedEvents(c);
    PreparedLast(c);
    OfRunAppend(w.rows, PrepareBatch(c), run);
    OfRunAll(PrepareBatch(c), run);
    LogSnoc(w.dispatched, Dispatch(run, Derived(run, ChatPending), |w.rows| + 3));
    hide Inv, OfRun, LogOf, PrepareBatch, FinishBatch, Final, Recordable, LastKind, HasId;
    assert w.rows + PrepareBatch(c) + [] == w.rows + PrepareBatch(c);
  }

  // The provider was asked, and whatever happens later the run says that its answer is still awaited.
  lemma {:induction false} UnrecordedAnswerStrands(steps: seq<Step>, c: Chat, o: Outside, more: seq<Step>)
    requires Possible(steps) && Enabled(After(steps), StartChat(c)) && ResultFits(o.result) && Preparable(c)
    requires forall x :: x in PrepareBatch(c) ==> Unused(After(steps).rows, x)
    requires forall x :: x in FinishBatch(c, o.result, o.at) ==> Unused(After(steps).rows, x)
    requires !Recordable(c.citations, o.result)
    ensures Possible(WithCall(steps, c, o))
    ensures Possible(WithCall(steps, c, o) + more) ==>
      var run, v := c.request.id, After(WithCall(steps, c, o) + more);
      && Idle(v, run) && EventsOfRun(v, run) == EventsOf(PrepareBatch(c))
      && LastKind(EventsOfRun(v, run)) == Some(ModelCallPending) && LogOf(v.dispatched, run) == [Derived(run, ChatPending)]
  {
    hide *;
    UnhinderedCallCompletes(steps, c, o);
    Reached(steps);
    FirstIsUnused(After(steps).rows, c);
    var s := WithCall(steps, c, o);
    OnlyPrepared(After(steps), After(s), c, o);
    if Possible(s + more) {
      IdleForEver(s, more, c.request.id);
      SameEvents(After(s), After(s + more), c.request.id);
    }
  }

  lemma {:induction false} FirstIsUnused(rows: seq<Row>, c: Chat)
    requires forall x :: x in PrepareBatch(c) ==> Unused(rows, x)
    ensures !HasId(rows, Client(c.request.id))
  {
    PreparedEvents(c);
    hide PrepareBatch, HasId, HasKey, Memory.PortableToken;
    assert PrepareBatch(c)[0] in PrepareBatch(c);
  }

  lemma {:induction false} SameEvents(w: World, v: World, run: nat)
    requires SameRunIn(w, v, run)
    ensures EventsOfRun(v, run) == EventsOfRun(w, run) && LogOf(v.dispatched, run) == LogOf(w.dispatched, run)
  {
    hide OfRun, LogOf;
  }
}
