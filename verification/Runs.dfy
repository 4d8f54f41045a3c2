/** Reading a run back from its events: which streams are runs, and what state they stand for. */
module Runs {
  import opened Wrappers
  import opened Events
  import opened Context

  datatype RunState = InProgress | AwaitingApproval | Completed | Failed | Interrupted

  datatype PendingAction =
    | ContextCompilation | ProviderDispatch | ProviderResult | ModelContinuation
    | HumanApproval | ToolExecution | ToolResult | ProviderFollowUp

  datatype RunStep = RunStep(sequence: nat, id: EventId, kind: StepKind, eventType: EventType, parents: seq<EventId>)

  datatype Reconstruction = Reconstruction(
    session: string,
    run: RunId,
    task: string,
    state: RunState,
    pending: Option<PendingAction>,
    steps: seq<RunStep>,
    manifest: Option<Ref>,
    finalResponse: Option<EventId>,
    modelCalls: nat,
    toolCalls: nat)

  // ---------- the tables ----------

  function PendingOf(k: StepKind): Option<PendingAction> {
    match k
    case RequestRecorded => Some(ContextCompilation)
    case ContextCompiled => Some(ProviderDispatch)
    case ModelCallPending => Some(ProviderResult)
    case ModelCallSucceeded => Some(ModelContinuation)
    case ToolRequested => Some(HumanApproval)
    case GrantApproved => Some(ToolExecution)
    case ToolCallClaimed => Some(ToolResult)
    case Observation => Some(ProviderFollowUp)
    case _ => None
  }

  predicate Allowed(before: StepKind, k: StepKind) {
    match before
    case RequestRecorded => k == ContextCompiled || k == ModelCallSucceeded
    case ContextCompiled => k == ModelCallPending
    case ModelCallPending => k == ModelCallSucceeded || k == ModelCallFailed || k == ModelCallInterrupted
    case ModelCallSucceeded => k == ToolRequested || k == FinalResponse
    case ToolRequested => k == GrantApproved || k == GrantDenied
    case GrantApproved => k == ToolCallClaimed || k == ToolFailed
    case ToolCallClaimed => k == Observation || k == ToolFailed
    case Observation => k == ModelCallPending
    case _ => false
  }

  function TypeOf(k: StepKind): EventType {
    match k
    case RequestRecorded => Message
    case ModelCallPending => ModelCall
    case ToolRequested => ToolCall
    case GrantApproved => Approval
    case GrantDenied => Approval
    case ToolCallClaimed => ToolCall
    case Observation => Observed
    case FinalResponse => Message
    case _ => Outcome
  }

  function KindOf(e: Event): Option<StepKind> {
    match e.payload.operation
    case Step(k) => Some(k)
    case NoOperation =>
      if e.eventType == Message && e.actor.kind == Human then Some(RequestRecorded)
      else if e.eventType == Message && e.actor.kind == Model then Some(FinalResponse)
      else None
    case FakeProviderChat => if e.eventType == ModelCall then Some(ModelCallSucceeded) else None
    case _ => None
  }

  // The older form of a model call, which carries its context itself.
  predicate Legacy(e: Event) {
    KindOf(e) == Some(ModelCallSucceeded) && e.payload.operation == FakeProviderChat
  }

  predicate CarriesContext(e: Event) {
    KindOf(e) == Some(ContextCompiled) || Legacy(e)
  }

  function StateOf(last: StepKind): RunState {
    match last
    case FinalResponse => Completed
    case ModelCallFailed => Failed
    case ToolFailed => Failed
    case GrantDenied => Failed
    case ModelCallInterrupted => Interrupted
    case ToolRequested => AwaitingApproval
    case _ => InProgress
  }

  // ---------- which streams are runs ----------

  predicate SameRun(a: Event, b: Event) {
    a.session == b.session && a.run == b.run && a.task == b.task
  }

  // What an event must be on its own account.
  predicate WellFormed(e: Event) {
    && KindOf(e).Some?
    && (e.eventType == TypeOf(KindOf(e).value) || Legacy(e))
    && (CarriesContext(e) ==> |e.refs| == 1)
  }

  predicate Starts(e: Event) {
    WellFormed(e) && KindOf(e) == Some(RequestRecorded) && e.parents == []
  }

  predicate Follows(before: Event, e: Event) {
    && WellFormed(e)
    && SameRun(before, e)
    && KindOf(before).Some?
    && Allowed(KindOf(before).value, KindOf(e).value)
    && e.parents == [before.id]
  }

  ghost predicate Accepted(es: seq<Event>) {
    && |es| > 0
    && Starts(es[0])
    && forall i :: 1 <= i < |es| ==> Follows(es[i - 1], es[i])
  }

  // ---------- what a run stands for ----------

  function CountKind(es: seq<Event>, k: StepKind): nat {
    if |es| == 0 then 0 else CountKind(es[..|es| - 1], k) + (if KindOf(es[|es| - 1]) == Some(k) then 1 else 0)
  }

  // The last context a run carries.
  function ManifestOf(es: seq<Event>): Option<Ref> {
    if |es| == 0 then None
    else if CarriesContext(es[|es| - 1]) && |es[|es| - 1].refs| == 1 then Some(es[|es| - 1].refs[0])
    else ManifestOf(es[..|es| - 1])
  }

  function StepsOf(es: seq<Event>): seq<RunStep>
    requires forall e :: e in es ==> KindOf(e).Some?
  {
    seq(|es|, i requires 0 <= i < |es| => RunStep(i, es[i].id, KindOf(es[i]).value, es[i].eventType, es[i].parents))
  }

  function Project(es: seq<Event>): Reconstruction
    requires |es| > 0 && forall e :: e in es ==> KindOf(e).Some?
  {
    var last := es[|es| - 1];
    var k := KindOf(last).value;
    Reconstruction(
      es[0].session, es[0].run, es[0].task, StateOf(k), PendingOf(k), StepsOf(es), ManifestOf(es),
      if k == FinalResponse then Some(last.id) else None,
      CountKind(es, ModelCallSucceeded), CountKind(es, ToolCallClaimed))
  }

  lemma {:induction false} AcceptedKinds(es: seq<Event>)
    requires Accepted(es)
    ensures forall e :: e in es ==> KindOf(e).Some?
    ensures forall i :: 0 <= i < |es| ==> WellFormed(es[i])
  {
    forall i | 0 <= i < |es|
      ensures WellFormed(es[i])
    {
      if i > 0 { assert Follows(es[i - 1], es[i]); }
    }
  }

  lemma {:induction false} AcceptedSnoc(es: seq<Event>, e: Event)
    requires |es| > 0
    ensures Accepted(es + [e]) <==> Accepted(es) && Follows(es[|es| - 1], e)
  {
    hide Follows, Starts;
    var more := es + [e];
    if Accepted(more) {
      assert Follows(more[|es| - 1], more[|es|]);
      forall i | 1 <= i < |es|
        ensures Follows(es[i - 1], es[i])
      {
        assert Follows(more[i - 1], more[i]);
      }
    }
  }

  lemma {:induction false} SameRunThroughout(es: seq<Event>, i: nat)
    requires Accepted(es) && i < |es|
    ensures SameRun(es[0], es[i])
  {
    if i > 0 {
      SameRunThroughout(es, i - 1);
      assert Follows(es[i - 1], es[i]);
    }
  }

  // The reconstruction succeeds exactly on the accepted streams, and yields what they stand for.
  method ReconstructRun(es: seq<Event>) returns (r: Result<Reconstruction, ()>)
    ensures r.Success? <==> Accepted(es)
    ensures Accepted(es) ==> (forall e :: e in es ==> KindOf(e).Some?) && r == Success(Project(es))
  {
    hide CarriesContext, Legacy, Allowed, TypeOf, KindOf;
    if |es| == 0 { return Failure(()); }
    var first := es[0];
    var steps: seq<RunStep> := [];
    var manifest: Option<Ref> := None;
    var modelCalls, toolCalls := 0, 0;
    for n := 0 to |es|
      invariant n > 0 ==> Accepted(es[..n])
      invariant forall e :: e in es[..n] ==> KindOf(e).Some?
      invariant steps == StepsOf(es[..n]) && manifest == ManifestOf(es[..n])
      invariant modelCalls == CountKind(es[..n], ModelCallSucceeded) && toolCalls == CountKind(es[..n], ToolCallClaimed)
    {
      var event := es[n];
      assert es[..n + 1] == es[..n] + [event];
      if n > 0 { AcceptedSnoc(es[..n], event); }
      if !SameRun(first, event) || !WellFormed(event) {
        RejectedHere(es, n);
        return Failure(());
      }
      var kind := KindOf(event).value;
      if n == 0 {
        if kind != RequestRecorded || event.parents != [] {
          return Failure(());
        }
      } else {
        if !Allowed(steps[n - 1].kind, kind) || event.parents != [steps[n - 1].id] {
          RejectedHere(es, n);
          return Failure(());
        }
        SameRunThroughout(es[..n], n - 1);
      }
      if CarriesContext(event) { manifest := Some(event.refs[0]); }
      steps := steps + [RunStep(n, event.id, kind, event.eventType, event.parents)];
      modelCalls := modelCalls + (if kind == ModelCallSucceeded then 1 else 0);
      toolCalls := toolCalls + (if kind == ToolCallClaimed then 1 else 0);
    }
    assert es[..|es|] == es;
    var last := steps[|es| - 1].kind;
    r := Success(Reconstruction(
      first.session, first.run, first.task, StateOf(last), PendingOf(last), steps, manifest,
      if last == FinalResponse then Some(es[|es| - 1].id) else None, modelCalls, toolCalls));
  }

  // A stream is not a run when one of its events does not continue the run.
  lemma {:induction false} RejectedHere(es: seq<Event>, n: nat)
    requires n < |es|
    requires !SameRun(es[0], es[n]) || !WellFormed(es[n]) || (n > 0 && !Follows(es[n - 1], es[n]))
    ensures !Accepted(es)
  {
    if Accepted(es) {
      SameRunThroughout(es, n);
      AcceptedKinds(es);
      assert false;
    }
  }

  // ---------- properties of every run ----------

  // Every nonempty beginning of a run is a run.
  lemma {:induction false} PrefixesAreRuns(es: seq<Event>, n: nat)
    requires Accepted(es) && 0 < n <= |es|
    ensures Accepted(es[..n])
  {
    hide Starts, Follows;
  }

  // An event that can come next after one of the given kind.
  function Continuation(last: Event): Event
    requires KindOf(last).Some?
  {
    var k := match KindOf(last).value
      case RequestRecorded => ContextCompiled
      case ContextCompiled => ModelCallPending
      case ModelCallPending => ModelCallSucceeded
      case ModelCallSucceeded => FinalResponse
      case ToolRequested => GrantApproved
      case GrantApproved => ToolCallClaimed
      case ToolCallClaimed => Observation
      case _ => ModelCallPending;
    last.(eventType := TypeOf(k), refs := [RefTo(Bytes(""))], parents := [last.id], payload := Payload(Step(k), NoDetail))
  }

  // A run has no pending action exactly when no event can follow it.
  lemma {:induction false} PendingExactly(es: seq<Event>)
    requires Accepted(es) && forall e :: e in es ==> KindOf(e).Some?
    ensures Project(es).pending.None? <==> forall e :: !Accepted(es + [e])
  {
    var last := es[|es| - 1];
    hide Accepted;
    if Project(es).pending.None? {
      forall e
        ensures !Accepted(es + [e])
      {
        AcceptedSnoc(es, e);
      }
    } else {
      AcceptedSnoc(es, Continuation(last));
      assert Accepted(es + [Continuation(last)]);
    }
  }

  lemma {:induction false} NextFollows(es: seq<Event>, i: nat)
    requires Accepted(es) && i + 1 < |es|
    ensures Follows(es[i], es[i + 1])
  {
    assert es[i] == es[(i + 1) - 1];
  }

  // A step after which nothing may follow is the last one.
  lemma {:induction false} TerminalIsLast(es: seq<Event>, i: nat)
    requires Accepted(es) && i < |es| && KindOf(es[i]).Some? && PendingOf(KindOf(es[i]).value).None?
    ensures i == |es| - 1
  {
    hide Accepted;
    if i < |es| - 1 { NextFollows(es, i); }
  }

  // How many more model calls than tool calls there are when the last step is of the given kind.
  predicate Balanced(k: StepKind, modelCalls: nat, toolCalls: nat) {
    match k
    case ModelCallSucceeded => modelCalls == toolCalls + 1
    case ToolRequested => modelCalls == toolCalls + 1
    case GrantApproved => modelCalls == toolCalls + 1
    case GrantDenied => modelCalls == toolCalls + 1
    case FinalResponse => modelCalls == toolCalls + 1
    case ToolFailed => modelCalls == toolCalls || modelCalls == toolCalls + 1
    case _ => modelCalls == toolCalls
  }

  lemma {:induction false} CallsBalance(es: seq<Event>)
    requires Accepted(es)
    ensures KindOf(es[|es| - 1]).Some?
    ensures Balanced(KindOf(es[|es| - 1]).value, CountKind(es, ModelCallSucceeded), CountKind(es, ToolCallClaimed))
  {
    hide Accepted, TypeOf, CarriesContext, Legacy;
    FirstStarts(es);
    if |es| > 1 {
      var front, last := es[..|es| - 1], es[|es| - 1];
      assert es == front + [last];
      AcceptedSnoc(front, last);
      CallsBalance(front);
    } else {
      assert es[..0] == [];
    }
  }

  lemma {:induction false} FirstStarts(es: seq<Event>)
    requires Accepted(es)
    ensures |es| > 0 && KindOf(es[0]) == Some(RequestRecorded)
  {
  }

  // Tool calls never outnumber model calls, and a completed run has one model call more than tool calls.
  lemma {:induction false} CallCounts(es: seq<Event>)
    requires Accepted(es) && forall e :: e in es ==> KindOf(e).Some?
    ensures Project(es).toolCalls <= Project(es).modelCalls <= Project(es).toolCalls + 1
    ensures Project(es).state == Completed ==> Project(es).modelCalls == Project(es).toolCalls + 1
  {
    CallsBalance(es);
  }

  // ---------- the context of a run ----------

  lemma {:induction false} ManifestExactly(es: seq<Event>)
    requires forall e :: e in es ==> WellFormed(e)
    ensures ManifestOf(es).None? <==> forall e :: e in es ==> !CarriesContext(e)
  {
    hide CarriesContext;
    if |es| > 0 {
      var front, last := es[..|es| - 1], es[|es| - 1];
      assert es == front + [last];
      ManifestExactly(front);
      assert last in es;
    }
  }

  // A context is compiled right after the request or not at all.
  lemma {:induction false} ContextIsSecond(es: seq<Event>, i: nat)
    requires Accepted(es) && i < |es| && KindOf(es[i]) == Some(ContextCompiled)
    ensures i == 1
  {
    FirstStarts(es);
    if i > 0 {
      NextFollows(es, i - 1);
      if i > 1 { NextFollows(es, i - 2); }
    }
  }

  // A run without the older form of model calls has a context exactly when its second step compiled one.
  lemma {:induction false} HasContextExactly(es: seq<Event>)
    requires Accepted(es) && forall e :: e in es ==> !Legacy(e)
    ensures ManifestOf(es).Some? <==> |es| > 1 && KindOf(es[1]) == Some(ContextCompiled)
  {
    AcceptedKinds(es);
    ManifestExactly(es);
    if ManifestOf(es).Some? {
      var e :| e in es && CarriesContext(e);
      var i :| 0 <= i < |es| && es[i] == e;
      ContextIsSecond(es, i);
    }
    if |es| > 1 && KindOf(es[1]) == Some(ContextCompiled) { assert es[1] in es && CarriesContext(es[1]); }
  }

  const REQUEST := Event(
    Client(0), "s", ChatRun(0), "t", Actor("human_local_user", Human), Message, 0, 0, [], [], ExternalUntrusted,
    Payload(Step(RequestRecorded), NoDetail), None)

  // A model call may follow the request directly: such a run is accepted and has no context at all.
  lemma {:induction false} ContextCanBeSkipped()
    ensures exists es :: Accepted(es) && |es| == 2 && ManifestOf(es).None?
  {
    var call := REQUEST.(
      id := Client(1), eventType := Outcome, parents := [REQUEST.id], payload := Payload(Step(ModelCallSucceeded), NoDetail));
    var es := [REQUEST, call];
    assert Follows(es[0], es[1]);
    assert es[..1] == [REQUEST];
    assert ManifestOf([]).None? && ManifestOf(es[..1]).None?;
    assert Accepted(es);
  }

  // ---------- the acceptor does not bound the tool calls ----------

  lemma {:induction false} Continued(es: seq<Event>, k: StepKind) returns (more: seq<Event>)
    requires Accepted(es) && |es| > 0 && KindOf(es[|es| - 1]).Some? && Allowed(KindOf(es[|es| - 1]).value, k)
    ensures Accepted(more) && |more| == |es| + 1 && KindOf(more[|es|]) == Some(k)
    ensures CountKind(more, ToolCallClaimed) == CountKind(es, ToolCallClaimed) + (if k == ToolCallClaimed then 1 else 0)
  {
    var last := es[|es| - 1];
    var e := last.(eventType := TypeOf(k), refs := [RefTo(Bytes(""))], parents := [last.id], payload := Payload(Step(k), NoDetail));
    hide Accepted;
    AcceptedSnoc(es, e);
    more := es + [e];
    assert more[..|es|] == es;
  }

  lemma {:induction false} RequestAlone()
    ensures Accepted([REQUEST]) && KindOf(REQUEST) == Some(RequestRecorded) && CountKind([REQUEST], ToolCallClaimed) == 0
  {
    assert [REQUEST][..0] == [];
  }

  // For every number of tool calls there is an accepted run with that many; only the services bound them.
  lemma {:induction false} AnyNumberOfToolCalls(n: nat) returns (es: seq<Event>)
    ensures Accepted(es) && |es| > 0 && KindOf(es[|es| - 1]) == Some(ModelCallPending) && CountKind(es, ToolCallClaimed) == n
  {
    hide Accepted, CountKind, KindOf;
    if n == 0 {
      RequestAlone();
      es := Continued([REQUEST], ContextCompiled);
    } else {
      es := AnyNumberOfToolCalls(n - 1);
      es := Continued(es, ModelCallSucceeded);
      es := Continued(es, ToolRequested);
      es := Continued(es, GrantApproved);
      es := Continued(es, ToolCallClaimed);
      es := Continued(es, Observation);
    }
    es := Continued(es, ModelCallPending);
  }
}
