/** What an unhindered decision call does: the grant, the read, the follow-up and the final response. */
module ProtocolDecisions {
  import opened Wrappers
  import opened Events
  import opened EventContracts
  import opened Ledger
  import opened Runs
  import opened Context
  import opened Protocol
  import opened ProtocolWorld
  import opened ProtocolShape
  import opened ProtocolLedger
  import opened ProtocolSteps
  import opened ProtocolSafety
  import opened ProtocolRuns
  import opened ProtocolProgress
  import opened ProtocolAbandoned
  import Broker
  import Memory
  import Targets

  // ---------- beginning a decision ----------

  // The run waits for a decision on its tool request, and these are the values the call will carry.
  ghost predicate Waits(w: World, c: Call) {
    var es := EventsOfRun(w, c.run);
    && |es| == 5 && KindOf(es[4]) == Some(ToolRequested)
    && es[0].session == c.session
    && es[1].refs == [ManifestRef(c.manifest)]
    && es[4].id == c.toolEvent && SameIdentity(es[4], c.provider)
    && es[4].payload.detail == ToolDetail(c.tool)
  }

  function Start(c: Call): Step {
    StartDecision(c.session, c.run, c.toolEvent, c.decision, c.key, c.actor, c.provider)
  }

  lemma {:induction false} WaitingIsFound(w: World, c: Call)
    requires Inv(w) && Waits(w, c) && Memory.PortableToken(c.key) && !HasKey(w.rows, c.key)
    ensures DecisionLookup(w.rows, w.artifacts, c.session, c.run, c.toolEvent, c.decision, c.key, c.actor, c.provider) == Proceed(c)
  {
    RunOf(w, c.run);
    KeyLookup(w.rows, c.key);
    FitsAt(c.run, EventsOfRun(w, c.run), 4);
    hide Inv, LedgerOk, OfRun, LogFits, Stands, Shape, Inspect, Broker.Consistent, HasKey, ByKey, SameIdentity;
    InspectFinds(w.rows, w.artifacts, c.session, c.run);
  }

  lemma {:induction false} DecisionBegins(w: World, c: Call)
    requires Inv(w) && Enabled(w, Start(c)) && Waits(w, c) && Memory.PortableToken(c.key) && !HasKey(w.rows, c.key)
    ensures Apply(w, Start(c)) == w.(active := w.active[c.run := Deciding(c)])
  {
    hide Inv, Waits, DecisionLookup, Memory.PortableToken, IdentityFits, HasKey;
    WaitingIsFound(w, c);
  }

  // The request a run waits on was made by the model and not by a client.
  lemma {:induction false} WaitsOnDerived(w: World, c: Call)
    requires Inv(w) && Waits(w, c)
    ensures c.toolEvent.Derived?
  {
    RunOf(w, c.run);
    FitsAt(c.run, EventsOfRun(w, c.run), 4);
  }

  // ---------- the grant ----------

  lemma {:induction false} DecidingBatch(c: Call, o: Outside)
    ensures Batch(Deciding(c), o) == [Row(DecisionEvent(c, o.at), c.key)] && Appends(Deciding(c))
    ensures Row(DecisionEvent(c, o.at), c.key).event.refs == []
  {
    hide TaskOf;
  }

  lemma {:induction false} DecisionIsBuilt(c: Call, at: int)
    requires IdentityFits(c.provider) && ToolFits(c.tool)
    ensures Buildable([Row(DecisionEvent(c, at), c.key)]) <==> ActorFits(Actor(c.actor, Human)) && c.toolEvent != Client(c.decision.id)
  {
    var r := Reading(c.decision.id, c.tool.scope, c.tool.target, "");
    hide ValidEvent, IdentityFits, ActorFits, DecisionEvent;
    DecisionEventsAreValid(c, r, RequestFailure, at);
    var row := Row(DecisionEvent(c, at), c.key);
    assert row in [row];
    hide ToolFits, ReadingFits;
  }

  // Once an approval is stored the call gets to register its grant exactly when the grant contract accepts the target;
  // a target without an extension is recorded as denied, and any other target ends the call with the approval as the
  // last thing its run says.
  lemma {:induction false} GrantIsReachedExactly(w: World, run: nat, c: Call, o: Outside)
    requires Inv(w) && run in w.active && w.active[run] == Deciding(c) && c.decision.approved
    requires Buildable([Row(DecisionEvent(c, o.at), c.key)]) && FreeFor(w.rows, w.artifacts, Row(DecisionEvent(c, o.at), c.key))
    ensures var v := AdvanceStep(w, run, o);
      && v.rows == w.rows + [Row(DecisionEvent(c, o.at), c.key)]
      && (run in v.active && v.active[run].Registering? <==> Targets.GrantAcceptable(c.tool.target))
      && (run in v.active && v.active[run].FailingTool? <==> Targets.Suffix(c.tool.target) == "")
      && (run in v.active ==> v.active[run].Registering? || v.active[run].FailingTool?)
      && (run !in v.active ==>
        && Idle(v, run) && LastKind(EventsOfRun(v, run)) == Some(GrantApproved)
        && v.replies == w.replies + [Reply(run, OriginOf(Deciding(c)), Raising(GrantRefused))])
  {
    DecidingBatch(c, o);
    NoSuffix(c.tool.target);
    hide Inv, AppendStep, Buildable, FreeFor, DecisionEvent, Targets.Suffix, Targets.GrantAcceptable, OfRun, Idle, Ended, AppendErrorOf, Appended;
    var row := Row(DecisionEvent(c, o.at), c.key);
    StepAppendsExactly(w, run, o);
    DecidedWorld(w, run, c, o);
    if run !in AdvanceStep(w, run, o).active { ApprovedLast(w, AdvanceStep(w, run, o), run, c, o); }
  }

  lemma {:induction false} NoSuffix(target: string)
    ensures Targets.GrantAcceptable(target) ==> Targets.Suffix(target) != ""
  {
    hide Targets.Suffix, Targets.Segments;
  }

  lemma {:induction false} DecidedWorld(w: World, run: nat, c: Call, o: Outside)
    requires c.decision.approved
    ensures var h, rows := Deciding(c), w.rows + [Row(DecisionEvent(c, o.at), c.key)];
      var v := Appended(w, run, h, o, rows);
      && v.rows == rows && v.active == SetHandler(w, run, Continue(h, o)).active
      && v.replies == w.replies + (if RefusesGrant(c) then [Reply(run, OriginOf(h), Raising(GrantRefused))] else [])
  {
    hide DecisionEvent, Targets.Suffix, Targets.GrantAcceptable;
  }

  lemma {:induction false} DecisionRow(c: Call, at: int)
    ensures DecisionEvent(c, at).run == ChatRun(c.run)
    ensures KindOf(DecisionEvent(c, at)) == Some(if c.decision.approved then GrantApproved else GrantDenied)
  {
    hide TaskOf;
  }

  // The run after its approval was stored.
  lemma {:induction false} ApprovedLast(w: World, v: World, run: nat, c: Call, o: Outside)
    requires Inv(w) && run in w.active && w.active[run] == Deciding(c) && c.decision.approved
    requires v.rows == w.rows + [Row(DecisionEvent(c, o.at), c.key)] && run !in v.active
    ensures Idle(v, run) && LastKind(EventsOfRun(v, run)) == Some(GrantApproved)
  {
    hide Inv, LedgerOk, LogFits, LogOf, RunShaped, Broker.Consistent, OfRun, DecisionEvent, Stands, KindOf;
    RunOf(w, run);
    var row := Row(DecisionEvent(c, o.at), c.key);
    CallIsOf(run, OfRun(w.rows, run), LogOf(w.dispatched, run), c);
    DecisionRow(c, o.at);
    OfRunAppend(w.rows, [row], run);
    OfRunAll([row], run);
    EventsSnoc(OfRun(w.rows, run), row);
  }

  lemma {:induction false} CallIsOf(run: nat, rows: seq<Row>, log: seq<EventId>, c: Call)
    requires Stands(run, rows, log, Deciding(c))
    ensures c.run == run
  {
  }

  // ---------- one whole decision call ----------

  // What an approved call meets outside: first when the decision is made, then during the rest of it.
  datatype Course = Course(call: Call, decided: Outside, rest: Outside)

  // The records are loaded again for the follow-up call.
  function CitedBy(x: Course): seq<Citation> {
    var loaded := Loaded(x.rest.memory, x.call.manifest);
    if loaded.Some? then loaded.value else []
  }

  function ReadingOf(x: Course): Reading {
    Reading(x.call.decision.id, x.call.tool.scope, x.call.tool.target, if x.rest.disk.File? then x.rest.disk.bytes else "")
  }

  function ContentOf(x: Course): Ref {
    RefTo(ReadingBlob(ReadingOf(x)))
  }

  // The rows the call stores before its follow-up is answered, and those that say how it was.
  function LoopRows(x: Course): seq<Row> {
    var c, o := x.call, x.rest;
    [Row(DecisionEvent(c, x.decided.at), c.key),
     Row(ClaimedEvent(c, o.at), c.key + ":claimed"),
     Row(ObservationEvent(c, ContentOf(x), o.at), c.key + ":observation"),
     Row(FollowupPendingEvent(c, ContentOf(x), o.at), c.key + ":followup:pending")]
  }

  function LastRows(x: Course): seq<Row> {
    FollowupBatch(x.call, CitedBy(x), x.rest.result, x.rest.at)
  }

  // What the call needs of its values and of the world outside: an acceptable target within a scope, a readable file
  // within the bound of the request, and a grant still valid at the read.
  predicate Smooth(x: Course) {
    var c, o := x.call, x.rest;
    && c.decision.approved && IdentityFits(c.provider) && ToolFits(c.tool)
    && ActorFits(Actor(c.actor, Human)) && LabelFits(c.provider.model)
    && Targets.GrantAcceptable(c.tool.target)
    && ResultFits(x.decided.result) && ResultFits(o.result)
    && c.tool.scope in o.scopes
    && x.decided.at <= o.at < x.decided.at + GRANT_SECONDS
    && o.disk.File? && o.disk.size <= c.tool.maxBytes && |o.disk.bytes| <= c.tool.maxBytes && o.disk.isStable && o.disk.decodes
  }

  // Every content the manifest selected is still to be had.
  predicate HasContext(x: Course) {
    Loaded(x.rest.memory, x.call.manifest).Some?
  }

  function WithRead(steps: seq<Step>, x: Course): seq<Step> {
    var run, next := x.call.run, [Advance(x.call.run, x.rest)];
    steps + [Start(x.call)] + [Advance(run, x.decided)] + next + next + next + next
  }

  function WithDecision(steps: seq<Step>, x: Course): seq<Step> {
    var next := [Advance(x.call.run, x.rest)];
    if HasContext(x) then WithRead(steps, x) + next + next + next + next else WithRead(steps, x) + next
  }

  // ---------- the rows differ ----------

  ghost predicate AllDiffer(rows: seq<Row>) {
    forall i, j :: 0 <= i < j < |rows| ==> rows[i].key != rows[j].key && rows[i].event.id != rows[j].event.id
  }

  lemma {:induction false} LoopKeysDiffer(key: string)
    ensures var keys := [key, key + ":claimed", key + ":observation", key + ":followup:pending"];
      && (forall i, j :: 0 <= i < j < 4 ==> keys[i] != keys[j])
      && forall k, i :: k in [":followup:success", ":followup:response", ":followup:failed"] && 0 <= i < 4 ==> key + k != keys[i]
  {
    assert |":claimed"| == 8 && |":observation"| == 12 && |":followup:pending"| == 17;
    assert |":followup:success"| == 17 && |":followup:response"| == 18 && |":followup:failed"| == 16;
    assert ":followup:pending"[10] == 'p' && ":followup:success"[10] == 's';
    SuffixesDiffer(key, ":followup:pending", ":followup:success");
  }

  lemma {:induction false} LoopKeysAndIds(x: Course)
    ensures var rows, key, d := LoopRows(x), x.call.key, x.call.decision.id;
      && |rows| == 4
      && rows[0].key == key && rows[1].key == key + ":claimed" && rows[2].key == key + ":observation" && rows[3].key == key + ":followup:pending"
      && rows[0].event.id == Client(d) && rows[1].event.id == Derived(d, ReadClaimed) && rows[2].event.id == Derived(d, ReadObservation)
      && rows[3].event.id == Derived(d, FollowupPending)
  {
    hide TaskOf, ReadingOf, ContentOf;
  }

  lemma {:induction false} LastKeysAndIds(x: Course, y: Row)
    requires y in LastRows(x)
    ensures y.event.refs == []
    ensures exists k :: k in [":followup:success", ":followup:response", ":followup:failed"] && y.key == x.call.key + k
    ensures y.event.id.Derived? && y.event.id.purpose in [FollowupSucceeded, FollowupResponse, FollowupFailed]
  {
    hide TaskOf, CitedBy;
    var suffixes := [":followup:success", ":followup:response", ":followup:failed"];
    assert suffixes[0] in suffixes && suffixes[1] in suffixes && suffixes[2] in suffixes;
  }

  lemma {:induction false} LoopRowsDiffer(x: Course)
    ensures AllDiffer(LoopRows(x)) && |LoopRows(x)| == 4
  {
    var key := x.call.key;
    LoopKeysDiffer(key);
    LoopKeysAndIds(x);
    hide LoopRows;
    var rows := LoopRows(x);
    var keys := [key, key + ":claimed", key + ":observation", key + ":followup:pending"];
    forall i, j | 0 <= i < j < 4
      ensures rows[i].key != rows[j].key && rows[i].event.id != rows[j].event.id
    {
      assert rows[i].key == keys[i] && rows[j].key == keys[j];
    }
  }

  lemma {:induction false} LastRowsDiffer(x: Course, y: Row)
    requires y in LastRows(x)
    ensures forall z :: z in LoopRows(x) ==> z.key != y.key && z.event.id != y.event.id
  {
    var key := x.call.key;
    LoopKeysDiffer(key);
    LoopKeysAndIds(x);
    LastKeysAndIds(x, y);
    hide LoopRows, LastRows;
    var rows := LoopRows(x);
    var keys := [key, key + ":claimed", key + ":observation", key + ":followup:pending"];
    forall i | 0 <= i < 4
      ensures rows[i].key != y.key && rows[i].event.id != y.event.id
    {
      assert rows[i].key == keys[i];
    }
  }

  lemma {:induction false} UnusedLater(rows: seq<Row>, added: seq<Row>, x: Row)
    requires Unused(rows, x) && forall y :: y in added ==> y.key != x.key && y.event.id != x.event.id
    ensures Unused(rows + added, x)
  {
    hide Memory.PortableToken;
  }

  lemma {:induction false} UnusedNext(rows: seq<Row>, loop: seq<Row>, i: nat, k: nat)
    requires i <= k < |loop| && AllDiffer(loop) && Unused(rows, loop[k])
    ensures Unused(rows + loop[..i], loop[k])
  {
    hide Unused;
    UnusedLater(rows, loop[..i], loop[k]);
  }

  // ---------- one appending step ----------

  // Where the call stands when it has stored the first rows of its loop.
  ghost predicate Reaches(w: World, v: World, x: Course, n: nat, h: Handler) {
    && n <= |LoopRows(x)|
    && v.rows == w.rows + LoopRows(x)[..n]
    && v.replies == w.replies
    && x.call.run in v.active && v.active[x.call.run] == h
  }

  // What the next row of the loop needs.
  ghost predicate RowReady(w: World, u: World, x: Course, n: nat) {
    && n < |LoopRows(x)|
    && Buildable([LoopRows(x)[n]]) && Unused(w.rows, LoopRows(x)[n])
    && forall r :: r in LoopRows(x)[n].event.refs ==> r in u.artifacts
  }

  // A handler that stores the next row of the loop and goes on.
  ghost predicate Carries(x: Course, n: nat, h: Handler, o: Outside, next: Handler) {
    && n < |LoopRows(x)|
    && Appends(h) && Batch(h, o) == [LoopRows(x)[n]] && Continue(h, o) == Some(next) && Final(h, o) == None
  }

  lemma {:induction false} RowIsUnused(w: World, u: World, x: Course, n: nat, h: Handler)
    requires Reaches(w, u, x, n, h) && RowReady(w, u, x, n)
    ensures Unused(u.rows, LoopRows(x)[n])
  {
    LoopRowsDiffer(x);
    hide LoopRows, Unused, Buildable;
    UnusedNext(w.rows, LoopRows(x), n, n);
  }

  lemma {:induction false} BatchIsReady(w: World, u: World, x: Course, n: nat, h: Handler, o: Outside, next: Handler)
    requires Reaches(w, u, x, n, h) && RowReady(w, u, x, n) && Carries(x, n, h, o, next)
    ensures x.call.run in u.active && u.active[x.call.run] == h && Appends(h)
    ensures Batch(h, o) != [] && Buildable(Batch(h, o))
    ensures forall y :: y in Batch(h, o) ==> Unused(u.rows, y) && forall r :: r in y.event.refs ==> r in u.artifacts
  {
    RowIsUnused(w, u, x, n, h);
    hide LoopRows, Unused, Buildable, Batch, Continue, Final;
  }

  lemma {:induction false} AdvanceAlong(steps: seq<Step>, w: World, x: Course, n: nat, h: Handler, o: Outside, next: Handler)
    requires Possible(steps) && Reaches(w, After(steps), x, n, h) && RowReady(w, After(steps), x, n) && Carries(x, n, h, o, next)
    requires ResultFits(o.result)
    ensures Possible(steps + [Advance(x.call.run, o)])
    ensures n < |LoopRows(x)| && After(steps + [Advance(x.call.run, o)]) == Moved(After(steps), x, n, next)
  {
    CarriesInside(x, n, h, o, next);
    hide *;
    BatchIsReady(w, After(steps), x, n, h, o, next);
    Advances(steps, x.call.run, o);
    MovedWorld(After(steps), w, x, n, h, o, next);
  }

  lemma {:induction false} CarriesInside(x: Course, n: nat, h: Handler, o: Outside, next: Handler)
    requires Carries(x, n, h, o, next)
    ensures n < |LoopRows(x)|
  {
    hide LoopRows;
  }

  // The world with one more row of the loop and the handler gone on.
  function Moved(u: World, x: Course, n: nat, next: Handler): World
    requires n < |LoopRows(x)|
  {
    SetHandler(u.(rows := u.rows + [LoopRows(x)[n]]), x.call.run, Some(next))
  }

  lemma {:induction false} MovedWorld(u: World, w: World, x: Course, n: nat, h: Handler, o: Outside, next: Handler)
    requires Carries(x, n, h, o, next)
    ensures Appended(u, x.call.run, h, o, u.rows + Batch(h, o)) == Moved(u, x, n, next)
  {
    hide LoopRows, Continue, Final, Batch;
  }

  // ---------- the rows can be built ----------

  lemma {:induction false} ReadingIsBounded(x: Course)
    requires Smooth(x)
    ensures ReadingFits(ReadingOf(x))
  {
    hide Targets.IsPortable, ScopeFits, IdentityFits, ActorFits, LabelFits, Targets.GrantAcceptable;
  }

  lemma {:induction false} EarlyEventsAreValid(x: Course)
    requires Smooth(x) && x.call.toolEvent.Derived?
    ensures ValidEvent(DecisionEvent(x.call, x.decided.at)) && ValidEvent(ClaimedEvent(x.call, x.rest.at))
    ensures ValidEvent(ObservationEvent(x.call, ContentOf(x), x.rest.at)) && ValidEvent(FollowupPendingEvent(x.call, ContentOf(x), x.rest.at))
  {
    var c, o := x.call, x.rest;
    ReadingIsBounded(x);
    hide ValidEvent, IdentityFits, ToolFits, ActorFits, LabelFits, ResultFits, ReadingFits, Targets.GrantAcceptable, ReadingOf, TaskOf;
    hide DecisionEvent, ClaimedEvent, ObservationEvent, FollowupPendingEvent, AnswerFits;
    DecisionEventsAreValid(c, ReadingOf(x), RequestFailure, x.decided.at);
    DecisionEventsAreValid(c, ReadingOf(x), RequestFailure, o.at);
    FollowupEventsAreValid(c, "", [], ContentOf(x), RequestFailure, o.at);
  }

  lemma {:induction false} LoopEvents(x: Course)
    ensures var rows := LoopRows(x);
      && |rows| == 4
      && rows[0].event == DecisionEvent(x.call, x.decided.at) && rows[1].event == ClaimedEvent(x.call, x.rest.at)
      && rows[2].event == ObservationEvent(x.call, ContentOf(x), x.rest.at)
      && rows[3].event == FollowupPendingEvent(x.call, ContentOf(x), x.rest.at)
  {
    hide DecisionEvent, ClaimedEvent, ObservationEvent, FollowupPendingEvent;
  }

  lemma {:induction false} EarlyRowsAreBuilt(x: Course, i: nat)
    requires Smooth(x) && x.call.toolEvent.Derived? && i < 4
    ensures i < |LoopRows(x)| && Buildable([LoopRows(x)[i]])
  {
    hide *;
    EarlyEventsAreValid(x);
    LoopEvents(x);
    BuiltAlone(LoopRows(x)[i]);
  }

  lemma {:induction false} BuiltAlone(row: Row)
    ensures Buildable([row]) <==> ValidEvent(row.event)
  {
    hide ValidEvent;
    assert row in [row];
  }

  // What a follow-up call leaves can be recorded unless it is an answer beyond the bounds of a payload.
  lemma {:induction false} LastRowsAreBuiltExactly(x: Course)
    requires Smooth(x)
    ensures Buildable(LastRows(x)) <==> Recordable(CitedBy(x), x.rest.result)
  {
    var c, o := x.call, x.rest;
    var text := if o.result.Answers? then o.result.text else "";
    hide ValidEvent, Buildable, IdentityFits, ToolFits, ActorFits, LabelFits, ResultFits, AnswerFits, Targets.GrantAcceptable, CitedBy;
    hide FollowupSuccessEvent, FollowupAnswerEvent, FollowupFailedEvent, FollowupPendingEvent, ContentOf;
    FollowupEventsAreValid(c, text, CitedBy(x), ContentOf(x), FollowupFailure(o.result), o.at);
    match o.result {
      case Answers(_) => BuiltPair(LastRows(x)[0], LastRows(x)[1]);
      case Breaks => BuiltNone();
      case _ => BuiltAlone(LastRows(x)[0]);
    }
  }

  lemma {:induction false} BuiltNone()
    ensures Buildable([])
  {
  }

  lemma {:induction false} BuiltPair(a: Row, b: Row)
    ensures Buildable([a, b]) <==> ValidEvent(a.event) && ValidEvent(b.event)
  {
    hide ValidEvent;
    assert a in [a, b] && b in [a, b];
  }

  lemma {:induction false} RowRefs(x: Course)
    ensures var rows := LoopRows(x);
      && rows[0].event.refs == [] && rows[1].event.refs == [] && rows[2].event.refs == [ContentOf(x)] && rows[3].event.refs == [ContentOf(x)]
  {
    hide TaskOf, ContentOf;
  }

  // ---------- the stages ----------

  lemma {:induction false} MovedStage(w: World, u: World, x: Course, n: nat, h: Handler, next: Handler)
    requires Stage(w, u, x, n, h) && n < |LoopRows(x)|
    ensures Stage(w, Moved(u, x, n, next), x, n + 1, next)
    ensures Moved(u, x, n, next).broker == u.broker && Moved(u, x, n, next).artifacts == u.artifacts
  {
    hide LoopRows;
    assert LoopRows(x)[..n + 1] == LoopRows(x)[..n] + [LoopRows(x)[n]];
  }

  // Everything but the loop rows, the broker and the artifacts is as it was.
  ghost predicate Stage(w: World, v: World, x: Course, n: nat, h: Handler) {
    Reaches(w, v, x, n, h) && v.dispatched == w.dispatched && w.artifacts <= v.artifacts
  }

  ghost predicate Granted(v: World, x: Course) {
    var id := x.call.decision.id;
    id in v.broker.grants && v.broker.grants[id] == Broker.Stored(GrantFor(x.call, x.decided.at), None)
  }

  lemma {:induction false} Begun(steps: seq<Step>, x: Course)
    requires Possible(steps) && Enabled(After(steps), Start(x.call)) && Waits(After(steps), x.call)
    requires Unused(After(steps).rows, LoopRows(x)[0])
    ensures Possible(steps + [Start(x.call)])
    ensures var w, v := After(steps), After(steps + [Start(x.call)]);
      Stage(w, v, x, 0, Deciding(x.call)) && v.broker == w.broker
  {
    hide *;
    LoopKeysAndIds(x);
    Reached(steps);
    KeyIsUnused(After(steps).rows, LoopRows(x)[0]);
    Extended(steps, Start(x.call));
    DecisionBegins(After(steps), x.call);
    BegunWorld(After(steps), x);
  }

  lemma {:induction false} BegunWorld(w: World, x: Course)
    ensures Stage(w, w.(active := w.active[x.call.run := Deciding(x.call)]), x, 0, Deciding(x.call))
  {
    hide LoopRows;
    assert w.rows + LoopRows(x)[..0] == w.rows;
  }

  lemma {:induction false} DecidingStep(x: Course)
    requires Smooth(x)
    ensures Carries(x, 0, Deciding(x.call), x.decided, Registering(x.call, GrantFor(x.call, x.decided.at)))
  {
    NoSuffix(x.call.tool.target);
    hide TaskOf, Targets.Suffix, Targets.GrantAcceptable, IdentityFits, ToolFits, ActorFits, LabelFits, ResultFits, DecisionEvent;
  }

  lemma {:induction false} GrantIsAuthorised(x: Course)
    requires Smooth(x)
    ensures Broker.Authorizes(DecisionEvent(x.call, x.decided.at), GrantFor(x.call, x.decided.at))
  {
    hide TaskOf, IdentityFits, ToolFits, ActorFits, LabelFits, ResultFits, Targets.GrantAcceptable, Targets.Suffix;
  }

  lemma {:induction false} LastIsFound(rows: seq<Row>, row: Row)
    ensures ById(rows + [row], row.event.id) == Some(row.event)
  {
  }

  lemma {:induction false} RegisteredWorld(u: World, w: World, x: Course)
    requires Smooth(x) && Stage(w, u, x, 1, Registering(x.call, GrantFor(x.call, x.decided.at)))
    requires x.call.decision.id !in u.broker.grants
    ensures var v := RegisterStep(u, x.call.run, x.call, GrantFor(x.call, x.decided.at), x.rest);
      Stage(w, v, x, 1, Claiming(x.call)) && Granted(v, x)
  {
    GrantIsAuthorised(x);
    LastIsFound(w.rows, LoopRows(x)[0]);
    assert LoopRows(x)[..1] == [LoopRows(x)[0]];
    LoopKeysAndIds(x);
    hide Broker.Authorizes, DecisionEvent, ClaimedEvent, ObservationEvent, FollowupPendingEvent,
      IdentityFits, ToolFits, ActorFits, LabelFits, ResultFits, Targets.GrantAcceptable, ReadingOf, ById;
  }

  // A step that appends nothing.
  lemma {:induction false} AdvancesBy(steps: seq<Step>, run: nat, o: Outside)
    requires Possible(steps) && run in After(steps).active && ResultFits(o.result)
    ensures Possible(steps + [Advance(run, o)]) && After(steps + [Advance(run, o)]) == AdvanceStep(After(steps), run, o)
  {
    hide Possible, After, Inv, AdvanceStep, ResultFits;
    Extended(steps, Advance(run, o));
  }

  lemma {:induction false} ClaimingStep(x: Course)
    ensures Carries(x, 1, Claiming(x.call), x.rest, ReadingFile(x.call))
  {
    hide TaskOf, ClaimedEvent;
  }

  // The claim is within its window and the read returns the whole file.
  lemma {:induction false} ReadSucceeds(x: Course, grants: Broker.Grants)
    requires Smooth(x) && x.call.decision.id in grants
    requires grants[x.call.decision.id] == Broker.Stored(GrantFor(x.call, x.decided.at), None)
    ensures Broker.Claim(grants, x.call.decision.id, x.call.provider.actor, x.rest.at, x.rest.scopes).Success?
    ensures Broker.ReadFile(GrantFor(x.call, x.decided.at), x.rest.disk) == Success(ReadingOf(x))
  {
    hide IdentityFits, ActorFits, LabelFits, ResultFits, Targets.GrantAcceptable, Targets.Suffix, Targets.Lower, ToolFits;
    var g := GrantFor(x.call, x.decided.at);
    assert g.allowed[0] in g.allowed;
  }

  lemma {:induction false} ReadWorld(u: World, w: World, x: Course)
    requires Smooth(x) && Stage(w, u, x, 2, ReadingFile(x.call)) && Granted(u, x)
    ensures var v := ReadStep(u, x.call.run, x.call, x.rest);
      Stage(w, v, x, 2, Observing(x.call, ReadingOf(x))) && ContentOf(x) in v.artifacts
  {
    ReadSucceeds(x, u.broker.grants);
    hide Broker.Claim, Broker.ReadFile, Broker.Apply, LoopRows, Smooth, ReadingOf;
  }

  lemma {:induction false} ObservingStep(x: Course)
    ensures Carries(x, 2, Observing(x.call, ReadingOf(x)), x.rest, LoadingRecords(x.call, ContentOf(x)))
  {
    hide TaskOf, ObservationEvent;
  }

  lemma {:induction false} LoadingStep(x: Course)
    requires HasContext(x)
    ensures Carries(x, 3, LoadingRecords(x.call, ContentOf(x)), x.rest, DispatchingFollowup(x.call, CitedBy(x)))
  {
    hide TaskOf, FollowupPendingEvent, Loaded;
  }

  // The provider was asked a second time, and answered.
  ghost predicate AskedAgain(w: World, v: World, x: Course) {
    var c := x.call;
    && Reaches(w, v, x, 4, FinishingFollowup(c, CitedBy(x), x.rest.result))
    && v.dispatched == w.dispatched + [Dispatch(c.run, Derived(c.decision.id, FollowupPending), |w.rows| + 4)]
  }

  lemma {:induction false} DispatchedAgain(u: World, w: World, x: Course)
    requires Stage(w, u, x, 4, DispatchingFollowup(x.call, CitedBy(x)))
    ensures var v := AdvanceStep(u, x.call.run, x.rest);
      && x.call.run in v.active
      && AskedAgain(w, AdvanceStep(v, x.call.run, x.rest), x)
  {
    LoopKeysAndIds(x);
    hide LoopRows, CitedBy;
  }

  // ---------- the whole loop ----------

  // How the whole call ends: by the answer, when it can be recorded, or by the error it raises.
  function EndOf(x: Course): Response {
    var c := x.call;
    if !HasContext(x) then Raising(ContextUnavailable) else
    match x.rest.result
    case Answers(text) =>
      if AnswerFits(text, CitedBy(x)) then
        Answered(c.session, c.run, TaskOf(c.run), c.provider.kind, c.provider.model, text, CitedBy(x), c.manifest)
      else Raising(EventRejected)
    case Breaks => Raising(FollowupBroke)
    case _ => Raising(FollowupRaised)
  }

  // The rows the whole call stores: up to the observation when the context is gone, up to the second intent when the
  // provider broke off or its answer cannot be recorded, and otherwise what the provider made of it as well.
  function StoredBy(x: Course): seq<Row> {
    if !HasContext(x) then LoopRows(x)[..3]
    else LoopRows(x) + (if Recordable(CitedBy(x), x.rest.result) then LastRows(x) else [])
  }

  // A whole decision call: the provider is asked once more exactly when the context is still to be had.
  ghost predicate LoopedTo(w: World, v: World, x: Course) {
    var c := x.call;
    && v.rows == w.rows + StoredBy(x)
    && v.dispatched == w.dispatched + (if HasContext(x) then [Dispatch(c.run, Derived(c.decision.id, FollowupPending), |w.rows| + 4)] else [])
    && c.run !in v.active
    && v.replies == w.replies + [Reply(c.run, FromDecision(c.session, c.toolEvent, c.decision, c.key), EndOf(x))]
  }

  lemma {:induction false} LastBatch(x: Course)
    requires HasContext(x)
    ensures var h := FinishingFollowup(x.call, CitedBy(x), x.rest.result);
      && Appends(h) && Batch(h, x.rest) == LastRows(x) && Continue(h, x.rest) == None && HasStored(h)
      && OriginOf(h) == FromDecision(x.call.session, x.call.toolEvent, x.call.decision, x.call.key)
      && (LastRows(x) == [] <==> x.rest.result.Breaks?)
      && (Recordable(CitedBy(x), x.rest.result) ==> Final(h, x.rest) == Some(EndOf(x)))
      && (!Recordable(CitedBy(x), x.rest.result) ==> EndOf(x) == Raising(EventRejected))
  {
    hide FollowupSuccessEvent, FollowupAnswerEvent, FollowupFailedEvent, TaskOf, CitedBy, AnswerFits, HasContext;
  }

  lemma {:induction false} ResultsFit(x: Course)
    requires Smooth(x)
    ensures ResultFits(x.rest.result) && ResultFits(x.decided.result)
  {
    hide IdentityFits, ToolFits, ActorFits, LabelFits, ResultFits, Targets.GrantAcceptable;
  }

  lemma {:induction false} LastRowsAreReady(w: World, u: World, x: Course)
    requires AskedAgain(w, u, x) && forall y :: y in LastRows(x) ==> Unused(w.rows, y)
    ensures forall y :: y in LastRows(x) ==> Unused(u.rows, y) && forall r :: r in y.event.refs ==> r in u.artifacts
  {
    LoopKeysAndIds(x);
    hide LoopRows, LastRows, Unused;
    assert LoopRows(x)[..4] == LoopRows(x);
    forall y | y in LastRows(x)
      ensures Unused(u.rows, y) && y.event.refs == []
    {
      LastKeysAndIds(x, y);
      LastRowsDiffer(x, y);
      UnusedLater(w.rows, LoopRows(x), y);
    }
  }

  lemma {:induction false} FinishedWorld(w: World, u: World, x: Course)
    requires AskedAgain(w, u, x) && HasContext(x)
    ensures var h := FinishingFollowup(x.call, CitedBy(x), x.rest.result);
      if Recordable(CitedBy(x), x.rest.result) then LoopedTo(w, Appended(u, x.call.run, h, x.rest, u.rows + LastRows(x)), x)
      else LoopedTo(w, Ended(u, x.call.run, h, EventRejected), x)
  {
    LastBatch(x);
    LoopKeysAndIds(x);
    hide LoopRows, LastRows, TaskOf, CitedBy, Recordable, Batch, Continue, Final, OriginOf, EndOf, HasContext, HasStored;
    assert LoopRows(x)[..4] == LoopRows(x);
    assert w.rows + LoopRows(x) + LastRows(x) == w.rows + (LoopRows(x) + LastRows(x));
    assert LoopRows(x) + [] == LoopRows(x);
  }

  // A step that has nothing to append.
  lemma {:induction false} AdvancesEmpty(steps: seq<Step>, run: nat, o: Outside)
    requires Possible(steps) && run in After(steps).active && Appends(After(steps).active[run]) && ResultFits(o.result)
    requires Batch(After(steps).active[run], o) == []
    ensures Possible(steps + [Advance(run, o)])
    ensures var w := After(steps); After(steps + [Advance(run, o)]) == Appended(w, run, w.active[run], o, w.rows + [])
  {
    hide *;
    var w := After(steps);
    MayAdvance(w, run, o);
    Extended(steps, Advance(run, o));
    AppliesAppend(w, run, o);
    EmptyAppend(w, run, w.active[run], o);
  }

  lemma {:induction false} EmptyAppend(w: World, run: nat, h: Handler, o: Outside)
    requires Batch(h, o) == []
    ensures AppendStep(w, run, h, o) == Appended(w, run, h, o, w.rows + [])
  {
    AppendStepOutcome(w, run, h, o);
    hide Batch, AppendStep, Appended, Ended;
    assert w.rows + [] == w.rows;
  }

  lemma {:induction false} LastStep(steps: seq<Step>, w: World, x: Course)
    requires Possible(steps) && AskedAgain(w, After(steps), x) && Smooth(x) && HasContext(x)
    requires forall y :: y in LastRows(x) ==> Unused(w.rows, y)
    ensures Possible(steps + [Advance(x.call.run, x.rest)])
    ensures LoopedTo(w, After(steps + [Advance(x.call.run, x.rest)]), x)
  {
    hide *;
    var u := After(steps);
    AskedHandler(w, u, x);
    ResultsFit(x);
    LastBatch(x);
    LastRowsAreBuiltExactly(x);
    LastRowsAreReady(w, u, x);
    FinishedWorld(w, u, x);
    if !Recordable(CitedBy(x), x.rest.result) {
      GivesUp(steps, x.call.run, x.rest);
    } else if LastRows(x) == [] {
      AdvancesEmpty(steps, x.call.run, x.rest);
    } else {
      Advances(steps, x.call.run, x.rest);
    }
  }

  lemma {:induction false} AskedHandler(w: World, u: World, x: Course)
    requires AskedAgain(w, u, x)
    ensures x.call.run in u.active && u.active[x.call.run] == FinishingFollowup(x.call, CitedBy(x), x.rest.result)
  {
    hide LoopRows, CitedBy;
  }

  // A call whose context is gone ends when it loads the records.
  lemma {:induction false} LoadingEnds(u: World, w: World, x: Course)
    requires Stage(w, u, x, 3, LoadingRecords(x.call, ContentOf(x))) && !HasContext(x)
    ensures var h := LoadingRecords(x.call, ContentOf(x));
      Appends(h) && Batch(h, x.rest) == [] && LoopedTo(w, Appended(u, x.call.run, h, x.rest, u.rows + []), x)
  {
    LoopKeysAndIds(x);
    hide LoopRows, Loaded, ContentOf;
    assert u.rows + [] == u.rows;
  }

  lemma {:induction false} RowIsReady(w: World, u: World, x: Course, n: nat)
    requires Smooth(x) && x.call.toolEvent.Derived? && n < 4
    requires forall y :: y in LoopRows(x) ==> Unused(w.rows, y)
    requires n < 2 || ContentOf(x) in u.artifacts
    ensures RowReady(w, u, x, n)
  {
    hide *;
    EarlyRowsAreBuilt(x, n);
    RowRefs(x);
    LoopKeysAndIds(x);
    assert LoopRows(x)[n] in LoopRows(x);
    ReadyWhen(w, u, x, n);
  }

  lemma {:induction false} ReadyWhen(w: World, u: World, x: Course, n: nat)
    requires n < |LoopRows(x)| && Buildable([LoopRows(x)[n]]) && Unused(w.rows, LoopRows(x)[n])
    requires forall r :: r in LoopRows(x)[n].event.refs ==> r in u.artifacts
    ensures RowReady(w, u, x, n)
  {
    hide LoopRows, Unused, Buildable;
  }

  lemma {:induction false} StageOf(w: World, u: World, x: Course, n: nat, h: Handler)
    requires Stage(w, u, x, n, h)
    ensures Reaches(w, u, x, n, h) && x.call.run in u.active && u.active[x.call.run] == h
  {
    hide LoopRows;
  }

  lemma {:induction false} RegistersNow(u: World, run: nat, c: Call, g: Broker.Grant, o: Outside)
    requires run in u.active && u.active[run] == Registering(c, g)
    ensures AdvanceStep(u, run, o) == RegisterStep(u, run, c, g, o)
  {
    hide RegisterStep;
  }

  lemma {:induction false} ReadsNow(u: World, run: nat, c: Call, o: Outside)
    requires run in u.active && u.active[run] == ReadingFile(c)
    ensures AdvanceStep(u, run, o) == ReadStep(u, run, c, o)
  {
    hide ReadStep;
  }

  // The first half: approved, registered and claimed.
  lemma {:induction false} ClaimedCall(steps: seq<Step>, w: World, x: Course) returns (more: seq<Step>)
    requires Possible(steps) && Stage(w, After(steps), x, 0, Deciding(x.call)) && After(steps).broker == w.broker
    requires Smooth(x) && x.call.toolEvent.Derived? && x.call.decision.id !in w.broker.grants
    requires forall y :: y in LoopRows(x) ==> Unused(w.rows, y)
    ensures more == steps + [Advance(x.call.run, x.decided)] + [Advance(x.call.run, x.rest)] + [Advance(x.call.run, x.rest)]
    ensures Possible(more) && Stage(w, After(more), x, 2, ReadingFile(x.call)) && Granted(After(more), x)
  {
    hide *;
    var c, run, g := x.call, x.call.run, GrantFor(x.call, x.decided.at);
    ResultsFit(x);
    StageOf(w, After(steps), x, 0, Deciding(c));
    DecidingStep(x);
    RowIsReady(w, After(steps), x, 0);
    AdvanceAlong(steps, w, x, 0, Deciding(c), x.decided, Registering(c, g));
    MovedStage(w, After(steps), x, 0, Deciding(c), Registering(c, g));
    var s1 := steps + [Advance(run, x.decided)];
    StageOf(w, After(s1), x, 1, Registering(c, g));
    AdvancesBy(s1, run, x.rest);
    RegistersNow(After(s1), run, c, g, x.rest);
    RegisteredWorld(After(s1), w, x);
    var s2 := s1 + [Advance(run, x.rest)];
    StageOf(w, After(s2), x, 1, Claiming(c));
    ClaimingStep(x);
    RowIsReady(w, After(s2), x, 1);
    AdvanceAlong(s2, w, x, 1, Claiming(c), x.rest, ReadingFile(c));
    MovedStage(w, After(s2), x, 1, Claiming(c), ReadingFile(c));
    GrantedStays(After(s2), Moved(After(s2), x, 1, ReadingFile(c)), x);
    more := s2 + [Advance(run, x.rest)];
  }

  lemma {:induction false} GrantedStays(u: World, v: World, x: Course)
    requires Granted(u, x) && v.broker == u.broker
    ensures Granted(v, x)
  {
  }

  // The second half: read and observed, so that the records are next to be loaded.
  lemma {:induction false} ReadCall(steps: seq<Step>, w: World, x: Course) returns (more: seq<Step>)
    requires Possible(steps) && Stage(w, After(steps), x, 2, ReadingFile(x.call)) && Granted(After(steps), x)
    requires Smooth(x) && x.call.toolEvent.Derived?
    requires forall y :: y in LoopRows(x) ==> Unused(w.rows, y)
    ensures var next := [Advance(x.call.run, x.rest)]; more == steps + next + next
    ensures Possible(more) && Stage(w, After(more), x, 3, LoadingRecords(x.call, ContentOf(x))) && ContentOf(x) in After(more).artifacts
  {
    hide *;
    var c, run, o, next := x.call, x.call.run, x.rest, [Advance(x.call.run, x.rest)];
    ResultsFit(x);
    StageOf(w, After(steps), x, 2, ReadingFile(c));
    AdvancesBy(steps, run, o);
    ReadsNow(After(steps), run, c, o);
    ReadWorld(After(steps), w, x);
    var s1 := steps + next;
    ObservingStep(x);
    StageOf(w, After(s1), x, 2, Observing(c, ReadingOf(x)));
    RowIsReady(w, After(s1), x, 2);
    AdvanceAlong(s1, w, x, 2, Observing(c, ReadingOf(x)), o, LoadingRecords(c, ContentOf(x)));
    MovedStage(w, After(s1), x, 2, Observing(c, ReadingOf(x)), LoadingRecords(c, ContentOf(x)));
    more := s1 + next;
  }

  // With its context at hand the call asks once more.
  lemma {:induction false} AskingCall(steps: seq<Step>, w: World, x: Course) returns (more: seq<Step>)
    requires Possible(steps) && Stage(w, After(steps), x, 3, LoadingRecords(x.call, ContentOf(x))) && ContentOf(x) in After(steps).artifacts
    requires Smooth(x) && x.call.toolEvent.Derived? && HasContext(x)
    requires forall y :: y in LoopRows(x) ==> Unused(w.rows, y)
    ensures var next := [Advance(x.call.run, x.rest)]; more == steps + next + next + next
    ensures Possible(more) && AskedAgain(w, After(more), x)
  {
    hide *;
    var c, run, o, next := x.call, x.call.run, x.rest, [Advance(x.call.run, x.rest)];
    ResultsFit(x);
    LoadingStep(x);
    StageOf(w, After(steps), x, 3, LoadingRecords(c, ContentOf(x)));
    RowIsReady(w, After(steps), x, 3);
    AdvanceAlong(steps, w, x, 3, LoadingRecords(c, ContentOf(x)), o, DispatchingFollowup(c, CitedBy(x)));
    MovedStage(w, After(steps), x, 3, LoadingRecords(c, ContentOf(x)), DispatchingFollowup(c, CitedBy(x)));
    var s1 := steps + next;
    StageOf(w, After(s1), x, 4, DispatchingFollowup(c, CitedBy(x)));
    DispatchedAgain(After(s1), w, x);
    AdvancesBy(s1, run, o);
    var s2 := s1 + next;
    AdvancesBy(s2, run, o);
    more := s2 + next;
  }

  // What an unhindered call needs of the state it begins in.
  ghost predicate Unhindered(steps: seq<Step>, x: Course) {
    && Possible(steps) && Enabled(After(steps), Start(x.call)) && Waits(After(steps), x.call) && Smooth(x)
    && x.call.decision.id !in After(steps).broker.grants
    && forall y :: y in LoopRows(x) + LastRows(x) ==> Unused(After(steps).rows, y)
  }

  lemma {:induction false} UnhinderedIs(steps: seq<Step>, x: Course)
    requires Unhindered(steps, x)
    ensures Possible(steps) && Enabled(After(steps), Start(x.call)) && Waits(After(steps), x.call) && Smooth(x)
    ensures x.call.decision.id !in After(steps).broker.grants
    ensures forall y :: y in LoopRows(x) + LastRows(x) ==> Unused(After(steps).rows, y)
  {
    hide Possible, After, Inv, Enabled, Waits, Smooth, LoopRows, LastRows, Unused;
  }

  // From any reachable state in which a run waits for a decision, an approving call whose keys and identities are free,
  // which meets what it needs outside, and which nothing interrupts, runs the loop to its end: one grant, one read, and,
  // when every selected content is still current and approved, one more question to the provider. It answers, or raises,
  // what its outcome says.
  lemma {:induction false} UnhinderedDecisionCompletes(steps: seq<Step>, x: Course)
    requires Unhindered(steps, x)
    ensures Possible(WithDecision(steps, x))
    ensures LoopedTo(After(steps), After(WithDecision(steps, x)), x)
  {
    UnhinderedIs(steps, x);
    hide *;
    var w, run, o := After(steps), x.call.run, x.rest;
    Reached(steps);
    WaitsOnDerived(w, x.call);
    LoopKeysAndIds(x);
    Begun(steps, x);
    var s3 := ClaimedCall(steps + [Start(x.call)], w, x);
    var s5 := ReadCall(s3, w, x);
    ResultsFit(x);
    DecisionStepsAre(steps, x);
    if HasContext(x) {
      var s8 := AskingCall(s5, w, x);
      LastStep(s8, w, x);
    } else {
      StageOf(w, After(s5), x, 3, LoadingRecords(x.call, ContentOf(x)));
      LoadingEnds(After(s5), w, x);
      AdvancesEmpty(s5, run, o);
    }
  }

  lemma {:induction false} DecisionStepsAre(steps: seq<Step>, x: Course)
    ensures var next := [Advance(x.call.run, x.rest)];
      var read := steps + [Start(x.call)] + [Advance(x.call.run, x.decided)] + next + next + next + next;
      WithDecision(steps, x) == if HasContext(x) then read + next + next + next + next else read + next
  {
    hide HasContext;
  }

  // ---------- what the run says after the call ----------

  lemma {:induction false} StoredEvents(x: Course)
    ensures forall y :: y in StoredBy(x) ==> y.event.run == ChatRun(x.call.run)
    ensures |StoredBy(x)| >= 3
  {
    hide TaskOf, Loaded, AnswerFits, CitedBy, ContentOf, ReadingOf;
  }

  // The last of the stored events, by how the call went.
  lemma {:induction false} StoredLast(x: Course)
    ensures |StoredBy(x)| >= 3
    ensures var e := StoredBy(x)[|StoredBy(x)| - 1].event;
      if !HasContext(x) then KindOf(e) == Some(Observation) && !e.payload.detail.FailureDetail?
      else if x.rest.result.Breaks? || !Recordable(CitedBy(x), x.rest.result) then KindOf(e) == Some(ModelCallPending) && !e.payload.detail.FailureDetail?
      else if x.rest.result.Answers? then KindOf(e) == Some(FinalResponse) && !e.payload.detail.FailureDetail?
      else KindOf(e) == Some(ModelCallFailed) && e.payload.detail == FailureDetail(FollowupFailure(x.rest.result))
  {
    hide TaskOf, HasContext, AnswerFits, CitedBy, ContentOf, ReadingOf;
  }

  lemma {:induction false} LoopedEvents(w: World, v: World, x: Course)
    requires LoopedTo(w, v, x)
    ensures OfRun(v.rows, x.call.run) == OfRun(w.rows, x.call.run) + StoredBy(x)
    ensures EventsOfRun(v, x.call.run) == EventsOfRun(w, x.call.run) + EventsOf(StoredBy(x))
    ensures |EventsOf(StoredBy(x))| == |StoredBy(x)| >= 3
    ensures EventsOf(StoredBy(x))[|StoredBy(x)| - 1] == StoredBy(x)[|StoredBy(x)| - 1].event
  {
    StoredEvents(x);
    hide StoredBy, OfRun, HasContext, EndOf;
    OfRunAppend(w.rows, StoredBy(x), x.call.run);
    OfRunAll(StoredBy(x), x.call.run);
  }

  lemma {:induction false} LoopedIsIdle(w: World, v: World, x: Course)
    requires LoopedTo(w, v, x)
    ensures Idle(v, x.call.run) && FailureOf(EventsOfRun(v, x.call.run)) == LastFailure(x)
    ensures !HasContext(x) <==> LastKind(EventsOfRun(v, x.call.run)) == Some(Observation)
  {
    LoopedEvents(w, v, x);
    StoredLast(x);
    hide StoredBy, OfRun, HasContext, KindOf, EventsOf, CitedBy, EndOf, AnswerFits;
    var es := EventsOfRun(v, x.call.run);
    assert es[|es| - 1] == StoredBy(x)[|StoredBy(x)| - 1].event;
  }

  // The failure the run records in the end: the one of a follow-up call that failed.
  function LastFailure(x: Course): Option<FailureKind> {
    if HasContext(x) && (x.rest.result.Fails? || x.rest.result.Asks?) then Some(FollowupFailure(x.rest.result)) else None
  }

  // Nothing that happens later adds to the run. It stands still at its observation exactly when some content that its
  // manifest selected is no longer the current content of its record, or no longer approved.
  lemma {:induction false} StaleContextStrandsExactly(steps: seq<Step>, x: Course, more: seq<Step>)
    requires Unhindered(steps, x) && Possible(WithDecision(steps, x) + more)
    ensures var v := After(WithDecision(steps, x) + more);
      && Idle(v, x.call.run)
      && (LastKind(EventsOfRun(v, x.call.run)) == Some(Observation)
          <==> exists i :: i in x.call.manifest.items && !IsCurrent(x.rest.memory, i))
  {
    ContextIsCurrent(x);
    UnhinderedIs(steps, x);
    hide *;
    UnhinderedDecisionCompletes(steps, x);
    var s := WithDecision(steps, x);
    LoopedIsIdle(After(steps), After(s), x);
    IdleForEver(s, more, x.call.run);
    SameEvents(After(s), After(s + more), x.call.run);
  }

  lemma {:induction false} ContextIsCurrent(x: Course)
    ensures HasContext(x) <==> forall i :: i in x.call.manifest.items ==> IsCurrent(x.rest.memory, i)
  {
  }

  // At any later time a retry of the call returns the answer again, or raises another error than the call did: the kind
  // of failure that a failed follow-up has stored, and else that nothing is pending.
  lemma {:induction false} LoopIsRetried(steps: seq<Step>, x: Course, more: seq<Step>, actor: string, p: ProviderIdentity)
    requires Unhindered(steps, x) && Possible(WithDecision(steps, x) + more)
    ensures var v, c := After(WithDecision(steps, x) + more), x.call;
      var again := DecisionLookup(v.rows, v.artifacts, c.session, c.run, c.toolEvent, c.decision, c.key, actor, p);
      match EndOf(x)
      case Raising(error) =>
        again == Raised(if LastFailure(x).Some? then LoopFailed(LastFailure(x).value) else NotPending) && again != Raised(error)
      case _ => again == Returned(EndOf(x))
  {
    OutcomeIs(x);
    UnhinderedIs(steps, x);
    hide *;
    UnhinderedDecisionCompletes(steps, x);
    var s, c := WithDecision(steps, x), x.call;
    LoopedIsIdle(After(steps), After(s), x);
    IdleForEver(s, more, c.run);
    SameEvents(After(s), After(s + more), c.run);
    LoopedReply(After(steps), After(s), x);
    RepliesStay(s, more, ReplyTo(x));
    ReplyIs(x);
    if EndOf(x).Raising? {
      DecisionRetryRaisesExactly(s + more, ReplyTo(x), c.session, c.toolEvent, c.decision, c.key, actor, p);
      ErrorOfFailure(EventsOfRun(After(s + more), c.run));
    } else {
      DecisionRetryReturnsTheSame(s + more, ReplyTo(x), c.session, c.toolEvent, c.decision, c.key, actor, p);
    }
  }

  function ReplyTo(x: Course): Reply {
    Reply(x.call.run, FromDecision(x.call.session, x.call.toolEvent, x.call.decision, x.call.key), EndOf(x))
  }

  lemma {:induction false} ReplyIs(x: Course)
    ensures var c := x.call;
      ReplyTo(x).run == c.run && ReplyTo(x).response == EndOf(x) && ReplyTo(x).origin == FromDecision(c.session, c.toolEvent, c.decision, c.key)
  {
    hide EndOf;
  }

  lemma {:induction false} OutcomeIs(x: Course)
    ensures EndOf(x).Raising? || EndOf(x).Answered?
    ensures EndOf(x).Raising? ==> !EndOf(x).error.LoopFailed? && !EndOf(x).error.NotPending?
  {
    hide TaskOf, AnswerFits, CitedBy, HasContext;
  }

  lemma {:induction false} ErrorOfFailure(es: seq<Event>)
    ensures DecisionErrorOf(es) == if FailureOf(es).Some? then LoopFailed(FailureOf(es).value) else NotPending
  {
    hide FailureOf;
  }

  lemma {:induction false} LoopedReply(w: World, v: World, x: Course)
    requires LoopedTo(w, v, x)
    ensures ReplyTo(x) in v.replies
  {
    hide EndOf, StoredBy, HasContext;
  }

  // ---------- the context ----------

  // Once an observation is stored the call goes on to ask the provider exactly when every content its manifest selected
  // is still the current one of its record, and approved; otherwise it raises, with the observation as the last thing
  // its run says.
  lemma {:induction false} ContextIsReachedExactly(w: World, run: nat, c: Call, content: Ref, o: Outside)
    requires Inv(w) && run in w.active && w.active[run] == LoadingRecords(c, content)
    requires var row := Row(FollowupPendingEvent(c, content, o.at), c.key + ":followup:pending");
      Buildable([row]) && FreeFor(w.rows, w.artifacts, row)
    ensures var v := AdvanceStep(w, run, o);
      && (run in v.active <==> forall i :: i in c.manifest.items ==> IsCurrent(o.memory, i))
      && (run in v.active ==> v.active[run].DispatchingFollowup?)
      && (run !in v.active ==>
        && Idle(v, run) && v.rows == w.rows && LastKind(EventsOfRun(v, run)) == Some(Observation)
        && v.replies == w.replies + [Reply(run, OriginOf(LoadingRecords(c, content)), Raising(ContextUnavailable))])
  {
    LoadingAdvances(w, run, c, content, o);
    LoadedExactly(o.memory, c.manifest);
    hide Inv, AppendStep, Buildable, FreeFor, OfRun, Idle, Ended, AppendErrorOf, Appended, FollowupPendingEvent, Loaded;
    if Loaded(o.memory, c.manifest).Some? {
      StepAppendsExactly(w, run, o);
      LoadedWorld(w, run, c, content, o);
    } else {
      EmptyAppend(w, run, w.active[run], o);
      LoadedWorld(w, run, c, content, o);
      ObservedLast(w, AdvanceStep(w, run, o), run, c, content);
    }
  }

  lemma {:induction false} LoadedExactly(t: Memory.Tables, m: ContextManifest)
    ensures Loaded(t, m).Some? <==> forall i :: i in m.items ==> IsCurrent(t, i)
  {
  }

  lemma {:induction false} LoadingAdvances(w: World, run: nat, c: Call, content: Ref, o: Outside)
    requires run in w.active && w.active[run] == LoadingRecords(c, content)
    ensures AdvanceStep(w, run, o) == AppendStep(w, run, w.active[run], o)
    ensures Batch(w.active[run], o) ==
      if Loaded(o.memory, c.manifest).Some? then [Row(FollowupPendingEvent(c, content, o.at), c.key + ":followup:pending")] else []
  {
    hide AppendStep, Loaded, FollowupPendingEvent;
  }

  lemma {:induction false} LoadedWorld(w: World, run: nat, c: Call, content: Ref, o: Outside)
    ensures var h := LoadingRecords(c, content);
      forall rows :: var v := Appended(w, run, h, o, rows);
        && v.rows == rows
        && (Loaded(o.memory, c.manifest).Some? ==> run in v.active && v.active[run].DispatchingFollowup?)
        && (Loaded(o.memory, c.manifest).None? ==>
          run !in v.active && v.replies == w.replies + [Reply(run, OriginOf(h), Raising(ContextUnavailable))])
  {
    hide Loaded;
  }

  lemma {:induction false} ObservedLast(w: World, v: World, run: nat, c: Call, content: Ref)
    requires Inv(w) && run in w.active && w.active[run] == LoadingRecords(c, content) && v.rows == w.rows && run !in v.active
    ensures Idle(v, run) && LastKind(EventsOfRun(v, run)) == Some(Observation)
  {
    hide Inv, LedgerOk, LogFits, LogOf, RunShaped, Broker.Consistent, OfRun, KindOf, SameDecision;
    RunOf(w, run);
  }

  // ---------- approvals that lead nowhere ----------

  function WithApproval(steps: seq<Step>, c: Call, o: Outside): seq<Step> {
    steps + [Start(c)] + [Advance(c.run, o)]
  }

  lemma {:induction false} DecisionBegun(steps: seq<Step>, c: Call, o: Outside)
    requires Possible(steps) && Enabled(After(steps), Start(c)) && Waits(After(steps), c)
    requires Unused(After(steps).rows, Row(DecisionEvent(c, o.at), c.key))
    ensures Possible(steps + [Start(c)])
    ensures After(steps + [Start(c)]) == After(steps).(active := After(steps).active[c.run := Deciding(c)])
  {
    hide *;
    Reached(steps);
    KeyIsUnused(After(steps).rows, Row(DecisionEvent(c, o.at), c.key));
    Extended(steps, Start(c));
    DecisionBegins(After(steps), c);
  }

  lemma {:induction false} DecisionIsFree(u: World, c: Call, o: Outside)
    requires Unused(u.rows, Row(DecisionEvent(c, o.at), c.key))
    ensures FreeFor(u.rows, u.artifacts, Row(DecisionEvent(c, o.at), c.key))
  {
    DecidingBatch(c, o);
    hide DecisionEvent, HasId, HasKey, Memory.PortableToken;
  }

  // The approval is stored, and nothing that happens later adds to the run: the target was portable, but not one a grant
  // may name.
  lemma {:induction false} UnacceptableTargetStrands(steps: seq<Step>, c: Call, o: Outside, more: seq<Step>)
    requires Possible(steps) && Enabled(After(steps), Start(c)) && Waits(After(steps), c) && ResultFits(o.result)
    requires c.decision.approved && IdentityFits(c.provider) && ToolFits(c.tool) && ActorFits(Actor(c.actor, Human))
    requires Unused(After(steps).rows, Row(DecisionEvent(c, o.at), c.key))
    requires Targets.Suffix(c.tool.target) != "" && !Targets.GrantAcceptable(c.tool.target)
    ensures Possible(WithApproval(steps, c, o))
    ensures After(WithApproval(steps, c, o)).rows == After(steps).rows + [Row(DecisionEvent(c, o.at), c.key)]
    ensures Possible(WithApproval(steps, c, o) + more) ==>
      var v := After(WithApproval(steps, c, o) + more);
      Idle(v, c.run) && LastKind(EventsOfRun(v, c.run)) == Some(GrantApproved)
  {
    hide *;
    Reached(steps);
    WaitsOnDerived(After(steps), c);
    DecisionBegun(steps, c, o);
    var s1 := steps + [Start(c)];
    Reached(s1);
    DecisionIsBuilt(c, o.at);
    DecisionIsFree(After(s1), c, o);
    GrantIsReachedExactly(After(s1), c.run, c, o);
    AdvancesBy(s1, c.run, o);
    WithApprovalIs(steps, c, o);
    var s := WithApproval(steps, c, o);
    if Possible(s + more) {
      IdleForEver(s, more, c.run);
      SameEvents(After(s), After(s + more), c.run);
    }
  }

  lemma {:induction false} WithApprovalIs(steps: seq<Step>, c: Call, o: Outside)
    ensures WithApproval(steps, c, o) == steps + [Start(c)] + [Advance(c.run, o)]
  {
  }

  // ---------- from the question to the decision ----------

  // The call that decides on the tool request a chat call ended with.
  predicate DecidesOn(call: Call, c: Chat, tool: ToolRequest) {
    && call.session == c.request.session && call.run == c.request.id && call.provider == c.provider
    && call.toolEvent == Derived(c.request.id, ChatToolRequest) && call.tool == tool && call.manifest == c.manifest
  }

  lemma {:induction false} AskedEvents(c: Chat, tool: ToolRequest, at: int)
    ensures var es := EventsOf(PrepareBatch(c) + FinishBatch(c, Asks(tool), at));
      && |es| == 5 && es[0].session == c.request.session && es[1].refs == [ManifestRef(c.manifest)]
      && KindOf(es[4]) == Some(ToolRequested) && es[4].id == Derived(c.request.id, ChatToolRequest)
      && es[4].payload.detail == ToolDetail(tool) && SameIdentity(es[4], c.provider)
    ensures forall x :: x in PrepareBatch(c) + FinishBatch(c, Asks(tool), at) ==> x.event.run == ChatRun(c.request.id)
  {
    hide TaskOf;
    var rows := PrepareBatch(c) + FinishBatch(c, Asks(tool), at);
    assert rows[0].event == RequestEvent(c.request, c.actor, c.at);
    assert rows[1].event == ContextEvent(c.request, ManifestRef(c.manifest), c.at);
    assert rows[4].event == ToolRequestEvent(c.request, c.provider, tool, at);
  }

  // A chat call whose provider asks for a tool leaves its run waiting for exactly such a decision.
  lemma {:induction false} AskingCallWaits(w: World, v: World, c: Chat, o: Outside, call: Call)
    requires Inv(w) && !HasId(w.rows, Client(c.request.id)) && CalledTo(w, v, c, o)
    requires o.result.Asks? && DecidesOn(call, c, o.result.tool)
    ensures Waits(v, call)
  {
    hide Inv, OfRun, LogOf, PrepareBatch, FinishBatch, HasId, KindOf, SameIdentity, CalledTo;
    var run, rows := c.request.id, PrepareBatch(c) + FinishBatch(c, o.result, o.at);
    NotBegun(w, run);
    AskedEvents(c, o.result.tool, o.at);
    OfRunAppend(w.rows, rows, run);
    OfRunAll(rows, run);
    RowsOfAskingCall(w, v, c, o);
  }

  lemma {:induction false} RowsOfAskingCall(w: World, v: World, c: Chat, o: Outside)
    requires CalledTo(w, v, c, o) && o.result.Asks?
    ensures v.rows == w.rows + (PrepareBatch(c) + FinishBatch(c, o.result, o.at))
  {
    hide PrepareBatch, FinishBatch, Final;
    assert w.rows + PrepareBatch(c) + FinishBatch(c, o.result, o.at) == w.rows + (PrepareBatch(c) + FinishBatch(c, o.result, o.at));
  }
}
