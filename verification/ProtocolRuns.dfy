/** Whole histories of the services: reachable states, and what every one of them guarantees. */
module ProtocolRuns {
  import opened Wrappers
  import opened Relational
  import opened Events
  import opened Ledger
  import opened Runs
  import opened Context
  import opened Protocol
  import opened ProtocolWorld
  import opened ProtocolShape
  import opened ProtocolLedger
  import opened ProtocolSafety
  import Broker
  import Memory

  // ---------- beginning a call ----------

  lemma {:induction false} LastFits(run: nat, es: seq<Event>)
    requires Shape(run, es) && |es| > 0
    ensures |es| >= 3 && Fits(run, |es| - 1, es[|es| - 1])
  {
    NotShort(run, es);
    FitsAt(run, es, |es| - 1);
  }

  lemma {:induction false} PlaceOfKind(run: nat, i: nat, e: Event)
    requires Fits(run, i, e)
    ensures KindOf(e) == Some(ToolRequested) ==> i == 4
    ensures KindOf(e) == Some(GrantDenied) ==> i == 5
  {
    hide TaskOf;
  }

  // What a run says when it is read is one of the responses it stands for.
  lemma {:induction false} ReadingSays(run: nat, es: seq<Event>)
    requires Shape(run, es) && |es| > 0
    ensures |es| >= 3 && |es[1].refs| == 1 && es[1].refs[0].blob.ManifestBlob?
    ensures var answered := CompletedOf(es, run, es[1].refs[0].blob.manifest); answered.Some? ==> Says(run, es, answered.value)
    ensures AwaitingOf(es, run).Some? ==> Says(run, es, AwaitingOf(es, run).value) && |es| == 5
  {
    LastFits(run, es);
    ManifestIsSecond(run, es);
    PlaceOfKind(run, |es| - 1, es[|es| - 1]);
    hide Shape, Fits;
    if |es| == 5 { assert es[..5] == es; }
  }

  lemma {:induction false} ChatLookupSays(w: World, q: ChatRequest, key: Key)
    requires Inv(w) && ChatLookup(w.rows, w.artifacts, q, key).Returned?
    ensures ReplyOk(w, Reply(q.id, FromChat(q, key), ChatLookup(w.rows, w.artifacts, q, key).response))
  {
    RunOf(w, q.id);
    var existing := ByKey(w.rows, key).value;
    KeyLookup(w.rows, key);
    hide Inv, LedgerOk, OfRun, Shape, LogFits, Stands, ByKey, Inspect, CompletedOf, AwaitingOf, Says;
    RequestIsFirst(w.rows, q.id, q, Row(existing, key));
    InspectFinds(w.rows, w.artifacts, q.session, q.id);
    ReadingSays(q.id, EventsOf(OfRun(w.rows, q.id)));
  }

  lemma {:induction false} ChatProceeds(w: World, c: Chat)
    requires Inv(w) && c.manifest.task == TaskOf(c.request.id) && ByKey(w.rows, c.key).None?
    ensures Stands(c.request.id, OfRun(w.rows, c.request.id), LogOf(w.dispatched, c.request.id), Preparing(c))
  {
    KeyLookup(w.rows, c.key);
    OfRunMembers(w.rows, c.request.id);
    hide Inv, OfRun, ByKey, LogOf;
  }

  lemma {:induction false} RespondKeeps(w: World, run: nat, origin: Origin, response: Response)
    requires Inv(w) && ReplyOk(w, Reply(run, origin, response))
    ensures Inv(Respond(w, run, origin, Some(response)))
  {
    RunOf(w, run);
    hide Inv, LedgerOk, LogOf, OfRun, RunShaped, LogFits, Stands, Broker.Consistent, ReplyStands, Quiet;
    var v := Respond(w, run, origin, Some(response));
    assert v.rows == w.rows + [];
    QuietIfSame(w, v, run);
    StepKeeps(w, v, run, []);
  }

  // A call that is refused changes nothing but what was answered.
  lemma {:induction false} RefusalKeeps(w: World, run: nat, origin: Origin, error: CallError)
    requires Inv(w)
    ensures Inv(Respond(w, run, origin, Some(Refusing(error))))
  {
    RefusalStands(w, run, origin, error);
    hide Inv, ReplyStands;
    RespondKeeps(w, run, origin, Refusing(error));
  }

  lemma {:induction false} StartChatKeeps(w: World, c: Chat)
    requires Inv(w) && c.request.id !in w.active && c.manifest.task == TaskOf(c.request.id)
    ensures Inv(StartChatStep(w, c))
  {
    RunOf(w, c.request.id);
    hide Inv, LedgerOk, LogOf, OfRun, RunOk, Stands, Broker.Consistent, ByKey, Memory.PortableToken, Inspect, ReplyOk, CompletedOf, AwaitingOf;
    var found, origin := ChatLookup(w.rows, w.artifacts, c.request, c.key), FromChat(c.request, c.key);
    hide Respond, Quiet;
    if !Memory.PortableToken(c.key) {
      RefusalKeeps(w, c.request.id, origin, LedgerFailed(InvalidKey));
    } else if found.Raised? {
      RefusalKeeps(w, c.request.id, origin, found.error);
    } else if found.Returned? {
      ChatLookupSays(w, c.request, c.key);
      RespondKeeps(w, c.request.id, origin, found.response);
    } else {
      ChatProceeds(w, c);
      var v := SetHandler(w.(artifacts := w.artifacts + {ManifestRef(c.manifest)}), c.request.id, Some(Preparing(c)));
      QuietIfSame(w, v, c.request.id);
      HandlerStepKeeps(w, v, c.request.id);
    }
  }

  // What a decision call finds: the response its decision led to, or a run waiting for it.
  lemma {:induction false} DecisionLookupSays(w: World, session: string, run: nat, toolEvent: EventId, d: Decision, key: Key, actor: string, p: ProviderIdentity)
    requires Inv(w)
    ensures var found := DecisionLookup(w.rows, w.artifacts, session, run, toolEvent, d, key, actor, p);
      && (found.Returned? ==> ReplyOk(w, Reply(run, FromDecision(session, toolEvent, d, key), found.response)))
      && (found.Proceed? ==> CallStands(run, OfRun(w.rows, run), found.what, 5, ToolRequested))
  {
    RunOf(w, run);
    KeyLookup(w.rows, key);
    hide Inv, LedgerOk, OfRun, LogFits, Stands, ByKey, Inspect, Shape, Broker.Consistent;
    InspectFinds(w.rows, w.artifacts, session, run);
    var v := OfRun(w.rows, run);
    if Inspect(w.rows, w.artifacts, session, run).Success? {
      var es := EventsOf(v);
      ReadingSays(run, es);
      var existing := ByKey(w.rows, key);
      if existing.Some? {
        if SameDecision(existing.value, session, run, toolEvent, d) {
          DecisionIsSixth(w.rows, session, run, toolEvent, d, Row(existing.value, key));
          DecisionReplySays(w, session, run, toolEvent, d, key, actor, p);
        }
      } else {
        DecisionProceeds(w, session, run, toolEvent, d, key, actor, p);
      }
    }
  }

  lemma {:induction false} DecisionReplySays(w: World, session: string, run: nat, toolEvent: EventId, d: Decision, key: Key, actor: string, p: ProviderIdentity)
    requires RunShaped(w.rows, run)
    requires var es := EventsOf(OfRun(w.rows, run));
      && |es| >= 6 && OfRun(w.rows, run)[5].key == key && SameDecision(es[5], session, run, toolEvent, d) && es[0].session == session
      && ByKey(w.rows, key) == Some(es[5])
      && |es[1].refs| == 1 && es[1].refs[0].blob.ManifestBlob?
      && Inspect(w.rows, w.artifacts, session, run) == Success(Inspection(es, es[1].refs[0].blob.manifest))
      && (CompletedOf(es, run, es[1].refs[0].blob.manifest).Some? ==> Says(run, es, CompletedOf(es, run, es[1].refs[0].blob.manifest).value))
    ensures var found := DecisionLookup(w.rows, w.artifacts, session, run, toolEvent, d, key, actor, p);
      found.Returned? ==> ReplyOk(w, Reply(run, FromDecision(session, toolEvent, d, key), found.response))
    ensures !DecisionLookup(w.rows, w.artifacts, session, run, toolEvent, d, key, actor, p).Proceed?
  {
    hide OfRun, Shape, RunShaped, Fits, Inspect, ByKey, CompletedOf, AwaitingOf, DecisionErrorOf, FailureOf, SaysError, KindOf;
    var es := EventsOf(OfRun(w.rows, run));
    ShapeOf(w.rows, run);
    LastFits(run, es);
    PlaceOfKind(run, |es| - 1, es[|es| - 1]);
    AnsweredOnly(es, run, es[1].refs[0].blob.manifest);
  }

  lemma {:induction false} AnsweredOnly(es: seq<Event>, run: nat, manifest: ContextManifest)
    ensures CompletedOf(es, run, manifest).Some? ==> CompletedOf(es, run, manifest).value.Answered?
  {
  }

  lemma {:induction false} DecisionProceeds(w: World, session: string, run: nat, toolEvent: EventId, d: Decision, key: Key, actor: string, p: ProviderIdentity)
    requires RunShaped(w.rows, run) && ByKey(w.rows, key).None?
    requires var es := EventsOf(OfRun(w.rows, run));
      && |es| >= 3 && es[0].session == session && |es[1].refs| == 1 && es[1].refs[0].blob.ManifestBlob?
      && Inspect(w.rows, w.artifacts, session, run) == Success(Inspection(es, es[1].refs[0].blob.manifest))
      && (AwaitingOf(es, run).Some? ==> |es| == 5)
    ensures var found := DecisionLookup(w.rows, w.artifacts, session, run, toolEvent, d, key, actor, p);
      !found.Returned? && (found.Proceed? ==> CallStands(run, OfRun(w.rows, run), found.what, 5, ToolRequested))
  {
    hide OfRun, Shape, Inspect, ByKey, SameIdentity;
    var es := EventsOf(OfRun(w.rows, run));
    assert es[1].refs == [es[1].refs[0]] && es[1].refs[0] == ManifestRef(es[1].refs[0].blob.manifest);
  }

  lemma {:induction false} StartDecisionKeeps(w: World, session: string, run: nat, toolEvent: EventId, d: Decision, key: Key, actor: string, p: ProviderIdentity)
    requires Inv(w) && run !in w.active
    ensures Inv(StartDecisionStep(w, session, run, toolEvent, d, key, actor, p))
  {
    RunOf(w, run);
    hide Inv, LedgerOk, LogOf, OfRun, RunOk, Broker.Consistent, DecisionLookup, Memory.PortableToken, ReplyOk, CallStands;
    hide HasId, RunShaped, LogFits;
    DecisionLookupSays(w, session, run, toolEvent, d, key, actor, p);
    var found := DecisionLookup(w.rows, w.artifacts, session, run, toolEvent, d, key, actor, p);
    var origin := FromDecision(session, toolEvent, d, key);
    hide Respond, Quiet, Inspect;
    if !Memory.PortableToken(key) {
      var inspected := Inspect(w.rows, w.artifacts, session, run);
      RefusalKeeps(w, run, origin, if inspected.Failure? then NotInspectable(inspected.error) else LedgerFailed(InvalidKey));
    } else if found.Raised? {
      RefusalKeeps(w, run, origin, found.error);
    } else if found.Returned? {
      RespondKeeps(w, run, origin, found.response);
    } else {
      StandsToDecide(run, OfRun(w.rows, run), LogOf(w.dispatched, run), found.what);
      hide Stands;
      var v := SetHandler(w, run, Some(Deciding(found.what)));
      QuietIfOpen(w, v, run, []);
      HandlerStepKeeps(w, v, run);
    }
  }

  lemma {:induction false} StandsToDecide(run: nat, rows: seq<Row>, log: seq<EventId>, c: Call)
    requires CallStands(run, rows, c, 5, ToolRequested)
    ensures Stands(run, rows, log, Deciding(c)) && LastKind(EventsOf(rows)) == Some(ToolRequested)
  {
  }

  // ---------- other writers ----------

  lemma {:induction false} OtherAppendKeeps(w: World, entries: seq<Row>)
    requires Inv(w) && forall x :: x in entries ==> x.event.run.OtherRun?
    requires AppendMany(w.rows, w.artifacts, entries).Success?
    ensures Inv(w.(rows := AppendMany(w.rows, w.artifacts, entries).value))
  {
    var v := w.(rows := AppendMany(w.rows, w.artifacts, entries).value);
    AppendManyKeeps(w.rows, w.artifacts, entries);
    SoundIsDistinct(v.rows, w.artifacts);
    var more := v.rows[|w.rows|..];
    assert v.rows == w.rows + more;
    OtherRows(w.rows, more, entries);
    hide LedgerOk, AppendMany, RunOk, ReplyOk, Broker.Consistent, Durable;
    forall run
      ensures RunOk(v, run)
    {
      OthersUntouched(w.rows, more, run);
      SameFrom(w, v, run);
      SameStaysOk(w, v, run);
    }
    forall d | d in v.dispatched
      ensures Durable(v.rows, d)
    {
      DurableStays(w.rows, more, d);
    }
    forall reply | reply in v.replies
      ensures ReplyOk(v, reply)
    {
      OthersUntouched(w.rows, more, reply.run);
      ReplySame(w, v, reply);
    }
  }

  lemma {:induction false} ReplySame(w: World, v: World, reply: Reply)
    requires ReplyOk(w, reply) && OfRun(v.rows, reply.run) == OfRun(w.rows, reply.run) && v.active == w.active
    ensures ReplyOk(v, reply)
  {
    hide ReplyStands;
  }

  // A ledger without repeated rows that grew by a batch grew by entries of the batch.
  lemma {:induction false} OtherRows(rows: seq<Row>, more: seq<Row>, entries: seq<Row>)
    requires DistinctIds(rows + more) && forall x :: x in rows + more ==> x in rows || x in entries
    requires forall x :: x in entries ==> x.event.run.OtherRun?
    ensures forall x :: x in more ==> x.event.run.OtherRun?
  {
    forall x | x in more
      ensures x.event.run.OtherRun?
    {
      var i :| 0 <= i < |more| && more[i] == x;
      assert (rows + more)[|rows| + i] == x;
      if x in rows {
        var j :| 0 <= j < |rows| && rows[j] == x;
        DistinctPair(rows + more, j, |rows| + i);
        assert false;
      }
    }
  }

  lemma {:induction false} DistinctPair(rows: seq<Row>, i: nat, j: nat)
    requires DistinctIds(rows) && i < j < |rows|
    ensures rows[i] != rows[j]
  {
  }

  lemma {:induction false} ApplyKeeps(w: World, step: Step)
    requires Inv(w) && Enabled(w, step)
    ensures Inv(Apply(w, step))
  {
    hide Inv, AdvanceStep, StartChatStep, StartDecisionStep, Broker.Apply, AppendMany, ById;
    match step
    case StartChat(c) => StartChatKeeps(w, c);
    case StartDecision(session, run, toolEvent, d, key, actor, p) => StartDecisionKeeps(w, session, run, toolEvent, d, key, actor, p);
    case Advance(run, o) => AdvanceKeeps(w, run, o);
    case Crash(run) =>
      RunOf(w, run);
      hide Broker.Consistent, Quiet;
      QuietIfSame(w, SetHandler(w, run, None), run);
      HandlerStepKeeps(w, SetHandler(w, run, None), run);
    case OtherAppend(entries) =>
      if AppendMany(w.rows, w.artifacts, entries).Success? { OtherAppendKeeps(w, entries); }
    case OtherArtifact(ref) =>
      RunOf(w, 0);
      hide Broker.Consistent;
      OutsideKeeps(w, w.(artifacts := w.artifacts + {ref}));
    case OtherBroker(op) =>
      RunOf(w, 0);
      Broker.ApplyKeeps(w.broker, op);
      hide Broker.Consistent;
      OutsideKeeps(w, w.(broker := Broker.Apply(w.broker, op)));
  }

  // More artifacts or other uses of the broker concern no run.
  lemma {:induction false} OutsideKeeps(w: World, v: World)
    requires Inv(w) && w.artifacts <= v.artifacts && Broker.Consistent(v.broker)
    requires v == w.(artifacts := v.artifacts, broker := v.broker)
    ensures Inv(v)
  {
    RunOf(w, 0);
    hide Inv, LedgerOk, LogOf, OfRun, RunShaped, LogFits, Stands, Broker.Consistent, Quiet;
    QuietIfSame(w, v, 0);
    HandlerStepKeeps(w, v, 0);
  }

  // ---------- reachable states ----------

  ghost predicate Possible(steps: seq<Step>)
    decreases |steps|, 0
  {
    |steps| > 0 ==> Possible(steps[..|steps| - 1]) && Enabled(After(steps[..|steps| - 1]), steps[|steps| - 1])
  }

  // The state a history reaches. Every reachable state satisfies the invariant.
  ghost function After(steps: seq<Step>): (w: World)
    requires Possible(steps)
    ensures Inv(w)
    decreases |steps|, 1
  {
    if |steps| == 0 then
      StartIsSound();
      START
    else
      ApplyKeeps(After(steps[..|steps| - 1]), steps[|steps| - 1]);
      Apply(After(steps[..|steps| - 1]), steps[|steps| - 1])
  }

  lemma {:induction false} StartIsSound()
    ensures Inv(START)
  {
    hide Stands;
    assert EventsOf([]) == [];
    assert forall run :: OfRun([], run) == [] && LogOf([], run) == [];
  }

  // ---------- what every reachable state guarantees ----------

  ghost function EventsOfRun(w: World, run: nat): seq<Event> {
    EventsOf(OfRun(w.rows, run))
  }

  // Every run has no event yet, or reads back as a run of three to eleven steps that has its context in the
  // artifact store and calls the tool and observes at most once.
  lemma {:induction false} RunsAreAccepted(steps: seq<Step>, run: nat)
    requires Possible(steps)
    ensures var w := After(steps);
      var es := EventsOfRun(w, run);
      || es == []
      || (&& Accepted(es)
          && 3 <= |es| <= 11
          && Inspect(w.rows, w.artifacts, es[0].session, run).Success?
          && CountKind(es, ToolCallClaimed) <= 1
          && CountKind(es, Observation) <= 1)
  {
    hide After, Possible;
    var w := After(steps);
    RunOf(w, run);
    hide Inv, LedgerOk, OfRun, LogFits, Stands, Shape, Broker.Consistent;
    var es := EventsOfRun(w, run);
    if es != [] {
      ShapeIsRun(run, es);
      InspectFinds(w.rows, w.artifacts, es[0].session, run);
      OneClaimOneObservation(run, es);
    }
  }

  lemma {:induction false} TwoPending(es: seq<Event>, log: seq<EventId>)
    requires LogFits(es, log)
    ensures |log| <= 2 && (|log| == 2 ==> |es| >= 9) && (|log| > 0 ==> |es| >= 3)
  {
    if |log| > 0 { assert log[0] in log; }
    if |log| > 1 { assert log[1] in log; }
    if |log| > 2 {
      ThreeDistinct(log);
      assert false;
    }
  }

  lemma {:induction false} ThreeDistinct<T>(s: seq<T>)
    requires NoDuplicates(s) && |s| > 2
    ensures s[0] in s && s[1] in s && s[2] in s
    ensures s[0] != s[1] && s[0] != s[2] && s[1] != s[2]
  {
  }

  // The provider is asked at most twice in a run, never twice about the same intent, a second time only after an
  // observation is stored, and always after the intent is stored.
  lemma {:induction false} DispatchesAreBounded(steps: seq<Step>, run: nat)
    requires Possible(steps)
    ensures var w := After(steps);
      && NoDuplicates(LogOf(w.dispatched, run))
      && |LogOf(w.dispatched, run)| <= 2
      && (|LogOf(w.dispatched, run)| == 2 ==> |EventsOfRun(w, run)| >= 9)
      && forall d :: d in w.dispatched ==> Durable(w.rows, d)
  {
    hide After, Possible, LedgerOk, OfRun, LogOf, Durable, RunShaped, Stands, Broker.Consistent, ReplyOk;
    var w := After(steps);
    assert RunOk(w, run);
    TwoPending(EventsOfRun(w, run), LogOf(w.dispatched, run));
  }

  // Every grant is used at most once, whoever else uses the broker.
  lemma {:induction false} GrantsAreUsedOnce(steps: seq<Step>)
    requires Possible(steps)
    ensures forall i, j :: 0 <= i < j < |After(steps).broker.uses| ==> After(steps).broker.uses[i].id != After(steps).broker.uses[j].id
  {
    hide After, Possible, LedgerOk, RunOk, Durable, ReplyOk;
  }

  // ---------- retries ----------

  lemma {:induction false} ReplyOf(w: World, reply: Reply)
    requires Inv(w) && reply in w.replies
    ensures ReplyOk(w, reply)
  {
  }

  // A chat retry with the same key and request appends nothing and asks nobody: it returns the response first
  // returned, or, once a decision call has completed the run, the response that call returned.
  lemma {:induction false} ChatRetryReturnsTheSame(steps: seq<Step>, reply: Reply, c: Chat)
    requires Possible(steps) && reply in After(steps).replies && reply.origin == FromChat(c.request, c.key)
    requires Memory.PortableToken(c.key) && !reply.response.Refusing?
    ensures var w := After(steps);
      var again := ChatLookup(w.rows, w.artifacts, c.request, c.key);
      && (reply.response.Answered? ==> again == Returned(reply.response))
      && (reply.response.Awaiting? && |EventsOfRun(w, reply.run)| == 5 ==> again == Returned(reply.response))
      && (forall other :: other in w.replies && other.run == reply.run && other.response.Answered? ==> again == Returned(other.response))
      && (again.Returned? ==> StartChatStep(w, c) == w.(replies := w.replies + [Reply(c.request.id, reply.origin, again.response)]))
  {
    hide After, Possible;
    var w, q, key := After(steps), c.request, c.key;
    ReplyOf(w, reply);
    var es := EventsOfRun(w, reply.run);
    FoundAgain(w, reply, q, key);
    forall other | other in w.replies && other.run == reply.run && other.response.Answered?
      ensures ChatLookup(w.rows, w.artifacts, q, key) == Returned(other.response)
    {
      ReplyOf(w, other);
      hide Inv;
      AnsweredAgain(w, es, q, key, other.response);
    }
    hide Inv;
    if reply.response.Awaiting? && |es| == 5 { AwaitingAgain(w, es, q, key, reply.response); }
  }

  lemma {:induction false} FoundAgain(w: World, reply: Reply, q: ChatRequest, key: Key)
    requires Inv(w) && ReplyOk(w, reply) && reply.origin == FromChat(q, key) && !reply.response.Refusing?
    ensures var es := EventsOfRun(w, reply.run);
      && q.id == reply.run && |es| >= 3 && SameRequest(es[0], q)
      && ByKey(w.rows, key) == Some(es[0])
      && |es[1].refs| == 1 && es[1].refs[0].blob.ManifestBlob?
      && Inspect(w.rows, w.artifacts, q.session, q.id) == Success(Inspection(es, es[1].refs[0].blob.manifest))
      && (reply.response.Raising? ==> |es| <= 4)
  {
    RunOf(w, reply.run);
    SoundIsDistinct(w.rows, w.artifacts);
    hide Inv, LedgerOk, LogFits, Stands, Shape, Says, OfRun, Broker.Consistent, Inspect;
    var v := OfRun(w.rows, reply.run);
    OfRunMembers(w.rows, reply.run);
    assert v[0] in w.rows;
    StoredByKey(w.rows, v[0]);
    InspectFinds(w.rows, w.artifacts, q.session, q.id);
  }

  lemma {:induction false} AnsweredAgain(w: World, es: seq<Event>, q: ChatRequest, key: Key, response: Response)
    requires |es| >= 3 && SameRequest(es[0], q) && ByKey(w.rows, key) == Some(es[0])
    requires |es[1].refs| == 1 && es[1].refs[0].blob.ManifestBlob?
    requires Inspect(w.rows, w.artifacts, q.session, q.id) == Success(Inspection(es, es[1].refs[0].blob.manifest))
    requires Says(q.id, es, response) && response.Answered?
    ensures ChatLookup(w.rows, w.artifacts, q, key) == Returned(response)
  {
    hide Inspect, CompletedOf, AwaitingOf, ByKey;
  }

  lemma {:induction false} AwaitingAgain(w: World, es: seq<Event>, q: ChatRequest, key: Key, response: Response)
    requires |es| == 5 && SameRequest(es[0], q) && ByKey(w.rows, key) == Some(es[0])
    requires |es[1].refs| == 1 && es[1].refs[0].blob.ManifestBlob?
    requires Inspect(w.rows, w.artifacts, q.session, q.id) == Success(Inspection(es, es[1].refs[0].blob.manifest))
    requires Says(q.id, es, response) && response.Awaiting?
    ensures ChatLookup(w.rows, w.artifacts, q, key) == Returned(response)
  {
    hide Inspect, ByKey;
    assert es[..5] == es;
  }

  // A decision retry with the same key and decision appends nothing: it returns the response first returned.
  lemma {:induction false} DecisionRetryReturnsTheSame(steps: seq<Step>, reply: Reply, session: string, toolEvent: EventId, d: Decision, key: Key,
                                    actor: string, p: ProviderIdentity)
    requires Possible(steps) && reply in After(steps).replies && reply.origin == FromDecision(session, toolEvent, d, key)
    requires reply.response.Answered? || reply.response.DeniedReply?
    ensures var w := After(steps);
      DecisionLookup(w.rows, w.artifacts, session, reply.run, toolEvent, d, key, actor, p) == Returned(reply.response)
  {
    hide After, Possible;
    var w := After(steps);
    ReplyOf(w, reply);
    DecidedAgain(w, reply, session, toolEvent, d, key);
    hide Inv, Inspect, ByKey, OfRun, LastKind;
  }

  lemma {:induction false} DecisionFoundAgain(w: World, reply: Reply, session: string, toolEvent: EventId, d: Decision, key: Key)
    requires Inv(w) && ReplyOk(w, reply) && reply.origin == FromDecision(session, toolEvent, d, key) && !reply.response.Refusing?
    ensures var es := EventsOfRun(w, reply.run);
      && |es| >= 6 && SameDecision(es[5], session, reply.run, toolEvent, d)
      && ByKey(w.rows, key) == Some(es[5])
      && |es[1].refs| == 1 && es[1].refs[0].blob.ManifestBlob?
      && Inspect(w.rows, w.artifacts, session, reply.run) == Success(Inspection(es, es[1].refs[0].blob.manifest))
  {
    RunOf(w, reply.run);
    SoundIsDistinct(w.rows, w.artifacts);
    var v := OfRun(w.rows, reply.run);
    var es := EventsOf(v);
    OneSession(reply.run, es, 5);
    hide Inv, LedgerOk, LogFits, Stands, Shape, OfRun, Broker.Consistent, Inspect, Says;
    OfRunMembers(w.rows, reply.run);
    assert v[5] in w.rows;
    StoredByKey(w.rows, v[5]);
    InspectFinds(w.rows, w.artifacts, session, reply.run);
  }

  lemma {:induction false} DecidedAgain(w: World, reply: Reply, session: string, toolEvent: EventId, d: Decision, key: Key)
    requires Inv(w) && ReplyOk(w, reply) && reply.origin == FromDecision(session, toolEvent, d, key)
    requires reply.response.Answered? || reply.response.DeniedReply?
    ensures var es := EventsOfRun(w, reply.run);
      && |es| >= 6 && SameDecision(es[5], session, reply.run, toolEvent, d)
      && ByKey(w.rows, key) == Some(es[5])
      && |es[1].refs| == 1 && es[1].refs[0].blob.ManifestBlob?
      && Inspect(w.rows, w.artifacts, session, reply.run) == Success(Inspection(es, es[1].refs[0].blob.manifest))
      && if reply.response.Answered? then CompletedOf(es, reply.run, es[1].refs[0].blob.manifest) == Some(reply.response)
         else CompletedOf(es, reply.run, es[1].refs[0].blob.manifest) == None && KindOf(es[|es| - 1]) == Some(GrantDenied)
              && reply.response == DeniedReply(session, reply.run, toolEvent)
  {
    DecisionFoundAgain(w, reply, session, toolEvent, d, key);
    RunOf(w, reply.run);
    OneSession(reply.run, EventsOfRun(w, reply.run), 5);
    hide Inv, LedgerOk, LogFits, Stands, Shape, OfRun, Broker.Consistent, Inspect, ByKey;
  }

  // What the run of a call that raised says when it is read back.
  lemma {:induction false} RaisedAgain(es: seq<Event>, run: nat, manifest: ContextManifest, error: CallError)
    requires SaysError(es, error)
    ensures CompletedOf(es, run, manifest) == None && AwaitingOf(es, run) == None
    ensures |es| > 0 && KindOf(es[|es| - 1]) != Some(GrantDenied)
    ensures |es| >= 6 ==> (DecisionErrorOf(es) == error <==> LastKind(es) == Some(ToolFailed))
    ensures |es| >= 6 ==> (DecisionErrorOf(es) == NotPending <==> !error.LoopFailed? && !error.FollowupRaised?)
    ensures ChatErrorOf(es) == error <==> error.ProviderFailed? && OfProvider(error.kind)
    ensures |es| <= 4 && ChatErrorOf(es) != error ==> ChatErrorOf(es) == DispatchUncertain
  {
  }

  // A decision call that raises after its decision was stored raises again at every later retry: the same error exactly
  // when the last event of its run is a failed tool. Every other error is replaced, by the failure kind that a failed
  // follow-up has stored, or by the one for a run that waits for nothing.
  lemma {:induction false} DecisionRetryRaisesExactly(steps: seq<Step>, reply: Reply, session: string, toolEvent: EventId, d: Decision, key: Key,
                                   actor: string, p: ProviderIdentity)
    requires Possible(steps) && reply in After(steps).replies && reply.origin == FromDecision(session, toolEvent, d, key)
    requires reply.response.Raising?
    ensures var w := After(steps);
      var again := DecisionLookup(w.rows, w.artifacts, session, reply.run, toolEvent, d, key, actor, p);
      && again == Raised(DecisionErrorOf(EventsOfRun(w, reply.run)))
      && (again == Raised(reply.response.error) <==> LastKind(EventsOfRun(w, reply.run)) == Some(ToolFailed))
      && (again == Raised(NotPending) <==> !reply.response.error.LoopFailed? && !reply.response.error.FollowupRaised?)
  {
    hide After, Possible;
    var w := After(steps);
    ReplyOf(w, reply);
    DecisionFoundAgain(w, reply, session, toolEvent, d, key);
    hide Inv, Inspect, ByKey, OfRun, LastKind, SaysError, CompletedOf, DecisionErrorOf, AwaitingOf, SameDecision;
    var es := EventsOfRun(w, reply.run);
    RaisedAgain(es, reply.run, es[1].refs[0].blob.manifest, reply.response.error);
  }

  // A chat call that raises after its request was stored raises again at every later retry: the same error exactly when
  // the provider had failed, and otherwise that the dispatch is uncertain.
  lemma {:induction false} ChatRetryRaisesExactly(steps: seq<Step>, reply: Reply, q: ChatRequest, key: Key)
    requires Possible(steps) && reply in After(steps).replies && reply.origin == FromChat(q, key)
    requires reply.response.Raising?
    ensures var w := After(steps);
      var again := ChatLookup(w.rows, w.artifacts, q, key);
      && again.Raised?
      && (again == Raised(reply.response.error) <==> reply.response.error.ProviderFailed? && OfProvider(reply.response.error.kind))
      && (again != Raised(reply.response.error) ==> again == Raised(DispatchUncertain))
  {
    hide After, Possible;
    var w := After(steps);
    ReplyOf(w, reply);
    FoundAgain(w, reply, q, key);
    hide Inv, Inspect, ByKey, OfRun, LastKind, SaysError, CompletedOf, ChatErrorOf, AwaitingOf;
    var es := EventsOfRun(w, reply.run);
    RaisedAgain(es, q.id, es[1].refs[0].blob.manifest, reply.response.error);
  }
}
