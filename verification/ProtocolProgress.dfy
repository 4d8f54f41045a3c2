/** What an unhindered chat call does from any reachable state. */
module ProtocolProgress {
  import opened Wrappers
  import opened Payloads
  import opened Events
  import opened EventContracts
  import opened Ledger
  import opened Runs
  import opened Protocol
  import opened ProtocolWorld
  import opened ProtocolShape
  import opened ProtocolLedger
  import opened ProtocolSafety
  import opened ProtocolRuns
  import Memory

  // Nothing in the ledger stands in the way of a row.
  predicate Unused(rows: seq<Row>, x: Row) {
    Memory.PortableToken(x.key) && !HasId(rows, x.event.id) && !HasKey(rows, x.key)
  }

  lemma {:induction false} CommitOne(rows: seq<Row>, artifacts: set<Ref>, x: Row)
    requires LedgerOk(rows, artifacts) && Unused(rows, x) && x.event.payload.operation.Step?
    requires forall p :: p in x.event.parents ==> HasId(rows, p)
    requires forall r :: r in x.event.refs ==> r in artifacts
    ensures AppendOne(rows, artifacts, x.event, x.key) == Success(rows + [x]) && LedgerOk(rows + [x], artifacts)
  {
    assert x !in rows;
    hide LedgerOk, AppendOne, HasId, HasKey, Memory.PortableToken;
    AcceptedExactly(rows, artifacts, x.event, x.key);
    AppendOneOutcome(rows, artifacts, x.event, x.key);
    AppendOneKeeps(rows, artifacts, x.event, x.key);
  }

  lemma {:induction false} UnusedAfter(rows: seq<Row>, a: Row, x: Row)
    requires Unused(rows, x) && x.event.id != a.event.id && x.key != a.key
    ensures Unused(rows + [a], x)
  {
    hide Memory.PortableToken;
  }

  lemma {:induction false} LastHasId(rows: seq<Row>, a: Row)
    ensures HasId(rows + [a], a.event.id)
  {
    assert a in rows + [a];
  }

  lemma {:induction false} SuffixesDiffer(key: string, a: string, b: string)
    requires a != b
    ensures key + a != key + b
  {
    assert (key + a)[|key|..] == a && (key + b)[|key|..] == b;
  }

  lemma {:induction false} PlainKeyDiffers(key: string, a: string)
    requires |a| > 0
    ensures key + a != key
  {
    assert |key + a| == |key| + |a|;
  }

  lemma {:induction false} SuffixKeys(key: string)
    ensures key + ":context" != key && key + ":model:pending" != key && key + ":context" != key + ":model:pending"
    ensures forall b :: b in [":model:success", ":model:failed", ":model:interrupted", ":response", ":tool:request"] ==>
      key + b != key && key + b != key + ":context" && key + b != key + ":model:pending"
    ensures key + ":model:success" != key + ":response" && key + ":model:success" != key + ":tool:request"
  {
    assert ":model:pending"[7] == 'p' && ":model:success"[7] == 's' && ":model:failed"[7] == 'f' && ":model:interrupted"[7] == 'i';
    assert |":model:pending"| == 14 && |":context"| == 8 && |":response"| == 9 && |":tool:request"| == 13 && |":model:success"| == 14;
    PlainKeyDiffers(key, ":context");
    PlainKeyDiffers(key, ":model:pending");
    forall b | b in [":model:success", ":model:failed", ":model:interrupted", ":response", ":tool:request"]
      ensures key + b != key && key + b != key + ":context" && key + b != key + ":model:pending"
    {
      PlainKeyDiffers(key, b);
      SuffixesDiffer(key, ":context", b);
      SuffixesDiffer(key, ":model:pending", b);
    }
    SuffixesDiffer(key, ":context", ":model:pending");
    SuffixesDiffer(key, ":model:success", ":response");
    SuffixesDiffer(key, ":model:success", ":tool:request");
  }

  // The keys of one call are different from each other.
  lemma {:induction false} PrepareKeysDiffer(c: Chat)
    ensures var p := PrepareBatch(c);
      && p[1].key != p[0].key && p[2].key != p[0].key && p[2].key != p[1].key
      && p[1].event.id != p[0].event.id && p[2].event.id != p[0].event.id && p[2].event.id != p[1].event.id
  {
    SuffixKeys(c.key);
    hide TaskOf;
  }

  lemma {:induction false} FinishKeysDiffer(c: Chat, result: ProviderResult, at: int)
    ensures var b := FinishBatch(c, result, at); |b| == 2 ==> b[1].key != b[0].key && b[1].event.id != b[0].event.id
  {
    SuffixKeys(c.key);
    hide TaskOf;
  }

  lemma {:induction false} FinishEntry(c: Chat, result: ProviderResult, at: int, y: Row)
    requires y in FinishBatch(c, result, at)
    ensures y.key != c.key && y.key != c.key + ":context" && y.key != c.key + ":model:pending"
    ensures y.event.id.Derived? && y.event.id.purpose != ChatContext && y.event.id.purpose != ChatPending
  {
    SuffixKeys(c.key);
    hide TaskOf;
  }

  lemma {:induction false} PrepareEntry(c: Chat, x: Row)
    requires x in PrepareBatch(c)
    ensures x.key == c.key || x.key == c.key + ":context" || x.key == c.key + ":model:pending"
    ensures x.event.id.Client? || x.event.id.purpose == ChatContext || x.event.id.purpose == ChatPending
  {
    hide TaskOf;
  }

  // The preparation of a call whose keys and identities are free is committed.
  lemma {:induction false} PreparationCommits(rows: seq<Row>, artifacts: set<Ref>, c: Chat)
    requires LedgerOk(rows, artifacts) && ManifestRef(c.manifest) in artifacts
    requires forall x :: x in PrepareBatch(c) ==> Unused(rows, x)
    ensures AppendMany(rows, artifacts, PrepareBatch(c)) == Success(rows + PrepareBatch(c))
  {
    PrepareKeysDiffer(c);
    var p := PrepareBatch(c);
    PreparedLinks(c);
    hide LedgerOk, Unused, HasId, PrepareBatch, AppendOne;
    assert p[0] in p && p[1] in p && p[2] in p;
    CommitOne(rows, artifacts, p[0]);
    LastHasId(rows, p[0]);
    UnusedAfter(rows, p[0], p[1]);
    UnusedAfter(rows, p[0], p[2]);
    var one := rows + [p[0]];
    CommitOne(one, artifacts, p[1]);
    LastHasId(one, p[1]);
    UnusedAfter(one, p[1], p[2]);
    var two := one + [p[1]];
    CommitOne(two, artifacts, p[2]);
    ThreeSteps(rows, artifacts, p);
    assert two + [p[2]] == rows + p;
  }

  lemma {:induction false} PreparedLinks(c: Chat)
    ensures var p := PrepareBatch(c);
      && |p| == 3
      && p[0].event.payload.operation.Step? && p[1].event.payload.operation.Step? && p[2].event.payload.operation.Step?
      && p[0].event.parents == [] && p[1].event.parents == [p[0].event.id] && p[2].event.parents == [p[1].event.id]
      && p[0].event.refs == [] && p[1].event.refs == [ManifestRef(c.manifest)] && p[2].event.refs == []
  {
    hide TaskOf;
  }

  lemma {:induction false} ThreeSteps(rows: seq<Row>, artifacts: set<Ref>, p: seq<Row>)
    requires |p| == 3
    requires AppendOne(rows, artifacts, p[0].event, p[0].key) == Success(rows + [p[0]])
    requires AppendOne(rows + [p[0]], artifacts, p[1].event, p[1].key) == Success(rows + [p[0]] + [p[1]])
    ensures AppendMany(rows, artifacts, p) == AppendOne(rows + [p[0]] + [p[1]], artifacts, p[2].event, p[2].key)
  {
    hide AppendOne;
    assert p[..2][..1] == [p[0]] && [p[0]][..0] == [];
    assert AppendMany(rows, artifacts, []) == Success(rows);
    assert AppendMany(rows, artifacts, [p[0]]) == Success(rows + [p[0]]);
    assert AppendMany(rows, artifacts, p[..2]) == Success(rows + [p[0]] + [p[1]]);
  }

  // What stays unused after the preparation was stored.
  lemma {:induction false} UnusedAfterPreparation(rows: seq<Row>, c: Chat, result: ProviderResult, at: int)
    requires forall x :: x in FinishBatch(c, result, at) ==> Unused(rows, x)
    ensures forall x :: x in FinishBatch(c, result, at) ==> Unused(rows + PrepareBatch(c), x)
  {
    hide TaskOf, Memory.PortableToken, PrepareBatch, FinishBatch;
    var p := PrepareBatch(c);
    forall x | x in FinishBatch(c, result, at)
      ensures Unused(rows + p, x)
    {
      FinishEntry(c, result, at, x);
      forall y | y in rows + p
        ensures y.key != x.key && y.event.id != x.event.id
      {
        if y in p { PrepareEntry(c, y); }
      }
    }
  }

  lemma {:induction false} FinishRefs(c: Chat, result: ProviderResult, at: int)
    ensures forall x :: x in FinishBatch(c, result, at) ==> x.event.refs == []
    ensures |FinishBatch(c, result, at)| == 1 || |FinishBatch(c, result, at)| == 2
  {
    hide TaskOf;
  }

  // ---------- which batches can be built ----------

  // What the first three events ask of a call made of values of their contracts.
  predicate Preparable(c: Chat) {
    && ActorFits(Actor(c.actor, Human))
    && TextBytes(c.request.message) + DecimalLength(c.request.budget) <= 65475
    && LabelFits(c.provider.model)
  }

  lemma {:induction false} PreparableExactly(c: Chat)
    requires RequestFits(c.request) && IdentityFits(c.provider)
    ensures Buildable(PrepareBatch(c)) <==> Preparable(c)
  {
    hide ValidEvent, RequestFits, IdentityFits, ActorFits, LabelFits, TextBytes, DecimalLength;
    var x := ManifestRef(c.manifest);
    RequestIsValid(c.request, c.actor, c.at);
    ContextIsValid(c.request, x, c.at);
    ProviderEventsAreValid(c.request, c.provider, x, c.at);
    PreparedRows(c);
  }

  lemma {:induction false} PreparedRows(c: Chat)
    ensures var p := PrepareBatch(c);
      && |p| == 3
      && p[0].event == RequestEvent(c.request, c.actor, c.at)
      && p[1].event == ContextEvent(c.request, ManifestRef(c.manifest), c.at)
      && p[2].event == PendingEvent(c.request, c.provider, ManifestRef(c.manifest), c.at)
      && p[0] in p && p[1] in p && p[2] in p
  {
    hide TaskOf;
  }

  // A result can be recorded unless it is an answer too long, with too many citations, or too large.
  predicate Recordable(citations: seq<Citation>, result: ProviderResult) {
    result.Answers? ==> AnswerFits(result.text, citations)
  }

  lemma {:induction false} RecordableExactly(c: Chat, result: ProviderResult, at: int)
    requires RequestFits(c.request) && IdentityFits(c.provider) && ResultFits(result) && LabelFits(c.provider.model)
    ensures Buildable(FinishBatch(c, result, at)) <==> Recordable(c.citations, result)
  {
    hide ValidEvent, RequestFits, IdentityFits, ActorFits, LabelFits, AnswerFits, ToolFits, TaskOf;
    var batch := FinishBatch(c, result, at);
    assert batch[0] in batch;
    match result
    case Fails(failure) => TerminalIsValid(c.request, Some(failure), at);
    case Breaks => TerminalIsValid(c.request, None, at);
    case Asks(tool) =>
      ProviderEventsAreValid(c.request, c.provider, ManifestRef(c.manifest), at);
      ToolEventIsValid(c.request, c.provider, tool, at);
      assert batch[1] in batch;
    case Answers(text) =>
      ProviderEventsAreValid(c.request, c.provider, ManifestRef(c.manifest), at);
      AnswerIsValid(c.request, c.provider, text, c.citations, at);
      assert batch[1] in batch;
  }

  // ---------- when a step appends ----------

  lemma {:induction false} FollowupKeysDiffer(c: Call, citations: seq<Citation>, result: ProviderResult, at: int)
    ensures var b := FollowupBatch(c, citations, result, at); |b| == 2 ==> b[1].key != b[0].key && b[1].event.id != b[0].event.id
  {
    hide TaskOf;
    assert |":followup:success"| == 17 && |":followup:response"| == 18;
    SuffixesDiffer(c.key, ":followup:success", ":followup:response");
  }

  // The rows of one batch have different keys and different events.
  lemma {:induction false} BatchDiffers(h: Handler, o: Outside)
    requires !h.Preparing?
    ensures var b := Batch(h, o); |b| <= 2 && (|b| == 2 ==> b[1].key != b[0].key && b[1].event.id != b[0].event.id)
  {
    hide TaskOf, FinishBatch, FollowupBatch;
    match h
    case Finishing(c, result) =>
      FinishKeysDiffer(c, result, o.at);
      FinishRefs(c, result, o.at);
    case FinishingFollowup(c, citations, result) =>
      FollowupKeysDiffer(c, citations, result, o.at);
      FollowupSize(c, citations, result, o.at);
    case _ =>
  }

  lemma {:induction false} FollowupSize(c: Call, citations: seq<Citation>, result: ProviderResult, at: int)
    ensures |FollowupBatch(c, citations, result, at)| <= 2
  {
  }

  lemma {:induction false} CommitsExactly(w: World, run: nat, o: Outside)
    requires Inv(w) && run in w.active && !w.active[run].Preparing? && Batch(w.active[run], o) != []
    ensures var batch := Batch(w.active[run], o);
      && (AppendMany(w.rows, w.artifacts, batch).Success? <==> forall i :: 0 <= i < |batch| ==> FreeFor(w.rows, w.artifacts, batch[i]))
      && (AppendMany(w.rows, w.artifacts, batch).Success? ==> AppendMany(w.rows, w.artifacts, batch).value == w.rows + batch)
  {
    RunOf(w, run);
    ShapeOf(w.rows, run);
    var h, rows := w.active[run], OfRun(w.rows, run);
    hide Inv, LedgerOk, OfRun, LogOf, LogFits, Stands, Shape, RunShaped, Batch, AppendMany, FreeFor, Continues;
    BatchContinues(run, rows, LogOf(w.dispatched, run), h, o);
    BatchDiffers(h, o);
    BatchCommitsExactly(w.rows, w.artifacts, run, Batch(h, o));
    if AppendMany(w.rows, w.artifacts, Batch(h, o)).Success? { BatchAppended(w.rows, w.artifacts, run, Batch(h, o)); }
  }

  // A step of a reachable state that has something to append appends it exactly when all its events can be built, its
  // keys are portable and free, its ids are free and its artifacts are there. Otherwise the call raises, is over, and
  // leaves the ledger as it was.
  lemma {:induction false} StepAppendsExactly(w: World, run: nat, o: Outside)
    requires Inv(w) && run in w.active && !w.active[run].Preparing? && Batch(w.active[run], o) != []
    ensures var h, v, batch := w.active[run], AppendStep(w, run, w.active[run], o), Batch(w.active[run], o);
      && (v.rows != w.rows <==> Buildable(batch) && forall i :: 0 <= i < |batch| ==> FreeFor(w.rows, w.artifacts, batch[i]))
      && (v.rows != w.rows ==> v == Appended(w, run, h, o, w.rows + batch))
      && (v.rows == w.rows && !Buildable(batch) ==> v == Ended(w, run, h, EventRejected))
      && (v.rows == w.rows && Buildable(batch) ==>
        && AppendMany(w.rows, w.artifacts, batch).Failure?
        && v == Ended(w, run, h, AppendErrorOf(h, AppendMany(w.rows, w.artifacts, batch).error)))
  {
    hide Inv, AppendStep, Batch, Buildable, AppendMany, FreeFor, Continue, Final, OriginOf, AppendErrorOf, Ended;
    CommitsExactly(w, run, o);
    AppendStepOutcome(w, run, w.active[run], o);
    if !Buildable(Batch(w.active[run], o)) {
      EndedKeepsRows(w, run, w.active[run], EventRejected);
    } else if AppendMany(w.rows, w.artifacts, Batch(w.active[run], o)).Failure? {
      EndedKeepsRows(w, run, w.active[run], AppendErrorOf(w.active[run], AppendMany(w.rows, w.artifacts, Batch(w.active[run], o)).error));
    }
    assert w.rows + Batch(w.active[run], o) != w.rows by { assert |w.rows + Batch(w.active[run], o)| > |w.rows|; }
  }

  // ---------- five steps ----------

  lemma {:induction false} Extended(steps: seq<Step>, s: Step)
    requires Possible(steps) && Enabled(After(steps), s)
    ensures Possible(steps + [s]) && After(steps + [s]) == ProtocolWorld.Apply(After(steps), s)
  {
    hide Enabled, ProtocolWorld.Apply;
    assert (steps + [s])[..|steps|] == steps;
  }

  lemma {:induction false} MayAdvance(w: World, run: nat, o: Outside)
    ensures run in w.active && ResultFits(o.result) ==> Enabled(w, Advance(run, o))
  {
    hide ResultFits;
  }

  // A step whose rows can be built and are unused.
  lemma {:induction false} Advances(steps: seq<Step>, run: nat, o: Outside)
    requires Possible(steps) && run in After(steps).active && Appends(After(steps).active[run]) && ResultFits(o.result)
    requires var w, batch := After(steps), Batch(After(steps).active[run], o);
      && batch != [] && Buildable(batch)
      && forall x :: x in batch ==> Unused(w.rows, x) && forall r :: r in x.event.refs ==> r in w.artifacts
    ensures Possible(steps + [Advance(run, o)])
    ensures var w := After(steps);
      After(steps + [Advance(run, o)]) == Appended(w, run, w.active[run], o, w.rows + Batch(w.active[run], o))
  {
    hide Possible, After, Inv, Enabled, ProtocolWorld.Apply, Batch, Buildable, AppendStep, Appended, ResultFits, Unused, FreeFor;
    var w := After(steps);
    var batch := Batch(w.active[run], o);
    MayAdvance(w, run, o);
    Extended(steps, Advance(run, o));
    AppliesAppend(w, run, o);
    forall i | 0 <= i < |batch|
      ensures FreeFor(w.rows, w.artifacts, batch[i])
    {
      UnusedIsFree(w, batch[i]);
    }
    StepAppendsExactly(w, run, o);
  }

  lemma {:induction false} UnusedIsFree(w: World, x: Row)
    ensures Unused(w.rows, x) && (forall r :: r in x.event.refs ==> r in w.artifacts) ==> FreeFor(w.rows, w.artifacts, x)
  {
    hide Memory.PortableToken, HasId, HasKey;
  }

  lemma {:induction false} EndedKeepsRows(w: World, run: nat, h: Handler, error: CallError)
    ensures Ended(w, run, h, error).rows == w.rows
  {
    hide OriginOf;
  }

  // The handlers whose next step is an append.
  predicate Appends(h: Handler) {
    h.Finishing? || h.Deciding? || h.Claiming? || h.FailingTool? || h.Observing? || h.LoadingRecords? || h.FinishingFollowup?
  }

  lemma {:induction false} AppliesAppend(w: World, run: nat, o: Outside)
    requires Enabled(w, Advance(run, o)) && Appends(w.active[run])
    ensures ProtocolWorld.Apply(w, Advance(run, o)) == AppendStep(w, run, w.active[run], o)
  {
    hide AppendStep;
  }

  // A call that may begin: no handler, no event under its key, and the manifest of its request.
  lemma {:induction false} Begins(w: World, c: Chat)
    requires Enabled(w, StartChat(c)) && Memory.PortableToken(c.key) && !HasKey(w.rows, c.key)
    ensures ProtocolWorld.Apply(w, StartChat(c))
      == w.(artifacts := w.artifacts + {ManifestRef(c.manifest)}, active := w.active[c.request.id := Preparing(c)])
  {
    KeyLookup(w.rows, c.key);
    hide Memory.PortableToken, HasKey, TaskOf, RequestFits, IdentityFits, CompiledFor;
  }

  lemma {:induction false} AppliesPreparation(w: World, c: Chat, o: Outside)
    requires Enabled(w, Advance(c.request.id, o)) && w.active[c.request.id] == Preparing(c)
    ensures ProtocolWorld.Apply(w, Advance(c.request.id, o)) ==
      if !Buildable(PrepareBatch(c)) then Ended(w, c.request.id, Preparing(c), EventRejected)
      else match AppendMany(w.rows, w.artifacts, PrepareBatch(c))
        case Failure(e) => Ended(w, c.request.id, Preparing(c), AppendErrorOf(Preparing(c), e))
        case Success(grown) => SetHandler(w.(rows := grown), c.request.id, Some(Dispatching(c)))
  {
    hide AppendMany, PrepareBatch, Buildable, AppendStep, Ended, AppendErrorOf;
    PrepareStepOutcome(w, c.request.id, c, o);
  }

  lemma {:induction false} Dispatches(w: World, c: Chat, o: Outside)
    requires Enabled(w, Advance(c.request.id, o)) && w.active[c.request.id] == Dispatching(c)
    ensures ProtocolWorld.Apply(w, Advance(c.request.id, o))
      == w.(dispatched := w.dispatched + [Dispatch(c.request.id, Derived(c.request.id, ChatPending), |w.rows|)],
            active := w.active[c.request.id := WaitingForProvider(c)])
  {
    hide ResultFits;
  }

  lemma {:induction false} HearsResult(w: World, c: Chat, o: Outside)
    requires Enabled(w, Advance(c.request.id, o)) && w.active[c.request.id] == WaitingForProvider(c)
    ensures ProtocolWorld.Apply(w, Advance(c.request.id, o)) == w.(active := w.active[c.request.id := Finishing(c, o.result)])
  {
    hide ResultFits;
  }

  // A history with one whole chat call added: its beginning and its four further steps.
  function WithCall(steps: seq<Step>, c: Chat, o: Outside): seq<Step> {
    var next := Advance(c.request.id, o);
    steps + [StartChat(c)] + [next] + [next] + [next] + [next]
  }

  lemma {:induction false} BegunCall(steps: seq<Step>, c: Chat, o: Outside)
    requires Possible(steps) && Enabled(After(steps), StartChat(c)) && ResultFits(o.result)
    requires Memory.PortableToken(c.key) && !HasKey(After(steps).rows, c.key)
    ensures Possible(steps + [StartChat(c)] + [Advance(c.request.id, o)])
    ensures var w, v := After(steps), After(steps + [StartChat(c)] + [Advance(c.request.id, o)]);
      var w1 := w.(artifacts := w.artifacts + {ManifestRef(c.manifest)}, active := w.active[c.request.id := Preparing(c)]);
      && LedgerOk(w1.rows, w1.artifacts)
      && v == (if !Buildable(PrepareBatch(c)) then Ended(w1, c.request.id, Preparing(c), EventRejected)
        else match AppendMany(w.rows, w1.artifacts, PrepareBatch(c))
          case Failure(e) => Ended(w1, c.request.id, Preparing(c), AppendErrorOf(Preparing(c), e))
          case Success(grown) => SetHandler(w1.(rows := grown), c.request.id, Some(Dispatching(c))))
  {
    hide Possible, After, Inv, Enabled, ProtocolWorld.Apply, PrepareBatch, AppendMany, Buildable, ResultFits, HasKey, LedgerOk, Ended, AppendErrorOf;
    Extended(steps, StartChat(c));
    Begins(After(steps), c);
    var s1 := steps + [StartChat(c)];
    LedgerOfWorld(After(s1));
    MayAdvance(After(s1), c.request.id, o);
    Extended(s1, Advance(c.request.id, o));
    AppliesPreparation(After(s1), c, o);
  }

  // A call whose first events cannot be built is refused before an event is stored or anybody is asked; its manifest is
  // an artifact by then.
  lemma {:induction false} UnpreparableCallEnds(steps: seq<Step>, c: Chat, o: Outside)
    requires Possible(steps) && Enabled(After(steps), StartChat(c)) && ResultFits(o.result) && !Preparable(c)
    requires Memory.PortableToken(c.key) && !HasKey(After(steps).rows, c.key)
    ensures Possible(steps + [StartChat(c)] + [Advance(c.request.id, o)])
    ensures After(steps + [StartChat(c)] + [Advance(c.request.id, o)]) == RefusedTo(After(steps), c)
  {
    StartIsTyped(After(steps), c);
    StartIsIdle(After(steps), c);
    hide *;
    BegunCall(steps, c, o);
    PreparableExactly(c);
    EndsUnprepared(After(steps), c);
  }

  // The world after a call that was refused once its manifest was stored.
  function RefusedTo(w: World, c: Chat): World {
    w.(artifacts := w.artifacts + {ManifestRef(c.manifest)},
       replies := w.replies + [Reply(c.request.id, FromChat(c.request, c.key), Refusing(EventRejected))])
  }

  lemma {:induction false} EndsUnprepared(w: World, c: Chat)
    requires c.request.id !in w.active
    ensures Ended(w.(artifacts := w.artifacts + {ManifestRef(c.manifest)}, active := w.active[c.request.id := Preparing(c)]),
                  c.request.id, Preparing(c), EventRejected) == RefusedTo(w, c)
  {
    assert w.active[c.request.id := Preparing(c)] - {c.request.id} == w.active;
  }

  lemma {:induction false} StartIsIdle(w: World, c: Chat)
    requires Enabled(w, StartChat(c))
    ensures c.request.id !in w.active
  {
    hide RequestFits, IdentityFits, CompiledFor;
  }

  lemma {:induction false} StartIsTyped(w: World, c: Chat)
    requires Enabled(w, StartChat(c))
    ensures RequestFits(c.request) && IdentityFits(c.provider)
  {
    hide RequestFits, IdentityFits, CompiledFor;
  }

  // ---------- what a whole call changes ----------

  ghost predicate PreparedTo(w: World, v: World, c: Chat) {
    && v.rows == w.rows + PrepareBatch(c) && v.dispatched == w.dispatched && v.replies == w.replies && v.broker == w.broker
    && c.request.id in v.active && v.active[c.request.id] == Dispatching(c)
  }

  ghost predicate AskedTo(w: World, v: World, c: Chat, o: Outside) {
    && v.rows == w.rows && v.replies == w.replies && v.broker == w.broker
    && v.dispatched == w.dispatched + [Dispatch(c.request.id, Derived(c.request.id, ChatPending), |w.rows|)]
    && c.request.id in v.active && v.active[c.request.id] == Finishing(c, o.result)
  }

  // The result is stored and answered for exactly when it can be recorded.
  ghost predicate FinishedTo(w: World, v: World, c: Chat, o: Outside) {
    var recorded, response := Recordable(c.citations, o.result), Final(Finishing(c, o.result), o);
    && v.rows == w.rows + (if recorded then FinishBatch(c, o.result, o.at) else [])
    && v.dispatched == w.dispatched && v.broker == w.broker
    && c.request.id !in v.active
    && response.Some?
    && v.replies == w.replies + [Reply(c.request.id, FromChat(c.request, c.key), if recorded then response.value else Raising(EventRejected))]
  }

  // The provider was asked once, after the request was prepared.
  ghost predicate CalledTo(w: World, v: World, c: Chat, o: Outside) {
    var recorded, response := Recordable(c.citations, o.result), Final(Finishing(c, o.result), o);
    && v.rows == w.rows + PrepareBatch(c) + (if recorded then FinishBatch(c, o.result, o.at) else [])
    && v.dispatched == w.dispatched + [Dispatch(c.request.id, Derived(c.request.id, ChatPending), |w.rows| + 3)]
    && v.broker == w.broker
    && c.request.id !in v.active
    && response.Some?
    && v.replies == w.replies + [Reply(c.request.id, FromChat(c.request, c.key), if recorded then response.value else Raising(EventRejected))]
  }

  lemma {:induction false} WholeCall(w: World, a: World, b: World, v: World, c: Chat, o: Outside)
    requires PreparedTo(w, a, c) && AskedTo(a, b, c, o) && FinishedTo(b, v, c, o)
    ensures CalledTo(w, v, c, o)
  {
    PreparedEvents(c);
    hide PrepareBatch, FinishBatch, Final, Recordable;
  }

  // From any reachable state a chat call whose first events can be built, whose keys and identities are free, and which
  // nothing interrupts, asks the provider once. It stores what the provider made of it and returns the response, or
  // raises the error, that says so, exactly when the result can be recorded; after an answer that is too long, cites
  // too many records or is too large in canonical form it stores nothing and raises, and its run stays pending.
  lemma {:induction false} UnhinderedCallCompletes(steps: seq<Step>, c: Chat, o: Outside)
    requires Possible(steps) && Enabled(After(steps), StartChat(c)) && ResultFits(o.result) && Preparable(c)
    requires forall x :: x in PrepareBatch(c) ==> Unused(After(steps).rows, x)
    requires forall x :: x in FinishBatch(c, o.result, o.at) ==> Unused(After(steps).rows, x)
    ensures Possible(WithCall(steps, c, o))
    ensures CalledTo(After(steps), After(WithCall(steps, c, o)), c, o)
  {
    StartIsTyped(After(steps), c);
    hide *;
    var next := Advance(c.request.id, o);
    PreparedCall(steps, c, o);
    var s2 := steps + [StartChat(c)] + [next];
    CallDispatching(After(steps), After(s2), c);
    AskedCall(s2, c, o);
    var s4 := s2 + [next] + [next];
    CallFinishing(After(steps), After(s2), After(s4), c, o);
    FinishedCall(s4, After(steps), c, o);
    WholeCall(After(steps), After(s2), After(s4), After(s4 + [next]), c, o);
    WithCallIs(steps, c, o);
  }

  lemma {:induction false} WithCallIs(steps: seq<Step>, c: Chat, o: Outside)
    ensures var next := Advance(c.request.id, o);
      WithCall(steps, c, o) == steps + [StartChat(c)] + [next] + [next] + [next] + [next]
  {
  }

  lemma {:induction false} CallDispatching(w: World, a: World, c: Chat)
    requires PreparedTo(w, a, c)
    ensures c.request.id in a.active && a.active[c.request.id] == Dispatching(c)
  {
    hide PrepareBatch;
  }

  lemma {:induction false} CallFinishing(w: World, a: World, b: World, c: Chat, o: Outside)
    requires PreparedTo(w, a, c) && AskedTo(a, b, c, o)
    ensures b.rows == w.rows + PrepareBatch(c) && c.request.id in b.active && b.active[c.request.id] == Finishing(c, o.result)
  {
    hide PrepareBatch;
  }

  lemma {:induction false} PreparedCall(steps: seq<Step>, c: Chat, o: Outside)
    requires Possible(steps) && Enabled(After(steps), StartChat(c)) && ResultFits(o.result) && Preparable(c)
    requires forall x :: x in PrepareBatch(c) ==> Unused(After(steps).rows, x)
    ensures Possible(steps + [StartChat(c)] + [Advance(c.request.id, o)])
    ensures PreparedTo(After(steps), After(steps + [StartChat(c)] + [Advance(c.request.id, o)]), c)
  {
    hide *;
    var w := After(steps);
    StartIsTyped(w, c);
    FirstKeyIsUnused(w.rows, c);
    PreparableExactly(c);
    BegunCall(steps, c, o);
    PreparationCommits(w.rows, w.artifacts + {ManifestRef(c.manifest)}, c);
    PreparedWorld(w, c);
  }

  lemma {:induction false} FirstKeyIsUnused(rows: seq<Row>, c: Chat)
    requires forall x :: x in PrepareBatch(c) ==> Unused(rows, x)
    ensures Memory.PortableToken(c.key) && !HasKey(rows, c.key)
  {
    var p := PrepareBatch(c);
    assert p[0].key == c.key;
    hide Unused, PrepareBatch;
    assert p[0] in p;
    KeyIsUnused(rows, p[0]);
  }

  lemma {:induction false} PreparedWorld(w: World, c: Chat)
    ensures var w1 := w.(artifacts := w.artifacts + {ManifestRef(c.manifest)}, active := w.active[c.request.id := Preparing(c)]);
      PreparedTo(w, SetHandler(w1.(rows := w.rows + PrepareBatch(c)), c.request.id, Some(Dispatching(c))), c)
  {
    hide PrepareBatch;
  }

  lemma {:induction false} AskedCall(steps: seq<Step>, c: Chat, o: Outside)
    requires Possible(steps) && c.request.id in After(steps).active && After(steps).active[c.request.id] == Dispatching(c)
    requires ResultFits(o.result)
    ensures Possible(steps + [Advance(c.request.id, o)] + [Advance(c.request.id, o)])
    ensures AskedTo(After(steps), After(steps + [Advance(c.request.id, o)] + [Advance(c.request.id, o)]), c, o)
  {
    hide Possible, After, Inv, Enabled, ProtocolWorld.Apply, ResultFits;
    var w, run := After(steps), c.request.id;
    MayAdvance(w, run, o);
    Extended(steps, Advance(run, o));
    Dispatches(w, c, o);
    var s1 := steps + [Advance(run, o)];
    MayAdvance(After(s1), run, o);
    Extended(s1, Advance(run, o));
    HearsResult(After(s1), c, o);
  }

  lemma {:induction false} FinishedCall(s4: seq<Step>, w: World, c: Chat, o: Outside)
    requires Possible(s4) && After(s4).rows == w.rows + PrepareBatch(c) && c.request.id in After(s4).active
    requires After(s4).active[c.request.id] == Finishing(c, o.result) && ResultFits(o.result)
    requires RequestFits(c.request) && IdentityFits(c.provider) && Preparable(c)
    requires forall x :: x in FinishBatch(c, o.result, o.at) ==> Unused(w.rows, x)
    ensures Possible(s4 + [Advance(c.request.id, o)])
    ensures FinishedTo(After(s4), After(s4 + [Advance(c.request.id, o)]), c, o)
  {
    LabelOf(c);
    RecordableExactly(c, o.result, o.at);
    if Recordable(c.citations, o.result) {
      ResultRecorded(s4, w, c, o);
    } else {
      ResultDropped(s4, c, o);
    }
  }

  lemma {:induction false} ResultRecorded(s4: seq<Step>, w: World, c: Chat, o: Outside)
    requires Possible(s4) && After(s4).rows == w.rows + PrepareBatch(c) && c.request.id in After(s4).active
    requires After(s4).active[c.request.id] == Finishing(c, o.result) && ResultFits(o.result)
    requires Recordable(c.citations, o.result) && Buildable(FinishBatch(c, o.result, o.at))
    requires forall x :: x in FinishBatch(c, o.result, o.at) ==> Unused(w.rows, x)
    ensures Possible(s4 + [Advance(c.request.id, o)])
    ensures FinishedTo(After(s4), After(s4 + [Advance(c.request.id, o)]), c, o)
  {
    hide *;
    UnusedAfterPreparation(w.rows, c, o.result, o.at);
    FinishRefs(c, o.result, o.at);
    ResultIsFinal(c, o);
    FinishingBatch(c, o);
    Advances(s4, c.request.id, o);
    FinishedWorld(After(s4), c, o);
  }

  lemma {:induction false} FinishedWorld(w: World, c: Chat, o: Outside)
    requires Recordable(c.citations, o.result)
    ensures FinishedTo(w, Appended(w, c.request.id, Finishing(c, o.result), o, w.rows + Batch(Finishing(c, o.result), o)), c, o)
  {
    ResultIsFinal(c, o);
    FinishingBatch(c, o);
    hide Final, FinishBatch, Recordable, Batch;
    AppendedFinish(w, c, o);
  }

  lemma {:induction false} ResultDropped(s4: seq<Step>, c: Chat, o: Outside)
    requires Possible(s4) && c.request.id in After(s4).active && After(s4).active[c.request.id] == Finishing(c, o.result)
    requires ResultFits(o.result) && !Recordable(c.citations, o.result) && !Buildable(FinishBatch(c, o.result, o.at))
    ensures Possible(s4 + [Advance(c.request.id, o)])
    ensures FinishedTo(After(s4), After(s4 + [Advance(c.request.id, o)]), c, o)
  {
    ResultIsFinal(c, o);
    FinishingBatch(c, o);
    hide Possible, After, Inv, Enabled, FinishBatch, Final, AppendMany, Buildable, ResultFits, Recordable;
    GivesUp(s4, c.request.id, o);
  }

  lemma {:induction false} LabelOf(c: Chat)
    requires Preparable(c)
    ensures LabelFits(c.provider.model)
  {
  }

  lemma {:induction false} ResultIsFinal(c: Chat, o: Outside)
    ensures Final(Finishing(c, o.result), o).Some?
  {
    hide TaskOf;
  }

  lemma {:induction false} FinishingBatch(c: Chat, o: Outside)
    ensures Batch(Finishing(c, o.result), o) == FinishBatch(c, o.result, o.at) && Appends(Finishing(c, o.result))
    ensures Continue(Finishing(c, o.result), o) == None
  {
    hide FinishBatch;
  }

  lemma {:induction false} AppendedFinish(w: World, c: Chat, o: Outside)
    requires Final(Finishing(c, o.result), o).Some?
    ensures var h := Finishing(c, o.result);
      var v := Appended(w, c.request.id, h, o, w.rows + Batch(h, o));
      && v.rows == w.rows + Batch(h, o) && v.dispatched == w.dispatched && v.broker == w.broker && c.request.id !in v.active
      && v.replies == w.replies + [Reply(c.request.id, FromChat(c.request, c.key), Final(h, o).value)]
  {
    hide Batch, Final;
  }

  // A step that cannot build its events ends the call.
  lemma {:induction false} GivesUp(steps: seq<Step>, run: nat, o: Outside)
    requires Possible(steps) && run in After(steps).active && Appends(After(steps).active[run]) && ResultFits(o.result)
    requires !Buildable(Batch(After(steps).active[run], o))
    ensures Possible(steps + [Advance(run, o)])
    ensures var w, v := After(steps), After(steps + [Advance(run, o)]);
      && v == Ended(w, run, w.active[run], EventRejected)
      && v.rows == w.rows && v.dispatched == w.dispatched && v.broker == w.broker && run !in v.active
      && v.replies == w.replies + [Reply(run, OriginOf(w.active[run]), if HasStored(w.active[run]) then Raising(EventRejected) else Refusing(EventRejected))]
  {
    hide Possible, After, Inv, Enabled, ProtocolWorld.Apply, Batch, Buildable, AppendStep, ResultFits, Appended, AppendMany, OriginOf;
    var w := After(steps);
    MayAdvance(w, run, o);
    Extended(steps, Advance(run, o));
    AppliesAppend(w, run, o);
    AppendStepOutcome(w, run, w.active[run], o);
  }

  lemma {:induction false} LedgerOfWorld(w: World)
    requires Inv(w)
    ensures LedgerOk(w.rows, w.artifacts)
  {
  }

  lemma {:induction false} KeyIsUnused(rows: seq<Row>, x: Row)
    ensures Unused(rows, x) ==> Memory.PortableToken(x.key) && !HasKey(rows, x.key)
  {
  }
}
