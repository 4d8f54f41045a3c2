/** Concrete calls, each made of values its contracts accept, whose runs stand still for ever. */
module ProtocolCounterexamples {
  import opened Wrappers
  import opened Payloads
  import opened Events
  import opened EventContracts
  import opened Ledger
  import opened Runs
  import opened Context
  import opened Protocol
  import opened ProtocolWorld
  import opened ProtocolShape
  import opened ProtocolLedger
  import opened ProtocolSafety
  import opened ProtocolRuns
  import opened ProtocolProgress
  import opened ProtocolAbandoned
  import opened ProtocolDecisions
  import Broker
  import Memory
  import Retrieval
  import Targets

  // ---------- a first call in an empty world ----------

  // At most this many records of one token were selected.
  const MOST_SELECTED := 65

  const QUESTION := ChatRequest(0, "s", "m", MOST_SELECTED)
  const FAKE := ProviderIdentity("fake", "v1", "model_fake", "fake.chat.completions", Memory.Sha256(""))
  const TITLE := Memory.Text("t", ["t"], 1)
  const NO_MEMORY := Memory.EMPTY

  function ShortItem(k: nat): ContextItem {
    ContextItem(k, Memory.Sha256("1"), TITLE, TITLE, [], HumanVerified, ApprovedStatus, 1, [k], Some(k + 1), Some(1))
  }

  function ShortItems(n: nat): seq<ContextItem> {
    seq(n, k requires 0 <= k < n => ShortItem(k))
  }

  // The context of a request for which n short records were selected.
  function Selecting(n: nat): ContextManifest {
    ContextManifest("c", TaskOf(0), 0, MOST_SELECTED, n, ShortItems(n), [], Retrieval.Exclusions(0, 0, 0, 0))
  }

  function Cited(n: nat): seq<Citation> {
    seq(n, k requires 0 <= k < n => Citation(k, Memory.Sha256("1"), "t", k + 1, 1))
  }

  function AskingOf(p: ProviderIdentity, n: nat): Chat {
    Chat(QUESTION, "k", "human_user", p, Selecting(n), Cited(n), 0)
  }

  function Asking(n: nat): Chat {
    AskingOf(FAKE, n)
  }

  function Hearing(result: ProviderResult): Outside {
    Outside(0, result, {}, Broker.NoFile, NO_MEMORY)
  }

  lemma {:induction false} ShortItemsSum(n: nat)
    ensures TokenSum(ShortItems(n)) == n
  {
    if n > 0 {
      assert ShortItems(n)[..n - 1] == ShortItems(n - 1);
      ShortItemsSum(n - 1);
    }
  }

  lemma {:induction false} SelectionIsCompiled(p: ProviderIdentity, n: nat)
    requires n <= MOST_SELECTED
    ensures CompiledFor(AskingOf(p, n))
  {
    ShortItemsSum(n);
    hide TaskOf, TokenSum;
    var m := Selecting(n);
    assert forall i, j :: 0 <= i < j < n ==> m.items[i].record != m.items[j].record;
    assert CitationsOf(m) == Cited(n);
  }

  lemma {:induction false} FakeFits()
    ensures IdentityFits(FAKE) && LabelFits(FAKE.model) && ActorFits(Actor("human_user", Human))
  {
    FakeActorsFit();
    hide ActorFits;
    assert !IsSpace(FAKE.model[0]);
    OperationFits();
  }

  lemma {:induction false} FakeActorsFit()
    ensures ActorFits(Actor("model_fake", Model)) && ActorFits(Actor("human_user", Human))
  {
    assert "model_fake" == "model_" + "fake" && "human_user" == "human_" + "user";
    assert "model_fake"[6..] == "fake" && "human_user"[6..] == "user";
  }

  lemma {:induction false} OperationFits()
    ensures forall i :: 1 <= i < |FAKE.operation| ==> OperationChar(FAKE.operation[i])
  {
  }

  lemma {:induction false} KeysArePortable()
    ensures Memory.PortableToken("k") && Memory.PortableToken("k" + ":context") && Memory.PortableToken("k" + ":model:pending")
    ensures Memory.PortableToken("k" + ":model:success") && Memory.PortableToken("k" + ":response") && Memory.PortableToken("k" + ":tool:request")
  {
  }

  lemma {:induction false} DecisionKeysArePortable()
    ensures Memory.PortableToken("d") && Memory.PortableToken("d" + ":claimed") && Memory.PortableToken("d" + ":observation")
    ensures Memory.PortableToken("d" + ":followup:pending") && Memory.PortableToken("d" + ":followup:success")
    ensures Memory.PortableToken("d" + ":followup:response") && Memory.PortableToken("d" + ":followup:failed")
  {
  }

  lemma {:induction false} AskingIsReady(n: nat)
    requires n <= MOST_SELECTED
    ensures Possible([]) && After([]) == START && Enabled(START, StartChat(Asking(n))) && Preparable(Asking(n))
  {
    assert Asking(n) == AskingOf(FAKE, n);
    hide *;
    FakeFits();
    SelectionIsCompiled(FAKE, n);
    MayStart(FAKE, n);
    Nowhere();
    QuestionFits(n);
  }

  lemma {:induction false} Nowhere()
    ensures Possible([]) && After([]) == START
  {
    hide Inv;
  }

  lemma {:induction false} MayStart(p: ProviderIdentity, n: nat)
    requires IdentityFits(p) && CompiledFor(AskingOf(p, n))
    ensures Enabled(START, StartChat(AskingOf(p, n)))
  {
    hide IdentityFits, CompiledFor, Selecting, Cited;
  }

  lemma {:induction false} QuestionFits(n: nat)
    requires LabelFits(FAKE.model) && ActorFits(Actor("human_user", Human))
    ensures Preparable(Asking(n))
  {
    hide LabelFits, ActorFits, Selecting, Cited;
    assert "m"[..0] == "" && TextBytes("") == 0;
    assert TextBytes("m") == 1 && DecimalLength(65) == 2;
  }

  lemma {:induction false} NothingStored(x: Row)
    ensures Unused([], x) <==> Memory.PortableToken(x.key)
  {
    hide Memory.PortableToken;
  }

  lemma {:induction false} AskingKeys(n: nat, result: ProviderResult)
    requires result.Answers? || result.Asks?
    ensures forall x :: x in PrepareBatch(Asking(n)) ==> x.key == "k" || x.key == "k" + ":context" || x.key == "k" + ":model:pending"
    ensures forall x :: x in FinishBatch(Asking(n), result, 0) ==>
      x.key == "k" + ":model:success" || x.key == "k" + ":response" || x.key == "k" + ":tool:request"
  {
    hide TaskOf, Selecting, Cited;
  }

  lemma {:induction false} AskingIsUnused(n: nat, result: ProviderResult)
    requires result.Answers? || result.Asks?
    ensures forall x :: x in PrepareBatch(Asking(n)) ==> Unused([], x)
    ensures forall x :: x in FinishBatch(Asking(n), result, 0) ==> Unused([], x)
  {
    KeysArePortable();
    AskingKeys(n, result);
    hide PrepareBatch, FinishBatch, Unused, Memory.PortableToken;
    forall x
      ensures Unused([], x) <==> Memory.PortableToken(x.key)
    {
      NothingStored(x);
    }
  }

  // ---------- calls that cannot begin ----------

  const LONG_NAME := seq(129, i => 'x')
  const VERBOSE := FAKE.(model := LONG_NAME)

  lemma {:induction false} LongNameFits()
    ensures IdentityFits(VERBOSE) && !LabelFits(VERBOSE.model) && |VERBOSE.model| == 129
  {
    FakeFits();
    assert VERBOSE.actor == FAKE.actor && VERBOSE.operation == FAKE.operation && VERBOSE.kind == FAKE.kind;
    hide ActorFits;
  }

  lemma {:induction false} LongNameMayStart()
    ensures Possible([]) && After([]) == START && Enabled(START, StartChat(AskingOf(VERBOSE, 0))) && !Preparable(AskingOf(VERBOSE, 0))
    ensures Memory.PortableToken("k") && !HasKey(START.rows, "k") && ResultFits(Breaks)
  {
    assert 0 <= MOST_SELECTED;
    hide *;
    LongNameFits();
    SelectionIsCompiled(VERBOSE, 0);
    MayStart(VERBOSE, 0);
    Nowhere();
    Unlabelled();
  }

  lemma {:induction false} Unlabelled()
    requires !LabelFits(VERBOSE.model)
    ensures !Preparable(AskingOf(VERBOSE, 0)) && Memory.PortableToken("k") && !HasKey(START.rows, "k") && ResultFits(Breaks)
  {
    hide LabelFits, ActorFits, TextBytes, DecimalLength, Selecting, Cited;
  }

  // A provider whose model has a name of 129 characters, as its contract allows: the first call in an empty world is
  // refused, with its manifest as the only thing stored.
  lemma {:induction false} LongModelNameIsRefused()
    ensures var steps := [StartChat(AskingOf(VERBOSE, 0)), Advance(0, Hearing(Breaks))];
      && Possible(steps)
      && After(steps) == RefusedTo(START, AskingOf(VERBOSE, 0))
      && After(steps).rows == [] && After(steps).dispatched == []
  {
    LongNameMayStart();
    NothingIn();
    hide *;
    UnpreparableCallEnds([], AskingOf(VERBOSE, 0), Hearing(Breaks));
    RefusedSteps();
  }

  lemma {:induction false} NothingIn()
    ensures RefusedTo(START, AskingOf(VERBOSE, 0)).rows == [] && RefusedTo(START, AskingOf(VERBOSE, 0)).dispatched == []
    ensures AskingOf(VERBOSE, 0).key == "k" && Hearing(Breaks).result == Breaks
  {
    hide Selecting;
  }

  lemma {:induction false} RefusedSteps()
    ensures var c, o := AskingOf(VERBOSE, 0), Hearing(Breaks);
      [] + [StartChat(c)] + [Advance(c.request.id, o)] == [StartChat(c), Advance(0, o)]
  {
    hide Selecting;
  }

  // ---------- answers ----------

  function AnsweredRun(n: nat, text: string): seq<Step> {
    WithCall([], Asking(n), Hearing(Answers(text)))
  }

  // An answer the provider may give but no event can record: the run stays pending whatever happens later.
  lemma {:induction false} UnfitAnswerStrands(n: nat, text: string, more: seq<Step>)
    requires n <= MOST_SELECTED && 1 <= |text| <= MAX_ANSWER && !AnswerFits(text, Cited(n))
    ensures Possible(AnsweredRun(n, text))
    ensures Possible(AnsweredRun(n, text) + more) ==>
      var v := After(AnsweredRun(n, text) + more);
      && Idle(v, 0) && |EventsOfRun(v, 0)| == 3
      && LastKind(EventsOfRun(v, 0)) == Some(ModelCallPending) && LogOf(v.dispatched, 0) == [Derived(0, ChatPending)]
  {
    hide *;
    AskingIsReady(n);
    AskingIsUnused(n, Answers(text));
    UnfitIsUnrecordable(Cited(n), text);
    PreparedThree(n);
    AnsweringIs(n, text);
    UnrecordedAnswerStrands([], Asking(n), Hearing(Answers(text)), more);
  }

  lemma {:induction false} PreparedThree(n: nat)
    ensures |EventsOf(PrepareBatch(Asking(n)))| == 3
  {
    PreparedEvents(Asking(n));
    hide PrepareBatch;
  }

  lemma {:induction false} AnsweringIs(n: nat, text: string)
    ensures var c, o := Asking(n), Hearing(Answers(text));
      && o.at == 0 && o.result == Answers(text) && START.rows == [] && c.request.id == 0 && c.citations == Cited(n)
      && AnsweredRun(n, text) == WithCall([], c, o)
  {
    hide Selecting, WithCall;
  }

  lemma {:induction false} UnfitIsUnrecordable(citations: seq<Citation>, text: string)
    requires 1 <= |text| <= MAX_ANSWER && !AnswerFits(text, citations)
    ensures ResultFits(Answers(text)) && !Recordable(citations, Answers(text))
  {
    hide AnswerFits;
  }

  const LONG_ANSWER := seq(16385, i => 'x')

  // The provider answers 16,385 characters.
  lemma {:induction false} LongAnswerStrands(more: seq<Step>)
    ensures Possible(AnsweredRun(0, LONG_ANSWER))
    ensures Possible(AnsweredRun(0, LONG_ANSWER) + more) ==>
      var v := After(AnsweredRun(0, LONG_ANSWER) + more);
      && LastKind(EventsOfRun(v, 0)) == Some(ModelCallPending) && LogOf(v.dispatched, 0) == [Derived(0, ChatPending)]
  {
    assert !AnswerFits(LONG_ANSWER, Cited(0));
    hide *;
    UnfitAnswerStrands(0, LONG_ANSWER, more);
  }

  lemma {:induction false} TooManyCited()
    ensures !AnswerFits("x", Cited(65)) && 65 <= MOST_SELECTED && 1 <= |"x"| <= MAX_ANSWER
  {
  }

  // They are the citations of a valid manifest of 65 items.
  lemma {:induction false} ManySelected()
    ensures |Asking(65).manifest.items| == 65 && ManifestValid(Asking(65).manifest) && Asking(65).citations == CitationsOf(Asking(65).manifest)
  {
    SelectionIsCompiled(FAKE, 65);
    hide ManifestValid, Selecting, Cited;
  }

  // The provider answers one character after 65 records of one token were selected, which a budget of 65 allows.
  lemma {:induction false} ManyCitationsStrand(more: seq<Step>)
    ensures Possible(AnsweredRun(65, "x"))
    ensures Possible(AnsweredRun(65, "x") + more) ==>
      var v := After(AnsweredRun(65, "x") + more);
      && LastKind(EventsOfRun(v, 0)) == Some(ModelCallPending) && LogOf(v.dispatched, 0) == [Derived(0, ChatPending)]
  {
    TooManyCited();
    hide *;
    UnfitAnswerStrands(65, "x", more);
  }

  // ---------- decisions ----------

  function Wanted(target: string): ToolRequest {
    ToolRequest("scope", target, 1)
  }

  function Approving(target: string, n: nat): Call {
    Call("s", 0, Derived(0, ChatToolRequest), Decision(1, true), "d", "human_user", FAKE, Wanted(target), Selecting(n))
  }

  // The history in which the first call asked for a file.
  function AskedRun(target: string, n: nat): seq<Step> {
    WithCall([], Asking(n), Hearing(Asks(Wanted(target))))
  }

  function ApprovedRun(target: string): seq<Step> {
    WithApproval(AskedRun(target, 0), Approving(target, 0), Hearing(Breaks))
  }

  // The rows of the first call have keys that begin with k, and identities of request 0.
  ghost predicate OfQuestion(x: Row) {
    |x.key| > 0 && x.key[0] == 'k' && x.event.id.token == 0
  }

  lemma {:induction false} AskedRows(target: string, n: nat)
    ensures forall x :: x in PrepareBatch(Asking(n)) + FinishBatch(Asking(n), Asks(Wanted(target)), 0) ==> OfQuestion(x)
  {
    hide TaskOf, Selecting, Cited;
  }

  lemma {:induction false} NewRowIsUnused(rows: seq<Row>, y: Row)
    requires forall x :: x in rows ==> OfQuestion(x)
    requires Memory.PortableToken(y.key) && y.key[0] == 'd' && y.event.id.token == 1
    ensures Unused(rows, y)
  {
    hide Memory.PortableToken;
  }

  lemma {:induction false} ApprovalIsUnused(v: World, target: string, n: nat)
    requires v.rows == PrepareBatch(Asking(n)) + FinishBatch(Asking(n), Asks(Wanted(target)), 0)
    ensures Unused(v.rows, Row(DecisionEvent(Approving(target, n), 0), "d"))
  {
    AskedRows(target, n);
    DecisionKeysArePortable();
    hide PrepareBatch, FinishBatch, Memory.PortableToken, Unused, OfQuestion;
    assert DecisionEvent(Approving(target, n), 0).id == Client(1) by { hide TaskOf; }
    NewRowIsUnused(v.rows, Row(DecisionEvent(Approving(target, n), 0), "d"));
  }

  lemma {:induction false} ScopeIsFit(target: string)
    requires Targets.IsPortable(target)
    ensures ToolFits(Wanted(target)) && ResultFits(Asks(Wanted(target)))
  {
    hide Targets.IsPortable;
    ScopeName();
  }

  lemma {:induction false} ScopeName()
    ensures ScopeFits("scope")
  {
  }

  lemma {:induction false} ApprovingIs(target: string, n: nat)
    ensures var c := Approving(target, n);
      c.decision.approved && c.provider == FAKE && c.tool == Wanted(target) && c.tool.target == target && c.actor == "human_user" && c.key == "d"
      && c.run == 0 && Hearing(Breaks).at == 0 && ResultFits(Hearing(Breaks).result) && c.decision.id == 1 && c.manifest == Selecting(n)
  {
    hide Selecting;
  }

  lemma {:induction false} DecisionMayStart(v: World, target: string, n: nat)
    requires 0 !in v.active && IdentityFits(FAKE)
    ensures Enabled(v, Start(Approving(target, n)))
  {
    hide IdentityFits, Selecting;
  }

  lemma {:induction false} ToolWasAsked(target: string, n: nat)
    requires Targets.IsPortable(target) && n <= MOST_SELECTED
    ensures var steps := AskedRun(target, n);
      && Possible(steps) && Waits(After(steps), Approving(target, n)) && 0 !in After(steps).active
      && After(steps).rows == PrepareBatch(Asking(n)) + FinishBatch(Asking(n), Asks(Wanted(target)), 0)
      && After(steps).broker == START.broker
  {
    hide *;
    var c, o := Asking(n), Hearing(Asks(Wanted(target)));
    AskingIsReady(n);
    ScopeIsFit(target);
    AskingIsUnused(n, Asks(Wanted(target)));
    HearingIs(target, n);
    UnhinderedCallCompletes([], c, o);
    Reached([]);
    CalledFromStart(After(WithCall([], c, o)), target, n);
  }

  lemma {:induction false} HearingIs(target: string, n: nat)
    ensures var c, o := Asking(n), Hearing(Asks(Wanted(target)));
      && o.at == 0 && o.result == Asks(Wanted(target)) && START.rows == [] && AskedRun(target, n) == WithCall([], c, o)
      && c.request.id == 0 && DecidesOn(Approving(target, n), c, Wanted(target))
  {
    hide TaskOf, WithCall;
  }

  lemma {:induction false} CalledFromStart(v: World, target: string, n: nat)
    requires Inv(START) && CalledTo(START, v, Asking(n), Hearing(Asks(Wanted(target))))
    ensures Waits(v, Approving(target, n)) && 0 !in v.active
    ensures v.rows == PrepareBatch(Asking(n)) + FinishBatch(Asking(n), Asks(Wanted(target)), 0)
    ensures v.broker == START.broker
  {
    hide Inv, PrepareBatch, FinishBatch, Final, TaskOf, Waits, Selecting, Cited;
    AskingCallWaits(START, v, Asking(n), Hearing(Asks(Wanted(target))), Approving(target, n));
    assert [] + PrepareBatch(Asking(n)) == PrepareBatch(Asking(n));
  }

  // A target a tool request may name but no grant: the run says approved and nothing more, whatever happens later.
  lemma {:induction false} RefusedTargetStrands(target: string, more: seq<Step>)
    requires Targets.IsPortable(target) && Targets.Suffix(target) != "" && !Targets.GrantAcceptable(target)
    ensures Possible(ApprovedRun(target))
    ensures Possible(ApprovedRun(target) + more) ==>
      var v := After(ApprovedRun(target) + more);
      Idle(v, 0) && LastKind(EventsOfRun(v, 0)) == Some(GrantApproved)
  {
    assert 0 <= MOST_SELECTED;
    hide *;
    ToolWasAsked(target, 0);
    ApprovedRunIs(target);
    FakeFits();
    ScopeIsFit(target);
    ApprovingIs(target, 0);
    var steps := AskedRun(target, 0);
    DecisionMayStart(After(steps), target, 0);
    ApprovalIsUnused(After(steps), target, 0);
    UnacceptableTargetStrands(steps, Approving(target, 0), Hearing(Breaks), more);
  }

  lemma {:induction false} ApprovedRunIs(target: string)
    ensures ApprovedRun(target) == WithApproval(AskedRun(target, 0), Approving(target, 0), Hearing(Breaks))
  {
    hide WithApproval, WithCall;
  }

  // ---------- a whole decision ----------

  // The call approves reading a file of one character, which is there; the provider is then heard with some result, and
  // the memory is as given.
  function ReadingNotes(n: nat, result: ProviderResult, memory: Memory.Tables): Course {
    Course(Approving("notes.txt", n), Hearing(Breaks), Outside(0, result, {"scope"}, Broker.File(1, "x", true, true), memory))
  }

  lemma {:induction false} NotesTarget()
    ensures Targets.IsPortable("notes.txt") && Targets.GrantAcceptable("notes.txt")
  {
    hide Targets.SegmentFits, Targets.FromLastDot, Targets.Stem, Targets.Segments, Targets.IsDevice, Targets.ExtensionFits;
    Targets.OneSegment("notes.txt");
    NotesName();
    NotesExtension();
  }

  lemma {:induction false} NotesName()
    ensures Targets.SegmentFits("notes.txt") && !Targets.IsDevice(Targets.Stem("notes.txt"))
  {
    Targets.DotBegins("notes.txt", 5);
    hide Targets.Stem;
    assert "notes.txt"[..5] == "notes";
    assert |Targets.Upper("notes")| == 5;
  }

  lemma {:induction false} NotesExtension()
    ensures Targets.FromLastDot("notes.txt") == ".txt" && Targets.ExtensionFits(".txt")
  {
    Targets.DotEnds("notes.txt", 5);
    hide Targets.FromLastDot;
    assert "notes.txt"[5..] == ".txt";
  }

  lemma {:induction false} ReadingIsSmooth(n: nat, result: ProviderResult, memory: Memory.Tables)
    requires ResultFits(result)
    ensures Smooth(ReadingNotes(n, result, memory))
  {
    FakeFits();
    NotesTarget();
    ScopeIsFit("notes.txt");
    hide IdentityFits, LabelFits, ActorFits, ToolFits, ResultFits, Targets.GrantAcceptable, Selecting;
    assert ResultFits(Breaks) by { ApprovingIs("notes.txt", n); }
  }

  lemma {:induction false} LoopIsUnused(v: World, n: nat, result: ProviderResult, memory: Memory.Tables)
    requires v.rows == PrepareBatch(Asking(n)) + FinishBatch(Asking(n), Asks(Wanted("notes.txt")), 0)
    ensures var x := ReadingNotes(n, result, memory); forall y :: y in LoopRows(x) + LastRows(x) ==> Unused(v.rows, y)
  {
    var x := ReadingNotes(n, result, memory);
    AskedRows("notes.txt", n);
    hide PrepareBatch, FinishBatch, OfQuestion, Unused;
    forall y | y in LoopRows(x) + LastRows(x)
      ensures Unused(v.rows, y)
    {
      NewRow(x, y);
      NewRowIsUnused(v.rows, y);
    }
  }

  lemma {:induction false} NewRow(x: Course, y: Row)
    requires x.call.key == "d" && x.call.decision.id == 1 && y in LoopRows(x) + LastRows(x)
    ensures Memory.PortableToken(y.key) && y.key[0] == 'd' && y.event.id.token == 1
  {
    DecisionKeysArePortable();
    hide TaskOf, ReadingOf, ContentOf, CitedBy, Memory.PortableToken;
  }

  lemma {:induction false} ReadingIsUnhindered(n: nat, result: ProviderResult, memory: Memory.Tables)
    requires ResultFits(result) && n <= MOST_SELECTED
    ensures Unhindered(AskedRun("notes.txt", n), ReadingNotes(n, result, memory))
  {
    hide *;
    var x, steps := ReadingNotes(n, result, memory), AskedRun("notes.txt", n);
    NotesTarget();
    ToolWasAsked("notes.txt", n);
    FakeFits();
    DecisionMayStart(After(steps), "notes.txt", n);
    ReadingIsSmooth(n, result, memory);
    LoopIsUnused(After(steps), n, result, memory);
    ReadingIs(n, result, memory);
    NoGrants();
    IsUnhindered(steps, x);
  }

  lemma {:induction false} NoGrants()
    ensures 1 !in START.broker.grants
  {
  }

  lemma {:induction false} IsUnhindered(steps: seq<Step>, x: Course)
    requires Possible(steps) && Enabled(After(steps), Start(x.call)) && Waits(After(steps), x.call) && Smooth(x)
    requires x.call.decision.id !in After(steps).broker.grants
    requires forall y :: y in LoopRows(x) + LastRows(x) ==> Unused(After(steps).rows, y)
    ensures Unhindered(steps, x)
  {
    hide Possible, After, Inv, Enabled, Waits, Smooth, LoopRows, LastRows, Unused;
  }

  lemma {:induction false} ReadingIs(n: nat, result: ProviderResult, memory: Memory.Tables)
    ensures var x := ReadingNotes(n, result, memory);
      x.call == Approving("notes.txt", n) && x.rest.result == result && x.rest.memory == memory && x.call.decision.id == 1 && x.call.run == 0
  {
    hide Selecting;
  }

  // The provider fails in the follow-up call: the call raises that the follow-up failed, and its retry, at any later time
  // and by anyone, raises the kind of the failure instead.
  lemma {:induction false} FailedFollowupIsRetried(more: seq<Step>, actor: string, p: ProviderIdentity)
    ensures var x := ReadingNotes(0, Fails(TimeoutFailure), NO_MEMORY);
      var s := WithDecision(AskedRun("notes.txt", 0), x);
      && Possible(s)
      && (Possible(s + more) ==>
        var v, c := After(s + more), x.call;
        && ReplyTo(x) in v.replies && ReplyTo(x).response == Raising(FollowupRaised)
        && DecisionLookup(v.rows, v.artifacts, c.session, c.run, c.toolEvent, c.decision, c.key, actor, p) == Raised(LoopFailed(TimeoutFailure)))
  {
    assert 0 <= MOST_SELECTED;
    hide *;
    var x, steps := ReadingNotes(0, Fails(TimeoutFailure), NO_MEMORY), AskedRun("notes.txt", 0);
    assert Possible(steps) by { UnhinderedStart(0, Fails(TimeoutFailure), NO_MEMORY); }
    TimeoutFits();
    ReadingIsUnhindered(0, Fails(TimeoutFailure), NO_MEMORY);
    UnhinderedDecisionCompletes(steps, x);
    FailedOutcome();
    ReplyIs(x);
    if Possible(WithDecision(steps, x) + more) {
      LoopIsRetried(steps, x, more, actor, p);
      LoopedReply(After(steps), After(WithDecision(steps, x)), x);
      RepliesStay(WithDecision(steps, x), more, ReplyTo(x));
    }
  }

  lemma {:induction false} UnhinderedStart(n: nat, result: ProviderResult, memory: Memory.Tables)
    requires ResultFits(result) && n <= MOST_SELECTED
    ensures Possible(AskedRun("notes.txt", n))
  {
    hide *;
    NotesTarget();
    ToolWasAsked("notes.txt", n);
  }

  lemma {:induction false} TimeoutFits()
    ensures ResultFits(Fails(TimeoutFailure))
  {
  }

  lemma {:induction false} FailedOutcome()
    ensures var x := ReadingNotes(0, Fails(TimeoutFailure), NO_MEMORY);
      EndOf(x) == Raising(FollowupRaised) && LastFailure(x) == Some(TimeoutFailure)
  {
    hide TaskOf;
  }

  // ---------- a decision that comes too early ----------

  function EarlyRun(): seq<Step> {
    [Start(Approving("notes.txt", 0))]
  }

  lemma {:induction false} EarlyIsRefused()
    ensures var c := Approving("notes.txt", 0);
      && Enabled(START, Start(c))
      && Apply(START, Start(c)) == START.(replies :=
           [Reply(0, FromDecision(c.session, c.toolEvent, c.decision, c.key), Refusing(NotInspectable(NotFound)))])
  {
    FakeFits();
    DecisionKeysArePortable();
    hide IdentityFits, LabelFits, ActorFits, Memory.PortableToken, Selecting, Accepted, ManifestOf;
    assert Stream([], "s") == [] && Selected([], 0) == [];
  }

  lemma {:induction false} AfterRefusal(v: World)
    requires v.rows == [] && v.active == map[] && CompiledFor(Asking(0)) && IdentityFits(FAKE)
    ensures Enabled(v, StartChat(Asking(0))) && !HasId(v.rows, Client(0))
  {
    hide CompiledFor, IdentityFits, Selecting, Cited;
  }

  // A decision on a run that has not begun is refused, and the same call goes on once the run waits for it: a refusal
  // before anything is stored is not final.
  lemma {:induction false} RefusedDecisionProceedsLater()
    ensures var c := Approving("notes.txt", 0);
      var s := WithCall(EarlyRun(), Asking(0), Hearing(Asks(c.tool)));
      && Possible(EarlyRun())
      && After(EarlyRun()).replies == [Reply(0, FromDecision(c.session, c.toolEvent, c.decision, c.key), Refusing(NotInspectable(NotFound)))]
      && Possible(s)
      && DecisionLookup(After(s).rows, After(s).artifacts, c.session, c.run, c.toolEvent, c.decision, c.key, c.actor, c.provider) == Proceed(c)
  {
    assert 0 <= MOST_SELECTED && Asking(0) == AskingOf(FAKE, 0);
    hide *;
    var c, o := Approving("notes.txt", 0), Hearing(Asks(Wanted("notes.txt")));
    EarlyRunIs();
    AskingIsReady(0);
    SelectionIsCompiled(FAKE, 0);
    FakeFits();
    AfterRefusal(After(EarlyRun()));
    NotesTarget();
    ScopeIsFit("notes.txt");
    AskingIsUnused(0, Asks(Wanted("notes.txt")));
    HearingIs("notes.txt", 0);
    ApprovingIs("notes.txt", 0);
    UnhinderedCallCompletes(EarlyRun(), Asking(0), o);
    var s := WithCall(EarlyRun(), Asking(0), o);
    Reached(EarlyRun());
    Reached(s);
    AskingCallWaits(After(EarlyRun()), After(s), Asking(0), o, c);
    RowsOfAskingCall(After(EarlyRun()), After(s), Asking(0), o);
    ApprovalKeyIsNew(After(s), c);
    WaitingIsFound(After(s), c);
  }

  lemma {:induction false} EarlyRunIs()
    ensures var c := Approving("notes.txt", 0);
      && Possible(EarlyRun())
      && After(EarlyRun()).rows == [] && After(EarlyRun()).active == map[]
      && After(EarlyRun()).replies == [Reply(0, FromDecision(c.session, c.toolEvent, c.decision, c.key), Refusing(NotInspectable(NotFound)))]
  {
    EarlySteps();
    hide *;
    Nowhere();
    EarlyIsRefused();
    Extended([], Start(Approving("notes.txt", 0)));
  }

  lemma {:induction false} EarlySteps()
    ensures EarlyRun() == [] + [Start(Approving("notes.txt", 0))]
    ensures START.rows == [] && START.active == map[] && START.replies == []
  {
    hide Selecting;
  }

  lemma {:induction false} ApprovalKeyIsNew(v: World, c: Call)
    requires c == Approving("notes.txt", 0) && v.rows == [] + (PrepareBatch(Asking(0)) + FinishBatch(Asking(0), Asks(Wanted("notes.txt")), 0))
    ensures Memory.PortableToken(c.key) && !HasKey(v.rows, c.key)
  {
    AskedRows("notes.txt", 0);
    DecisionKeysArePortable();
    hide PrepareBatch, FinishBatch, Memory.PortableToken, Selecting;
    assert c.key == "d" && "d"[0] == 'd';
  }

  // ---------- contexts ----------

  // One record was selected, and when the file has been read its content is no longer to be had: the call raises, the
  // run says observed and nothing more, whatever happens later, and every retry raises that nothing is pending.
  lemma {:induction false} StaleContextStrands(memory: Memory.Tables, more: seq<Step>, actor: string, p: ProviderIdentity)
    requires !IsCurrent(memory, ShortItem(0))
    ensures var x := ReadingNotes(1, Breaks, memory);
      var s := WithDecision(AskedRun("notes.txt", 1), x);
      && Possible(s)
      && (Possible(s + more) ==>
        var v, c := After(s + more), x.call;
        && ReplyTo(x) in v.replies && ReplyTo(x).response == Raising(ContextUnavailable)
        && Idle(v, 0) && LastKind(EventsOfRun(v, 0)) == Some(Observation)
        && DecisionLookup(v.rows, v.artifacts, c.session, c.run, c.toolEvent, c.decision, c.key, actor, p) == Raised(NotPending))
  {
    StaleOutcome(memory);
    hide *;
    var x, steps := ReadingNotes(1, Breaks, memory), AskedRun("notes.txt", 1);
    ApprovingIs("notes.txt", 1);
    BreaksFits();
    ReadingIsUnhindered(1, Breaks, memory);
    ReadingIs(1, Breaks, memory);
    UnhinderedDecisionCompletes(steps, x);
    ReplyIs(x);
    if Possible(WithDecision(steps, x) + more) {
      StaleContextStrandsExactly(steps, x, more);
      LoopIsRetried(steps, x, more, actor, p);
      LoopedReply(After(steps), After(WithDecision(steps, x)), x);
      RepliesStay(WithDecision(steps, x), more, ReplyTo(x));
    }
  }

  lemma {:induction false} BreaksFits()
    ensures ResultFits(Breaks)
  {
  }

  lemma {:induction false} StaleOutcome(memory: Memory.Tables)
    requires !IsCurrent(memory, ShortItem(0))
    ensures var x := ReadingNotes(1, Breaks, memory);
      && EndOf(x) == Raising(ContextUnavailable) && LastFailure(x) == None
      && exists i :: i in x.call.manifest.items && !IsCurrent(x.rest.memory, i)
  {
    hide TaskOf, IsCurrent;
    assert Selecting(1).items[0] == ShortItem(0);
    assert ShortItem(0) in Selecting(1).items;
  }

  // ---------- two such targets ----------

  // The stem of the first target is a device name, and the extension of the second holds an underscore.
  lemma {:induction false} RefusedTargets()
    ensures Targets.IsPortable("con.txt") && Targets.Suffix("con.txt") == ".txt" && !Targets.GrantAcceptable("con.txt")
    ensures Targets.IsPortable("notes.tar_gz") && Targets.Suffix("notes.tar_gz") == ".tar_gz" && !Targets.GrantAcceptable("notes.tar_gz")
  {
    DeviceTarget();
    ExtensionTarget();
  }

  lemma {:induction false} DeviceTarget()
    ensures Targets.IsPortable("con.txt") && Targets.Suffix("con.txt") == ".txt" && !Targets.GrantAcceptable("con.txt")
  {
    Targets.OneSegment("con.txt");
    Targets.DotEnds("con.txt", 3);
    Targets.DotBegins("con.txt", 3);
    hide Targets.Segments, Targets.FromLastDot, Targets.Stem;
    assert "con.txt"[3..] == ".txt" && "con.txt"[..3] == "con";
    assert Targets.Upper("con") == "CON";
    assert "con.txt" in Targets.Segments("con.txt");
  }

  lemma {:induction false} ExtensionTarget()
    ensures Targets.IsPortable("notes.tar_gz") && Targets.Suffix("notes.tar_gz") == ".tar_gz" && !Targets.GrantAcceptable("notes.tar_gz")
  {
    hide Targets.SegmentFits, Targets.FromLastDot, Targets.Stem, Targets.Segments, Targets.IsDevice, Targets.ExtensionFits;
    UnderscoreExtension();
    Targets.OneSegment("notes.tar_gz");
  }

  lemma {:induction false} UnderscoreExtension()
    ensures Targets.SegmentFits("notes.tar_gz") && Targets.FromLastDot("notes.tar_gz") == ".tar_gz"
    ensures !Targets.ExtensionFits(".tar_gz")
  {
    Targets.DotEnds("notes.tar_gz", 5);
    hide Targets.FromLastDot, Targets.Stem;
    assert "notes.tar_gz"[5..] == ".tar_gz";
    assert !Targets.AlphaNumeric(".tar_gz"[4]);
  }

  lemma {:induction false} RefusedTargetsStrand(more: seq<Step>)
    ensures Possible(ApprovedRun("con.txt")) && Possible(ApprovedRun("notes.tar_gz"))
    ensures Possible(ApprovedRun("con.txt") + more) ==>
      LastKind(EventsOfRun(After(ApprovedRun("con.txt") + more), 0)) == Some(GrantApproved)
    ensures Possible(ApprovedRun("notes.tar_gz") + more) ==>
      LastKind(EventsOfRun(After(ApprovedRun("notes.tar_gz") + more), 0)) == Some(GrantApproved)
  {
    hide *;
    RefusedTargets();
    NotEmpty();
    RefusedTargetStrands("con.txt", more);
    RefusedTargetStrands("notes.tar_gz", more);
  }

  lemma {:induction false} NotEmpty()
    ensures ".txt" != "" && ".tar_gz" != ""
  {
  }
}
