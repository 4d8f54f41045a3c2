/** Events that a direct writer of the ledger can append, and after which no proposal can be listed or decided. */
module ProposalCounterexamples {
  import opened Wrappers
  import opened Events
  import opened Context
  import opened Proposals
  import C = EventContracts
  import L = Ledger
  import Memory

  const USER := Actor("human_local_user", Human)
  const CONTENT := RefTo(Bytes("hi"))
  const FILE := SelectedFile("files", "notes.md")
  const PROPOSED := Derived(0, OtherPurpose("association"))

  function Entry(id: EventId, eventType: EventType, refs: seq<Ref>, parents: seq<EventId>, trust: TrustClass, p: Payload): Event {
    Event(id, "s", OtherRun(0), "t", USER, eventType, 0, 0, refs, parents, trust, p, None)
  }

  // An imported file and its proposed association with record 7, as the import service records them.
  const IMPORT := Entry(Client(0), Observed, [CONTENT], [], ExternalUntrusted,
                        Payload(ArtifactImport, ImportedDetail(FILE, "notes.md", "text/markdown", 2, 2, false)))
  const PROPOSAL := Entry(PROPOSED, MemoryProposal, [CONTENT], [Client(0)], ExternalUntrusted, Payload(ArtifactAssociation, AssociationDetail(Some(7))))

  const LISTED := [L.Row(IMPORT, "a"), L.Row(PROPOSAL, "b")]

  // A review of the proposal that says nothing of a decision, and a second proposal that names no record.
  const MUTE_REVIEW := Entry(Client(1), Approval, [], [PROPOSED], HumanVerified, Payload(AssociationReview(Some(PROPOSED)), NoDetail))
  const NO_TARGET := Entry(Client(2), MemoryProposal, [CONTENT], [Client(0)], ExternalUntrusted, Payload(ArtifactAssociation, AssociationDetail(None)))

  const PENDING := Proposal(PROPOSED, Pending, 7, CONTENT, "notes.md", 0, None)

  lemma {:induction false} UserFits()
    ensures ActorFits(USER)
  {
    assert USER.name[6..] == "local_user" && USER.name[..6] == "human_";
  }

  lemma {:induction false} ScopeIsFit()
    ensures C.ScopeFits("files")
  {
  }

  // All four are events of the contract.
  lemma {:induction false} EventsAreValid()
    ensures ValidEvent(IMPORT) && ValidEvent(PROPOSAL) && ValidEvent(MUTE_REVIEW) && ValidEvent(NO_TARGET)
  {
    UserFits();
    ScopeIsFit();
    C.ImportedFits(FILE, "notes.md", "text/markdown", 2, 2, false);
    C.AssociationFits(7);
    C.BareReviewFits(PROPOSED);
    C.BareAssociationFits();
    hide ActorFits, Payloads.Acceptable, Form;
  }

  lemma {:induction false} OneListed()
    ensures Project(LISTED) == Some([PENDING])
  {
    assert LISTED[..1] == [L.Row(IMPORT, "a")] && LISTED[..2] == LISTED;
    assert L.ById(LISTED, Client(0)) == Some(IMPORT) by {
      assert LISTED[..|LISTED| - 1] == [L.Row(IMPORT, "a")];
    }
    ReviewFound(LISTED, PROPOSED);
    assert forall x :: x in LISTED ==> x == LISTED[0] || x == LISTED[1];
    assert Contribution(LISTED, LISTED[0].event) == Nothing;
    assert Contribution(LISTED, LISTED[1].event) == Listed(PENDING);
    hide Contribution, ReviewOf, L.ById;
    assert ProjectFirst(LISTED, 0) == Some([]);
    assert ProjectFirst(LISTED, 1) == Some([]);
    var none: seq<Proposal> := [];
    assert none + [PENDING] == [PENDING];
    assert ProjectFirst(LISTED, 2) == Some([PENDING]);
  }

  lemma {:induction false} KeysArePortable()
    ensures Memory.PortableToken("a") && Memory.PortableToken("b") && Memory.PortableToken("c")
    ensures "a" != "b" && "a" != "c" && "b" != "c"
  {
    assert "a"[0] != "b"[0] && "a"[0] != "c"[0] && "b"[0] != "c"[0];
  }

  lemma {:induction false} SoundWith(e: Event)
    requires e == MUTE_REVIEW || e == NO_TARGET
    ensures L.LedgerOk(LISTED + [L.Row(e, "c")], {CONTENT})
  {
    KeysArePortable();
    hide Memory.PortableToken;
    var rows := LISTED + [L.Row(e, "c")];
    assert rows[..0] == [] && rows[..1] == [L.Row(IMPORT, "a")] && rows[..2] == LISTED;
    assert L.HasId(rows[..1], Client(0)) by { assert rows[..1][0].event.id == Client(0); }
    assert L.HasId(rows[..2], Client(0)) by { assert rows[..2][0].event.id == Client(0); }
    assert L.HasId(rows[..2], PROPOSED) by { assert rows[..2][1].event.id == PROPOSED; }
    assert L.RowOk(rows, {CONTENT}, 0);
    assert L.RowOk(rows, {CONTENT}, 1);
    assert L.RowOk(rows, {CONTENT}, 2);
  }

  // Each of the two events is accepted by the ledger, and after either the projection fails as a whole, so that the
  // pending proposal can be neither listed nor decided.
  lemma {:induction false} OneEventBreaksAll(e: Event, q: DecisionRequest, key: L.Key, actor: string, at: int)
    requires e == MUTE_REVIEW || e == NO_TARGET
    requires key != "a" && key != "b" && key != "c"
    ensures var rows := LISTED + [L.Row(e, "c")];
      && ValidEvent(e) && L.AppendOne(LISTED, {CONTENT}, e, "c") == Success(rows) && L.LedgerOk(rows, {CONTENT})
      && Project(LISTED) == Some([PENDING]) && Project(rows) == None
      && Decide(rows, {CONTENT}, PROPOSED, q, key, actor, at) == Failure(Raised)
  {
    EventsAreValid();
    OneListed();
    SoundWith(e);
    EventIsAppended(e);
    Breaks(e);
    var rows := LISTED + [L.Row(e, "c")];
    AppendBreaksExactly(LISTED, L.Row(e, "c"), {CONTENT});
    KeyIsNew(e, key);
    hide ValidEvent, L.LedgerOk, Project, L.AppendOne, Contribution, L.ByKey;
    BrokenDecision(rows, {CONTENT}, PROPOSED, q, key, actor, at);
  }

  lemma {:induction false} KeyIsNew(e: Event, key: L.Key)
    requires key != "a" && key != "b" && key != "c"
    ensures L.ByKey(LISTED + [L.Row(e, "c")], key).None?
  {
    var rows := LISTED + [L.Row(e, "c")];
    L.KeyLookup(rows, key);
    assert forall x :: x in rows ==> x.key == "a" || x.key == "b" || x.key == "c";
  }

  lemma {:induction false} EventIsAppended(e: Event)
    requires e == MUTE_REVIEW || e == NO_TARGET
    ensures L.AppendOne(LISTED, {CONTENT}, e, "c") == Success(LISTED + [L.Row(e, "c")])
  {
    KeysArePortable();
    hide Memory.PortableToken;
    L.NoneMissing(LISTED, e.parents);
    L.NoneUnresolved({CONTENT}, e.refs);
    assert LISTED[0].event.id == Client(0) && LISTED[1].event.id == PROPOSED && LISTED[0] in LISTED && LISTED[1] in LISTED;
    assert forall p :: p in e.parents ==> L.HasId(LISTED, p);
    assert forall x :: x in LISTED ==> x == LISTED[0] || x == LISTED[1];
  }

  lemma {:induction false} Breaks(e: Event)
    requires e == MUTE_REVIEW || e == NO_TARGET
    ensures Contribution(LISTED, e).Broken? || (IsReview(e, PENDING.id) && !e.payload.detail.ReviewDetail?)
  {
    if e == NO_TARGET {
      assert LISTED[..|LISTED| - 1] == [L.Row(IMPORT, "a")];
      assert L.ById(LISTED, Client(0)) == Some(IMPORT);
    }
  }

  // A decision that was observed at an offset of thirty seconds, which its transport contract allows, raises; with an
  // offset of no seconds it is recorded.
  lemma {:induction false} SecondsInOffsetRaise()
    ensures var q := DecisionRequest(3, true, Timestamp(0, 0));
      && Decide(LISTED, {CONTENT}, PROPOSED, q.(observed := Timestamp(0, 30000000)), "c", USER.name, 0) == Failure(Raised)
      && Decide(LISTED, {CONTENT}, PROPOSED, q, "c", USER.name, 0).Success?
  {
    DecisionRaises();
    DecisionSucceeds();
    hide Decide;
  }

  lemma {:induction false} DecisionRaises()
    ensures Decide(LISTED, {CONTENT}, PROPOSED, DecisionRequest(3, true, Timestamp(0, 30000000)), "c", USER.name, 0) == Failure(Raised)
  {
    OneListed();
    LookedUp();
    hide ActorFits, Memory.PortableToken, Project, L.AppendOne, L.ByKey, L.ById, L.LedgerOk, LISTED, DecisionEvent, PROPOSAL;
    assert Shown(LISTED, PROPOSED) == Some(PENDING);
  }

  lemma {:induction false} DecisionSucceeds()
    ensures Decide(LISTED, {CONTENT}, PROPOSED, DecisionRequest(3, true, Timestamp(0, 0)), "c", USER.name, 0).Success?
  {
    var q := DecisionRequest(3, true, Timestamp(0, 0));
    OneListed();
    UserFits();
    KeysArePortable();
    LookedUp();
    DecisionIsAppended(q);
    assert Recordable(q, PROPOSED, USER.name, 0);
    hide Recordable, SameDecision, Memory.PortableToken, Project, L.AppendOne, L.ByKey, L.ById, L.LedgerOk, LISTED, DecisionEvent, PROPOSAL, USER;
    assert Shown(LISTED, PROPOSED) == Some(PENDING);
    StoredDecisionReadsBack(LISTED, {CONTENT}, PENDING, q, "c", USER.name, 0);
  }

  lemma {:induction false} LookedUp()
    ensures L.LedgerOk(LISTED, {CONTENT}) && L.ById(LISTED, PROPOSED) == Some(PROPOSAL) && L.ByKey(LISTED, "c") == None
  {
    SoundWith(MUTE_REVIEW);
    PrefixOk(LISTED, L.Row(MUTE_REVIEW, "c"), {CONTENT});
    KeysArePortable();
    hide L.LedgerOk, Memory.PortableToken;
    assert LISTED[..|LISTED| - 1] == [L.Row(IMPORT, "a")];
    L.KeyLookup(LISTED, "c");
    assert forall x :: x in LISTED ==> x == LISTED[0] || x == LISTED[1];
  }

  lemma {:induction false} DecisionIsAppended(q: DecisionRequest)
    requires q == DecisionRequest(3, true, Timestamp(0, 0))
    ensures L.AppendOne(LISTED, {CONTENT}, DecisionEvent(q, PENDING, PROPOSAL, USER.name, 0), "c").Success?
  {
    KeysArePortable();
    hide Memory.PortableToken;
    var e := DecisionEvent(q, PENDING, PROPOSAL, USER.name, 0);
    L.NoneMissing(LISTED, e.parents);
    L.NoneUnresolved({CONTENT}, e.refs);
    assert LISTED[1].event.id == PROPOSED && LISTED[1] in LISTED;
    assert forall p :: p in e.parents ==> L.HasId(LISTED, p);
    assert forall x :: x in LISTED ==> x == LISTED[0] || x == LISTED[1];
  }
}
