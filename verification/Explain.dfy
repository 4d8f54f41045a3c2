/** Explaining one revision, and where the explanation agrees with what recall does. */
module Explain {
  import opened Wrappers
  import opened Relational
  import opened Memory
  import opened MemoryInvariant
  import opened MemorySync
  import opened MemoryReview
  import opened MemoryRuns
  import opened MemoryChains
  import opened MemoryRepository
  import opened Recall
  import Retrieval
  import Runs = MemoryCounterexamples

  datatype Reason = Selected | NotApproved | StaleRevision | IsSuperseded | IsContradicted | IsRetracted | MissingSource

  datatype Relationship = Requested | Supersedes | SupersededBy

  datatype Lineage = Lineage(record: RecordId, hash: Digest, authority: Authority, relationship: Relationship)

  datatype Explanation = Explanation(record: RecordId, hash: Digest, authority: Authority, reason: Reason, lineage: seq<Lineage>)

  function ReasonFor(current: Option<Record>, revision: Record): Reason {
    if current.Some? && current.value.hash != revision.hash then StaleRevision else
    match revision.authority
    case Approved => if revision.status == Missing then MissingSource else Selected
    case Superseded => IsSuperseded
    case Contradicted => IsContradicted
    case Retracted => IsRetracted
    case _ => NotApproved
  }

  function Entry(r: Record, relationship: Relationship): Lineage {
    Lineage(r.id, r.hash, r.authority, relationship)
  }

  function CorrectedEntry(t: Tables, revision: Record): seq<Lineage> {
    var p := revision.provenance;
    if p.correctionTarget.None? || p.correctionExpectedHash.None? then [] else
    match GetRevision(t, p.correctionTarget.value, p.correctionExpectedHash.value)
    case None => []
    case Some(target) => [Entry(target, Supersedes)]
  }

  function ReplacementEntry(t: Tables, revision: Record): seq<Lineage> {
    match LatestReview(t.reviews, revision.id, revision.hash)
    case None => []
    case Some(row) =>
      if row.replacement.None? then [] else
      match Get(t, row.replacement.value)
      case None => []
      case Some(other) => [Entry(other, SupersededBy)]
  }

  function ExplainRevision(t: Tables, id: RecordId, hash: Digest): Option<Explanation> {
    match GetRevision(t, id, hash)
    case None => None
    case Some(r) => Some(Explanation(
      r.id, r.hash, r.authority, ReasonFor(Get(t, r.id), r), [Entry(r, Requested)] + CorrectedEntry(t, r) + ReplacementEntry(t, r)))
  }

  // ---------- the tools on a repository ----------

  method ExplainTool(repository: Repository, id: RecordId, hash: Digest) returns (e: Option<Explanation>)
    ensures e == ExplainRevision(repository.State(), id, hash)
  {
    var found := repository.GetRevision(id, hash);
    if found.None? { return None; }
    var revision := found.value;
    var current := repository.Get(id);
    NewestIsStored(repository.revisions, id, hash);
    var lineage := [Entry(revision, Requested)];
    var p := revision.provenance;
    if p.correctionTarget.Some? && p.correctionExpectedHash.Some? {
      var target := repository.GetRevision(p.correctionTarget.value, p.correctionExpectedHash.value);
      if target.Some? { lineage := lineage + [Entry(target.value, Supersedes)]; }
    }
    var review := repository.LatestReview(revision.id, revision.hash);
    if review.Some? && review.value.replacement.Some? {
      var other := repository.Get(review.value.replacement.value);
      if other.Some? { lineage := lineage + [Entry(other.value, SupersededBy)]; }
    }
    assert lineage == [Entry(revision, Requested)] + CorrectedEntry(repository.State(), revision) + ReplacementEntry(repository.State(), revision);
    e := Some(Explanation(revision.id, revision.hash, revision.authority, ReasonFor(current, revision), lineage));
  }

  method ProposeTool(repository: Repository, p: Proposal, unused: RecordId) returns (r: Result<Record, ProposalError>)
    requires repository.Valid() && unused !in repository.records.rows
    modifies repository
    ensures repository.Valid()
    ensures match Propose(old(repository.State()), p)
      case Failure(e) => r == Failure(e) && repository.State() == old(repository.State())
      case Success((u, record)) => r == Success(record) && repository.State() == u
  {
    hide Inv;
    if !ProposalFits(p) { return Failure(InvalidRequest); }
    if p.correction.Some? {
      var target := repository.Get(p.correction.value.target);
      if target.None? || target.value.hash != p.correction.value.expected { return Failure(RevisionConflict); }
    }
    var existing := repository.Get(p.id);
    if existing.Some? {
      return if SameProposal(existing.value, p) then Success(existing.value) else Failure(RequestConflict);
    }
    var made := repository.CreateNative(Some(p.id), unused, BodyOf(p), ContentHash(p), ProvenanceOf(p));
    r := Success(made.value);
  }

  // ---------- agreement with recall ----------

  // Whether recall may select the content a record has now.
  predicate RecallMaySelect(t: Tables, id: RecordId, hash: Digest) {
    var current := Get(t, id);
    current.Some? && current.value.hash == hash && Retrieval.Eligible(current.value)
  }

  predicate ExplainedAsSelected(t: Tables, id: RecordId, hash: Digest) {
    var e := ExplainRevision(t, id, hash);
    e.Some? && e.value.reason == Selected
  }

  // The revision row the explanation reads marks its source missing exactly when the current record does.
  predicate SameSourceMark(t: Tables, id: RecordId)
    requires id in t.records.rows
  {
    var current := t.records.rows[id];
    var newest := NewestRevision(t.revisions, id, current.hash);
    newest.Some? && (newest.value.status == Missing <==> current.status == Missing)
  }

  lemma {:induction false} NewestOfCurrent(t: Tables, id: RecordId)
    requires Inv(t) && id in t.records.rows
    ensures var n := NewestRevision(t.revisions, id, t.records.rows[id].hash);
      && t.records.rows[id].id == id
      && n.Some? && n.value in t.revisions && n.value.id == id && n.value.hash == t.records.rows[id].hash
      && WithReviewState(t.reviews, n.value).authority == Get(t, id).value.authority
  {
    hide BindingsOk, ReviewsOk, SyncsOk, NoDuplicates;
    NewestIsStored(t.revisions, id, t.records.rows[id].hash);
    StoredAuthority(t, t.records.rows[id]);
    StoredAuthority(t, NewestRevision(t.revisions, id, t.records.rows[id].hash).value);
  }

  // A revision that is not the current content is never explained as selected, and recall never selects it.
  // For the current content explanation and recall agree exactly when the record is not approved or both rows
  // give its source the same mark.
  lemma {:induction false} AgreesExactly(t: Tables, id: RecordId, hash: Digest)
    requires Inv(t) && id in t.records.rows
    ensures (ExplainedAsSelected(t, id, hash) <==> RecallMaySelect(t, id, hash))
      <==> (hash == t.records.rows[id].hash && Get(t, id).value.authority == Approved ==> SameSourceMark(t, id))
  {
    NewestOfCurrent(t, id);
    SelectedExactly(t, id, hash);
    hide Inv, ExplainedAsSelected, ExplainRevision;
    if hash != t.records.rows[id].hash {
      NewestIsStored(t.revisions, id, hash);
      assert !ExplainedAsSelected(t, id, hash) && !RecallMaySelect(t, id, hash);
    }
  }

  lemma {:induction false} SelectedExactly(t: Tables, id: RecordId, hash: Digest)
    ensures ExplainedAsSelected(t, id, hash)
      <==> GetRevision(t, id, hash).Some? && ReasonFor(Get(t, GetRevision(t, id, hash).value.id), GetRevision(t, id, hash).value) == Selected
  {
    hide GetRevision, Get, ReasonFor, CorrectedEntry, ReplacementEntry;
  }

  // Explanation and recall agree on every record that did not come from a source.
  lemma {:induction false} AgreesOnNative(t: Tables, id: RecordId, hash: Digest)
    requires Inv(t) && id in t.records.rows && t.records.rows[id].kind == Native
    ensures ExplainedAsSelected(t, id, hash) <==> RecallMaySelect(t, id, hash)
  {
    AgreesExactly(t, id, hash);
    NewestOfCurrent(t, id);
    OnlyRevision(t, NewestRevision(t.revisions, id, t.records.rows[id].hash).value);
  }

  lemma {:induction false} OnlyRevision(t: Tables, r: Record)
    requires Inv(t) && r in t.revisions && r.kind == Native
    ensures r.id in t.records.rows && r == t.records.rows[r.id]
  {
    hide BindingsOk, ReviewsOk, SyncsOk, NoDuplicates;
  }

  // ---------- a run on which they disagree ----------

  const NOTE := Runs.VersionOfNote("1")
  const HERE := NoteRecord(0, "s", NOTE)
  const GONE := HERE.(status := Missing)
  const BOUND := Table(map[Runs.NOTE_AT := Binding(Sha256("1"), 0)], [Runs.NOTE_AT])

  function Request(notes: seq<Note>, key: string): SyncRequest {
    SyncRequest("s", notes, key, key, Sha256(key), 0)
  }

  const FIRST := SyncRow("a", "a", "s", Sha256("a"), 1, 0, 0, 0, 0)
  const SECOND := SyncRow("b", "b", "s", Sha256("b"), 0, 0, 0, 1, 0)
  const THIRD := SyncRow("c", "c", "s", Sha256("c"), 0, 1, 0, 0, 0)

  const AFTER_FIRST := Tables(Table(map[0 := HERE], [0]), [HERE], [], BOUND, [FIRST])
  const AFTER_SECOND := Tables(Table(map[0 := GONE], [0]), [HERE, GONE], [], BOUND, [FIRST, SECOND])
  const AFTER_THIRD := Tables(Table(map[0 := HERE], [0]), [HERE, GONE], [], BOUND, [FIRST, SECOND, THIRD])

  lemma {:induction false} KeysDiffer()
    ensures "a" != "b" && "a" != "c" && "b" != "c"
  {
    assert "a"[0] == 'a' && "b"[0] == 'b' && "c"[0] == 'c';
  }

  lemma {:induction false} FirstRound()
    ensures var p := SyncNotes(EMPTY, "s", [NOTE], [0], 1);
      p.tables == AFTER_FIRST.(syncs := []) && p.created == 1 && p.revised == 0 && p.kept == 0
  {
    var notes := [NOTE];
    NoRound(EMPTY, "s", notes, [0]);
    NextRound(EMPTY, "s", notes, [0], 0);
    assert Vanished(EMPTY.bindings, "s", Sha256("1"), Locators(notes), 0) == [];
    hide Vanished, SyncNotes;
    assert SyncNote(Progress(EMPTY, 0, 0, 0, []), "s", notes[0], Locators(notes), 0).tables.bindings == BOUND;
  }

  lemma {:induction false} SyncFirst()
    ensures Drawn(EMPTY, [NOTE], [0])
    ensures Sync(EMPTY, Request([NOTE], "a"), [0]).Success?
    ensures Sync(EMPTY, Request([NOTE], "a"), [0]).value.0 == AFTER_FIRST
  {
    FirstRound();
    hide SyncNotes, SyncNote;
    var notes := [NOTE];
    var p := SyncNotes(EMPTY, "s", notes, [0], 1);
    assert notes[0].path in Locators(notes);
    assert SweepMissing(p.tables, "s", Locators(notes), 0) == Sweep(p.tables, 0);
    assert SweepMissing(p.tables, "s", Locators(notes), 1) == Sweep(p.tables, 0);
  }

  lemma {:induction false} SyncSecond()
    requires AFTER_FIRST.bindings.Valid() && AFTER_FIRST.records.Valid()
    ensures Drawn(AFTER_FIRST, [], [])
    ensures Sync(AFTER_FIRST, Request([], "b"), []).Success?
    ensures Sync(AFTER_FIRST, Request([], "b"), []).value.0 == AFTER_SECOND
  {
    KeysDiffer();
    var t := AFTER_FIRST;
    assert SyncByKey([], "b").None?;
    assert SyncNotes(t, "s", [], [], 0) == Progress(t, 0, 0, 0, []);
    assert SweepMissing(t, "s", {}, 0) == Sweep(t, 0);
    assert MarkMissing(Sweep(t, 0), Runs.NOTE_AT).tables.records.rows == map[0 := GONE];
    assert SweepMissing(t, "s", {}, 1) == MarkMissing(Sweep(t, 0), Runs.NOTE_AT);
    assert Locators([]) == {};
  }

  lemma {:induction false} SyncThird()
    requires AFTER_SECOND.bindings.Valid() && AFTER_SECOND.records.Valid()
    ensures Drawn(AFTER_SECOND, [NOTE], [1])
    ensures Sync(AFTER_SECOND, Request([NOTE], "c"), [1]).Success?
    ensures Sync(AFTER_SECOND, Request([NOTE], "c"), [1]).value.0 == AFTER_THIRD
  {
    hide SyncNotes;
    KeysDiffer();
    var t := AFTER_SECOND;
    assert SyncByKey([], "c").None?;
    assert SyncByKey([FIRST], "c").None? by { assert [FIRST][..0] == []; }
    assert SyncByKey(t.syncs, "c").None? by { assert t.syncs[..1] == [FIRST]; }
    ThirdRound();
    var notes := [NOTE];
    var p := SyncNotes(t, "s", notes, [1], 1).tables;
    assert notes[0].path in Locators(notes);
    assert SweepMissing(p, "s", Locators(notes), 0) == Sweep(p, 0);
    assert SweepMissing(p, "s", Locators(notes), 1) == Sweep(p, 0);
  }

  lemma {:induction false} ThirdRound()
    requires AFTER_SECOND.bindings.Valid()
    ensures SyncNotes(AFTER_SECOND, "s", [NOTE], [1], 1).tables == AFTER_THIRD.(syncs := [FIRST, SECOND])
    ensures var p := SyncNotes(AFTER_SECOND, "s", [NOTE], [1], 1); p.created == 0 && p.revised == 1 && p.kept == 0
  {
    var t, notes := AFTER_SECOND, [NOTE];
    var p := SyncNotes(t, "s", notes, [1], 1);
    NoRound(t, "s", notes, [1]);
    NextRound(t, "s", notes, [1], 0);
    assert p == SyncNote(Progress(t, 0, 0, 0, []), "s", notes[0], Locators(notes), 1);
    assert p.tables.records.rows == map[0 := HERE];
    assert p.tables.bindings.rows == BOUND.rows;
  }

  lemma {:induction false} ApprovalAccepted()
    ensures Review(AFTER_THIRD, Runs.Approve(0, "a").review).Success?
    ensures Review(AFTER_THIRD, Runs.Approve(0, "a").review).value.0
      == AFTER_THIRD.(reviews := [ReviewRow("a", "a", 0, Sha256("1"), Approved, None)])
  {
  }

  lemma {:induction false} Disagreement(t: Tables)
    requires t == AFTER_THIRD.(reviews := [ReviewRow("a", "a", 0, Sha256("1"), Approved, None)])
    ensures RecallMaySelect(t, 0, Sha256("1"))
    ensures ExplainRevision(t, 0, Sha256("1")).Some? && ExplainRevision(t, 0, Sha256("1")).value.reason == MissingSource
  {
    assert GetRevision(t, 0, Sha256("1")) == Some(WithReviewState(t.reviews, GONE));
  }

  // A note that vanished and came back unchanged: recall selects it, and its explanation says its source is missing.
  lemma {:induction false} ReturnedNoteIsExplainedAsMissing() returns (ops: seq<Op>)
    ensures Possible(ops)
    ensures RecallMaySelect(After(ops), 0, Sha256("1"))
    ensures ExplainRevision(After(ops), 0, Sha256("1")).Some?
    ensures ExplainRevision(After(ops), 0, Sha256("1")).value.reason == MissingSource
  {
    hide Sync, Review, Drawn, After, ExplainRevision, RecallMaySelect;
    hide AFTER_FIRST, AFTER_SECOND, AFTER_THIRD;
    ops := [];
    StartsEmpty();
    SyncFirst();
    ops := Synchronised(ops, EMPTY, Request([NOTE], "a"), [0]);
    SyncSecond();
    ops := Synchronised(ops, AFTER_FIRST, Request([], "b"), []);
    SyncThird();
    ops := Synchronised(ops, AFTER_SECOND, Request([NOTE], "c"), [1]);
    ApprovalAccepted();
    Runs.Extend(ops, Runs.Approve(0, "a"));
    ops := ops + [Runs.Approve(0, "a")];
    Disagreement(After(ops));
  }

  lemma {:induction false} StartsEmpty()
    ensures Possible([]) && After([]) == EMPTY
  {
  }

  lemma {:induction false} Synchronised(ops: seq<Op>, t: Tables, q: SyncRequest, unused: seq<RecordId>) returns (more: seq<Op>)
    requires Possible(ops) && After(ops) == t && |unused| == |q.notes| && Drawn(t, q.notes, unused)
    requires t.records.Valid() && t.bindings.Valid() && Sync(t, q, unused).Success?
    ensures Possible(more) && After(more) == Sync(t, q, unused).value.0
    ensures After(more).records.Valid() && After(more).bindings.Valid()
  {
    hide Sync, Drawn, After;
    Runs.Extend(ops, SyncOp(q, unused));
    more := ops + [SyncOp(q, unused)];
    TablesValid(After(more));
  }
}
