/** Runs that show what does not hold: replacements that return to a record, approvals that are lost, a note that fails its source. */
module MemoryCounterexamples {
  import opened Wrappers
  import opened Relational
  import opened Memory
  import opened MemoryInvariant
  import opened MemorySync
  import opened MemorySweep
  import opened MemoryReview
  import opened MemoryRuns

  const BLANK := Body(Text("t", [], 1), Text("c", [], 1), Text("k", [], 1), [], [], [], [])

  function VersionOfNote(text: string): Note {
    Note("n", NoStatus, Sha256(text), BLANK)
  }

  function Snapshot(text: string, key: string): SyncRequest {
    SyncRequest("s", [VersionOfNote(text)], key, key, Sha256(text), 0)
  }

  function Approve(id: RecordId, key: string): Op {
    ReviewOp(ReviewRequest(id, Approved, key, key, None))
  }

  function ReplaceBy(id: RecordId, other: RecordId, key: string): Op {
    ReviewOp(ReviewRequest(id, Superseded, key, key, Some(other)))
  }

  // A synced note (record 0) and a native record (1), both approved.
  const NOTE_AT := Place("s", "n")

  function Synced1(text: string): Record { NoteRecord(0, "s", VersionOfNote(text)) }

  const NATIVE := NativeRecord(1, BLANK, Sha256("w"), NO_PROVENANCE)

  function LogRow(n: nat): ReviewRow {
    match n
    case 0 => ReviewRow("A", "A", 0, Sha256("1"), Approved, None)
    case 1 => ReviewRow("B", "B", 1, Sha256("w"), Approved, None)
    case 2 => ReviewRow("C", "C", 0, Sha256("1"), Superseded, Some(1))
    case 3 => ReviewRow("D", "D", 0, Sha256("2"), Approved, None)
    case _ => ReviewRow("E", "E", 1, Sha256("w"), Superseded, Some(0))
  }

  function Log(n: nat): seq<ReviewRow> {
    if n == 0 then [] else Log(n - 1) + [LogRow(n - 1)]
  }

  lemma {:induction false} LogStep(n: nat, id: RecordId, hash: Digest, key: Key)
    ensures LatestReview(Log(n + 1), id, hash)
         == (if LogRow(n).record == id && LogRow(n).hash == hash then Some(LogRow(n)) else LatestReview(Log(n), id, hash))
    ensures ReviewByKey(Log(n + 1), key) == (if LogRow(n).key == key then Some(LogRow(n)) else ReviewByKey(Log(n), key))
  {
    assert Log(n + 1)[..|Log(n + 1)| - 1] == Log(n);
  }

  const FIRST_SYNC := SyncRow("a", "a", "s", Sha256("1"), 1, 0, 0, 0, 0)
  const SECOND_SYNC := SyncRow("b", "b", "s", Sha256("2"), 0, 1, 0, 0, 0)

  function Stage1(n: nat): Tables
    requires n <= 3
  {
    Tables(Table(map[0 := Synced1("1"), 1 := NATIVE], [0, 1]), [Synced1("1"), NATIVE], Log(n),
           Table(map[NOTE_AT := Binding(Sha256("1"), 0)], [NOTE_AT]), [FIRST_SYNC])
  }

  function Stage2(n: nat): Tables
    requires 3 <= n <= 5
  {
    Tables(Table(map[0 := Synced1("2"), 1 := NATIVE], [0, 1]), [Synced1("1"), NATIVE, Synced1("2")], Log(n),
           Table(map[NOTE_AT := Binding(Sha256("2"), 0)], [NOTE_AT]), [FIRST_SYNC, SECOND_SYNC])
  }

  lemma {:induction false} FirstSync()
    ensures Drawn(EMPTY, Snapshot("1", "a").notes, [0])
    ensures Sync(EMPTY, Snapshot("1", "a"), [0]).Success?
    ensures Sync(EMPTY, Snapshot("1", "a"), [0]).value.0
      == Tables(Table(map[0 := Synced1("1")], [0]), [Synced1("1")], [], Table(map[NOTE_AT := Binding(Sha256("1"), 0)], [NOTE_AT]), [FIRST_SYNC])
  {
    var q := Snapshot("1", "a");
    var p := SyncNotes(EMPTY, "s", q.notes, [0], 1);
    assert p == SyncNote(Progress(EMPTY, 0, 0, 0, []), "s", q.notes[0], Locators(q.notes), 0);
    assert Vanished(EMPTY.bindings, "s", Sha256("1"), Locators(q.notes), 0) == [];
    assert p.tables.bindings == Table(map[NOTE_AT := Binding(Sha256("1"), 0)], [NOTE_AT]);
    assert q.notes[0].path in Locators(q.notes);
    assert SweepMissing(p.tables, "s", Locators(q.notes), 0) == Sweep(p.tables, 0);
    assert SweepMissing(p.tables, "s", Locators(q.notes), 1) == Sweep(p.tables, 0);
  }

  lemma {:induction false} SecondRound()
    requires Stage1(3).bindings.Valid()
    ensures var p := SyncNotes(Stage1(3), "s", Snapshot("2", "b").notes, [2], 1);
      && p.tables == Stage2(3).(syncs := [FIRST_SYNC])
      && p.created == 0 && p.revised == 1 && p.kept == 0
  {
    hide Log;
    var t, notes := Stage1(3), Snapshot("2", "b").notes;
    assert "1" != "2" by { assert "1"[0] != "2"[0]; }
    var p := SyncNotes(t, "s", notes, [2], 1);
    assert p == SyncNote(Progress(t, 0, 0, 0, []), "s", notes[0], Locators(notes), 2);
    assert p.tables.records.rows == map[0 := Synced1("2"), 1 := NATIVE];
    assert p.tables.bindings.rows == map[NOTE_AT := Binding(Sha256("2"), 0)];
  }

  lemma {:induction false} SecondSync()
    requires Stage1(3).bindings.Valid() && Stage1(3).records.Valid()
    ensures Drawn(Stage1(3), Snapshot("2", "b").notes, [2])
    ensures Sync(Stage1(3), Snapshot("2", "b"), [2]).Success?
    ensures Sync(Stage1(3), Snapshot("2", "b"), [2]).value.0 == Stage2(3)
  {
    hide Log, SyncNote, NoteRecord;
    var t, q := Stage1(3), Snapshot("2", "b");
    assert "a" != "b" by { assert "a"[0] != "b"[0]; }
    assert SyncByKey([], "b").None?;
    assert SyncByKey(t.syncs, "b").None?;
    SecondRound();
    var p := SyncNotes(t, "s", q.notes, [2], 1).tables;
    assert q.notes[0].path in Locators(q.notes);
    assert SweepMissing(p, "s", Locators(q.notes), 0) == Sweep(p, 0);
    assert SweepMissing(p, "s", Locators(q.notes), 1) == Sweep(p, 0);
  }

  // ---------- the reviews of the run ----------

  lemma {:induction false} KeysDiffer()
    ensures "A" != "B" && "A" != "C" && "A" != "D" && "A" != "E" && "B" != "C" && "B" != "D" && "B" != "E"
    ensures "C" != "D" && "C" != "E" && "D" != "E" && "1" != "2" && "1" != "w" && "2" != "w"
  {
    assert "A"[0] == 'A' && "B"[0] == 'B' && "C"[0] == 'C' && "D"[0] == 'D' && "E"[0] == 'E';
    assert "1"[0] == '1' && "2"[0] == '2' && "w"[0] == 'w';
  }

  // The row with number n is new to the log before it.
  lemma {:induction false} NewToLog(n: nat, m: nat)
    requires n <= m < 5
    ensures ReviewByKey(Log(n), LogRow(m).key).None?
    ensures forall row :: row in Log(n) ==> row.event != LogRow(m).event
  {
    hide LogRow;
    if n > 0 {
      NewToLog(n - 1, m);
      LogStep(n - 1, 0, Sha256(""), LogRow(m).key);
      RowsDiffer(n - 1, m);
    }
  }

  lemma {:induction false} RowsDiffer(n: nat, m: nat)
    requires n < m < 5
    ensures LogRow(n).key != LogRow(m).key && LogRow(n).event != LogRow(m).event
  {
    KeysDiffer();
  }

  lemma {:induction false} LogLookups()
    ensures LatestReview(Log(0), 0, Sha256("1")) == None
    ensures LatestReview(Log(1), 1, Sha256("w")) == None
    ensures LatestReview(Log(2), 0, Sha256("1")) == Some(LogRow(0)) && LatestReview(Log(2), 1, Sha256("w")) == Some(LogRow(1))
    ensures LatestReview(Log(3), 0, Sha256("2")) == None
    ensures LatestReview(Log(4), 0, Sha256("2")) == Some(LogRow(3)) && LatestReview(Log(4), 1, Sha256("w")) == Some(LogRow(1))
  {
    KeysDiffer();
    LogStep(0, 1, Sha256("w"), "");
    LogStep(0, 0, Sha256("1"), "");
    LogStep(1, 0, Sha256("1"), "");
    LogStep(1, 1, Sha256("w"), "");
    LogStep(0, 0, Sha256("2"), "");
    LogStep(1, 0, Sha256("2"), "");
    LogStep(2, 0, Sha256("2"), "");
    LogStep(3, 0, Sha256("2"), "");
    LogStep(2, 1, Sha256("w"), "");
    LogStep(3, 1, Sha256("w"), "");
  }

  lemma {:induction false} Accepted(t: Tables, n: nat, q: ReviewRequest)
    requires n < 5 && t.reviews == Log(n) && q.record in t.records.rows
    requires LogRow(n) == RowOf(t, q) && PortableToken(q.key) && q.decision in {Approved, Superseded}
    requires TransitionAllowed(t, WithReviewState(t.reviews, t.records.rows[q.record]), q)
    ensures Review(t, q).Success? && Review(t, q).value.0 == t.(reviews := Log(n + 1))
  {
    hide TransitionAllowed;
    NewToLog(n, n);
  }

  lemma {:induction false} FirstReviews()
    ensures Review(Stage1(0), Approve(0, "A").review).Success? && Review(Stage1(0), Approve(0, "A").review).value.0 == Stage1(1)
    ensures Review(Stage1(1), Approve(1, "B").review).Success? && Review(Stage1(1), Approve(1, "B").review).value.0 == Stage1(2)
  {
    hide Log, Review;
    LogLookups();
    Accepted(Stage1(0), 0, Approve(0, "A").review);
    Accepted(Stage1(1), 1, Approve(1, "B").review);
  }

  lemma {:induction false} ReplacingReview()
    ensures Review(Stage1(2), ReplaceBy(0, 1, "C").review).Success?
    ensures Review(Stage1(2), ReplaceBy(0, 1, "C").review).value.0 == Stage1(3)
  {
    hide Log, Review;
    LogLookups();
    Accepted(Stage1(2), 2, ReplaceBy(0, 1, "C").review);
  }

  lemma {:induction false} LastReviews()
    ensures Review(Stage2(3), Approve(0, "D").review).Success? && Review(Stage2(3), Approve(0, "D").review).value.0 == Stage2(4)
    ensures Review(Stage2(4), ReplaceBy(1, 0, "E").review).Success?
    ensures Review(Stage2(4), ReplaceBy(1, 0, "E").review).value.0 == Stage2(5)
  {
    hide Log, Review;
    LogLookups();
    Accepted(Stage2(3), 3, Approve(0, "D").review);
    Accepted(Stage2(4), 4, ReplaceBy(1, 0, "E").review);
  }

  // ---------- the run ----------

  lemma {:induction false} Extend(ops: seq<Op>, op: Op)
    requires Possible(ops) && Admissible(After(ops), op)
    ensures Possible(ops + [op]) && After(ops + [op]) == Apply(After(ops), op)
  {
    hide Admissible, Apply;
    assert (ops + [op])[..|ops|] == ops;
  }

  lemma {:induction false} Setup() returns (ops: seq<Op>)
    ensures Possible(ops) && After(ops) == Stage1(0)
  {
    hide Sync, Synced1, Log, Write, CreateExplicit, Inv, Drawn;
    ops := [];
    FirstSync();
    Extend(ops, SyncOp(Snapshot("1", "a"), [0]));
    ops := ops + [SyncOp(Snapshot("1", "a"), [0])];
    CreateOutcome(After(ops), 1, true, BLANK, Sha256("w"), NO_PROVENANCE);
    Extend(ops, CreateOp(1, true, BLANK, Sha256("w"), NO_PROVENANCE));
    NativeSetUp(After(ops));
    ops := ops + [CreateOp(1, true, BLANK, Sha256("w"), NO_PROVENANCE)];
  }

  lemma {:induction false} NativeSetUp(t: Tables)
    requires t == Tables(Table(map[0 := Synced1("1")], [0]), [Synced1("1")], [], Table(map[NOTE_AT := Binding(Sha256("1"), 0)], [NOTE_AT]), [FIRST_SYNC])
    ensures t.(records := t.records.Put(1, NATIVE), revisions := t.revisions + [NATIVE]) == Stage1(0)
  {
    assert Stage1(0).reviews == [];
  }

  lemma {:induction false} BothApproved() returns (ops: seq<Op>)
    ensures Possible(ops) && After(ops) == Stage1(2)
  {
    hide Stage1, Sync, Review, After;
    ops := Setup();
    FirstReviews();
    Extend(ops, Approve(0, "A"));
    ops := ops + [Approve(0, "A")];
    Extend(ops, Approve(1, "B"));
    ops := ops + [Approve(1, "B")];
  }

  lemma {:induction false} Replaced() returns (ops: seq<Op>)
    ensures Possible(ops) && After(ops) == Stage1(3)
  {
    hide Stage1, Sync, Review, After;
    ops := BothApproved();
    ReplacingReview();
    Extend(ops, ReplaceBy(0, 1, "C"));
    ops := ops + [ReplaceBy(0, 1, "C")];
  }

  // A content that was current and approved is superseded by one more review.
  lemma {:induction false} ApprovalIsLost() returns (ops: seq<Op>, review: Op)
    ensures Possible(ops) && Possible(ops + [review])
    ensures Get(After(ops), 0).Some? && Get(After(ops), 0).value.hash == Sha256("1") && Get(After(ops), 0).value.authority == Approved
    ensures Get(After(ops + [review]), 0).Some? && Get(After(ops + [review]), 0).value.authority == Superseded
  {
    review := ReplaceBy(0, 1, "C");
    ops := BothApproved();
    ReplacingReview();
    Extend(ops, review);
    LogStep(0, 0, Sha256("1"), "A");
    LogStep(1, 0, Sha256("1"), "A");
    LogStep(2, 0, Sha256("1"), "A");
    hide Sync, Review, After, Possible, Log, LatestReview;
  }

  // ---------- a note that makes no record ----------

  const LONG_HEADING := seq(513, i => 'x')

  // Two notes, of which the second has a first heading of 513 characters.
  const MIXED := SyncRequest("s", [VersionOfNote("1"), Note("m", NoStatus, Sha256("2"), BLANK.(title := Text(LONG_HEADING, [], 1)))], "a", "a", Sha256("1"), 0)

  // The synchronisation of both stores nothing, and that of the first alone stores it.
  lemma {:induction false} OneNoteFailsAll()
    ensures Possible([SyncOp(MIXED, [0, 1])]) && After([SyncOp(MIXED, [0, 1])]) == EMPTY
    ensures Sync(EMPTY, MIXED, [0, 1]) == Failure(InvalidRecord) && BodyFits(MIXED.notes[0].body)
    ensures Possible([SyncOp(Snapshot("1", "a"), [0])]) && After([SyncOp(Snapshot("1", "a"), [0])]).records.rows == map[0 := Synced1("1")]
  {
    FirstSync();
    MixedUnfit();
    hide Sync, Inv, Drawn, Synced1, After, Possible, BodyFits, MIXED;
    NothingYet();
    Extend([], SyncOp(MIXED, [0, 1]));
    Extend([], SyncOp(Snapshot("1", "a"), [0]));
    assert [] + [SyncOp(MIXED, [0, 1])] == [SyncOp(MIXED, [0, 1])];
    assert [] + [SyncOp(Snapshot("1", "a"), [0])] == [SyncOp(Snapshot("1", "a"), [0])];
  }

  lemma {:induction false} NothingYet()
    ensures Possible([]) && After([]) == EMPTY
  {
  }

  lemma {:induction false} MixedUnfit()
    ensures |MIXED.notes| == 2 && Drawn(EMPTY, MIXED.notes, [0, 1])
    ensures EMPTY.records.Valid() && EMPTY.bindings.Valid() && Sync(EMPTY, MIXED, [0, 1]) == Failure(InvalidRecord)
    ensures BodyFits(MIXED.notes[0].body)
  {
    hide SyncNotes, SweepMissing;
    assert MIXED.notes[1] in MIXED.notes && !BodyFits(MIXED.notes[1].body);
    assert SyncByKey([], "a").None?;
  }

  // A record can be superseded by another one that was itself superseded by it: replacements are acyclic on
  // revisions, not on record identities.
  lemma {:induction false} ReplacementsCanReturnToARecord() returns (ops: seq<Op>)
    ensures Possible(ops)
    ensures var reviews := After(ops).reviews;
      exists i, j, a, b :: 0 <= i < j < |reviews| && a != b
        && reviews[i].record == a && reviews[i].replacement == Some(b)
        && reviews[j].record == b && reviews[j].replacement == Some(a)
  {
    hide Stage1, Stage2, Sync, Review, After;
    ops := Replaced();
    TablesValid(Stage1(3));
    SecondSync();
    LastReviews();
    Extend(ops, SyncOp(Snapshot("2", "b"), [2]));
    ops := ops + [SyncOp(Snapshot("2", "b"), [2])];
    Extend(ops, Approve(0, "D"));
    ops := ops + [Approve(0, "D")];
    Extend(ops, ReplaceBy(1, 0, "E"));
    ops := ops + [ReplaceBy(1, 0, "E")];
    LastLog();
  }

  lemma {:induction false} LastLog()
    ensures var reviews := Stage2(5).reviews;
      |reviews| == 5 && reviews[2] == LogRow(2) && reviews[4] == LogRow(4)
  {
    assert Log(3) == Log(2) + [LogRow(2)];
    assert Log(5) == Log(3) + [LogRow(3)] + [LogRow(4)];
  }
}
