/** Whole runs: any interleaving of creations, synchronisations and reviews. */
module MemoryRuns {
  import opened Wrappers
  import opened Relational
  import opened Memory
  import opened MemoryInvariant
  import opened MemorySync
  import opened MemorySweep
  import opened MemoryReview

  datatype Op =
    | CreateOp(id: RecordId, drawn: bool, body: Body, hash: Digest, provenance: Provenance)
    | SyncOp(snapshot: SyncRequest, unused: seq<RecordId>)
    | ReviewOp(review: ReviewRequest)

  // Drawn identities are unused ones, and a snapshot lists each path once.
  ghost predicate Admissible(t: Tables, op: Op) {
    match op
    case CreateOp(id, drawn, _, _, _) => drawn ==> id !in t.records.rows
    case SyncOp(q, unused) => |unused| == |q.notes| && Drawn(t, q.notes, unused)
    case ReviewOp(_) => true
  }

  // The tables after one transaction; a transaction that fails is rolled back.
  ghost function Apply(t: Tables, op: Op): Tables
    requires Inv(t) && Admissible(t, op)
  {
    match op
    case CreateOp(id, drawn, body, hash, provenance) =>
      var r := NativeRecord(id, body, hash, provenance);
      if !BodyFits(body) then t
      else if drawn then Write(t, r)
      else (match CreateExplicit(t, r) case Success(u) => u case Failure(_) => t)
    case SyncOp(q, unused) =>
      (match Sync(t, q, unused) case Success((u, _)) => u case Failure(_) => t)
    case ReviewOp(q) =>
      (match Review(t, q) case Success((u, _)) => u case Failure(_) => t)
  }

  // A creation adds one candidate without touching anything else, or changes nothing.
  lemma {:induction false} CreateOutcome(t: Tables, id: RecordId, drawn: bool, body: Body, hash: Digest, provenance: Provenance)
    requires Inv(t) && Admissible(t, CreateOp(id, drawn, body, hash, provenance))
    ensures var r, u := NativeRecord(id, body, hash, provenance), Apply(t, CreateOp(id, drawn, body, hash, provenance));
      if id in t.records.rows || !BodyFits(body) then u == t
      else u == t.(records := t.records.Put(id, r), revisions := t.revisions + [r]) && r !in t.revisions
  {
    hide BindingsOk, ReviewsOk;
    var r := NativeRecord(id, body, hash, provenance);
    assert id !in t.records.rows ==> r !in t.revisions;
  }

  lemma {:induction false} CreateKeeps(t: Tables, r: Record)
    requires Inv(t) && r.id !in t.records.rows && r.kind == Native && WellSourced(r)
    ensures Inv(t.(records := t.records.Put(r.id, r), revisions := t.revisions + [r]))
  {
    hide ReviewsOk, SyncsOk, BindingsOk, RevisionsOk, RecordsOk;
    var u := t.(records := t.records.Put(r.id, r), revisions := t.revisions + [r]);
    RecordAdded(t, u, r);
    NativeAdded(t, u, r);
    NativeUnbound(t, u, r);
    ReviewsStay(t, u);
    SyncsDepend(t, u);
  }

  lemma {:induction false} SyncsDepend(t: Tables, u: Tables)
    requires SyncsOk(t) && t.syncs == u.syncs
    ensures SyncsOk(u)
  {
  }

  lemma {:induction false} RecordAdded(t: Tables, u: Tables, r: Record)
    requires RecordsOk(t) && WellSourced(r) && u.records == t.records.Put(r.id, r)
    ensures RecordsOk(u)
  {
    PutValid(t.records, r.id, r);
  }

  // What the invariant says of one current record and of one stored revision.
  lemma {:induction false} RevisionFacts(t: Tables, id: RecordId, v: Record)
    requires RevisionsOk(t)
    ensures id in t.records.rows ==> t.records.rows[id] in t.revisions
    ensures v in t.revisions ==> RevisionFits(t, v)
  {
    hide WellSourced, NoDuplicates;
  }

  predicate RevisionFits(t: Tables, v: Record) {
    && v.id in t.records.rows
    && WellSourced(v)
    && v.kind == t.records.rows[v.id].kind
    && (v.kind == Native ==> v == t.records.rows[v.id])
  }

  lemma {:induction false} RevisionsFit(u: Tables)
    requires NoDuplicates(u.revisions)
    requires forall id :: id in u.records.rows ==> u.records.rows[id] in u.revisions
    requires forall v :: v in u.revisions ==> RevisionFits(u, v)
    ensures RevisionsOk(u)
  {
    hide WellSourced, NoDuplicates;
  }

  lemma {:induction false} CurrentStored(t: Tables, u: Tables, r: Record)
    requires RevisionsOk(t) && u.records.rows == t.records.rows[r.id := r] && u.revisions == t.revisions + [r]
    ensures forall id :: id in u.records.rows ==> u.records.rows[id] in u.revisions
  {
    hide RevisionsOk;
    forall id | id in u.records.rows
      ensures u.records.rows[id] in u.revisions
    {
      RevisionFacts(t, id, r);
    }
  }

  lemma {:induction false} RevisionStillFits(t: Tables, u: Tables, r: Record, v: Record)
    requires RevisionsOk(t) && r.id !in t.records.rows && r.kind == Native && WellSourced(r)
    requires u.records.rows == t.records.rows[r.id := r] && (v in t.revisions || v == r)
    ensures RevisionFits(u, v)
  {
    hide RevisionsOk, WellSourced;
    RevisionFacts(t, r.id, v);
  }

  lemma {:induction false} NativeAdded(t: Tables, u: Tables, r: Record)
    requires RevisionsOk(t) && r.id !in t.records.rows && r.kind == Native && WellSourced(r)
    requires u.records.rows == t.records.rows[r.id := r] && u.revisions == t.revisions + [r]
    ensures RevisionsOk(u)
  {
    hide WellSourced, RevisionsOk, NoDuplicates, RevisionFits;
    NewRevisionsDistinct(t, r);
    forall v | v in u.revisions
      ensures RevisionFits(u, v)
    {
      RevisionStillFits(t, u, r, v);
    }
    CurrentStored(t, u, r);
    RevisionsFit(u);
  }

  lemma {:induction false} NewRevisionsDistinct(t: Tables, r: Record)
    requires RevisionsOk(t) && r.id !in t.records.rows
    ensures NoDuplicates(t.revisions + [r])
  {
    RevisionFacts(t, r.id, r);
    assert NoDuplicates(t.revisions);
    hide RevisionsOk;
    Distinct(t.revisions, r);
  }

  lemma {:induction false} Distinct<T>(s: seq<T>, x: T)
    requires NoDuplicates(s) && x !in s
    ensures NoDuplicates(s + [x])
  {
  }

  lemma {:induction false} NativeUnbound(t: Tables, u: Tables, r: Record)
    requires BindingsOk(t) && r.id !in t.records.rows && r.kind == Native
    requires u.records.rows == t.records.rows[r.id := r] && u.bindings == t.bindings
    ensures BindingsOk(u)
  {
    forall id | id in u.records.rows && u.records.rows[id].kind == Obsidian
      ensures u.records.rows[id].sourcePath.Some?
      ensures BoundAt(u, Place(u.records.rows[id].sourceKey, u.records.rows[id].sourcePath.value), id)
    {
      assert BoundAt(t, Place(t.records.rows[id].sourceKey, t.records.rows[id].sourcePath.value), id);
    }
  }

  // ---------- synchronisation as a transaction ----------

  lemma {:induction false} SyncLookup(syncs: seq<SyncRow>, key: Key)
    ensures SyncByKey(syncs, key).None? <==> forall row :: row in syncs ==> row.key != key
    ensures SyncByKey(syncs, key).Some? ==> SyncByKey(syncs, key).value in syncs && SyncByKey(syncs, key).value.key == key
  {
    if |syncs| > 0 {
      SyncLookup(syncs[..|syncs| - 1], key);
      assert syncs == syncs[..|syncs| - 1] + [syncs[|syncs| - 1]];
    }
  }

  // An accepted synchronisation repeats a logged one and changes nothing, or is logged under a new key and event.
  lemma {:induction false} SyncOutcome(t: Tables, q: SyncRequest, unused: seq<RecordId>)
    requires Inv(t) && |unused| == |q.notes| && Sync(t, q, unused).Success?
    ensures var (u, r) := Sync(t, q, unused).value;
      || (u == t && exists row :: row in t.syncs && row.key == q.key && row.event == q.event)
      || (&& (forall row :: row in t.syncs ==> row.key != q.key && row.event != q.event)
          && NotesFit(q.notes)
          && var p, s := SyncNotes(t, q.source, q.notes, unused, |q.notes|), Synced(t, q.source, q.notes, unused);
          && u == s.tables.(syncs := s.tables.syncs + [SyncRow(q.event, q.key, q.source, q.snapshot, p.created, p.revised, p.kept, s.missing, q.issues)])
          && r == SyncResult(p.synchronized, p.created, p.revised, p.kept, s.missing, q.issues))
  {
    hide RecordsOk, RevisionsOk, ReviewsOk, SyncsOk;
    SyncLookup(t.syncs, q.key);
  }

  // No synchronisation is logged under the key or the event of the request.
  predicate NewSync(t: Tables, q: SyncRequest) {
    forall row :: row in t.syncs ==> row.key != q.key && row.event != q.event
  }

  predicate RepeatsSync(t: Tables, q: SyncRequest) {
    exists row :: row in t.syncs && row.key == q.key && row.event == q.event && row.source == q.source && row.snapshot == q.snapshot
  }

  // A synchronisation succeeds exactly when its key is portable and it repeats a logged one, or is new and each of its
  // notes makes a record; only the latter changes the store. One note that makes none fails a new synchronisation whole.
  lemma {:induction false} SyncSucceedsExactly(t: Tables, q: SyncRequest, unused: seq<RecordId>)
    requires Inv(t) && Admissible(t, SyncOp(q, unused))
    ensures Sync(t, q, unused).Success? <==> PortableToken(q.key) && (RepeatsSync(t, q) || (NewSync(t, q) && NotesFit(q.notes)))
    ensures Apply(t, SyncOp(q, unused)) != t <==> PortableToken(q.key) && NewSync(t, q) && NotesFit(q.notes)
    ensures Sync(t, q, unused) == Failure(InvalidRecord) <==> PortableToken(q.key) && NewSync(t, q) && !NotesFit(q.notes)
  {
    SyncLookup(t.syncs, q.key);
    var found := SyncByKey(t.syncs, q.key);
    if found.Some? { OneSyncPerKey(t, found.value, q.key); }
    if Sync(t, q, unused).Success? { LogGrows(t, q, unused); }
    hide Inv, PortableToken, NotesFit, SyncNotes, SweepMissing, Locators, SyncByKey, OfSource;
  }

  lemma {:induction false} OneSyncPerKey(t: Tables, found: SyncRow, key: Key)
    requires Inv(t) && found in t.syncs && found.key == key
    ensures forall row :: row in t.syncs && row.key == key ==> row == found
  {
    hide RecordsOk, RevisionsOk, BindingsOk, ReviewsOk;
    var i :| 0 <= i < |t.syncs| && t.syncs[i] == found;
    forall row | row in t.syncs && row.key == key
      ensures row == found
    {
      var j :| 0 <= j < |t.syncs| && t.syncs[j] == row;
      assert i == j;
    }
  }

  lemma {:induction false} LogGrows(t: Tables, q: SyncRequest, unused: seq<RecordId>)
    requires Inv(t) && Admissible(t, SyncOp(q, unused)) && Sync(t, q, unused).Success?
    ensures Sync(t, q, unused).value.0 == t || |Sync(t, q, unused).value.0.syncs| == |t.syncs| + 1
    ensures SyncByKey(t.syncs, q.key).None? ==> Sync(t, q, unused).value.0 != t
  {
    hide Inv, Drawn, SyncNotes, SweepMissing, Locators, SyncByKey, OfSource, PortableToken;
    TablesValid(t);
    LoopKeepsLog(t, q.source, q.notes, unused, |q.notes|);
  }

  lemma {:induction false} LoopKeepsLog(t: Tables, key: SourceKey, notes: seq<Note>, unused: seq<RecordId>, n: nat)
    requires t.bindings.Valid() && |unused| == |notes| && n <= |notes|
    ensures SyncNotes(t, key, notes, unused, n).tables.syncs == t.syncs
  {
    hide Identify, Rebind, Locators;
    if n > 0 { LoopKeepsLog(t, key, notes, unused, n - 1); }
  }

  // A synchronisation whose key is already logged changes no table; it is accepted exactly when the logged row
  // names the same event, source and snapshot, and it then reports the counts of that row.
  lemma {:induction false} SyncReplay(t: Tables, q: SyncRequest, unused: seq<RecordId>, logged: SyncRow)
    requires Inv(t) && |unused| == |q.notes| && PortableToken(q.key) && logged in t.syncs && logged.key == q.key
    ensures Sync(t, q, unused).Success?
      <==> logged.event == q.event && logged.source == q.source && logged.snapshot == q.snapshot
    ensures var s := Sync(t, q, unused);
      && (s.Failure? ==> s.error == SyncConflict)
      && (s.Success? ==> s.value.0 == t && s.value.1 == SyncResult(
        OfSource(List(t), q.source), logged.created, logged.revised, logged.kept, logged.missing, logged.issues))
  {
    hide RecordsOk, RevisionsOk, BindingsOk, ReviewsOk;
    TablesValid(t);
    SyncLookup(t.syncs, q.key);
    var found := SyncByKey(t.syncs, q.key).value;
    var i :| 0 <= i < |t.syncs| && t.syncs[i] == logged;
    var j :| 0 <= j < |t.syncs| && t.syncs[j] == found;
    assert i == j;
  }

  lemma {:induction false} SyncKeeps(t: Tables, q: SyncRequest, unused: seq<RecordId>)
    requires Inv(t) && |unused| == |q.notes| && Drawn(t, q.notes, unused) && Sync(t, q, unused).Success?
    ensures Inv(Sync(t, q, unused).value.0)
  {
    SyncOutcome(t, q, unused);
    var u := Sync(t, q, unused).value.0;
    if u != t {
      hide RecordsOk, RevisionsOk, ReviewsOk, IdentitiesKept, Drawn, Sync, Synced;
      SyncFrames(t, q.source, q.notes, unused);
      var s := Synced(t, q.source, q.notes, unused).tables;
      ReviewsStay(t, s);
      LoggedKeeps(t, s, u);
    }
  }

  lemma {:induction false} LoggedKeeps(t: Tables, s: Tables, u: Tables)
    requires SyncsOk(t) && CoreOk(s) && ReviewsOk(s) && s.syncs == t.syncs
    requires |u.syncs| > 0 && u == s.(syncs := s.syncs + [u.syncs[|u.syncs| - 1]])
    requires forall row :: row in t.syncs ==> row.key != u.syncs[|u.syncs| - 1].key && row.event != u.syncs[|u.syncs| - 1].event
    ensures Inv(u)
  {
    assert RecordsOk(u) && RevisionsOk(u) by { hide BindingsOk; }
    BindingsUnaffected(s, u);
    ReviewsStay(s, u);
  }

  lemma {:induction false} ApplyKeeps(t: Tables, op: Op)
    requires Inv(t) && Admissible(t, op)
    ensures Inv(Apply(t, op))
  {
    hide Inv;
    match op
    case CreateOp(id, drawn, body, hash, provenance) =>
      CreateOutcome(t, id, drawn, body, hash, provenance);
      if id !in t.records.rows && BodyFits(body) { CreateKeeps(t, NativeRecord(id, body, hash, provenance)); }
    case SyncOp(q, unused) =>
      TablesValid(t);
      if Sync(t, q, unused).Success? { SyncKeeps(t, q, unused); }
    case ReviewOp(q) =>
      if Review(t, q).Success? { ReviewKeeps(t, q); }
  }

  lemma {:induction false} TablesValid(t: Tables)
    requires Inv(t)
    ensures t.records.Valid() && t.bindings.Valid()
  {
  }

  // ---------- runs ----------

  // The sequences of transactions in which every drawn identity is new at its moment.
  ghost predicate Possible(ops: seq<Op>)
    decreases |ops|, 0
  {
    |ops| > 0 ==> Possible(ops[..|ops| - 1]) && Admissible(After(ops[..|ops| - 1]), ops[|ops| - 1])
  }

  // The tables a run reaches. Every reachable state satisfies the invariant.
  ghost function After(ops: seq<Op>): (t: Tables)
    requires Possible(ops)
    ensures Inv(t)
    decreases |ops|, 1
  {
    if |ops| == 0 then
      EmptyIsConsistent();
      EMPTY
    else
      ApplyKeeps(After(ops[..|ops| - 1]), ops[|ops| - 1]);
      Apply(After(ops[..|ops| - 1]), ops[|ops| - 1])
  }

  lemma {:induction false} EmptyIsConsistent()
    ensures Inv(EMPTY)
  {
  }
}
