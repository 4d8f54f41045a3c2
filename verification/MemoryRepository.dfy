/** The repository object: five tables that its transactions update in place. */
module MemoryRepository {
  import opened Wrappers
  import opened Relational
  import opened Memory
  import opened MemoryInvariant
  import MemorySync
  import MemoryReview
  import MemoryRuns

  class Repository {
    var records: Table<RecordId, Record>
    var revisions: seq<Record>
    var reviews: seq<ReviewRow>
    var bindings: Table<Place, Binding>
    var syncs: seq<SyncRow>

    ghost function State(): Tables
      reads this
    {
      Tables(records, revisions, reviews, bindings, syncs)
    }

    ghost predicate Valid()
      reads this
    {
      Inv(State())
    }

    constructor ()
      ensures Valid() && State() == EMPTY
    {
      records := Table(map[], []);
      revisions := [];
      reviews := [];
      bindings := Table(map[], []);
      syncs := [];
      new;
      MemoryRuns.EmptyIsConsistent();
    }

    // ---------- reads ----------

    method LatestReview(id: RecordId, hash: Digest) returns (row: Option<ReviewRow>)
      ensures row == Memory.LatestReview(reviews, id, hash)
    {
      assert reviews[..|reviews|] == reviews;
      var n := |reviews|;
      while n > 0
        invariant 0 <= n <= |reviews|
        invariant Memory.LatestReview(reviews, id, hash) == Memory.LatestReview(reviews[..n], id, hash)
      {
        assert reviews[..n][..n - 1] == reviews[..n - 1];
        if reviews[n - 1].record == id && reviews[n - 1].hash == hash {
          return Some(reviews[n - 1]);
        }
        n := n - 1;
      }
      row := None;
    }

    method WithReviewState(r: Record) returns (read: Record)
      ensures read == Memory.WithReviewState(reviews, r)
    {
      var row := LatestReview(r.id, r.hash);
      read := if row.None? then r else r.(authority := row.value.decision);
    }

    method Get(id: RecordId) returns (r: Option<Record>)
      ensures r == Memory.Get(State(), id)
    {
      if id !in records.rows { return None; }
      var read := WithReviewState(records.rows[id]);
      r := Some(read);
    }

    method List() returns (all: seq<Record>)
      requires records.Valid()
      ensures all == Memory.List(State())
    {
      all := [];
      var n := 0;
      while n < |records.order|
        invariant n <= |records.order| && all == ListFirst(State(), n)
      {
        assert records.order[n] in records.order;
        var read := WithReviewState(records.rows[records.order[n]]);
        all := all + [read];
        n := n + 1;
      }
    }

    method GetRevision(id: RecordId, hash: Digest) returns (r: Option<Record>)
      ensures r == Memory.GetRevision(State(), id, hash)
    {
      assert revisions[..|revisions|] == revisions;
      var n := |revisions|;
      while n > 0
        invariant 0 <= n <= |revisions|
        invariant NewestRevision(revisions, id, hash) == NewestRevision(revisions[..n], id, hash)
      {
        assert revisions[..n][..n - 1] == revisions[..n - 1];
        if revisions[n - 1].id == id && revisions[n - 1].hash == hash {
          var read := WithReviewState(revisions[n - 1]);
          return Some(read);
        }
        n := n - 1;
      }
      r := None;
    }

    // ---------- creation ----------

    method WriteRecord(r: Record)
      modifies this`records, this`revisions
      ensures State() == Write(old(State()), r)
    {
      records := records.Put(r.id, r);
      if r !in revisions { revisions := revisions + [r]; }
    }

    // Creates a candidate under the given identity, or under a newly drawn one.
    method CreateNative(id: Option<RecordId>, drawn: RecordId, body: Body, hash: Digest, provenance: Provenance)
      returns (r: Result<Record, Error>)
      requires Valid() && drawn !in records.rows
      modifies this`records, this`revisions
      ensures Valid()
      ensures var who := if id.Some? then id.value else drawn;
        var record := NativeRecord(who, body, hash, provenance);
        if !BodyFits(body) then
          r == Failure(InvalidRecord) && State() == old(State())
        else if who !in old(records.rows) then
          && r == Success(record)
          && State() == old(State()).(records := old(records).Put(who, record), revisions := old(revisions) + [record])
        else
          && State() == old(State())
          && r == if old(records.rows)[who] == record then Success(record) else Failure(CreateConflict)
    {
      ghost var t := State();
      var who := if id.Some? then id.value else drawn;
      var record := NativeRecord(who, body, hash, provenance);
      if !BodyFits(body) { return Failure(InvalidRecord); }
      MemoryRuns.CreateOutcome(t, who, id.None?, body, hash, provenance);
      if who !in records.rows { MemoryRuns.CreateKeeps(t, record); }
      if id.None? {
        WriteRecord(record);
        return Success(record);
      }
      if who in records.rows {
        return if records.rows[who] != record then Failure(CreateConflict) else Success(records.rows[who]);
      }
      records := records.Put(who, record);
      revisions := revisions + [record];
      r := Success(record);
    }

    // ---------- synchronisation ----------

    method VanishedPlaces(key: SourceKey, hash: Digest, current: set<Locator>) returns (gone: seq<Place>)
      ensures gone == Vanished(bindings, key, hash, current, |bindings.order|)
    {
      gone := [];
      for n := 0 to |bindings.order|
        invariant gone == Vanished(bindings, key, hash, current, n)
      {
        var p := bindings.order[n];
        if p in bindings.rows && p.key == key && bindings.rows[p].hash == hash && p.locator !in current {
          gone := gone + [p];
        }
      }
    }

    method SyncNote(key: SourceKey, note: Note, current: set<Locator>, unused: RecordId) returns (isNew: bool, same: bool, read: Record)
      requires bindings.Valid()
      modifies this`records, this`revisions, this`bindings
      ensures forall p: Progress :: p.tables == old(State()) ==>
        Memory.SyncNote(p, key, note, current, unused)
        == Progress(State(), p.created + (if isNew then 1 else 0), p.revised + (if !isNew && !same then 1 else 0),
                    p.kept + (if !isNew && same then 1 else 0), p.synchronized + [read])
    {
      var here := Place(key, note.path);
      var id: RecordId := unused;
      var previous: Option<Place> := None;
      isNew := true;
      if here in bindings.rows {
        id, isNew := bindings.rows[here].record, false;
      } else {
        var gone := VanishedPlaces(key, note.hash, current);
        VanishedMembers(bindings, key, note.hash, current, |bindings.order|);
        if |gone| == 1 {
          assert gone[0] in gone;
          id, previous, isNew := bindings.rows[gone[0]].record, Some(gone[0]), false;
        }
      }
      var record := NoteRecord(id, key, note);
      same := id in records.rows && records.rows[id] == record;
      WriteRecord(record);
      if previous.Some? { bindings := bindings.Delete(previous.value); }
      bindings := bindings.Put(here, Binding(note.hash, id));
      read := WithReviewState(record);
    }

    method SyncByKey(key: Key) returns (row: Option<SyncRow>)
      ensures row == Memory.SyncByKey(syncs, key)
    {
      assert syncs[..|syncs|] == syncs;
      var n := |syncs|;
      while n > 0
        invariant 0 <= n <= |syncs| && Memory.SyncByKey(syncs, key) == Memory.SyncByKey(syncs[..n], key)
      {
        assert syncs[..n][..n - 1] == syncs[..n - 1];
        if syncs[n - 1].key == key { return Some(syncs[n - 1]); }
        n := n - 1;
      }
      row := None;
    }

    // The whole transaction: the tables become those of Memory.Sync, or stay as they are when it fails.
    method SyncObsidian(q: SyncRequest, unused: seq<RecordId>) returns (r: Result<SyncResult, Error>)
      requires Valid() && |unused| == |q.notes| && MemorySync.Drawn(State(), q.notes, unused)
      modifies this`records, this`revisions, this`bindings, this`syncs
      ensures Valid()
      ensures match Sync(old(State()), q, unused)
        case Failure(e) => r == Failure(e) && State() == old(State())
        case Success((u, result)) => r == Success(result) && State() == u
    {
      ghost var t := State();
      MemoryRuns.TablesValid(t);
      if Sync(t, q, unused).Success? { MemoryRuns.SyncKeeps(t, q, unused); }
      hide Inv, Sync, MemorySync.Drawn, OfSource, Memory.SyncByKey, PortableToken;
      if !PortableToken(q.key) {
        SyncRejects(t, q, unused);
        return Failure(InvalidKey);
      }
      var logged := SyncByKey(q.key);
      if logged.Some? {
        SyncRepeats(t, q, unused);
        var row := logged.value;
        if row.event != q.event || row.source != q.source || row.snapshot != q.snapshot { return Failure(SyncConflict); }
        var all := List();
        var mine := OfSource(all, q.source);
        return Success(SyncResult(mine, row.created, row.revised, row.kept, row.missing, row.issues));
      }
      if exists row :: row in syncs && row.event == q.event {
        SyncRejects(t, q, unused);
        return Failure(SyncConflict);
      }
      r := SyncNew(q, unused);
    }

    // A synchronisation that is not logged yet.
    method SyncNew(q: SyncRequest, unused: seq<RecordId>) returns (r: Result<SyncResult, Error>)
      requires records.Valid() && bindings.Valid() && |unused| == |q.notes|
      requires PortableToken(q.key) && Memory.SyncByKey(syncs, q.key).None? && !exists row :: row in syncs && row.event == q.event
      modifies this`records, this`revisions, this`bindings, this`syncs
      ensures match Sync(old(State()), q, unused)
        case Failure(e) => r == Failure(e) && State() == old(State())
        case Success((u, result)) => r == Success(result) && State() == u
    {
      hide SyncNotes, Sync, NotesFit, SweepMissing, Locators, Memory.SyncByKey, PortableToken;
      SyncRuns(State(), q, unused);
      var before := (records, revisions, bindings);
      var written := SyncAllNotes(q, unused);
      if written.None? {
        records, revisions, bindings := before.0, before.1, before.2;
        return Failure(InvalidRecord);
      }
      var p := written.value;
      var missing := MarkAllMissing(q.source, Locators(q.notes));
      syncs := syncs + [SyncRow(q.event, q.key, q.source, q.snapshot, p.0, p.1, p.2, missing, q.issues)];
      r := Success(SyncResult(p.3, p.0, p.1, p.2, missing, q.issues));
    }

    // The loop over the notes; it breaks off at the first note that makes no record.
    method SyncAllNotes(q: SyncRequest, unused: seq<RecordId>) returns (counts: Option<(nat, nat, nat, seq<Record>)>)
      requires bindings.Valid() && |unused| == |q.notes|
      modifies this`records, this`revisions, this`bindings
      ensures counts.Some? <==> NotesFit(q.notes)
      ensures counts.Some? ==> (
        SyncNotes(old(State()), q.source, q.notes, unused, |q.notes|)
        == Progress(State(), counts.value.0, counts.value.1, counts.value.2, counts.value.3))
    {
      ghost var t := State();
      hide SyncNotes, Memory.SyncNote, Locators, BodyFits;
      NoRound(t, q.source, q.notes, unused);
      var current := Locators(q.notes);
      var created, revised, kept := 0, 0, 0;
      var synchronized: seq<Record> := [];
      for n := 0 to |q.notes|
        invariant SyncNotes(t, q.source, q.notes, unused, n) == Progress(State(), created, revised, kept, synchronized)
        invariant forall j :: 0 <= j < n ==> BodyFits(q.notes[j].body)
      {
        assert q.notes[n] in q.notes;
        if !BodyFits(q.notes[n].body) { return None; }
        ghost var before := SyncNotes(t, q.source, q.notes, unused, n);
        NextRound(t, q.source, q.notes, unused, n);
        var isNew, same, read := SyncNote(q.source, q.notes[n], current, unused[n]);
        if isNew {
          created := created + 1;
        } else if same {
          kept := kept + 1;
        } else {
          revised := revised + 1;
        }
        synchronized := synchronized + [read];
        assert Memory.SyncNote(before, q.source, q.notes[n], current, unused[n])
          == Progress(State(), created, revised, kept, synchronized);
      }
      counts := Some((created, revised, kept, synchronized));
    }

    method MarkAllMissing(key: SourceKey, current: set<Locator>) returns (missing: nat)
      requires bindings.Valid()
      modifies this`records, this`revisions
      ensures SweepMissing(old(State()), key, current, |bindings.order|) == Sweep(State(), missing)
    {
      ghost var t := State();
      hide Write;
      missing := 0;
      for n := 0 to |bindings.order|
        invariant SweepMissing(t, key, current, n) == Sweep(State(), missing)
      {
        var place := bindings.order[n];
        if place.key == key && place.locator !in current && place in bindings.rows {
          var id := bindings.rows[place].record;
          if id in records.rows && records.rows[id].status != Missing {
            WriteRecord(records.rows[id].(status := Missing));
            missing := missing + 1;
          }
        }
      }
    }

    // ---------- reviews ----------

    method ReviewByKey(key: Key) returns (row: Option<ReviewRow>)
      ensures row == Memory.ReviewByKey(reviews, key)
    {
      assert reviews[..|reviews|] == reviews;
      var n := |reviews|;
      while n > 0
        invariant 0 <= n <= |reviews| && Memory.ReviewByKey(reviews, key) == Memory.ReviewByKey(reviews[..n], key)
      {
        assert reviews[..n][..n - 1] == reviews[..n - 1];
        if reviews[n - 1].key == key { return Some(reviews[n - 1]); }
        n := n - 1;
      }
      row := None;
    }

    method Review(q: ReviewRequest) returns (r: Result<Record, Error>)
      requires Valid()
      modifies this`reviews
      ensures Valid()
      ensures match Memory.Review(old(State()), q)
        case Failure(e) => r == Failure(e) && State() == old(State())
        case Success((u, record)) => r == Success(record) && State() == u
    {
      ghost var t := State();
      if Memory.Review(t, q).Success? { MemoryReview.ReviewKeeps(t, q); }
      hide Inv;
      if q.decision !in {Approved, Rejected, Superseded} { return Failure(UnsupportedDecision); }
      if !PortableToken(q.key) { return Failure(InvalidKey); }
      var found := Get(q.record);
      if found.None? { return Failure(RecordNotFound); }
      var current := found.value;
      var row := ReviewRow(q.event, q.key, q.record, current.hash, q.decision, q.replacement);
      var existing := ReviewByKey(q.key);
      if existing.Some? {
        return if existing.value != row then Failure(ReviewConflict) else Success(current);
      }
      if q.decision == Approved || q.decision == Rejected {
        if !(current.authority == Candidate || current.authority == Curated) || q.replacement.Some? {
          return Failure(TransitionConflict);
        }
      } else {
        var replacement: Option<Record> := None;
        if q.replacement.Some? { replacement := Get(q.replacement.value); }
        if current.authority != Approved || replacement.None? || q.replacement.value == q.record || replacement.value.authority != Approved {
          return Failure(TransitionConflict);
        }
      }
      if exists other :: other in reviews && other.event == q.event { return Failure(ReviewConflict); }
      reviews := reviews + [row];
      var reviewed := WithReviewState(records.rows[q.record]);
      r := Success(reviewed);
    }
  }

  lemma {:induction false} NoRound(t: Tables, key: SourceKey, notes: seq<Note>, unused: seq<RecordId>)
    requires t.bindings.Valid() && |unused| == |notes|
    ensures SyncNotes(t, key, notes, unused, 0) == Progress(t, 0, 0, 0, [])
  {
  }

  lemma {:induction false} NextRound(t: Tables, key: SourceKey, notes: seq<Note>, unused: seq<RecordId>, n: nat)
    requires t.bindings.Valid() && |unused| == |notes| && n < |notes|
    ensures SyncNotes(t, key, notes, unused, n + 1)
      == SyncNote(SyncNotes(t, key, notes, unused, n), key, notes[n], Locators(notes), unused[n])
  {
  }

  // ---------- the branches of the synchronisation transaction ----------

  lemma {:induction false} SyncRejects(t: Tables, q: SyncRequest, unused: seq<RecordId>)
    requires t.records.Valid() && t.bindings.Valid() && |unused| == |q.notes|
    requires !PortableToken(q.key)
      || (Memory.SyncByKey(t.syncs, q.key).None? && exists row :: row in t.syncs && row.event == q.event)
    ensures Sync(t, q, unused) == Failure(if !PortableToken(q.key) then InvalidKey else SyncConflict)
  {
  }

  lemma {:induction false} SyncRepeats(t: Tables, q: SyncRequest, unused: seq<RecordId>)
    requires t.records.Valid() && t.bindings.Valid() && |unused| == |q.notes|
    requires PortableToken(q.key) && Memory.SyncByKey(t.syncs, q.key).Some?
    ensures var row := Memory.SyncByKey(t.syncs, q.key).value;
      Sync(t, q, unused) ==
        if row.event != q.event || row.source != q.source || row.snapshot != q.snapshot then Failure(SyncConflict)
        else Success((t, SyncResult(OfSource(Memory.List(t), q.source), row.created, row.revised, row.kept, row.missing, row.issues)))
  {
  }

  lemma {:induction false} SyncRuns(t: Tables, q: SyncRequest, unused: seq<RecordId>)
    requires t.records.Valid() && t.bindings.Valid() && |unused| == |q.notes|
    requires PortableToken(q.key) && Memory.SyncByKey(t.syncs, q.key).None?
    requires !exists row :: row in t.syncs && row.event == q.event
    ensures !NotesFit(q.notes) ==> Sync(t, q, unused) == Failure(InvalidRecord)
    ensures var p := SyncNotes(t, q.source, q.notes, unused, |q.notes|);
      var s := SweepMissing(p.tables, q.source, Locators(q.notes), |p.tables.bindings.order|);
      NotesFit(q.notes) ==> Sync(t, q, unused) == Success((
        s.tables.(syncs := s.tables.syncs + [SyncRow(q.event, q.key, q.source, q.snapshot, p.created, p.revised, p.kept, s.missing, q.issues)]),
        SyncResult(p.synchronized, p.created, p.revised, p.kept, s.missing, q.issues)))
  {
  }
}
