/** The second half of a synchronisation: marking what the snapshot no longer has, and the transaction as a whole. */
module MemorySweep {
  import opened Relational
  import opened Memory
  import opened MemoryInvariant
  import opened MemorySync

  function Marked(r: Record): Record {
    r.(status := Missing)
  }

  predicate Lapsed(t: Tables, key: SourceKey, current: set<Locator>, p: Place) {
    p in t.bindings.rows && p.key == key && p.locator !in current
  }

  // The records bound to the first n places whose locator the snapshot lacks.
  ghost function LapsedRecords(t: Tables, key: SourceKey, current: set<Locator>, n: nat): set<RecordId>
    requires n <= |t.bindings.order|
  {
    set i | 0 <= i < n && Lapsed(t, key, current, t.bindings.order[i]) :: t.bindings.rows[t.bindings.order[i]].record
  }

  ghost function NewlyMissing(t: Tables, gone: set<RecordId>): set<RecordId>
    requires gone <= t.records.rows.Keys
  {
    set id | id in gone && t.records.rows[id].status != Missing
  }

  // The sweep marks exactly the lapsed records, counts the ones that were not marked yet, and touches nothing else.
  ghost predicate SweptTo(t: Tables, s: Sweep, gone: set<RecordId>) {
    && CoreOk(s.tables)
    && s.tables.records.rows.Keys == t.records.rows.Keys
    && (forall id :: id in t.records.rows ==>
      s.tables.records.rows[id] == if id in gone then Marked(t.records.rows[id]) else t.records.rows[id])
    && (forall r :: r in t.revisions ==> r in s.tables.revisions)
    && s.tables.bindings == t.bindings
    && gone <= t.records.rows.Keys
    && s.missing == |NewlyMissing(t, gone)|
  }

  lemma {:induction false} SweepReaches(t: Tables, key: SourceKey, current: set<Locator>, n: nat)
    requires CoreOk(t) && n <= |t.bindings.order|
    ensures SweptTo(t, SweepMissing(t, key, current, n), LapsedRecords(t, key, current, n))
  {
    hide CoreOk, SweptTo, MarkMissing, Lapsed;
    if n == 0 {
      SweptAtStart(t);
      assert LapsedRecords(t, key, current, 0) == {};
    } else {
      SweepReaches(t, key, current, n - 1);
      var s, p, gone := SweepMissing(t, key, current, n - 1), t.bindings.order[n - 1], LapsedRecords(t, key, current, n - 1);
      LapsedOneMore(t, key, current, n - 1);
      if p.key == key && p.locator !in current {
        MarkMissingSweeps(t, s, gone, p);
      }
    }
  }

  lemma {:induction false} SweptAtStart(t: Tables)
    requires CoreOk(t)
    ensures SweptTo(t, Sweep(t, 0), {})
  {
    hide CoreOk;
  }

  lemma {:induction false} LapsedOneMore(t: Tables, key: SourceKey, current: set<Locator>, n: nat)
    requires CoreOk(t) && n < |t.bindings.order|
    ensures var p := t.bindings.order[n];
      && p in t.bindings.rows
      && LapsedRecords(t, key, current, n + 1)
         == if p.key == key && p.locator !in current then LapsedRecords(t, key, current, n) + {t.bindings.rows[p].record}
            else LapsedRecords(t, key, current, n)
  {
    hide RecordsOk, RevisionsOk;
    var p := t.bindings.order[n];
    assert p in t.bindings.order;
    assert Lapsed(t, key, current, p) <==> p.key == key && p.locator !in current;
  }

  lemma {:induction false} MarkMissingSweeps(t: Tables, s: Sweep, gone: set<RecordId>, p: Place)
    requires CoreOk(t) && SweptTo(t, s, gone) && p in t.bindings.rows
    ensures SweptTo(t, MarkMissing(s, p), gone + {t.bindings.rows[p].record})
  {
    hide CoreOk, Write;
    var id := t.bindings.rows[p].record;
    BoundRecord(t, p);
    if s.tables.records.rows[id].status == Missing {
      assert NewlyMissing(t, gone + {id}) == NewlyMissing(t, gone);
      assert Marked(t.records.rows[id]) == s.tables.records.rows[id];
    } else {
      assert id !in gone;
      assert NewlyMissing(t, gone + {id}) == NewlyMissing(t, gone) + {id};
      MarkKeeps(s.tables, p);
    }
  }

  lemma {:induction false} BoundRecord(t: Tables, p: Place)
    requires CoreOk(t) && p in t.bindings.rows
    ensures t.bindings.rows[p].record in t.records.rows
  {
  }

  lemma {:induction false} MarkKeeps(t: Tables, p: Place)
    requires CoreOk(t) && p in t.bindings.rows
    ensures var r := Marked(t.records.rows[t.bindings.rows[p].record]);
      && CoreOk(Write(t, r))
      && Write(t, r).records.rows == t.records.rows[t.bindings.rows[p].record := r]
      && Write(t, r).bindings == t.bindings
      && forall v :: v in t.revisions ==> v in Write(t, r).revisions
  {
    var r := Marked(t.records.rows[t.bindings.rows[p].record]);
    WriteKeeps(t, r);
    MarkedBindings(t, Write(t, r), r);
  }

  lemma {:induction false} MarkedBindings(t: Tables, u: Tables, r: Record)
    requires BindingsOk(t) && u.bindings == t.bindings && r.id in t.records.rows
    requires r == Marked(t.records.rows[r.id])
    requires u.records.rows == t.records.rows[r.id := r]
    ensures BindingsOk(u)
  {
    forall id | id in u.records.rows && u.records.rows[id].kind == Obsidian
      ensures u.records.rows[id].sourcePath.Some?
      ensures BoundAt(u, Place(u.records.rows[id].sourceKey, u.records.rows[id].sourcePath.value), id)
    {
      assert BoundAt(t, Place(t.records.rows[id].sourceKey, t.records.rows[id].sourcePath.value), id);
    }
  }

  // ---------- the transaction ----------

  // What a snapshot determines about the tables after it.
  ghost predicate Reflects(t: Tables, u: Tables, key: SourceKey, notes: seq<Note>) {
    && (forall j :: 0 <= j < |notes| ==> Found(u, key, notes[j]))
    && (forall p :: Lapsed(u, key, Locators(notes), p) ==>
      && p in t.bindings.rows
      && u.bindings.rows[p] == t.bindings.rows[p]
      && u.bindings.rows[p].record in t.records.rows
      && u.bindings.rows[p].record in u.records.rows
      && u.records.rows[u.bindings.rows[p].record] == Marked(t.records.rows[u.bindings.rows[p].record]))
  }

  ghost function Synced(t: Tables, key: SourceKey, notes: seq<Note>, unused: seq<RecordId>): Sweep
    requires t.bindings.Valid() && |unused| == |notes|
  {
    var p := SyncNotes(t, key, notes, unused, |notes|);
    SweepMissing(p.tables, key, Locators(notes), |p.tables.bindings.order|)
  }

  lemma {:induction false} SyncedSweep(t: Tables, key: SourceKey, notes: seq<Note>, unused: seq<RecordId>)
    requires t.bindings.Valid() && |unused| == |notes| && Started(t, notes, unused)
    ensures var p := SyncNotes(t, key, notes, unused, |notes|);
      && RoundOk(t, p, unused, |notes|)
      && SweptTo(p.tables, Synced(t, key, notes, unused),
                 LapsedRecords(p.tables, key, Locators(notes), |p.tables.bindings.order|))
  {
    hide Started, CoreOk, SweptTo;
    RoundsKeep(t, key, notes, unused, |notes|);
    var p := SyncNotes(t, key, notes, unused, |notes|);
    SweepReaches(p.tables, key, Locators(notes), |p.tables.bindings.order|);
  }

  // A record bound at a place outside the lapsed ones is not swept; one bound at a lapsed place is.
  lemma {:induction false} SweptIffLapsed(t: Tables, key: SourceKey, current: set<Locator>, p: Place)
    requires CoreOk(t) && p in t.bindings.rows
    ensures t.bindings.rows[p].record in LapsedRecords(t, key, current, |t.bindings.order|)
      <==> Lapsed(t, key, current, p)
  {
    hide RecordsOk, RevisionsOk;
    var id := t.bindings.rows[p].record;
    assert p in t.bindings.order;
    if id in LapsedRecords(t, key, current, |t.bindings.order|) {
      var i :| 0 <= i < |t.bindings.order| && Lapsed(t, key, current, t.bindings.order[i])
        && t.bindings.rows[t.bindings.order[i]].record == id;
      BoundOnce(t, p, t.bindings.order[i], id);
    }
  }

  // After a synchronisation every note is found as it is, and every other place of the source is only marked missing.
  lemma {:induction false} SyncReflects(t: Tables, key: SourceKey, notes: seq<Note>, unused: seq<RecordId>)
    requires t.bindings.Valid() && |unused| == |notes| && Started(t, notes, unused)
    ensures Reflects(t, Synced(t, key, notes, unused).tables, key, notes)
  {
    hide Started, SweptTo, SameElsewhere, CoreOk, Found, SyncNotes, Synced, LapsedRecords, LogsGrow;
    var p := SyncNotes(t, key, notes, unused, |notes|).tables;
    var u := Synced(t, key, notes, unused).tables;
    SyncedSweep(t, key, notes, unused);
    RoundsFound(t, key, notes, unused, |notes|);
    RoundsElsewhere(t, key, notes, unused, |notes|);
    forall j | 0 <= j < |notes|
      ensures Found(u, key, notes[j])
    {
      assert notes[j] in notes;
      FoundAfterSweep(p, Synced(t, key, notes, unused), key, Locators(notes), notes[j]);
    }
    forall q | Lapsed(u, key, Locators(notes), q)
      ensures q in t.bindings.rows && u.bindings.rows[q] == t.bindings.rows[q]
      ensures u.bindings.rows[q].record in t.records.rows && u.bindings.rows[q].record in u.records.rows
      ensures u.records.rows[u.bindings.rows[q].record] == Marked(t.records.rows[u.bindings.rows[q].record])
    {
      LapsedUntouched(key, notes, q);
      MarkedAfterSweep(t, p, Synced(t, key, notes, unused), key, notes, q);
    }
  }

  lemma {:induction false} LapsedUntouched(key: SourceKey, notes: seq<Note>, q: Place)
    requires q.locator !in Locators(notes)
    ensures q !in Places(key, notes, |notes|)
  {
    forall j | 0 <= j < |notes|
      ensures Place(key, notes[j].path) != q
    {
      assert notes[j] in notes;
    }
  }

  lemma {:induction false} FoundAfterSweep(t: Tables, s: Sweep, key: SourceKey, current: set<Locator>, note: Note)
    requires CoreOk(t) && SweptTo(t, s, LapsedRecords(t, key, current, |t.bindings.order|))
    requires Found(t, key, note) && note.path in current
    ensures Found(s.tables, key, note)
  {
    hide CoreOk;
    SweptIffLapsed(t, key, current, Place(key, note.path));
  }

  lemma {:induction false} MarkedAfterSweep(t: Tables, p: Tables, s: Sweep, key: SourceKey, notes: seq<Note>, q: Place)
    requires CoreOk(p) && SweptTo(p, s, LapsedRecords(p, key, Locators(notes), |p.bindings.order|))
    requires SameElsewhere(t, p, Places(key, notes, |notes|))
    requires q !in Places(key, notes, |notes|) && Lapsed(s.tables, key, Locators(notes), q)
    ensures q in t.bindings.rows && s.tables.bindings.rows[q] == t.bindings.rows[q]
    ensures var id := s.tables.bindings.rows[q].record;
      && id in t.records.rows && id in s.tables.records.rows
      && s.tables.records.rows[id] == Marked(t.records.rows[id])
  {
    hide CoreOk;
    assert Lapsed(p, key, Locators(notes), q);
    SweptIffLapsed(p, key, Locators(notes), q);
  }

  // No record is lost, none of another origin changes, and every place still in the snapshot keeps its identity.
  lemma {:induction false} SyncFrames(t: Tables, key: SourceKey, notes: seq<Note>, unused: seq<RecordId>)
    requires t.bindings.Valid() && |unused| == |notes| && Started(t, notes, unused)
    ensures var u := Synced(t, key, notes, unused).tables;
      NoneLost(t, u, key) && IdentitiesKept(t, u, key, Locators(notes)) && LogsGrow(t, u) && CoreOk(u)
  {
    hide Started, SweptTo, NoneLost, IdentitiesKept, CoreOk, LogsGrow;
    SyncedSweep(t, key, notes, unused);
    RoundsLoseNone(t, key, notes, unused, |notes|);
    RoundsIdentities(t, key, notes, unused, |notes|);
    SweepFrames(t, SyncNotes(t, key, notes, unused, |notes|).tables, Synced(t, key, notes, unused), key, Locators(notes));
  }

  lemma {:induction false} SweepFrames(t: Tables, p: Tables, s: Sweep, key: SourceKey, current: set<Locator>)
    requires CoreOk(p) && SweptTo(p, s, LapsedRecords(p, key, current, |p.bindings.order|))
    requires s.tables.reviews == p.reviews && s.tables.syncs == p.syncs
    requires NoneLost(t, p, key) && IdentitiesKept(t, p, key, current) && LogsGrow(t, p)
    ensures NoneLost(t, s.tables, key) && IdentitiesKept(t, s.tables, key, current) && LogsGrow(t, s.tables)
    ensures CoreOk(s.tables)
  {
    hide CoreOk, LapsedRecords;
    forall id | id in LapsedRecords(p, key, current, |p.bindings.order|)
      ensures id in p.records.rows && p.records.rows[id].kind == Obsidian && p.records.rows[id].sourceKey == key
    {
      LapsedIsOfSource(p, key, current, id);
    }
  }

  lemma {:induction false} LapsedIsOfSource(t: Tables, key: SourceKey, current: set<Locator>, id: RecordId)
    requires CoreOk(t) && id in LapsedRecords(t, key, current, |t.bindings.order|)
    ensures id in t.records.rows && t.records.rows[id].kind == Obsidian && t.records.rows[id].sourceKey == key
  {
  }

  // Every note is counted once, the records grow by those created, and the missing are the lapsed ones not yet marked.
  lemma {:induction false} SyncAccounts(t: Tables, key: SourceKey, notes: seq<Note>, unused: seq<RecordId>)
    requires t.bindings.Valid() && |unused| == |notes| && Started(t, notes, unused)
    ensures var p, s := SyncNotes(t, key, notes, unused, |notes|), Synced(t, key, notes, unused);
      var gone := LapsedRecords(s.tables, key, Locators(notes), |s.tables.bindings.order|);
      && p.created + p.revised + p.kept == |notes|
      && |s.tables.records.rows| == |t.records.rows| + p.created
      && gone <= t.records.rows.Keys
      && s.missing == |NewlyMissing(t, gone)|
  {
    hide Started, CoreOk, SameElsewhere, LapsedRecords;
    SyncedSweep(t, key, notes, unused);
    RoundsElsewhere(t, key, notes, unused, |notes|);
    var p, s := SyncNotes(t, key, notes, unused, |notes|), Synced(t, key, notes, unused);
    assert |s.tables.records.rows.Keys| == |p.tables.records.rows.Keys|;
    var gone := LapsedRecords(p.tables, key, Locators(notes), |p.tables.bindings.order|);
    assert LapsedRecords(s.tables, key, Locators(notes), |s.tables.bindings.order|) == gone by {
      LapsedDependsOnBindings(p.tables, s.tables, key, Locators(notes));
    }
    LapsedAlreadyThere(t, p.tables, key, notes);
    assert NewlyMissing(t, gone) == NewlyMissing(p.tables, gone);
  }

  lemma {:induction false} LapsedDependsOnBindings(t: Tables, u: Tables, key: SourceKey, current: set<Locator>)
    requires t.bindings == u.bindings
    ensures LapsedRecords(t, key, current, |t.bindings.order|) == LapsedRecords(u, key, current, |u.bindings.order|)
  {
  }

  lemma {:induction false} LapsedAlreadyThere(t: Tables, p: Tables, key: SourceKey, notes: seq<Note>)
    requires SameElsewhere(t, p, Places(key, notes, |notes|))
    ensures forall id :: id in LapsedRecords(p, key, Locators(notes), |p.bindings.order|) ==>
      id in t.records.rows && id in p.records.rows && t.records.rows[id] == p.records.rows[id]
  {
    forall id | id in LapsedRecords(p, key, Locators(notes), |p.bindings.order|)
      ensures id in t.records.rows && id in p.records.rows && t.records.rows[id] == p.records.rows[id]
    {
      var i :| 0 <= i < |p.bindings.order| && Lapsed(p, key, Locators(notes), p.bindings.order[i])
        && p.bindings.rows[p.bindings.order[i]].record == id;
      LapsedUntouched(key, notes, p.bindings.order[i]);
    }
  }

  // ---------- running the same snapshot again ----------

  lemma {:induction false} NoteUnchanged(p: Progress, key: SourceKey, note: Note, current: set<Locator>, unused: RecordId)
    requires CoreOk(p.tables) && Found(p.tables, key, note)
    ensures var after := SyncNote(p, key, note, current, unused);
      && after.tables == p.tables
      && after.kept == p.kept + 1 && after.created == p.created && after.revised == p.revised
  {
    var t, here := p.tables, Place(key, note.path);
    var id := t.bindings.rows[here].record;
    var r := NoteRecord(id, key, note);
    assert t.records.rows[id := r] == t.records.rows;
    assert t.bindings.rows[here := Binding(note.hash, id)] == t.bindings.rows;
    assert r in t.revisions;
    assert Write(t, r) == t;
    assert Rebind(t.bindings, key, note, Bound(id)) == t.bindings;
  }

  lemma {:induction false} RoundsUnchanged(u: Tables, key: SourceKey, notes: seq<Note>, unused: seq<RecordId>, n: nat)
    requires CoreOk(u) && u.bindings.Valid() && |unused| == |notes| && n <= |notes|
    requires forall j :: 0 <= j < |notes| ==> Found(u, key, notes[j])
    ensures var p := SyncNotes(u, key, notes, unused, n);
      p.tables == u && p.created == 0 && p.revised == 0 && p.kept == n
  {
    hide CoreOk, Found, SyncNote;
    if n > 0 {
      RoundsUnchanged(u, key, notes, unused, n - 1);
      NoteUnchanged(SyncNotes(u, key, notes, unused, n - 1), key, notes[n - 1], Locators(notes), unused[n - 1]);
    }
  }

  lemma {:induction false} SweepUnchanged(u: Tables, key: SourceKey, current: set<Locator>, n: nat)
    requires CoreOk(u) && n <= |u.bindings.order|
    requires forall p :: Lapsed(u, key, current, p) ==>
      u.bindings.rows[p].record in u.records.rows && u.records.rows[u.bindings.rows[p].record].status == Missing
    ensures SweepMissing(u, key, current, n) == Sweep(u, 0)
  {
    hide CoreOk;
    if n > 0 {
      SweepUnchanged(u, key, current, n - 1);
      var p := u.bindings.order[n - 1];
      if p.key == key && p.locator !in current && p in u.bindings.rows {
        assert Lapsed(u, key, current, p);
      }
    }
  }

  // Synchronising the same snapshot once more leaves the records, revisions and bindings as they are.
  lemma {:induction false} SyncIdempotent(t: Tables, key: SourceKey, notes: seq<Note>, unused: seq<RecordId>, again: seq<RecordId>)
    requires t.bindings.Valid() && |unused| == |notes| == |again| && Started(t, notes, unused)
    ensures var u := Synced(t, key, notes, unused).tables;
      && u.bindings.Valid()
      && Synced(u, key, notes, again) == Sweep(u, 0)
      && var p := SyncNotes(u, key, notes, again, |notes|);
      p.created == 0 && p.revised == 0 && p.kept == |notes|
  {
    hide Started, NoneLost, IdentitiesKept, LogsGrow, RecordsOk, RevisionsOk;
    var u := Synced(t, key, notes, unused).tables;
    SyncReflects(t, key, notes, unused);
    SyncFrames(t, key, notes, unused);
    RoundsUnchanged(u, key, notes, again, |notes|);
    SweepUnchanged(u, key, Locators(notes), |u.bindings.order|);
  }
}
