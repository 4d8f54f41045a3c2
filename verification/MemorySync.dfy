/** Synchronisation: the bijection survives every round, and what a snapshot leaves behind. */
module MemorySync {
  import opened Relational
  import opened Memory
  import opened MemoryInvariant

  // The part of the invariant a single round of the loop can touch.
  ghost predicate CoreOk(t: Tables) {
    RecordsOk(t) && RevisionsOk(t) && BindingsOk(t)
  }

  lemma {:induction false} RevisionAdded(t: Tables, r: Record)
    requires NoDuplicates(t.revisions)
    ensures NoDuplicates(Write(t, r).revisions)
    ensures forall v :: v in Write(t, r).revisions <==> v in t.revisions || v == r
  {
    if r !in t.revisions {
      forall i, j | 0 <= i < j < |t.revisions| + 1
        ensures (t.revisions + [r])[i] != (t.revisions + [r])[j]
      {
        if j < |t.revisions| {
          assert t.revisions[i] != t.revisions[j];
        } else {
          assert t.revisions[i] in t.revisions;
        }
      }
    }
  }

  // A write of a bound or a new Obsidian record keeps every other record and every stored revision.
  lemma {:induction false} WriteKeeps(t: Tables, r: Record)
    requires RecordsOk(t) && RevisionsOk(t)
    requires r.kind == Obsidian && WellSourced(r)
    requires r.id in t.records.rows ==> t.records.rows[r.id].kind == Obsidian
    ensures RecordsOk(Write(t, r)) && RevisionsOk(Write(t, r))
    ensures Write(t, r).records.rows == t.records.rows[r.id := r]
    ensures forall v :: v in t.revisions ==> v in Write(t, r).revisions
  {
    var u := Write(t, r);
    PutValid(t.records, r.id, r);
    RevisionAdded(t, r);
    assert RecordsOk(u);
    forall id | id in u.records.rows
      ensures u.records.rows[id] in u.revisions
    {
      if id != r.id { assert t.records.rows[id] in t.revisions; }
    }
    forall v | v in u.revisions
      ensures v.id in u.records.rows && WellSourced(v) && v.kind == u.records.rows[v.id].kind
      ensures v.kind == Native ==> v == u.records.rows[v.id]
    {
      if v != r { assert v in t.revisions; }
    }
  }

  // The place a note is found at, or moves from, tells its record.
  lemma {:induction false} IdentifyCases(t: Tables, key: SourceKey, note: Note, current: set<Locator>, unused: RecordId)
    requires CoreOk(t) && note.path in current && unused !in t.records.rows
    ensures var who := Identify(t.bindings, key, note, current, unused);
      && (who.Fresh? ==> who.id !in t.records.rows && Place(key, note.path) !in t.bindings.rows)
      && (who.Bound? ==> BoundAt(t, Place(key, note.path), who.id))
      && (who.Renamed? ==>
        && Place(key, note.path) !in t.bindings.rows
        && BoundAt(t, who.from, who.id)
        && who.from.key == key
        && who.from.locator !in current
        && t.bindings.rows[who.from].hash == note.hash)
  {
    VanishedMembers(t.bindings, key, note.hash, current, |t.bindings.order|);
    var gone := Vanished(t.bindings, key, note.hash, current, |t.bindings.order|);
    if |gone| == 1 { assert gone[0] in gone; }
  }

  ghost predicate OnlyVanished(b: Table<Place, Binding>, key: SourceKey, hash: Digest, current: set<Locator>, p: Place) {
    forall q :: IsVanished(b, key, hash, current, q) <==> q == p
  }

  // A note keeps the identity bound to its path; a note at a new path takes over an identity exactly when
  // one vanished place, and no other, is bound to its content; otherwise it is a new record.
  lemma {:induction false} IdentifyExact(b: Table<Place, Binding>, key: SourceKey, note: Note, current: set<Locator>, unused: RecordId)
    requires b.Valid()
    ensures var who, here := Identify(b, key, note, current, unused), Place(key, note.path);
      && (here in b.rows ==> who == Bound(b.rows[here].record))
      && (here !in b.rows ==>
        && (who.Renamed? <==> exists p :: OnlyVanished(b, key, note.hash, current, p))
        && (who.Renamed? ==> IsVanished(b, key, note.hash, current, who.from) && who.id == b.rows[who.from].record)
        && (!who.Renamed? ==> who == Fresh(unused)))
  {
    var gone := Vanished(b, key, note.hash, current, |b.order|);
    VanishedMembers(b, key, note.hash, current, |b.order|);
    assert b.order[..|b.order|] == b.order;
    assert forall q :: q in gone <==> IsVanished(b, key, note.hash, current, q);
    if |gone| == 1 {
      assert OnlyVanished(b, key, note.hash, current, gone[0]);
    } else if |gone| > 1 {
      assert gone[0] in gone && gone[1] in gone && gone[0] != gone[1];
      assert IsVanished(b, key, note.hash, current, gone[0]) && IsVanished(b, key, note.hash, current, gone[1]);
    } else {
      assert forall q :: !IsVanished(b, key, note.hash, current, q);
      assert forall p :: OnlyVanished(b, key, note.hash, current, p) ==> IsVanished(b, key, note.hash, current, p);
    }
  }

  // One record is bound at one place only.
  lemma {:induction false} BoundOnce(t: Tables, p: Place, q: Place, id: RecordId)
    requires BindingsOk(t) && BoundAt(t, p, id) && BoundAt(t, q, id)
    ensures p == q
  {
  }

  // One round keeps the bindings and the Obsidian records in bijection.
  lemma {:induction false} SyncNoteKeeps(p: Progress, key: SourceKey, note: Note, current: set<Locator>, unused: RecordId)
    requires CoreOk(p.tables) && note.path in current && unused !in p.tables.records.rows && BodyFits(note.body)
    ensures CoreOk(SyncNote(p, key, note, current, unused).tables)
  {
    hide BodyFits;
    var t := p.tables;
    var who := Identify(t.bindings, key, note, current, unused);
    IdentifyCases(t, key, note, current, unused);
    WriteKeeps(t, NoteRecord(who.id, key, note));
    RebindKeeps(t, key, note, who);
    SyncNoteWrites(p, key, note, current, unused);
  }

  lemma {:induction false} SyncNoteWrites(p: Progress, key: SourceKey, note: Note, current: set<Locator>, unused: RecordId)
    requires p.tables.bindings.Valid()
    ensures var who := Identify(p.tables.bindings, key, note, current, unused);
      SyncNote(p, key, note, current, unused).tables
      == Write(p.tables, NoteRecord(who.id, key, note)).(bindings := Rebind(p.tables.bindings, key, note, who))
  {
  }

  ghost predicate Identified(t: Tables, key: SourceKey, note: Note, who: Identity) {
    var here := Place(key, note.path);
    match who
    case Bound(id) => BoundAt(t, here, id)
    case Renamed(id, from) => here !in t.bindings.rows && BoundAt(t, from, id)
    case Fresh(id) => here !in t.bindings.rows && id !in t.records.rows
  }

  lemma {:induction false} OthersElsewhere(t: Tables, key: SourceKey, note: Note, who: Identity, q: Place)
    requires RecordsOk(t) && BindingsOk(t) && Identified(t, key, note, who)
    requires q in t.bindings.rows && q != Place(key, note.path) && !(who.Renamed? && q == who.from)
    ensures t.bindings.rows[q].record != who.id
  {
    assert BoundAt(t, q, t.bindings.rows[q].record);
  }

  lemma {:induction false} RebindKeeps(t: Tables, key: SourceKey, note: Note, who: Identity)
    requires RecordsOk(t) && BindingsOk(t) && Identified(t, key, note, who)
    ensures BindingsOk(Write(t, NoteRecord(who.id, key, note)).(bindings := Rebind(t.bindings, key, note, who)))
  {
    hide WellSourced;
    var r := NoteRecord(who.id, key, note);
    var u := Write(t, r).(bindings := Rebind(t.bindings, key, note, who));
    var here := Place(key, note.path);
    RebindValid(t.bindings, key, note, who);
    RebindRows(t.bindings, key, note, who);
    assert u.records.rows == t.records.rows[who.id := r];
    forall q | q in u.bindings.rows
      ensures u.bindings.rows[q].record in u.records.rows
      ensures PlaceOf(u.records.rows[u.bindings.rows[q].record], q)
      ensures u.records.rows[u.bindings.rows[q].record].hash == u.bindings.rows[q].hash
    {
      if q != here {
        assert q in t.bindings.rows;
        OthersElsewhere(t, key, note, who, q);
      }
    }
    forall id | id in u.records.rows && u.records.rows[id].kind == Obsidian
      ensures u.records.rows[id].sourcePath.Some?
      ensures BoundAt(u, Place(u.records.rows[id].sourceKey, u.records.rows[id].sourcePath.value), id)
    {
      if id != who.id {
        var place := Place(t.records.rows[id].sourceKey, t.records.rows[id].sourcePath.value);
        assert BoundAt(t, place, id);
      }
    }
  }

  lemma {:induction false} RebindRows(b: Table<Place, Binding>, key: SourceKey, note: Note, who: Identity)
    ensures var here := Place(key, note.path);
      var c := Rebind(b, key, note, who).rows;
      && here in c && c[here] == Binding(note.hash, who.id)
      && (forall q :: q in c && q != here ==> q in b.rows && c[q] == b.rows[q])
      && (who.Renamed? ==> who.from != here ==> who.from !in c)
      && (forall q :: q in b.rows && !(who.Renamed? && q == who.from) ==> q in c && (q != here ==> c[q] == b.rows[q]))
  {
  }

  // ---------- the loop over the notes ----------

  // A snapshot lists a path once, and the identities drawn for it are new and distinct.
  ghost predicate Drawn(t: Tables, notes: seq<Note>, unused: seq<RecordId>)
    requires |unused| == |notes|
  {
    && (forall i, j :: 0 <= i < j < |notes| ==> notes[i].path != notes[j].path)
    && NoDuplicates(unused)
    && forall i :: 0 <= i < |unused| ==> unused[i] !in t.records.rows
  }

  ghost function Places(key: SourceKey, notes: seq<Note>, n: nat): set<Place>
    requires n <= |notes|
  {
    set j | 0 <= j < n :: Place(key, notes[j].path)
  }

  // The note is bound to a record that says exactly what the note says.
  predicate Found(u: Tables, key: SourceKey, note: Note) {
    var here := Place(key, note.path);
    && here in u.bindings.rows
    && var id := u.bindings.rows[here].record;
    id in u.records.rows && u.records.rows[id] == NoteRecord(id, key, note)
  }

  // A place outside the given ones still has the binding and the record it had.
  ghost predicate SameElsewhere(t: Tables, u: Tables, touched: set<Place>) {
    forall q :: q in u.bindings.rows && q !in touched ==>
      && q in t.bindings.rows
      && u.bindings.rows[q] == t.bindings.rows[q]
      && u.bindings.rows[q].record in t.records.rows
      && u.bindings.rows[q].record in u.records.rows
      && u.records.rows[u.bindings.rows[q].record] == t.records.rows[u.bindings.rows[q].record]
  }

  // A place the snapshot still has, or of another source, keeps its record identity.
  ghost predicate IdentitiesKept(t: Tables, u: Tables, key: SourceKey, current: set<Locator>) {
    forall q :: q in t.bindings.rows && (q.key != key || q.locator in current) ==>
      BoundAt(u, q, t.bindings.rows[q].record)
  }

  // No record disappears, and those of other origin are untouched.
  ghost predicate NoneLost(t: Tables, u: Tables, key: SourceKey) {
    forall id :: id in t.records.rows ==>
      && id in u.records.rows
      && u.records.rows[id].kind == t.records.rows[id].kind
      && u.records.rows[id].sourceKey == t.records.rows[id].sourceKey
      && (t.records.rows[id].kind == Native || t.records.rows[id].sourceKey != key ==>
        u.records.rows[id] == t.records.rows[id])
  }

  ghost predicate LogsGrow(t: Tables, u: Tables) {
    && u.reviews == t.reviews
    && u.syncs == t.syncs
    && forall r :: r in t.revisions ==> r in u.revisions
  }

  // The tables v are the tables u after one note has been written and bound.
  ghost predicate Follows(u: Tables, v: Tables, key: SourceKey, note: Note, current: set<Locator>, who: Identity) {
    && CoreOk(u)
    && Identified(u, key, note, who)
    && (who.Renamed? ==> who.from.key == key && who.from.locator !in current)
    && note.path in current
    && v.records.rows == u.records.rows[who.id := NoteRecord(who.id, key, note)]
    && v.bindings == Rebind(u.bindings, key, note, who)
    && LogsGrow(u, v)
  }

  lemma {:induction false} SyncNoteFollows(p: Progress, key: SourceKey, note: Note, current: set<Locator>, unused: RecordId)
    requires CoreOk(p.tables) && note.path in current && unused !in p.tables.records.rows
    ensures Follows(p.tables, SyncNote(p, key, note, current, unused).tables, key, note, current,
                    Identify(p.tables.bindings, key, note, current, unused))
  {
    IdentifyCases(p.tables, key, note, current, unused);
    SyncNoteWrites(p, key, note, current, unused);
  }

  lemma {:induction false} FollowsKeepsCounts(p: Progress, key: SourceKey, note: Note, current: set<Locator>, unused: RecordId)
    requires CoreOk(p.tables) && note.path in current && unused !in p.tables.records.rows
    ensures var after := SyncNote(p, key, note, current, unused);
      && after.created + after.revised + after.kept == p.created + p.revised + p.kept + 1
      && |after.tables.records.rows| - after.created == |p.tables.records.rows| - p.created
      && after.tables.records.rows.Keys <= p.tables.records.rows.Keys + {unused}
  {
    SyncNoteFollows(p, key, note, current, unused);
  }

  ghost predicate Started(t: Tables, notes: seq<Note>, unused: seq<RecordId>)
    requires |unused| == |notes|
  {
    CoreOk(t) && Drawn(t, notes, unused) && NotesFit(notes)
  }

  function Who(t: Tables, key: SourceKey, notes: seq<Note>, unused: seq<RecordId>, n: nat): Identity
    requires t.bindings.Valid() && |unused| == |notes| && n < |notes|
  {
    Identify(SyncNotes(t, key, notes, unused, n).tables.bindings, key, notes[n], Locators(notes), unused[n])
  }

  ghost predicate RoundOk(t: Tables, p: Progress, unused: seq<RecordId>, n: nat)
    requires n <= |unused|
  {
    && CoreOk(p.tables)
    && p.tables.records.rows.Keys <= t.records.rows.Keys + (set j | 0 <= j < n :: unused[j])
    && p.created + p.revised + p.kept == n
    && |p.tables.records.rows| == |t.records.rows| + p.created
    && LogsGrow(t, p.tables)
  }

  // Every round starts from consistent tables, and accounts for one note and at most one new record.
  lemma {:induction false} RoundsKeep(t: Tables, key: SourceKey, notes: seq<Note>, unused: seq<RecordId>, n: nat)
    requires |unused| == |notes| && n <= |notes| && t.bindings.Valid() && Started(t, notes, unused)
    ensures RoundOk(t, SyncNotes(t, key, notes, unused, n), unused, n)
  {
    hide CoreOk, SyncNote, RoundOk;
    if n == 0 {
      RoundOkAtStart(t, unused);
    } else {
      RoundsKeep(t, key, notes, unused, n - 1);
      RoundKeeps(t, SyncNotes(t, key, notes, unused, n - 1), key, notes, unused, n - 1);
    }
  }

  lemma {:induction false} RoundOkAtStart(t: Tables, unused: seq<RecordId>)
    requires CoreOk(t)
    ensures RoundOk(t, Progress(t, 0, 0, 0, []), unused, 0)
  {
    hide CoreOk;
  }

  lemma {:induction false} RoundKeeps(t: Tables, p: Progress, key: SourceKey, notes: seq<Note>, unused: seq<RecordId>, n: nat)
    requires |unused| == |notes| && Drawn(t, notes, unused) && NotesFit(notes) && n < |notes| && RoundOk(t, p, unused, n)
    ensures RoundOk(t, SyncNote(p, key, notes[n], Locators(notes), unused[n]), unused, n + 1)
  {
    hide RevisionsOk, RecordsOk, SyncNote, Identified;
    StillUnused(t, p.tables, notes, unused, n);
    assert notes[n] in notes;
    SyncNoteKeeps(p, key, notes[n], Locators(notes), unused[n]);
    FollowsKeepsCounts(p, key, notes[n], Locators(notes), unused[n]);
    SyncNoteFollows(p, key, notes[n], Locators(notes), unused[n]);
    assert unused[n] in (set j | 0 <= j < n + 1 :: unused[j]);
  }

  lemma {:induction false} StillUnused(t: Tables, u: Tables, notes: seq<Note>, unused: seq<RecordId>, n: nat)
    requires |unused| == |notes| && Drawn(t, notes, unused) && n < |unused|
    requires u.records.rows.Keys <= t.records.rows.Keys + (set j | 0 <= j < n :: unused[j])
    ensures unused[n] !in u.records.rows
  {
  }

  lemma {:induction false} RoundFollows(t: Tables, key: SourceKey, notes: seq<Note>, unused: seq<RecordId>, n: nat)
    requires |unused| == |notes| && n < |notes| && t.bindings.Valid() && Started(t, notes, unused)
    ensures Follows(SyncNotes(t, key, notes, unused, n).tables, SyncNotes(t, key, notes, unused, n + 1).tables,
                    key, notes[n], Locators(notes), Who(t, key, notes, unused, n))
  {
    RoundsKeep(t, key, notes, unused, n);
    var p := SyncNotes(t, key, notes, unused, n);
    StillUnused(t, p.tables, notes, unused, n);
    assert notes[n] in notes;
    SyncNoteFollows(p, key, notes[n], Locators(notes), unused[n]);
  }

  // After n rounds the first n notes are all found under their paths.
  lemma {:induction false} RoundsFound(t: Tables, key: SourceKey, notes: seq<Note>, unused: seq<RecordId>, n: nat)
    requires |unused| == |notes| && n <= |notes| && t.bindings.Valid() && Started(t, notes, unused)
    ensures forall j :: 0 <= j < n ==> Found(SyncNotes(t, key, notes, unused, n).tables, key, notes[j])
  {
    hide CoreOk, SyncNote, Follows, Found;
    if n > 0 {
      RoundsFound(t, key, notes, unused, n - 1);
      RoundFollows(t, key, notes, unused, n - 1);
      var u, v := SyncNotes(t, key, notes, unused, n - 1).tables, SyncNotes(t, key, notes, unused, n).tables;
      forall j | 0 <= j < n
        ensures Found(v, key, notes[j])
      {
        assert notes[j] in notes;
        FoundStays(u, v, key, notes[n - 1], notes[j], Locators(notes), Who(t, key, notes, unused, n - 1));
      }
    }
  }

  lemma {:induction false} FoundStays(u: Tables, v: Tables, key: SourceKey, note: Note, other: Note, current: set<Locator>, who: Identity)
    requires Follows(u, v, key, note, current, who)
    requires other.path in current
    requires other == note || (other.path != note.path && Found(u, key, other))
    ensures Found(v, key, other)
  {
    RebindRows(u.bindings, key, note, who);
    if other != note {
      OthersElsewhere(u, key, note, who, Place(key, other.path));
    }
  }

  lemma {:induction false} RoundsElsewhere(t: Tables, key: SourceKey, notes: seq<Note>, unused: seq<RecordId>, n: nat)
    requires |unused| == |notes| && n <= |notes| && t.bindings.Valid() && Started(t, notes, unused)
    ensures SameElsewhere(t, SyncNotes(t, key, notes, unused, n).tables, Places(key, notes, n))
  {
    hide CoreOk, SyncNote, Follows, SameElsewhere;
    if n == 0 {
      ElsewhereAtStart(t, key, notes);
    } else {
      RoundsElsewhere(t, key, notes, unused, n - 1);
      RoundFollows(t, key, notes, unused, n - 1);
      ElsewhereStays(t, SyncNotes(t, key, notes, unused, n - 1).tables, SyncNotes(t, key, notes, unused, n).tables,
                     key, notes, n - 1, Who(t, key, notes, unused, n - 1));
    }
  }

  lemma {:induction false} ElsewhereAtStart(t: Tables, key: SourceKey, notes: seq<Note>)
    requires CoreOk(t)
    ensures SameElsewhere(t, t, Places(key, notes, 0))
  {
  }

  lemma {:induction false} ElsewhereStays(t: Tables, u: Tables, v: Tables, key: SourceKey, notes: seq<Note>, n: nat, who: Identity)
    requires n < |notes| && Follows(u, v, key, notes[n], Locators(notes), who)
    requires SameElsewhere(t, u, Places(key, notes, n))
    ensures SameElsewhere(t, v, Places(key, notes, n + 1))
  {
    RebindRows(u.bindings, key, notes[n], who);
    assert Place(key, notes[n].path) in Places(key, notes, n + 1);
    assert Places(key, notes, n) <= Places(key, notes, n + 1);
    forall q | q in v.bindings.rows && q !in Places(key, notes, n + 1)
      ensures q in u.bindings.rows && v.bindings.rows[q] == u.bindings.rows[q] && u.bindings.rows[q].record != who.id
    {
      OthersElsewhere(u, key, notes[n], who, q);
    }
  }

  lemma {:induction false} RoundsIdentities(t: Tables, key: SourceKey, notes: seq<Note>, unused: seq<RecordId>, n: nat)
    requires |unused| == |notes| && n <= |notes| && t.bindings.Valid() && Started(t, notes, unused)
    ensures IdentitiesKept(t, SyncNotes(t, key, notes, unused, n).tables, key, Locators(notes))
  {
    hide CoreOk, SyncNote, Follows, IdentitiesKept;
    if n == 0 {
      IdentitiesKeptAtStart(t, key, Locators(notes));
    } else {
      RoundsIdentities(t, key, notes, unused, n - 1);
      RoundFollows(t, key, notes, unused, n - 1);
      IdentitiesStay(t, SyncNotes(t, key, notes, unused, n - 1).tables, SyncNotes(t, key, notes, unused, n).tables,
                     key, notes[n - 1], Locators(notes), Who(t, key, notes, unused, n - 1));
    }
  }

  lemma {:induction false} IdentitiesKeptAtStart(t: Tables, key: SourceKey, current: set<Locator>)
    requires CoreOk(t)
    ensures IdentitiesKept(t, t, key, current)
  {
  }

  lemma {:induction false} IdentitiesStay(t: Tables, u: Tables, v: Tables, key: SourceKey, note: Note, current: set<Locator>, who: Identity)
    requires Follows(u, v, key, note, current, who)
    requires IdentitiesKept(t, u, key, current)
    ensures IdentitiesKept(t, v, key, current)
  {
    RebindRows(u.bindings, key, note, who);
  }

  lemma {:induction false} RoundsLoseNone(t: Tables, key: SourceKey, notes: seq<Note>, unused: seq<RecordId>, n: nat)
    requires |unused| == |notes| && n <= |notes| && t.bindings.Valid() && Started(t, notes, unused)
    ensures NoneLost(t, SyncNotes(t, key, notes, unused, n).tables, key)
  {
    hide CoreOk, SyncNote, Follows, NoneLost;
    if n == 0 {
      NoneLostAtStart(t, key);
    } else {
      RoundsLoseNone(t, key, notes, unused, n - 1);
      RoundFollows(t, key, notes, unused, n - 1);
      NoneLostStays(t, SyncNotes(t, key, notes, unused, n - 1).tables, SyncNotes(t, key, notes, unused, n).tables,
                    key, notes[n - 1], Locators(notes), Who(t, key, notes, unused, n - 1));
    }
  }

  lemma {:induction false} NoneLostAtStart(t: Tables, key: SourceKey)
    ensures NoneLost(t, t, key)
  {
  }

  lemma {:induction false} NoneLostStays(t: Tables, u: Tables, v: Tables, key: SourceKey, note: Note, current: set<Locator>, who: Identity)
    requires Follows(u, v, key, note, current, who)
    requires NoneLost(t, u, key)
    ensures NoneLost(t, v, key)
  {
    if !who.Fresh? {
      assert u.records.rows[who.id].kind == Obsidian && u.records.rows[who.id].sourceKey == key;
    }
  }
}
