/** What the review log says about a whole store: authority under synchronisation, and where replacements lead. */
module MemoryChains {
  import opened Wrappers
  import opened Relational
  import opened Memory
  import opened MemoryInvariant
  import opened MemorySync
  import opened MemorySweep
  import opened MemoryReview

  // ---------- authority ----------

  lemma {:induction false} NewestIsStored(revisions: seq<Record>, id: RecordId, hash: Digest)
    ensures NewestRevision(revisions, id, hash).Some?
      <==> exists r :: r in revisions && r.id == id && r.hash == hash
    ensures var n := NewestRevision(revisions, id, hash);
      n.Some? ==> n.value in revisions && n.value.id == id && n.value.hash == hash
  {
    if |revisions| > 0 {
      NewestIsStored(revisions[..|revisions| - 1], id, hash);
      assert revisions == revisions[..|revisions| - 1] + [revisions[|revisions| - 1]];
    }
  }

  // Synchronisation keeps every stored revision readable, and under the authority it had.
  lemma {:induction false} SyncKeepsAuthority(t: Tables, key: SourceKey, notes: seq<Note>, unused: seq<RecordId>, id: RecordId, hash: Digest)
    requires Inv(t) && |unused| == |notes| && Drawn(t, notes, unused) && NotesFit(notes)
    requires GetRevision(t, id, hash).Some?
    ensures var u := Synced(t, key, notes, unused).tables;
      && GetRevision(u, id, hash).Some?
      && GetRevision(u, id, hash).value.authority == GetRevision(t, id, hash).value.authority
  {
    hide ReviewsOk, IdentitiesKept, Synced;
    var u := Synced(t, key, notes, unused).tables;
    SyncFrames(t, key, notes, unused);
    hide BindingsOk, Drawn;
    SameAuthority(t, u, key, id, hash);
  }

  lemma {:induction false} SameAuthority(t: Tables, u: Tables, key: SourceKey, id: RecordId, hash: Digest)
    requires RevisionsOk(t) && RevisionsOk(u) && LogsGrow(t, u) && NoneLost(t, u, key)
    requires GetRevision(t, id, hash).Some?
    ensures GetRevision(u, id, hash).Some?
    ensures GetRevision(u, id, hash).value.authority == GetRevision(t, id, hash).value.authority
  {
    hide RevisionsOk;
    NewestIsStored(t.revisions, id, hash);
    NewestIsStored(u.revisions, id, hash);
    StoredAuthority(t, NewestRevision(t.revisions, id, hash).value);
    StoredAuthority(u, NewestRevision(u.revisions, id, hash).value);
  }

  // The stored authority of a revision only tells the kind of its record.
  lemma {:induction false} StoredAuthority(t: Tables, r: Record)
    requires RevisionsOk(t) && r in t.revisions
    ensures r.id in t.records.rows
    ensures r.authority == if t.records.rows[r.id].kind == Native then Candidate else Curated
  {
    hide NoDuplicates;
  }

  // ---------- where replacements lead ----------

  // No record is decided under two contents.
  ghost predicate DecidedOnce(reviews: seq<ReviewRow>) {
    forall i, j :: 0 <= i < |reviews| && 0 <= j < |reviews| && reviews[i].record == reviews[j].record
      ==> reviews[i].hash == reviews[j].hash
  }

  // The newest review of a record, whichever of its revisions it was about.
  function NewestReview(reviews: seq<ReviewRow>, id: RecordId): Option<ReviewRow> {
    if |reviews| == 0 then None
    else if reviews[|reviews| - 1].record == id then Some(reviews[|reviews| - 1])
    else NewestReview(reviews[..|reviews| - 1], id)
  }

  lemma {:induction false} NewestIsLatest(reviews: seq<ReviewRow>, id: RecordId)
    ensures var row := NewestReview(reviews, id);
      row.Some? ==> row.value.record == id && LatestReview(reviews, id, row.value.hash) == row
  {
    if |reviews| > 0 { NewestIsLatest(reviews[..|reviews| - 1], id); }
  }

  lemma {:induction false} LatestIsNewest(reviews: seq<ReviewRow>, v: Revision)
    requires DecidedOnce(reviews) && LatestReview(reviews, v.record, v.hash).Some?
    ensures NewestReview(reviews, v.record) == LatestReview(reviews, v.record, v.hash)
  {
    LatestIsLastDecision(reviews, v);
    NewestIsLatest(reviews, v.record);
    NewestExists(reviews, LatestReview(reviews, v.record, v.hash).value);
    var a, b := NewestReview(reviews, v.record).value, LatestReview(reviews, v.record, v.hash).value;
    LatestIsLastDecision(reviews, Revision(a.record, a.hash));
  }

  lemma {:induction false} NewestExists(reviews: seq<ReviewRow>, row: ReviewRow)
    requires row in reviews
    ensures NewestReview(reviews, row.record).Some?
  {
    if reviews[|reviews| - 1].record != row.record {
      assert reviews == reviews[..|reviews| - 1] + [reviews[|reviews| - 1]];
      NewestExists(reviews[..|reviews| - 1], row);
    }
  }

  // Two decided revisions of one record are the same revision.
  lemma {:induction false} SameVersion(reviews: seq<ReviewRow>, v: Revision, w: Revision)
    requires DecidedOnce(reviews) && Decisions(reviews, v) != [] && Decisions(reviews, w) != []
    ensures v.record == w.record ==> v == w
  {
    LatestIsLastDecision(reviews, v);
    LatestIsLastDecision(reviews, w);
  }

  // The latest review of a superseded revision is the row that replaced it.
  lemma {:induction false} LatestIsTheReplacing(reviews: seq<ReviewRow>, i: nat, a: Revision, b: Revision)
    requires Replaces(reviews, i, a, b) && Governed(Decisions(reviews, a))
    ensures LatestReview(reviews, a.record, a.hash) == Some(reviews[i])
  {
    var front, last := reviews[..|reviews| - 1], reviews[|reviews| - 1];
    if i < |front| {
      assert front[..i] == reviews[..i] && front[..i + 1] == reviews[..i + 1] && reviews[..i + 1][..i] == reviews[..i];
      assert Decisions(reviews[..i + 1], a) == [Approved, Superseded];
      assert front[..|front|] == front;
      DecisionsGrow(front, i + 1, |front|, a);
      assert |Decisions(front, a)| >= 2;
      LatestIsTheReplacing(front, i, a, b);
    } else {
      assert front == reviews[..i];
    }
  }

  // What the newest review says about the revisions of a chain.
  lemma {:induction false} NewestAlong(t: Tables, links: seq<nat>, revisions: seq<Revision>, k: nat)
    requires ReviewsOk(t) && DecidedOnce(t.reviews) && Chain(t.reviews, links, revisions) && k < |revisions|
    requires Decisions(t.reviews, revisions[|revisions| - 1]) == [Approved]
    ensures Decisions(t.reviews, revisions[k]) != []
    ensures var row := NewestReview(t.reviews, revisions[k].record);
      && row.Some? && row.value.hash == revisions[k].hash
      && (if k < |links| then row.value.replacement == Some(revisions[k + 1].record) else row.value.decision == Approved)
  {
    hide RowOk, DecidedOnce;
    if k < |links| {
      assert Replaces(t.reviews, links[k], revisions[k], revisions[k + 1]);
      assert Governed(Decisions(t.reviews, revisions[k]));
      LatestIsTheReplacing(t.reviews, links[k], revisions[k], revisions[k + 1]);
    }
    LatestIsLastDecision(t.reviews, revisions[k]);
    LatestIsNewest(t.reviews, revisions[k]);
  }

  lemma {:induction false} SupersededNewest(t: Tables, id: RecordId) returns (a: Revision)
    requires ReviewsOk(t)
    requires NewestReview(t.reviews, id).Some? && NewestReview(t.reviews, id).value.decision == Superseded
    ensures a.record == id && Decisions(t.reviews, a) == [Approved, Superseded]
  {
    hide RowOk;
    NewestIsLatest(t.reviews, id);
    a := Revision(id, NewestReview(t.reviews, id).value.hash);
    LatestIsLastDecision(t.reviews, a);
    assert Governed(Decisions(t.reviews, a));
  }

  // In a store in which no record is decided under two contents, following the newest reviews from a superseded
  // record never returns and ends in a record whose decided content is approved; a reader sees that as long as the
  // content is still the decided one.
  lemma {:induction false} ReplacementsEnd(t: Tables, id: RecordId) returns (path: seq<RecordId>)
    requires Inv(t) && DecidedOnce(t.reviews)
    requires NewestReview(t.reviews, id).Some? && NewestReview(t.reviews, id).value.decision == Superseded
    ensures |path| > 1 && path[0] == id && NoDuplicates(path)
    ensures forall k :: 0 <= k < |path| ==> NewestReview(t.reviews, path[k]).Some? && path[k] in t.records.rows
    ensures forall k :: 0 <= k < |path| - 1 ==> NewestReview(t.reviews, path[k]).value.replacement == Some(path[k + 1])
    ensures var last := path[|path| - 1];
      && NewestReview(t.reviews, last).value.decision == Approved
      && (t.records.rows[last].hash == NewestReview(t.reviews, last).value.hash ==> Get(t, last).value.authority == Approved)
  {
    hide RecordsOk, BindingsOk, RevisionsOk, SyncsOk, DecidedOnce, RowOk, Chain, Decisions, Governed;
    var a := SupersededNewest(t, id);
    var links, revisions := SupersededEndsApproved(t, a);
    ChainLength(t.reviews, links, revisions);
    path := seq(|revisions|, k requires 0 <= k < |revisions| => revisions[k].record);
    forall k | 0 <= k < |path|
      ensures Decisions(t.reviews, revisions[k]) != []
      ensures NewestReview(t.reviews, path[k]).Some? && path[k] in t.records.rows
      ensures k < |links| ==> NewestReview(t.reviews, path[k]).value.replacement == Some(path[k + 1])
      ensures k == |links| ==> NewestReview(t.reviews, path[k]).value.decision == Approved
    {
      NewestAlong(t, links, revisions, k);
      LoggedIsKnown(t, path[k]);
    }
    NoReturn(t, links, revisions, path);
    var last := path[|path| - 1];
    if t.records.rows[last].hash == NewestReview(t.reviews, last).value.hash { ReadAsDecided(t, last); }
  }

  lemma {:induction false} ChainLength(reviews: seq<ReviewRow>, links: seq<nat>, revisions: seq<Revision>)
    requires Chain(reviews, links, revisions)
    ensures |revisions| == |links| + 1
  {
  }

  lemma {:induction false} LoggedIsKnown(t: Tables, id: RecordId)
    requires ReviewsOk(t) && NewestReview(t.reviews, id).Some?
    ensures id in t.records.rows
  {
    NewestIsLatest(t.reviews, id);
    LatestIsLastDecision(t.reviews, Revision(id, NewestReview(t.reviews, id).value.hash));
    var i :| 0 <= i < |t.reviews| && t.reviews[i] == NewestReview(t.reviews, id).value;
    assert RowOk(t, i);
  }

  lemma {:induction false} NoReturn(t: Tables, links: seq<nat>, revisions: seq<Revision>, path: seq<RecordId>)
    requires DecidedOnce(t.reviews) && Chain(t.reviews, links, revisions) && |path| == |revisions|
    requires forall k :: 0 <= k < |path| ==> path[k] == revisions[k].record && Decisions(t.reviews, revisions[k]) != []
    ensures NoDuplicates(path)
  {
    hide DecidedOnce, Chain, Decisions;
    ChainIsAcyclic(t.reviews, links, revisions);
    forall i, j | 0 <= i < j < |path|
      ensures path[i] != path[j]
    {
      SameVersion(t.reviews, revisions[i], revisions[j]);
    }
  }

  lemma {:induction false} ReadAsDecided(t: Tables, id: RecordId)
    requires Inv(t) && id in t.records.rows && NewestReview(t.reviews, id).Some?
    requires t.records.rows[id].hash == NewestReview(t.reviews, id).value.hash
    ensures Get(t, id).Some? && Get(t, id).value.authority == NewestReview(t.reviews, id).value.decision
  {
    NewestIsLatest(t.reviews, id);
    CurrentId(t, id);
  }

  lemma {:induction false} CurrentId(t: Tables, id: RecordId)
    requires Inv(t) && id in t.records.rows
    ensures t.records.rows[id].id == id
  {
  }

  // ---------- native stores ----------

  ghost predicate NativeOnly(t: Tables) {
    forall id :: id in t.records.rows ==> t.records.rows[id].kind == Native
  }

  // The record a reader is sent to from a superseded record.
  function ReplacementOf(t: Tables, id: RecordId): Option<RecordId> {
    if id !in t.records.rows then None else
    match LatestReview(t.reviews, id, t.records.rows[id].hash)
    case None => None
    case Some(row) => row.replacement
  }

  // In a native store the revision a logged row speaks of is the only one of its record.
  lemma {:induction false} LoggedIsCurrent(t: Tables, i: nat)
    requires Inv(t) && NativeOnly(t) && i < |t.reviews|
    ensures t.reviews[i].record in t.records.rows && t.reviews[i].hash == t.records.rows[t.reviews[i].record].hash
  {
    hide BindingsOk;
    assert RowOk(t, i);
  }

  lemma {:induction false} NativeIsDecidedOnce(t: Tables)
    requires Inv(t) && NativeOnly(t)
    ensures DecidedOnce(t.reviews)
  {
    hide Inv, NativeOnly;
    forall i | 0 <= i < |t.reviews|
      ensures t.reviews[i].record in t.records.rows && t.reviews[i].hash == t.records.rows[t.reviews[i].record].hash
    {
      LoggedIsCurrent(t, i);
    }
  }

  // The newest review of a native record is the one its reader is shown.
  lemma {:induction false} NewestIsShown(t: Tables, id: RecordId)
    requires Inv(t) && NativeOnly(t) && id in t.records.rows
    ensures LatestReview(t.reviews, id, t.records.rows[id].hash) == NewestReview(t.reviews, id)
  {
    hide Inv, NativeOnly;
    NewestIsLatest(t.reviews, id);
    LatestIsLastDecision(t.reviews, Revision(id, t.records.rows[id].hash));
    var shown, newest := LatestReview(t.reviews, id, t.records.rows[id].hash), NewestReview(t.reviews, id);
    if newest.Some? {
      LatestIsLastDecision(t.reviews, Revision(id, newest.value.hash));
      var i :| 0 <= i < |t.reviews| && t.reviews[i] == newest.value;
      LoggedIsCurrent(t, i);
    } else if shown.Some? {
      NewestExists(t.reviews, shown.value);
    }
  }

  // Following replacements from any superseded record of a native store ends in an approved one, and never returns.
  lemma {:induction false} NativeReplacementsEnd(t: Tables, id: RecordId) returns (path: seq<RecordId>)
    requires Inv(t) && NativeOnly(t)
    requires Get(t, id).Some? && Get(t, id).value.authority == Superseded
    ensures |path| > 1 && path[0] == id && NoDuplicates(path)
    ensures forall k :: 0 <= k < |path| - 1 ==> ReplacementOf(t, path[k]) == Some(path[k + 1])
    ensures Get(t, path[|path| - 1]).Some? && Get(t, path[|path| - 1]).value.authority == Approved
  {
    NativeIsDecidedOnce(t);
    CurrentId(t, id);
    AuthorityOfNative(t, id);
    NewestIsShown(t, id);
    hide Inv, NativeOnly, DecidedOnce;
    path := ReplacementsEnd(t, id);
    forall k | 0 <= k < |path|
      ensures LatestReview(t.reviews, path[k], t.records.rows[path[k]].hash) == NewestReview(t.reviews, path[k])
    {
      NewestIsShown(t, path[k]);
    }
    LatestIsLastDecision(t.reviews, Revision(path[|path| - 1], t.records.rows[path[|path| - 1]].hash));
  }

  lemma {:induction false} AuthorityOfNative(t: Tables, id: RecordId)
    requires Inv(t) && id in t.records.rows
    ensures t.records.rows[id].authority == Candidate || t.records.rows[id].authority == Curated
  {
    assert WellSourced(t.records.rows[id]);
  }
}
