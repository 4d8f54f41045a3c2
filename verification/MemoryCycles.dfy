/** Replacements as links between record identities: when they form a cycle, and when they cannot. */
module MemoryCycles {
  import opened Wrappers
  import opened Memory
  import opened MemoryInvariant
  import opened MemorySync
  import opened MemorySweep
  import opened MemoryReview
  import opened MemoryRuns
  import opened MemoryChains

  // Some logged row replaces record a by record b.
  predicate Linked(reviews: seq<ReviewRow>, a: RecordId, b: RecordId) {
    exists i :: 0 <= i < |reviews| && reviews[i].record == a && reviews[i].replacement == Some(b)
  }

  predicate IdPath(reviews: seq<ReviewRow>, path: seq<RecordId>) {
    |path| > 0 && forall k :: 0 <= k < |path| - 1 ==> Linked(reviews, path[k], path[k + 1])
  }

  ghost predicate Reaches(reviews: seq<ReviewRow>, a: RecordId, b: RecordId) {
    exists path :: IdPath(reviews, path) && path[0] == a && path[|path| - 1] == b
  }

  ghost predicate Cyclic(reviews: seq<ReviewRow>) {
    exists path :: IdPath(reviews, path) && |path| > 1 && path[0] == path[|path| - 1]
  }

  // ---------- one more row ----------

  lemma {:induction false} LinkedInLonger(reviews: seq<ReviewRow>, row: ReviewRow, a: RecordId, b: RecordId)
    ensures Linked(reviews + [row], a, b) <==> Linked(reviews, a, b) || (row.record == a && row.replacement == Some(b))
  {
    var more := reviews + [row];
    if Linked(reviews, a, b) {
      var i :| 0 <= i < |reviews| && reviews[i].record == a && reviews[i].replacement == Some(b);
      assert more[i] == reviews[i];
    }
    if row.record == a && row.replacement == Some(b) { assert more[|reviews|] == row; }
  }

  lemma {:induction false} PathInLonger(reviews: seq<ReviewRow>, row: ReviewRow, path: seq<RecordId>)
    requires IdPath(reviews, path)
    ensures IdPath(reviews + [row], path)
  {
    hide Linked;
    forall k | 0 <= k < |path| - 1
      ensures Linked(reviews + [row], path[k], path[k + 1])
    {
      LinkedInLonger(reviews, row, path[k], path[k + 1]);
    }
  }

  // A path that never leaves the record the new row is about does not use the new row.
  lemma {:induction false} PathWithout(reviews: seq<ReviewRow>, row: ReviewRow, path: seq<RecordId>)
    requires IdPath(reviews + [row], path)
    requires forall k :: 0 <= k < |path| - 1 ==> path[k] != row.record || row.replacement != Some(path[k + 1])
    ensures IdPath(reviews, path)
  {
    hide Linked;
    forall k | 0 <= k < |path| - 1
      ensures Linked(reviews, path[k], path[k + 1])
    {
      LinkedInLonger(reviews, row, path[k], path[k + 1]);
    }
  }

  // The beginning of a path up to the first place where it meets a record.
  lemma {:induction false} UpToFirst(path: seq<RecordId>, a: RecordId) returns (n: nat)
    requires a in path
    ensures n < |path| && path[n] == a && forall k :: 0 <= k < n ==> path[k] != a
  {
    n := 0;
    while path[n] != a
      invariant n < |path| && forall k :: 0 <= k < n ==> path[k] != a
      decreases |path| - n
    {
      n := n + 1;
    }
  }

  // The replacement leads back over the longer log exactly when it did before the row was logged.
  lemma {:induction false} LeadsBackExactly(reviews: seq<ReviewRow>, row: ReviewRow, b: RecordId)
    ensures Reaches(reviews + [row], b, row.record) <==> Reaches(reviews, b, row.record)
  {
    hide Linked;
    if Reaches(reviews, b, row.record) {
      var path :| IdPath(reviews, path) && path[0] == b && path[|path| - 1] == row.record;
      PathInLonger(reviews, row, path);
    }
    if Reaches(reviews + [row], b, row.record) {
      var path :| IdPath(reviews + [row], path) && path[0] == b && path[|path| - 1] == row.record;
      var n := UpToFirst(path, row.record);
      var start := path[..n + 1];
      assert IdPath(reviews + [row], start);
      PathWithout(reviews, row, start);
    }
  }

  // A cycle that uses a link leads from the end of the link back to its beginning.
  lemma {:induction false} Turned(reviews: seq<ReviewRow>, path: seq<RecordId>, k: nat)
    requires IdPath(reviews, path) && k < |path| - 1 && path[0] == path[|path| - 1]
    ensures Reaches(reviews, path[k + 1], path[k])
  {
    hide Linked;
    var turned := path[k + 1..] + path[1..k + 1];
    var m := |path| - k - 1;
    forall i | 0 <= i < |turned| - 1
      ensures Linked(reviews, turned[i], turned[i + 1])
    {
      if i + 1 < m {
        assert turned[i] == path[k + 1 + i] && turned[i + 1] == path[k + 2 + i];
      } else {
        assert turned[i] == path[i - m + 1] && turned[i + 1] == path[i - m + 2];
      }
    }
    assert IdPath(reviews, turned);
    assert turned[|turned| - 1] == path[k];
  }

  lemma {:induction false} CyclicWithRow(reviews: seq<ReviewRow>, row: ReviewRow)
    ensures Cyclic(reviews + [row])
      <==> Cyclic(reviews) || (row.replacement.Some? && Reaches(reviews, row.replacement.value, row.record))
  {
    hide Linked;
    if Cyclic(reviews) {
      var path :| IdPath(reviews, path) && |path| > 1 && path[0] == path[|path| - 1];
      PathInLonger(reviews, row, path);
    }
    if row.replacement.Some? && Reaches(reviews, row.replacement.value, row.record) {
      var back :| IdPath(reviews, back) && back[0] == row.replacement.value && back[|back| - 1] == row.record;
      PathInLonger(reviews, row, back);
      LinkedInLonger(reviews, row, row.record, row.replacement.value);
      assert IdPath(reviews + [row], [row.record] + back);
    }
    if Cyclic(reviews + [row]) {
      var path :| IdPath(reviews + [row], path) && |path| > 1 && path[0] == path[|path| - 1];
      if k :| 0 <= k < |path| - 1 && path[k] == row.record && row.replacement == Some(path[k + 1]) {
        Turned(reviews + [row], path, k);
        LeadsBackExactly(reviews, row, path[k + 1]);
      } else {
        PathWithout(reviews, row, path);
      }
    }
  }

  // ---------- reviews and runs ----------

  // What a review adds to the log.
  predicate AddsRow(t: Tables, q: ReviewRequest) {
    Review(t, q).Success? && Review(t, q).value.0 != t
  }

  // The replacement a review names already leads back to the reviewed record: visible before the review is made.
  ghost predicate LeadsBack(t: Tables, q: ReviewRequest) {
    q.replacement.Some? && Reaches(t.reviews, q.replacement.value, q.record)
  }

  // A review that supersedes a by b puts a and b on a cycle of record identities exactly when b led to a before;
  // then, and only then, it closes a cycle in a log without one.
  lemma {:induction false} ReviewClosesCycleExactly(t: Tables, q: ReviewRequest)
    requires Inv(t) && AddsRow(t, q)
    ensures var u := Review(t, q).value.0;
      && (q.replacement.Some? ==> Linked(u.reviews, q.record, q.replacement.value))
      && (LeadsBack(u, q) <==> LeadsBack(t, q))
      && (Cyclic(u.reviews) <==> Cyclic(t.reviews) || LeadsBack(t, q))
  {
    hide Inv, Review, Reaches, Cyclic, TransitionAllowed;
    ReviewOutcome(t, q);
    var row := RowOf(t, q);
    CyclicWithRow(t.reviews, row);
    if q.replacement.Some? {
      LeadsBackExactly(t.reviews, row, q.replacement.value);
      LinkedInLonger(t.reviews, row, q.record, q.replacement.value);
    }
  }

  // Step k of a run is a review whose replacement leads back.
  ghost predicate ClosesAt(ops: seq<Op>, k: nat) {
    && k < |ops| && ops[k].ReviewOp?
    && Possible(ops[..k])
    && AddsRow(After(ops[..k]), ops[k].review)
    && LeadsBack(After(ops[..k]), ops[k].review)
  }

  lemma {:induction false} SyncLogsNoReview(t: Tables, q: SyncRequest, unused: seq<RecordId>)
    requires Inv(t) && |unused| == |q.notes| && Drawn(t, q.notes, unused) && Sync(t, q, unused).Success?
    ensures Sync(t, q, unused).value.0.reviews == t.reviews
  {
    SyncOutcome(t, q, unused);
    if Sync(t, q, unused).value.0 != t { SyncFrames(t, q.source, q.notes, unused); }
    hide Inv, Drawn, Sync, SyncNotes, Synced, CoreOk, IdentitiesKept;
  }

  lemma {:induction false} OnlyReviewsLog(t: Tables, op: Op)
    requires Inv(t) && Admissible(t, op)
    ensures (op.ReviewOp? && AddsRow(t, op.review)) || Apply(t, op).reviews == t.reviews
  {
    TablesValid(t);
    hide Inv, Review, Sync, Drawn;
    match op
    case CreateOp(_, _, _, _, _) =>
    case SyncOp(q, unused) =>
      if Sync(t, q, unused).Success? { SyncLogsNoReview(t, q, unused); }
    case ReviewOp(_) =>
  }

  lemma {:induction false} ClosedEarlier(ops: seq<Op>, n: nat, k: nat)
    requires n <= |ops| && k < n
    ensures ClosesAt(ops[..n], k) <==> ClosesAt(ops, k)
  {
    assert ops[..n][..k] == ops[..k];
  }

  // The replacements logged by a run form a cycle of record identities exactly when one of its accepted reviews
  // named a replacement that already led back to the record it superseded.
  lemma {:induction false} RunIsCyclicExactly(ops: seq<Op>)
    requires Possible(ops)
    ensures Cyclic(After(ops).reviews) <==> exists k :: 0 <= k < |ops| && ClosesAt(ops, k)
  {
    hide Inv, Admissible, Apply, ClosesAt, Cyclic;
    if |ops| == 0 {
      NothingLogged();
    } else {
      var front, op := ops[..|ops| - 1], ops[|ops| - 1];
      RunIsCyclicExactly(front);
      LastStepCloses(ops);
      forall k | 0 <= k < |front|
        ensures ClosesAt(front, k) <==> ClosesAt(ops, k)
      {
        ClosedEarlier(ops, |front|, k);
      }
    }
  }

  lemma {:induction false} LastStepCloses(ops: seq<Op>)
    requires Possible(ops) && |ops| > 0
    ensures Cyclic(After(ops).reviews) <==> Cyclic(After(ops[..|ops| - 1]).reviews) || ClosesAt(ops, |ops| - 1)
  {
    hide Inv, Cyclic, LeadsBack, Review;
    var front, op := ops[..|ops| - 1], ops[|ops| - 1];
    OnlyReviewsLog(After(front), op);
    if op.ReviewOp? && AddsRow(After(front), op.review) {
      ReviewClosesCycleExactly(After(front), op.review);
    }
  }

  lemma {:induction false} NothingLogged()
    ensures !Cyclic([])
  {
    forall path: seq<RecordId> | |path| > 1
      ensures !IdPath([], path)
    {
      assert !Linked([], path[0], path[1]);
    }
  }

  // ---------- logs without a cycle ----------

  // The row behind one link, with the revision it replaces and the revision that replaces it.
  lemma {:induction false} LinkReplaces(t: Tables, a: RecordId, b: RecordId) returns (i: nat, from: Revision, to: Revision)
    requires Inv(t) && Linked(t.reviews, a, b)
    ensures Replaces(t.reviews, i, from, to) && from.record == a && to.record == b
    ensures Decisions(t.reviews, from) != [] && Decisions(t.reviews, to) != []
  {
    hide RecordsOk, RevisionsOk, BindingsOk, SyncsOk, Governed, Decisions;
    i :| 0 <= i < |t.reviews| && t.reviews[i].record == a && t.reviews[i].replacement == Some(b);
    assert RowOk(t, i);
    from := Revision(a, t.reviews[i].hash);
    to :| Replaces(t.reviews, i, from, to);
    assert t.reviews[..|t.reviews|] == t.reviews;
    DecisionsGrow(t.reviews, i, |t.reviews|, from);
    DecisionsGrow(t.reviews, i, |t.reviews|, to);
  }

  // Where no record is decided under two contents, linked records are linked revisions.
  lemma {:induction false} Lifted(t: Tables, path: seq<RecordId>) returns (links: seq<nat>, revisions: seq<Revision>)
    requires Inv(t) && DecidedOnce(t.reviews) && IdPath(t.reviews, path) && |path| > 1
    ensures Chain(t.reviews, links, revisions) && |revisions| == |path|
    ensures forall k :: 0 <= k < |path| ==> revisions[k].record == path[k] && Decisions(t.reviews, revisions[k]) != []
  {
    hide Inv, DecidedOnce, Linked, Decisions, Replaces;
    var n := |path| - 1;
    assert Linked(t.reviews, path[n - 1], path[n]);
    var i, from, to := LinkReplaces(t, path[n - 1], path[n]);
    if n == 1 {
      links, revisions := [i], [from, to];
    } else {
      var before, reached := Lifted(t, path[..n]);
      SameVersion(t.reviews, reached[n - 1], from);
      links, revisions := before + [i], reached + [to];
      forall k | 0 <= k < |links|
        ensures Replaces(t.reviews, links[k], revisions[k], revisions[k + 1])
      {
        if k < n - 1 { assert Replaces(t.reviews, before[k], reached[k], reached[k + 1]); }
      }
    }
  }

  // Where no record is decided under two contents, following replacements never returns to a record.
  lemma {:induction false} DecidedOnceIsAcyclic(t: Tables)
    requires Inv(t) && DecidedOnce(t.reviews)
    ensures !Cyclic(t.reviews)
  {
    hide Inv, IdPath, DecidedOnce, Chain, Decisions;
    forall path | IdPath(t.reviews, path) && |path| > 1
      ensures path[0] != path[|path| - 1]
    {
      var links, revisions := Lifted(t, path);
      ChainIsAcyclic(t.reviews, links, revisions);
      if path[0] == path[|path| - 1] {
        SameVersion(t.reviews, revisions[0], revisions[|path| - 1]);
        assert false;
      }
    }
  }
}
