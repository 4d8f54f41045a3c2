/** Reviews: the authority state machine of every revision and the chains of replacements it builds. */
module MemoryReview {
  import opened Wrappers
  import opened Relational
  import opened Memory
  import opened MemoryInvariant

  // The latest review of a revision is the last decision logged for it.
  lemma {:induction false} LatestIsLastDecision(reviews: seq<ReviewRow>, v: Revision)
    ensures LatestReview(reviews, v.record, v.hash).None? <==> Decisions(reviews, v) == []
    ensures var row := LatestReview(reviews, v.record, v.hash);
      row.Some? ==>
        && row.value.record == v.record && row.value.hash == v.hash && row.value in reviews
        && row.value.decision == Decisions(reviews, v)[|Decisions(reviews, v)| - 1]
  {
    if |reviews| > 0 {
      LatestIsLastDecision(reviews[..|reviews| - 1], v);
    }
  }

  // The authority a revision is read under: where it came from until it is decided, then its last decision.
  lemma {:induction false} AuthorityIsLastDecision(reviews: seq<ReviewRow>, r: Record)
    ensures var d := Decisions(reviews, Revision(r.id, r.hash));
      WithReviewState(reviews, r).authority == if d == [] then r.authority else d[|d| - 1]
  {
    LatestIsLastDecision(reviews, Revision(r.id, r.hash));
  }

  lemma {:induction false} KeyLookup(reviews: seq<ReviewRow>, key: Key)
    ensures ReviewByKey(reviews, key).None? <==> forall row :: row in reviews ==> row.key != key
    ensures ReviewByKey(reviews, key).Some? ==> ReviewByKey(reviews, key).value in reviews && ReviewByKey(reviews, key).value.key == key
  {
    if |reviews| > 0 {
      KeyLookup(reviews[..|reviews| - 1], key);
      assert reviews == reviews[..|reviews| - 1] + [reviews[|reviews| - 1]];
    }
  }

  lemma {:induction false} DecisionsOfLonger(reviews: seq<ReviewRow>, row: ReviewRow, v: Revision)
    ensures Decisions(reviews + [row], v)
      == Decisions(reviews, v) + (if row.record == v.record && row.hash == v.hash then [row.decision] else [])
  {
    assert (reviews + [row])[..|reviews|] == reviews;
  }

  lemma {:induction false} ReplacesStays(reviews: seq<ReviewRow>, row: ReviewRow, i: nat, a: Revision, b: Revision)
    requires i < |reviews|
    ensures Replaces(reviews + [row], i, a, b) <==> Replaces(reviews, i, a, b)
  {
    assert (reviews + [row])[..i] == reviews[..i];
  }

  // The row an accepted review adds.
  function RowOf(t: Tables, q: ReviewRequest): ReviewRow
    requires q.record in t.records.rows
  {
    ReviewRow(q.event, q.key, q.record, t.records.rows[q.record].hash, q.decision, q.replacement)
  }

  // An accepted review either repeats a logged one exactly, or adds one row under a new key and a new event.
  lemma {:induction false} ReviewOutcome(t: Tables, q: ReviewRequest)
    requires Review(t, q).Success?
    ensures q.record in t.records.rows
    ensures var u := Review(t, q).value.0;
      || (u == t && RowOf(t, q) in t.reviews)
      || (u == t.(reviews := t.reviews + [RowOf(t, q)])
          && (forall row :: row in t.reviews ==> row.key != q.key && row.event != q.event)
          && TransitionAllowed(t, WithReviewState(t.reviews, t.records.rows[q.record]), q)
          && q.decision in {Approved, Rejected, Superseded})
  {
    KeyLookup(t.reviews, q.key);
  }

  lemma {:induction false} ReviewKeeps(t: Tables, q: ReviewRequest)
    requires Inv(t) && Review(t, q).Success?
    ensures Inv(Review(t, q).value.0)
  {
    ReviewOutcome(t, q);
    var u := Review(t, q).value.0;
    if u.reviews != t.reviews {
      hide Review, TransitionAllowed;
      ReviewAdded(t, u, q);
    }
  }

  lemma {:induction false} ReviewAdded(t: Tables, u: Tables, q: ReviewRequest)
    requires Inv(t) && q.record in t.records.rows
    requires u == t.(reviews := t.reviews + [RowOf(t, q)])
    requires forall row :: row in t.reviews ==> row.key != q.key && row.event != q.event
    requires TransitionAllowed(t, WithReviewState(t.reviews, t.records.rows[q.record]), q)
    requires q.decision in {Approved, Rejected, Superseded}
    ensures Inv(u)
  {
    hide BindingsOk, WithReviewState, TransitionAllowed, RowOk;
    var row := RowOf(t, q);
    DecisionsStayGoverned(t, u, q);
    forall i | 0 <= i < |u.reviews|
      ensures RowOk(u, i)
    {
      if i < |t.reviews| {
        RowStays(t, u, row, i);
      } else {
        NewRowOk(t, u, q);
      }
    }
    BindingsUnaffected(t, u);
  }

  lemma {:induction false} DecisionsStayGoverned(t: Tables, u: Tables, q: ReviewRequest)
    requires Inv(t) && q.record in t.records.rows && q.decision in {Approved, Rejected, Superseded}
    requires u == t.(reviews := t.reviews + [RowOf(t, q)])
    requires TransitionAllowed(t, WithReviewState(t.reviews, t.records.rows[q.record]), q)
    ensures forall v :: Governed(Decisions(u.reviews, v))
  {
    hide RecordsOk, RevisionsOk, BindingsOk, RowOk, TransitionAllowed;
    StaysGoverned(t, q);
    forall v
      ensures Governed(Decisions(u.reviews, v))
    {
      DecisionsOfLonger(t.reviews, RowOf(t, q), v);
      assert Governed(Decisions(t.reviews, v));
    }
  }

  lemma {:induction false} BindingsUnaffected(t: Tables, u: Tables)
    requires BindingsOk(t) && u.records == t.records && u.bindings == t.bindings
    ensures BindingsOk(u)
  {
    forall id | id in u.records.rows && u.records.rows[id].kind == Obsidian
      ensures u.records.rows[id].sourcePath.Some?
      ensures BoundAt(u, Place(u.records.rows[id].sourceKey, u.records.rows[id].sourcePath.value), id)
    {
      assert BoundAt(t, Place(t.records.rows[id].sourceKey, t.records.rows[id].sourcePath.value), id);
    }
  }

  // A review is accepted only from a state its decision may follow.
  lemma {:induction false} StaysGoverned(t: Tables, q: ReviewRequest)
    requires Inv(t) && q.record in t.records.rows && q.decision in {Approved, Rejected, Superseded}
    requires TransitionAllowed(t, WithReviewState(t.reviews, t.records.rows[q.record]), q)
    ensures var d := Decisions(t.reviews, Revision(q.record, t.records.rows[q.record].hash));
      && Governed(d + [q.decision])
      && (d == [] || d == [Approved])
      && (q.decision == Superseded <==> d == [Approved])
  {
    hide BindingsOk, RevisionsOk, RowOk;
    var r := t.records.rows[q.record];
    assert WellSourced(r);
    assert Governed(Decisions(t.reviews, Revision(q.record, r.hash)));
    AuthorityIsLastDecision(t.reviews, r);
  }

  lemma {:induction false} RowStays(t: Tables, u: Tables, row: ReviewRow, i: nat)
    requires u == t.(reviews := t.reviews + [row]) && i < |t.reviews| && RowOk(t, i)
    ensures RowOk(u, i)
  {
    var a := Revision(t.reviews[i].record, t.reviews[i].hash);
    if t.reviews[i].decision == Superseded {
      var b: Revision :| b.record in t.records.rows && Replaces(t.reviews, i, a, b);
      ReplacesStays(t.reviews, row, i, a, b);
      assert Replaces(u.reviews, i, a, b);
    }
  }

  // The replacement of a superseding review is the current, approved revision of another record.
  lemma {:induction false} NewRowOk(t: Tables, u: Tables, q: ReviewRequest)
    requires Inv(t) && q.record in t.records.rows && q.decision in {Approved, Rejected, Superseded}
    requires u == t.(reviews := t.reviews + [RowOf(t, q)])
    requires TransitionAllowed(t, WithReviewState(t.reviews, t.records.rows[q.record]), q)
    ensures RowOk(u, |t.reviews|)
    ensures q.decision == Superseded ==>
      && q.replacement.Some? && q.replacement.value in t.records.rows
      && Replaces(u.reviews, |t.reviews|, Revision(q.record, t.records.rows[q.record].hash),
                  Revision(q.replacement.value, t.records.rows[q.replacement.value].hash))
  {
    hide BindingsOk, RowOk;
    StaysGoverned(t, q);
    assert t.records.rows[q.record] in t.revisions;
    assert u.reviews[..|t.reviews|] == t.reviews;
    if q.decision == Superseded {
      var b := t.records.rows[q.replacement.value];
      assert WellSourced(b);
      AuthorityIsLastDecision(t.reviews, b);
      assert Governed(Decisions(t.reviews, Revision(b.id, b.hash)));
    }
    NewRowFits(t, u, q);
  }

  lemma {:induction false} NewRowFits(t: Tables, u: Tables, q: ReviewRequest)
    requires q.record in t.records.rows && u == t.(reviews := t.reviews + [RowOf(t, q)])
    requires t.records.rows[q.record] in t.revisions && t.records.rows[q.record].id == q.record
    requires q.decision == Superseded <==> q.replacement.Some?
    requires q.decision == Superseded ==> (
      && q.replacement.value in t.records.rows
      && Replaces(u.reviews, |t.reviews|, Revision(q.record, t.records.rows[q.record].hash),
                  Revision(q.replacement.value, t.records.rows[q.replacement.value].hash)))
    ensures RowOk(u, |t.reviews|)
  {
  }

  // ---------- replaying a review ----------

  // A request whose key is already logged adds no row; it is accepted exactly when the logged row
  // is the one the request would log against the record's current content.
  lemma {:induction false} ReplayAddsNothing(t: Tables, q: ReviewRequest, logged: ReviewRow)
    requires Inv(t) && logged in t.reviews && logged.key == q.key
    requires q.decision in {Approved, Rejected, Superseded} && PortableToken(q.key) && q.record in t.records.rows
    ensures Review(t, q).Success? <==> logged == RowOf(t, q)
    ensures Review(t, q).Success? ==> Review(t, q).value == (t, WithReviewState(t.reviews, t.records.rows[q.record]))
    ensures Review(t, q).Failure? ==> Review(t, q).error == ReviewConflict
  {
    hide RecordsOk, RevisionsOk, BindingsOk, RowOk;
    KeyLookup(t.reviews, q.key);
    var found := ReviewByKey(t.reviews, q.key).value;
    var i :| 0 <= i < |t.reviews| && t.reviews[i] == logged;
    var j :| 0 <= j < |t.reviews| && t.reviews[j] == found;
    assert i == j;
  }

  // ---------- chains of replacements ----------

  // Row links[k] of the log replaces path[k] by path[k + 1].
  ghost predicate Chain(reviews: seq<ReviewRow>, links: seq<nat>, path: seq<Revision>) {
    && |path| == |links| + 1
    && forall k :: 0 <= k < |links| ==> Replaces(reviews, links[k], path[k], path[k + 1])
  }

  // The decisions up to one row are a beginning of the decisions up to a later one.
  lemma {:induction false} DecisionsGrow(reviews: seq<ReviewRow>, i: nat, j: nat, v: Revision)
    requires i <= j <= |reviews|
    ensures Decisions(reviews[..i], v) <= Decisions(reviews[..j], v)
    decreases j
  {
    if i < j {
      DecisionsGrow(reviews, i, j - 1, v);
      assert reviews[..j][..j - 1] == reviews[..j - 1];
    }
  }

  // A revision is replaced only after the moment it became a replacement.
  lemma {:induction false} ReplacedLater(reviews: seq<ReviewRow>, i: nat, j: nat, a: Revision, b: Revision, c: Revision)
    requires Replaces(reviews, i, a, b) && Replaces(reviews, j, b, c)
    ensures i < j
  {
    if j < i {
      assert reviews[..j + 1][..j] == reviews[..j];
      assert Decisions(reviews[..j + 1], b) == [Approved, Superseded];
      DecisionsGrow(reviews, j + 1, i, b);
    }
  }

  // Along a chain the log positions grow, so no revision comes back.
  lemma {:induction false} ChainIncreases(reviews: seq<ReviewRow>, links: seq<nat>, path: seq<Revision>, i: nat, j: nat)
    requires Chain(reviews, links, path) && i < j < |links|
    ensures links[i] < links[j]
  {
    if i + 1 < j { ChainIncreases(reviews, links, path, i, j - 1); }
    ReplacedLater(reviews, links[j - 1], links[j], path[j - 1], path[j], path[j + 1]);
  }

  lemma {:induction false} ChainIsAcyclic(reviews: seq<ReviewRow>, links: seq<nat>, path: seq<Revision>)
    requires Chain(reviews, links, path)
    ensures NoDuplicates(path)
    ensures |links| <= |reviews|
  {
    forall i, j | 0 <= i < j < |path|
      ensures path[i] != path[j]
    {
      if path[i] == path[j] {
        assert Replaces(reviews, links[j - 1], path[j - 1], path[j]);
        assert Replaces(reviews, links[i], path[i], path[i + 1]);
        ReplacedLater(reviews, links[j - 1], links[i], path[j - 1], path[j], path[i + 1]);
        if i < j - 1 { ChainIncreases(reviews, links, path, i, j - 1); }
        assert false;
      }
    }
    if |links| > |reviews| { LinksBounded(reviews, links, path, |reviews|); }
  }

  lemma {:induction false} LinksBounded(reviews: seq<ReviewRow>, links: seq<nat>, path: seq<Revision>, n: nat)
    requires Chain(reviews, links, path) && n < |links|
    ensures n <= links[n] < |reviews|
  {
    assert Replaces(reviews, links[n], path[n], path[n + 1]);
    if n > 0 {
      LinksBounded(reviews, links, path, n - 1);
      ChainIncreases(reviews, links, path, n - 1, n);
    }
  }

  // Following replacements from a superseded revision ends in an approved one.
  lemma {:induction false} SupersededEndsApproved(t: Tables, a: Revision) returns (links: seq<nat>, path: seq<Revision>)
    requires ReviewsOk(t) && Decisions(t.reviews, a) == [Approved, Superseded]
    ensures Chain(t.reviews, links, path) && |links| > 0 && path[0] == a
    ensures Decisions(t.reviews, path[|path| - 1]) == [Approved]
  {
    links, path := FollowFrom(t, a, 0);
  }

  lemma {:induction false} FollowFrom(t: Tables, a: Revision, after: nat) returns (links: seq<nat>, path: seq<Revision>)
    requires ReviewsOk(t) && after <= |t.reviews|
    requires Decisions(t.reviews, a) == [Approved, Superseded]
    requires Decisions(t.reviews[..after], a) == [] || Decisions(t.reviews[..after], a) == [Approved]
    ensures Chain(t.reviews, links, path) && |links| > 0 && path[0] == a
    ensures Decisions(t.reviews, path[|path| - 1]) == [Approved]
    decreases |t.reviews| - after
  {
    hide ReviewsOk, Decisions, Replaces;
    var i, b := NextInChain(t, a, after);
    if Decisions(t.reviews, b) == [Approved] {
      links, path := [i], [a, b];
    } else {
      var more, rest := FollowFrom(t, b, i + 1);
      links, path := [i] + more, [a] + rest;
      forall k | 0 <= k < |links|
        ensures Replaces(t.reviews, links[k], path[k], path[k + 1])
      {
        if k > 0 { assert Replaces(t.reviews, more[k - 1], rest[k - 1], rest[k]); }
      }
    }
  }

  lemma {:induction false} NextInChain(t: Tables, a: Revision, after: nat) returns (i: nat, b: Revision)
    requires ReviewsOk(t) && after <= |t.reviews|
    requires Decisions(t.reviews, a) == [Approved, Superseded]
    requires Decisions(t.reviews[..after], a) == [] || Decisions(t.reviews[..after], a) == [Approved]
    ensures after <= i < |t.reviews| && Replaces(t.reviews, i, a, b)
    ensures Decisions(t.reviews[..i + 1], b) == [Approved]
    ensures Decisions(t.reviews, b) == [Approved] || Decisions(t.reviews, b) == [Approved, Superseded]
  {
    hide Governed, Decisions;
    assert t.reviews[..|t.reviews|] == t.reviews;
    i := SupersedingRow(t.reviews, a, after, |t.reviews|);
    assert RowOk(t, i);
    b :| Replaces(t.reviews, i, a, b);
    assert Governed(Decisions(t.reviews, b));
    OnceApproved(t.reviews, i, a, b);
  }

  lemma {:induction false} OnceApproved(reviews: seq<ReviewRow>, i: nat, a: Revision, b: Revision)
    requires Replaces(reviews, i, a, b) && Governed(Decisions(reviews, b))
    ensures Decisions(reviews[..i + 1], b) == [Approved]
    ensures Decisions(reviews, b) == [Approved] || Decisions(reviews, b) == [Approved, Superseded]
  {
    assert reviews[..i + 1][..i] == reviews[..i];
    assert reviews[..|reviews|] == reviews;
    DecisionsGrow(reviews, i, |reviews|, b);
    assert Decisions(reviews, b)[0] == Decisions(reviews[..i], b)[0];
  }

  // The row that superseded a revision, searched for backwards.
  lemma {:induction false} SupersedingRow(reviews: seq<ReviewRow>, a: Revision, after: nat, n: nat) returns (i: nat)
    requires after <= n <= |reviews|
    requires Decisions(reviews[..n], a) == [Approved, Superseded]
    requires Decisions(reviews[..after], a) == [] || Decisions(reviews[..after], a) == [Approved]
    ensures after <= i < n && reviews[i].decision == Superseded && a == Revision(reviews[i].record, reviews[i].hash)
  {
    assert n > after;
    assert reviews[..n][..n - 1] == reviews[..n - 1];
    var row := reviews[n - 1];
    if row.record == a.record && row.hash == a.hash {
      i := n - 1;
      var d := Decisions(reviews[..n - 1], a);
      assert row.decision == (d + [row.decision])[|d|] == Decisions(reviews[..n], a)[1];
    } else {
      i := SupersedingRow(reviews, a, after, n - 1);
    }
  }
}
