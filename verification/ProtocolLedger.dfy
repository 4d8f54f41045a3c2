/** How a run is read out of the shared ledger, and what a committed append means for it. */
module ProtocolLedger {
  import opened Wrappers
  import opened Relational
  import opened Events
  import opened Ledger
  import opened Runs
  import opened Protocol
  import opened ProtocolWorld
  import opened ProtocolShape
  import Memory

  // ---------- the rows of one run ----------

  lemma {:induction false} OfRunMembers(rows: seq<Row>, run: nat)
    ensures forall x :: x in OfRun(rows, run) <==> x in rows && x.event.run == ChatRun(run)
  {
    if |rows| > 0 {
      OfRunMembers(rows[..|rows| - 1], run);
      assert rows == rows[..|rows| - 1] + [rows[|rows| - 1]];
    }
  }

  lemma {:induction false} OfRunAppend(rows: seq<Row>, more: seq<Row>, run: nat)
    ensures OfRun(rows + more, run) == OfRun(rows, run) + OfRun(more, run)
  {
    if |more| == 0 {
      assert rows + more == rows;
    } else {
      OfRunAppend(rows, more[..|more| - 1], run);
      assert (rows + more)[..|rows + more| - 1] == rows + more[..|more| - 1];
    }
  }

  lemma {:induction false} OfRunAll(rows: seq<Row>, run: nat)
    ensures (forall x :: x in rows ==> x.event.run == ChatRun(run)) ==> OfRun(rows, run) == rows
    ensures (forall x :: x in rows ==> x.event.run != ChatRun(run)) ==> OfRun(rows, run) == []
  {
    if |rows| > 0 {
      OfRunAll(rows[..|rows| - 1], run);
      assert rows == rows[..|rows| - 1] + [rows[|rows| - 1]];
    }
  }

  ghost predicate DistinctIds(rows: seq<Row>) {
    forall i, j :: 0 <= i < j < |rows| ==> rows[i].event.id != rows[j].event.id
  }

  ghost predicate DistinctKeys(rows: seq<Row>) {
    forall i, j :: 0 <= i < j < |rows| ==> rows[i].key != rows[j].key
  }

  lemma {:induction false} OfRunDistinct(rows: seq<Row>, run: nat)
    requires DistinctIds(rows) && DistinctKeys(rows)
    ensures DistinctIds(OfRun(rows, run)) && DistinctKeys(OfRun(rows, run))
  {
    if |rows| > 0 {
      var front, last := rows[..|rows| - 1], rows[|rows| - 1];
      OfRunDistinct(front, run);
      OfRunMembers(front, run);
      assert forall x :: x in front ==> x.event.id != last.event.id && x.key != last.key;
    }
  }

  lemma {:induction false} SoundIsDistinct(rows: seq<Row>, artifacts: set<Ref>)
    requires LedgerOk(rows, artifacts)
    ensures DistinctIds(rows) && DistinctKeys(rows)
  {
    hide RowOk;
  }

  // ---------- reading a run ----------

  lemma {:induction false} SelectedIs(rows: seq<Row>, session: string, run: nat, own: string)
    requires forall x :: x in OfRun(rows, run) ==> x.event.session == own
    ensures Selected(Stream(rows, session), run) == if session == own then EventsOf(OfRun(rows, run)) else []
  {
    hide Stream, OfRun, Selected, EventsOf;
    if |rows| == 0 {
      NothingSelected(session, run);
      assert rows == [];
    } else {
      var front, last := rows[..|rows| - 1], rows[|rows| - 1];
      assert rows == front + [last];
      RunOfLonger(front, last, run);
      SelectedIs(front, session, run, own);
      SelectedOfLonger(front, last, session, run);
      EventsSnoc(OfRun(front, run), last);
      if last.event.run == ChatRun(run) {
        assert last.event.session == own;
      } else {
        assert OfRun(rows, run) == OfRun(front, run);
        assert Selected(Stream(rows, session), run) == Selected(Stream(front, session), run);
      }
    }
  }

  lemma {:induction false} NothingSelected(session: string, run: nat)
    ensures Selected(Stream([], session), run) == [] && EventsOf(OfRun([], run)) == []
  {
  }

  lemma {:induction false} SelectedOfLonger(rows: seq<Row>, row: Row, session: string, run: nat)
    ensures Selected(Stream(rows + [row], session), run)
      == Selected(Stream(rows, session), run)
         + (if row.event.session == session && row.event.run == ChatRun(run) then [row.event] else [])
  {
    assert (rows + [row])[..|rows|] == rows;
    SelectedSnoc(Stream(rows, session), row.event, run);
    if row.event.session == session {
      assert Stream(rows + [row], session) == Stream(rows, session) + [row.event];
    } else {
      assert Stream(rows + [row], session) == Stream(rows, session);
    }
  }

  lemma {:induction false} RunOfLonger(rows: seq<Row>, row: Row, run: nat)
    ensures OfRun(rows + [row], run) == OfRun(rows, run) + (if row.event.run == ChatRun(run) then [row] else [])
    ensures forall x :: x in OfRun(rows, run) ==> x in OfRun(rows + [row], run)
    ensures row.event.run == ChatRun(run) ==> row in OfRun(rows + [row], run)
  {
    assert (rows + [row])[..|rows|] == rows;
  }

  lemma {:induction false} SelectedSnoc(es: seq<Event>, e: Event, run: nat)
    ensures Selected(es + [e], run) == Selected(es, run) + (if e.run == ChatRun(run) then [e] else [])
  {
    assert (es + [e])[..|es|] == es;
  }

  ghost predicate RunShaped(rows: seq<Row>, run: nat) {
    Shape(run, EventsOf(OfRun(rows, run)))
  }

  lemma {:induction false} SessionOfRun(rows: seq<Row>, run: nat)
    requires RunShaped(rows, run)
    ensures forall x :: x in OfRun(rows, run) ==> x.event.session == OfRun(rows, run)[0].event.session
  {
    var v := OfRun(rows, run);
    hide Shape;
    forall x | x in v
      ensures x.event.session == v[0].event.session
    {
      var i :| 0 <= i < |v| && v[i] == x;
      OneSession(run, EventsOf(v), i);
    }
  }

  // Inspecting a run under its session yields its events and its context; under another session it is not found.
  lemma {:induction false} InspectFinds(rows: seq<Row>, artifacts: set<Ref>, session: string, run: nat)
    requires LedgerOk(rows, artifacts) && RunShaped(rows, run)
    ensures var es := EventsOf(OfRun(rows, run));
      if |es| == 0 || es[0].session != session then Inspect(rows, artifacts, session, run) == Failure(NotFound)
      else
        && |es| >= 3 && |es[1].refs| == 1 && es[1].refs[0].blob.ManifestBlob?
        && Inspect(rows, artifacts, session, run) == Success(Inspection(es, es[1].refs[0].blob.manifest))
  {
    var v := OfRun(rows, run);
    var es := EventsOf(v);
    SessionOfRun(rows, run);
    SelectedIs(rows, session, run, if |es| > 0 then es[0].session else session);
    if |es| > 0 && es[0].session == session {
      ShapeIsRun(run, es);
      ManifestIsSecond(run, es);
      FitsAt(run, es, 0);
      StoredResolves(rows, artifacts, run, 1);
    }
    hide Accepted, ManifestOf, Shape, LedgerOk, OfRun;
  }

  lemma {:induction false} StoredResolves(rows: seq<Row>, artifacts: set<Ref>, run: nat, i: nat)
    requires LedgerOk(rows, artifacts) && i < |OfRun(rows, run)|
    ensures forall r :: r in OfRun(rows, run)[i].event.refs ==> r in artifacts
  {
    OfRunMembers(rows, run);
    assert OfRun(rows, run)[i] in rows;
    var j :| 0 <= j < |rows| && rows[j] == OfRun(rows, run)[i];
    assert RowOk(rows, artifacts, j);
  }

  // A stored request of a run is its first event, a stored decision its sixth.
  lemma {:induction false} RequestIsFirst(rows: seq<Row>, run: nat, q: ChatRequest, row: Row)
    requires RunShaped(rows, run) && row in rows && SameRequest(row.event, q) && q.id == run
    ensures |OfRun(rows, run)| >= 3 && OfRun(rows, run)[0] == row
  {
    OfRunMembers(rows, run);
    var v := OfRun(rows, run);
    var i :| 0 <= i < |v| && v[i] == row;
    FitsAt(run, EventsOf(v), i);
    NotShort(run, EventsOf(v));
    hide Shape, TaskOf;
    PlaceOfRequest(run, i, row.event, q);
  }

  lemma {:induction false} NotShort(run: nat, es: seq<Event>)
    requires Shape(run, es)
    ensures |es| == 0 || |es| >= 3
  {
  }

  lemma {:induction false} PlaceOfRequest(run: nat, i: nat, e: Event, q: ChatRequest)
    requires Fits(run, i, e) && SameRequest(e, q)
    ensures i == 0
  {
    hide TaskOf;
  }

  lemma {:induction false} DecisionIsSixth(rows: seq<Row>, session: string, run: nat, toolEvent: EventId, d: Decision, row: Row)
    requires RunShaped(rows, run) && row in rows && SameDecision(row.event, session, run, toolEvent, d)
    ensures |OfRun(rows, run)| >= 6 && OfRun(rows, run)[5] == row
  {
    OfRunMembers(rows, run);
    var v := OfRun(rows, run);
    var i :| 0 <= i < |v| && v[i] == row;
    FitsAt(run, EventsOf(v), i);
    hide Shape, TaskOf;
    PlaceOfDecision(run, i, row.event);
  }

  lemma {:induction false} PlaceOfDecision(run: nat, i: nat, e: Event)
    requires Fits(run, i, e) && e.payload.detail.DecisionDetail? && e.id.Client?
    ensures i == 5
  {
    hide TaskOf;
  }

  // ---------- committed appends ----------

  // The event that continues a run is not stored yet.
  lemma {:induction false} NextIsNew(rows: seq<Row>, artifacts: set<Ref>, run: nat, row: Row)
    requires LedgerOk(rows, artifacts) && RunShaped(rows, run) && |OfRun(rows, run)| > 0
    requires row.event.run == ChatRun(run)
    requires row.event.parents == [OfRun(rows, run)[|OfRun(rows, run)| - 1].event.id]
    ensures row !in rows
  {
    var v := OfRun(rows, run);
    SoundIsDistinct(rows, artifacts);
    OfRunDistinct(rows, run);
    OfRunMembers(rows, run);
    hide LedgerOk, Fits;
    if row in rows {
      StoredFollowsEarlier(run, v, row);
      assert false;
    }
  }

  lemma {:induction false} StoredFollowsEarlier(run: nat, v: seq<Row>, row: Row)
    requires Shape(run, EventsOf(v)) && DistinctIds(v) && row in v
    ensures row.event.parents != [v[|v| - 1].event.id]
  {
    var i :| 0 <= i < |v| && v[i] == row;
    ParentInRun(run, EventsOf(v), i);
  }

  lemma {:induction false} ParentInRun(run: nat, es: seq<Event>, i: nat)
    requires Shape(run, es) && i < |es|
    ensures es[i].parents == if i == 0 then [] else [es[i - 1].id]
  {
    hide Fits;
    if i > 0 { assert Follows(es[i - 1], es[i]); }
  }

  lemma {:induction false} NextAppended(rows: seq<Row>, artifacts: set<Ref>, run: nat, row: Row)
    requires LedgerOk(rows, artifacts) && RunShaped(rows, run) && |OfRun(rows, run)| > 0
    requires row.event.run == ChatRun(run)
    requires row.event.parents == [OfRun(rows, run)[|OfRun(rows, run)| - 1].event.id]
    requires AppendOne(rows, artifacts, row.event, row.key).Success?
    ensures AppendOne(rows, artifacts, row.event, row.key).value == rows + [row]
    ensures LedgerOk(rows + [row], artifacts) && OfRun(rows + [row], run) == OfRun(rows, run) + [row]
  {
    hide LedgerOk, AppendOne, RunShaped;
    NextIsNew(rows, artifacts, run, row);
    AppendOneOutcome(rows, artifacts, row.event, row.key);
    AppendOneKeeps(rows, artifacts, row.event, row.key);
    OfRunAppend(rows, [row], run);
    OfRunAll([row], run);
  }

  // A committed batch that continues a run adds exactly its rows.
  lemma {:induction false} BatchAppended(rows: seq<Row>, artifacts: set<Ref>, run: nat, batch: seq<Row>)
    requires LedgerOk(rows, artifacts) && RunShaped(rows, run) && |OfRun(rows, run)| >= 3
    requires Continues(run, OfRun(rows, run), batch) && AppendMany(rows, artifacts, batch).Success?
    ensures AppendMany(rows, artifacts, batch).value == rows + batch
    ensures LedgerOk(rows + batch, artifacts)
    ensures OfRun(rows + batch, run) == OfRun(rows, run) + batch && RunShaped(rows + batch, run)
  {
    hide LedgerOk, AppendOne, Shape, Fits, OfRun;
    var v := OfRun(rows, run);
    ContinuedFits(run, v, batch);
    BatchEvents(run, v, batch);
    assert AppendMany(rows, artifacts, []) == Success(rows);
    if |batch| == 0 {
      assert rows + batch == rows && v + batch == v;
    } else {
      assert batch[..1] == [batch[0]] && [batch[0]][..0] == [];
      Stepwise(rows, artifacts, batch);
      NextAppended(rows, artifacts, run, batch[0]);
      if |batch| == 1 {
        assert batch == [batch[0]];
      } else {
        NextAppended(rows + [batch[0]], artifacts, run, batch[1]);
        assert rows + batch == rows + [batch[0]] + [batch[1]];
        assert v + batch == v + [batch[0]] + [batch[1]];
      }
    }
  }

  // What can keep a row that continues a run out of the ledger.
  ghost predicate FreeFor(rows: seq<Row>, artifacts: set<Ref>, x: Row) {
    && Memory.PortableToken(x.key)
    && !HasId(rows, x.event.id)
    && !HasKey(rows, x.key)
    && forall r :: r in x.event.refs ==> r in artifacts
  }

  lemma {:induction false} NextCommitsExactly(rows: seq<Row>, artifacts: set<Ref>, run: nat, x: Row)
    requires LedgerOk(rows, artifacts) && RunShaped(rows, run) && |OfRun(rows, run)| > 0
    requires x.event.run == ChatRun(run) && x.event.payload.operation.Step?
    requires x.event.parents == [OfRun(rows, run)[|OfRun(rows, run)| - 1].event.id]
    ensures AppendOne(rows, artifacts, x.event, x.key).Success? <==> FreeFor(rows, artifacts, x)
  {
    var v := OfRun(rows, run);
    OfRunMembers(rows, run);
    assert v[|v| - 1] in rows;
    assert HasId(rows, v[|v| - 1].event.id);
    NextIsNew(rows, artifacts, run, x);
    hide LedgerOk, RunShaped, OfRun, AppendOne, HasId, HasKey, Memory.PortableToken;
    AcceptedExactly(rows, artifacts, x.event, x.key);
  }

  lemma {:induction false} FreeAfter(rows: seq<Row>, artifacts: set<Ref>, a: Row, b: Row)
    ensures FreeFor(rows + [a], artifacts, b)
      <==> FreeFor(rows, artifacts, b) && b.event.id != a.event.id && b.key != a.key
  {
    hide Memory.PortableToken;
    assert forall x :: x in rows + [a] <==> x in rows || x == a;
    assert a in rows + [a];
  }

  lemma {:induction false} PairCommitsExactly(rows: seq<Row>, artifacts: set<Ref>, run: nat, a: Row, b: Row)
    requires LedgerOk(rows, artifacts) && RunShaped(rows, run) && |OfRun(rows, run)| >= 3
    requires RunShaped(rows + [a], run) && AppendOne(rows, artifacts, a.event, a.key).Success?
    requires a.event.run == ChatRun(run) && a.event.parents == [OfRun(rows, run)[|OfRun(rows, run)| - 1].event.id]
    requires b.event.run == ChatRun(run) && b.event.payload.operation.Step? && b.event.parents == [a.event.id]
    ensures AppendOne(rows, artifacts, a.event, a.key).value == rows + [a]
    ensures AppendOne(rows + [a], artifacts, b.event, b.key).Success?
      <==> FreeFor(rows, artifacts, b) && b.event.id != a.event.id && b.key != a.key
  {
    hide LedgerOk, AppendOne, OfRun, RunShaped, FreeFor;
    NextAppended(rows, artifacts, run, a);
    NextCommitsExactly(rows + [a], artifacts, run, b);
    FreeAfter(rows, artifacts, a, b);
  }

  // A batch of built events that continues a run is committed exactly when its keys are portable and free, its ids are
  // free and its artifacts are there.
  lemma {:induction false} BatchCommitsExactly(rows: seq<Row>, artifacts: set<Ref>, run: nat, batch: seq<Row>)
    requires LedgerOk(rows, artifacts) && RunShaped(rows, run) && |OfRun(rows, run)| >= 3
    requires Continues(run, OfRun(rows, run), batch) && |batch| > 0
    ensures AppendMany(rows, artifacts, batch).Success? <==>
      && (forall i :: 0 <= i < |batch| ==> FreeFor(rows, artifacts, batch[i]))
      && (|batch| == 2 ==> batch[1].event.id != batch[0].event.id && batch[1].key != batch[0].key)
  {
    hide LedgerOk, AppendOne, AppendMany, OfRun, RunShaped, FreeFor, Continues;
    var v := OfRun(rows, run);
    BatchEvents(run, v, batch);
    BatchSteps(run, v, batch);
    assert batch[0] in batch;
    NextCommitsExactly(rows, artifacts, run, batch[0]);
    Stepwise(rows, artifacts, batch);
    if |batch| == 2 && AppendOne(rows, artifacts, batch[0].event, batch[0].key).Success? {
      assert batch[1] in batch;
      FirstStaysShaped(rows, artifacts, run, batch);
      PairCommitsExactly(rows, artifacts, run, batch[0], batch[1]);
    }
  }

  lemma {:induction false} FirstStaysShaped(rows: seq<Row>, artifacts: set<Ref>, run: nat, batch: seq<Row>)
    requires LedgerOk(rows, artifacts) && RunShaped(rows, run) && |OfRun(rows, run)| >= 3
    requires Continues(run, OfRun(rows, run), batch) && |batch| > 0
    ensures RunShaped(rows + [batch[0]], run)
  {
    hide LedgerOk, Shape, Fits, OfRun;
    BatchEvents(run, OfRun(rows, run), batch);
    ContinuedFits(run, OfRun(rows, run), batch);
    assert batch[0] in batch;
    OfRunAppend(rows, [batch[0]], run);
    OfRunAll([batch[0]], run);
  }

  lemma {:induction false} BatchSteps(run: nat, v: seq<Row>, batch: seq<Row>)
    requires |v| > 0 && Continues(run, v, batch)
    ensures |batch| <= 2 && forall x :: x in batch ==> x.event.payload.operation.Step?
  {
    hide TaskOf;
  }

  lemma {:induction false} Stepwise(rows: seq<Row>, artifacts: set<Ref>, batch: seq<Row>)
    requires |batch| == 1 || |batch| == 2
    ensures var one := AppendOne(rows, artifacts, batch[0].event, batch[0].key);
      AppendMany(rows, artifacts, batch) ==
        if |batch| == 1 || one.Failure? then one else AppendOne(one.value, artifacts, batch[1].event, batch[1].key)
  {
    hide AppendOne;
    assert batch[..1] == [batch[0]] && [batch[0]][..0] == [];
    assert AppendMany(rows, artifacts, []) == Success(rows);
    assert AppendMany(rows, artifacts, [batch[0]]) == AppendOne(rows, artifacts, batch[0].event, batch[0].key);
  }

  lemma {:induction false} BatchEvents(run: nat, v: seq<Row>, batch: seq<Row>)
    requires |v| > 0 && Continues(run, v, batch)
    ensures forall x :: x in batch ==> x.event.run == ChatRun(run)
    ensures |batch| >= 1 ==> batch[0].event.parents == [v[|v| - 1].event.id]
    ensures |batch| == 2 ==> batch[1].event.parents == [batch[0].event.id]
  {
    hide TaskOf;
  }

  // A preparation is committed only for a run that has no event yet.
  lemma {:induction false} PreparationAppended(rows: seq<Row>, artifacts: set<Ref>, run: nat, c: Chat)
    requires LedgerOk(rows, artifacts) && RunShaped(rows, run)
    requires Stands(run, OfRun(rows, run), [], Preparing(c)) && AppendMany(rows, artifacts, PrepareBatch(c)).Success?
    ensures OfRun(rows, run) == []
    ensures AppendMany(rows, artifacts, PrepareBatch(c)).value == rows + PrepareBatch(c)
    ensures LedgerOk(rows + PrepareBatch(c), artifacts)
    ensures OfRun(rows + PrepareBatch(c), run) == PrepareBatch(c) && RunShaped(rows + PrepareBatch(c), run)
  {
    var batch := PrepareBatch(c);
    OfRunMembers(rows, run);
    PreparedEvents(c);
    hide LedgerOk, AppendMany, Shape, OfRun, PrepareBatch, AppendOne;
    if OfRun(rows, run) != [] {
      RequestIsTaken(rows, artifacts, run, batch[0]);
      FirstFails(rows, artifacts, batch);
      assert false;
    }
    NoneStored(rows, run, batch);
    FreshAppend(rows, artifacts, batch);
    AppendManyKeeps(rows, artifacts, batch);
    OfRunAppend(rows, batch, run);
    OfRunAll(batch, run);
    assert [] + batch == batch;
    PreparedFits(c, run);
  }

  lemma {:induction false} PreparedEvents(c: Chat)
    ensures |PrepareBatch(c)| == 3 && NoDuplicates(PrepareBatch(c))
    ensures forall x :: x in PrepareBatch(c) ==> x.event.run == ChatRun(c.request.id)
    ensures PrepareBatch(c)[0].key == c.key && PrepareBatch(c)[0].event.id == Client(c.request.id)
  {
    hide TaskOf;
  }

  lemma {:induction false} RequestIsTaken(rows: seq<Row>, artifacts: set<Ref>, run: nat, row: Row)
    requires RunShaped(rows, run) && OfRun(rows, run) != []
    requires row.event.id == Client(run) && row.event.run == ChatRun(run)
    requires forall x :: x in OfRun(rows, run) ==> x.key != row.key
    ensures AppendOne(rows, artifacts, row.event, row.key).Failure?
  {
    var v := OfRun(rows, run);
    OfRunMembers(rows, run);
    FitsAt(run, EventsOf(v), 0);
    assert v[0] in rows && v[0].event.id == Client(run);
    hide Shape, AppendOne;
    assert HasId(rows, row.event.id);
    assert row !in v;
    if AppendOne(rows, artifacts, row.event, row.key).Success? {
      AppendOneOutcome(rows, artifacts, row.event, row.key);
      assert false;
    }
  }

  lemma {:induction false} NoneStored(rows: seq<Row>, run: nat, batch: seq<Row>)
    requires OfRun(rows, run) == [] && forall x :: x in batch ==> x.event.run == ChatRun(run)
    ensures forall x :: x in batch ==> x !in rows
  {
    OfRunMembers(rows, run);
    assert forall x :: x in batch && x in rows ==> x in OfRun(rows, run);
  }

  lemma {:induction false} FirstFails(rows: seq<Row>, artifacts: set<Ref>, batch: seq<Row>)
    requires |batch| > 0 && AppendOne(rows, artifacts, batch[0].event, batch[0].key).Failure?
    ensures AppendMany(rows, artifacts, batch).Failure?
  {
    hide AppendOne;
    assert batch[..1] == [batch[0]] && [batch[0]][..0] == [];
    assert AppendMany(rows, artifacts, []) == Success(rows);
    assert AppendMany(rows, artifacts, batch[..1]).Failure?;
    StaysFailed(rows, artifacts, batch, 1);
  }
}
