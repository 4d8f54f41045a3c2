/** The append-only event ledger: what one append accepts, and what every sequence of appends keeps. */
module Ledger {
  import opened Wrappers
  import opened Relational
  import opened Events
  import Memory

  type Key = string

  datatype Row = Row(event: Event, key: Key)

  datatype LedgerError =
    | InvalidKey
    | MissingParent(parent: EventId)
    | UnresolvedReference(ref: Ref)
    | IdempotencyConflict
    | DuplicateEvent
    | EventConstraint

  // ---------- lookups ----------

  predicate HasId(rows: seq<Row>, id: EventId) {
    exists row :: row in rows && row.event.id == id
  }

  predicate HasKey(rows: seq<Row>, key: Key) {
    exists row :: row in rows && row.key == key
  }

  // At most one review is stored for one proposal.
  predicate Reviews(e: Event, proposal: EventId) {
    e.payload.operation == AssociationReview(Some(proposal))
  }

  predicate ReviewTaken(rows: seq<Row>, e: Event) {
    && e.payload.operation.AssociationReview?
    && e.payload.operation.proposal.Some?
    && exists row :: row in rows && Reviews(row.event, e.payload.operation.proposal.value)
  }

  function ByKey(rows: seq<Row>, key: Key): Option<Event> {
    if |rows| == 0 then None
    else if rows[|rows| - 1].key == key then Some(rows[|rows| - 1].event)
    else ByKey(rows[..|rows| - 1], key)
  }

  function ById(rows: seq<Row>, id: EventId): Option<Event> {
    if |rows| == 0 then None
    else if rows[|rows| - 1].event.id == id then Some(rows[|rows| - 1].event)
    else ById(rows[..|rows| - 1], id)
  }

  // The events of one session in the order of their insertion.
  function Stream(rows: seq<Row>, session: string): seq<Event> {
    if |rows| == 0 then [] else
    var last := rows[|rows| - 1].event;
    Stream(rows[..|rows| - 1], session) + (if last.session == session then [last] else [])
  }

  function FirstMissing(rows: seq<Row>, parents: seq<EventId>): Option<EventId> {
    if |parents| == 0 then None
    else if !HasId(rows, parents[0]) then Some(parents[0])
    else FirstMissing(rows, parents[1..])
  }

  function FirstUnresolved(artifacts: set<Ref>, refs: seq<Ref>): Option<Ref> {
    if |refs| == 0 then None
    else if refs[0] !in artifacts then Some(refs[0])
    else FirstUnresolved(artifacts, refs[1..])
  }

  // ---------- appending ----------

  predicate Insertable(rows: seq<Row>, e: Event, key: Key) {
    !HasId(rows, e.id) && !HasKey(rows, key) && !ReviewTaken(rows, e)
  }

  function AppendOne(rows: seq<Row>, artifacts: set<Ref>, e: Event, key: Key): Result<seq<Row>, LedgerError> {
    if !Memory.PortableToken(key) then Failure(InvalidKey) else
    if FirstMissing(rows, e.parents).Some? then Failure(MissingParent(FirstMissing(rows, e.parents).value)) else
    if FirstUnresolved(artifacts, e.refs).Some? then Failure(UnresolvedReference(FirstUnresolved(artifacts, e.refs).value)) else
    if Insertable(rows, e, key) then Success(rows + [Row(e, key)]) else
    match ByKey(rows, key)
    case Some(existing) => if existing == e then Success(rows) else Failure(IdempotencyConflict)
    case None => if HasId(rows, e.id) then Failure(DuplicateEvent) else Failure(EventConstraint)
  }

  function Ids(entries: seq<Row>): seq<EventId> {
    seq(|entries|, i requires 0 <= i < |entries| => entries[i].event.id)
  }

  // One transaction: the first error undoes the whole batch.
  function AppendMany(rows: seq<Row>, artifacts: set<Ref>, entries: seq<Row>): Result<seq<Row>, LedgerError> {
    if |entries| == 0 then Success(rows) else
    match AppendMany(rows, artifacts, entries[..|entries| - 1])
    case Failure(e) => Failure(e)
    case Success(grown) => AppendOne(grown, artifacts, entries[|entries| - 1].event, entries[|entries| - 1].key)
  }

  // ---------- what the ledger keeps ----------

  ghost predicate RowOk(rows: seq<Row>, artifacts: set<Ref>, i: nat)
    requires i < |rows|
  {
    && Memory.PortableToken(rows[i].key)
    && (forall p :: p in rows[i].event.parents ==> HasId(rows[..i], p))
    && (forall r :: r in rows[i].event.refs ==> r in artifacts)
  }

  ghost predicate LedgerOk(rows: seq<Row>, artifacts: set<Ref>) {
    && (forall i, j :: 0 <= i < j < |rows| ==> rows[i].event.id != rows[j].event.id && rows[i].key != rows[j].key)
    && (forall i :: 0 <= i < |rows| ==> RowOk(rows, artifacts, i))
    && forall i, j, p :: 0 <= i < j < |rows| && Reviews(rows[i].event, p) ==> !Reviews(rows[j].event, p)
  }

  lemma {:induction false} NoneMissing(rows: seq<Row>, parents: seq<EventId>)
    ensures FirstMissing(rows, parents).None? <==> forall p :: p in parents ==> HasId(rows, p)
  {
    hide HasId;
    if |parents| > 0 {
      NoneMissing(rows, parents[1..]);
      assert parents == [parents[0]] + parents[1..];
    }
  }

  lemma {:induction false} NoneUnresolved(artifacts: set<Ref>, refs: seq<Ref>)
    ensures FirstUnresolved(artifacts, refs).None? <==> forall r :: r in refs ==> r in artifacts
  {
    if |refs| > 0 {
      NoneUnresolved(artifacts, refs[1..]);
      assert refs == [refs[0]] + refs[1..];
    }
  }

  lemma {:induction false} KeyLookup(rows: seq<Row>, key: Key)
    ensures ByKey(rows, key).None? <==> !HasKey(rows, key)
    ensures ByKey(rows, key).Some? ==> Row(ByKey(rows, key).value, key) in rows
  {
    if |rows| > 0 {
      KeyLookup(rows[..|rows| - 1], key);
      assert rows == rows[..|rows| - 1] + [rows[|rows| - 1]];
    }
  }

  lemma {:induction false} IdLookup(rows: seq<Row>, id: EventId)
    ensures ById(rows, id).None? <==> !HasId(rows, id)
    ensures ById(rows, id).Some? ==> ById(rows, id).value.id == id && exists row :: row in rows && row.event == ById(rows, id).value
  {
    if |rows| > 0 {
      IdLookup(rows[..|rows| - 1], id);
      assert rows == rows[..|rows| - 1] + [rows[|rows| - 1]];
    }
  }

  // In a ledger without two rows of one key, a stored row is what its key finds.
  lemma {:induction false} StoredByKey(rows: seq<Row>, row: Row)
    requires forall i, j :: 0 <= i < j < |rows| ==> rows[i].key != rows[j].key
    requires row in rows
    ensures ByKey(rows, row.key) == Some(row.event)
  {
    KeyLookup(rows, row.key);
    assert HasKey(rows, row.key);
    var i :| 0 <= i < |rows| && rows[i] == row;
    var j :| 0 <= j < |rows| && rows[j] == Row(ByKey(rows, row.key).value, row.key);
    assert i == j;
  }

  // An accepted entry is stored already, or becomes the last row.
  lemma {:induction false} AppendOneOutcome(rows: seq<Row>, artifacts: set<Ref>, e: Event, key: Key)
    requires AppendOne(rows, artifacts, e, key).Success?
    ensures var grown := AppendOne(rows, artifacts, e, key).value;
      || (grown == rows && Row(e, key) in rows)
      || (grown == rows + [Row(e, key)] && Insertable(rows, e, key))
    ensures forall p :: p in e.parents ==> HasId(rows, p)
    ensures forall r :: r in e.refs ==> r in artifacts
    ensures Memory.PortableToken(key)
  {
    hide HasId, HasKey, Insertable, Memory.PortableToken;
    NoneMissing(rows, e.parents);
    NoneUnresolved(artifacts, e.refs);
    KeyLookup(rows, key);
  }

  // An entry is accepted exactly when its key is portable, its causes and artifacts are there, and it either is
  // stored already under its key or clashes with nothing.
  lemma {:induction false} AcceptedExactly(rows: seq<Row>, artifacts: set<Ref>, e: Event, key: Key)
    requires LedgerOk(rows, artifacts)
    ensures AppendOne(rows, artifacts, e, key).Success? <==>
      && Memory.PortableToken(key)
      && (forall p :: p in e.parents ==> HasId(rows, p))
      && (forall r :: r in e.refs ==> r in artifacts)
      && (Row(e, key) in rows || Insertable(rows, e, key))
  {
    NoneMissing(rows, e.parents);
    NoneUnresolved(artifacts, e.refs);
    KeyLookup(rows, key);
    if Row(e, key) in rows { StoredByKey(rows, Row(e, key)); }
    hide RowOk, HasId, HasKey, Insertable, Memory.PortableToken;
  }

  lemma {:induction false} AppendOneKeeps(rows: seq<Row>, artifacts: set<Ref>, e: Event, key: Key)
    requires LedgerOk(rows, artifacts) && AppendOne(rows, artifacts, e, key).Success?
    ensures LedgerOk(AppendOne(rows, artifacts, e, key).value, artifacts)
    ensures rows <= AppendOne(rows, artifacts, e, key).value
    ensures Row(e, key) in AppendOne(rows, artifacts, e, key).value
  {
    AppendOneOutcome(rows, artifacts, e, key);
    hide AppendOne, LedgerOk;
    if Row(e, key) !in rows { RowAdded(rows, artifacts, e, key); }
  }

  lemma {:induction false} RowAdded(rows: seq<Row>, artifacts: set<Ref>, e: Event, key: Key)
    requires LedgerOk(rows, artifacts) && Insertable(rows, e, key) && Memory.PortableToken(key)
    requires forall p :: p in e.parents ==> HasId(rows, p)
    requires forall r :: r in e.refs ==> r in artifacts
    ensures LedgerOk(rows + [Row(e, key)], artifacts)
  {
    hide RowOk, Memory.PortableToken;
    var grown := rows + [Row(e, key)];
    forall i | 0 <= i < |grown|
      ensures RowOk(grown, artifacts, i)
    {
      if i < |rows| { RowOkStays(rows, grown, artifacts, artifacts, i); } else { NewRowOk(rows, artifacts, e, key); }
    }
    assert forall i :: 0 <= i < |rows| ==> rows[i] in rows;
  }

  lemma {:induction false} NewRowOk(rows: seq<Row>, artifacts: set<Ref>, e: Event, key: Key)
    requires Memory.PortableToken(key) && forall p :: p in e.parents ==> HasId(rows, p)
    requires forall r :: r in e.refs ==> r in artifacts
    ensures RowOk(rows + [Row(e, key)], artifacts, |rows|)
  {
    hide HasId;
    assert (rows + [Row(e, key)])[..|rows|] == rows;
  }

  lemma {:induction false} RowOkStays(rows: seq<Row>, grown: seq<Row>, artifacts: set<Ref>, more: set<Ref>, i: nat)
    requires rows <= grown && artifacts <= more && i < |rows| && RowOk(rows, artifacts, i)
    ensures RowOk(grown, more, i)
  {
    hide HasId;
    assert grown[..i] == rows[..i];
  }

  // The ledger stays sound when the artifact store grows.
  lemma {:induction false} MoreArtifacts(rows: seq<Row>, artifacts: set<Ref>, more: set<Ref>)
    requires LedgerOk(rows, artifacts) && artifacts <= more
    ensures LedgerOk(rows, more)
  {
    hide RowOk;
    forall i | 0 <= i < |rows|
      ensures RowOk(rows, more, i)
    {
      RowOkStays(rows, rows, artifacts, more, i);
    }
  }

  // A committed batch leaves a sound ledger that extends the old one and holds every entry of the batch.
  lemma {:induction false} AppendManyKeeps(rows: seq<Row>, artifacts: set<Ref>, entries: seq<Row>)
    requires LedgerOk(rows, artifacts) && AppendMany(rows, artifacts, entries).Success?
    ensures LedgerOk(AppendMany(rows, artifacts, entries).value, artifacts)
    ensures rows <= AppendMany(rows, artifacts, entries).value
    ensures forall x :: x in entries ==> x in AppendMany(rows, artifacts, entries).value
    ensures forall x :: x in AppendMany(rows, artifacts, entries).value ==> x in rows || x in entries
  {
    hide LedgerOk, AppendOne;
    if |entries| > 0 {
      var front, last := entries[..|entries| - 1], entries[|entries| - 1];
      AppendManyKeeps(rows, artifacts, front);
      AppendOneKeeps(AppendMany(rows, artifacts, front).value, artifacts, last.event, last.key);
      AppendOneOutcome(AppendMany(rows, artifacts, front).value, artifacts, last.event, last.key);
      assert entries == front + [last];
    }
  }

  // Appending a committed batch again succeeds and changes nothing, however much was appended since.
  lemma {:induction false} CommittedReplays(rows: seq<Row>, artifacts: set<Ref>, entries: seq<Row>)
    requires LedgerOk(rows, artifacts) && forall x :: x in entries ==> x in rows
    ensures AppendMany(rows, artifacts, entries) == Success(rows)
  {
    hide LedgerOk, AppendOne;
    if |entries| > 0 {
      CommittedReplays(rows, artifacts, entries[..|entries| - 1]);
      StoredReplays(rows, artifacts, entries[|entries| - 1]);
    }
  }

  // The ledger after some transactions, each of which is committed or leaves it as it was.
  function AfterBatches(rows: seq<Row>, artifacts: set<Ref>, batches: seq<seq<Row>>): seq<Row> {
    if |batches| == 0 then rows else
    var before := AfterBatches(rows, artifacts, batches[..|batches| - 1]);
    match AppendMany(before, artifacts, batches[|batches| - 1])
    case Failure(_) => before
    case Success(grown) => grown
  }

  // The ledger only grows, and stays sound.
  lemma {:induction false} BatchesGrow(rows: seq<Row>, artifacts: set<Ref>, batches: seq<seq<Row>>)
    requires LedgerOk(rows, artifacts)
    ensures LedgerOk(AfterBatches(rows, artifacts, batches), artifacts)
    ensures rows <= AfterBatches(rows, artifacts, batches)
  {
    hide LedgerOk, AppendMany;
    if |batches| > 0 {
      var front, last := batches[..|batches| - 1], batches[|batches| - 1];
      BatchesGrow(rows, artifacts, front);
      var before := AfterBatches(rows, artifacts, front);
      if AppendMany(before, artifacts, last).Success? { AppendManyKeeps(before, artifacts, last); }
    }
  }

  // A committed batch may be appended again at any later time, over a larger artifact store: it changes nothing.
  lemma {:induction false} ReappendingChangesNothing(rows: seq<Row>, artifacts: set<Ref>, entries: seq<Row>, more: set<Ref>, later: seq<seq<Row>>)
    requires LedgerOk(rows, artifacts) && AppendMany(rows, artifacts, entries).Success? && artifacts <= more
    ensures var now := AfterBatches(AppendMany(rows, artifacts, entries).value, more, later);
      AppendMany(now, more, entries) == Success(now)
  {
    hide LedgerOk, AppendMany, AfterBatches;
    AppendManyKeeps(rows, artifacts, entries);
    var committed := AppendMany(rows, artifacts, entries).value;
    MoreArtifacts(committed, artifacts, more);
    BatchesGrow(committed, more, later);
    CommittedReplays(AfterBatches(committed, more, later), more, entries);
  }

  lemma {:induction false} StoredReplays(rows: seq<Row>, artifacts: set<Ref>, row: Row)
    requires LedgerOk(rows, artifacts) && row in rows
    ensures AppendOne(rows, artifacts, row.event, row.key) == Success(rows)
  {
    hide Memory.PortableToken;
    var i :| 0 <= i < |rows| && rows[i] == row;
    assert RowOk(rows, artifacts, i);
    forall p | p in row.event.parents
      ensures HasId(rows, p)
    {
      var other :| other in rows[..i] && other.event.id == p;
      assert other in rows;
    }
    NoneMissing(rows, row.event.parents);
    NoneUnresolved(artifacts, row.event.refs);
    StoredByKey(rows, row);
  }

  // An append whose entries are all new and all different adds exactly them, in order.
  lemma {:induction false} FreshAppend(rows: seq<Row>, artifacts: set<Ref>, entries: seq<Row>)
    requires AppendMany(rows, artifacts, entries).Success?
    requires forall x :: x in entries ==> x !in rows
    requires NoDuplicates(entries)
    ensures AppendMany(rows, artifacts, entries).value == rows + entries
    ensures forall x :: x in entries ==> !HasId(rows, x.event.id) && !HasKey(rows, x.key)
  {
    hide AppendOne, Insertable;
    if |entries| > 0 {
      var front, last := entries[..|entries| - 1], entries[|entries| - 1];
      assert entries == front + [last];
      assert last !in front;
      FreshAppend(rows, artifacts, front);
      AppendOneOutcome(rows + front, artifacts, last.event, last.key);
      assert rows + entries == rows + front + [last];
      NewToPrefix(rows, front, last);
    }
  }

  lemma {:induction false} NewToPrefix(rows: seq<Row>, more: seq<Row>, x: Row)
    ensures Insertable(rows + more, x.event, x.key) ==> !HasId(rows, x.event.id) && !HasKey(rows, x.key)
  {
    assert forall row :: row in rows ==> row in rows + more;
  }

  // ---------- causality ----------

  predicate CausedBy(rows: seq<Row>, i: nat, j: nat) {
    i < |rows| && j < |rows| && rows[j].event.id in rows[i].event.parents
  }

  // A causal parent is stored before its child.
  lemma {:induction false} ParentPrecedes(rows: seq<Row>, artifacts: set<Ref>, i: nat, j: nat)
    requires LedgerOk(rows, artifacts) && CausedBy(rows, i, j)
    ensures j < i
  {
    assert RowOk(rows, artifacts, i);
    var p := rows[j].event.id;
    assert HasId(rows[..i], p);
    var row :| row in rows[..i] && row.event.id == p;
    var k :| 0 <= k < i && rows[k] == row;
    assert k == j;
  }

  ghost predicate CausalPath(rows: seq<Row>, path: seq<nat>) {
    |path| > 0 && path[0] < |rows| && forall k :: 0 <= k < |path| - 1 ==> CausedBy(rows, path[k], path[k + 1])
  }

  // Following causes never comes back: the causal relation is acyclic.
  lemma {:induction false} CausalityIsAcyclic(rows: seq<Row>, artifacts: set<Ref>, path: seq<nat>, i: nat, j: nat)
    requires LedgerOk(rows, artifacts) && CausalPath(rows, path) && i < j < |path|
    ensures path[j] < path[i]
  {
    hide LedgerOk;
    ParentPrecedes(rows, artifacts, path[j - 1], path[j]);
    if i < j - 1 { CausalityIsAcyclic(rows, artifacts, path, i, j - 1); }
  }

  // ---------- the store ----------

  class EventStore {
    var rows: seq<Row>
    var artifacts: set<Ref>

    ghost predicate Valid()
      reads this
    {
      LedgerOk(rows, artifacts)
    }

    constructor (artifacts: set<Ref>)
      ensures Valid() && rows == [] && this.artifacts == artifacts
    {
      this.rows := [];
      this.artifacts := artifacts;
    }

    method GetByIdempotency(key: Key) returns (e: Result<Option<Event>, LedgerError>)
      ensures e == if Memory.PortableToken(key) then Success(ByKey(rows, key)) else Failure(InvalidKey)
    {
      if !Memory.PortableToken(key) { return Failure(InvalidKey); }
      assert rows[..|rows|] == rows;
      var n := |rows|;
      while n > 0
        invariant 0 <= n <= |rows| && ByKey(rows, key) == ByKey(rows[..n], key)
      {
        assert rows[..n][..n - 1] == rows[..n - 1];
        if rows[n - 1].key == key { return Success(Some(rows[n - 1].event)); }
        n := n - 1;
      }
      e := Success(None);
    }

    method GetEvent(id: EventId) returns (e: Option<Event>)
      ensures e == ById(rows, id)
    {
      assert rows[..|rows|] == rows;
      var n := |rows|;
      while n > 0
        invariant 0 <= n <= |rows| && ById(rows, id) == ById(rows[..n], id)
      {
        assert rows[..n][..n - 1] == rows[..n - 1];
        if rows[n - 1].event.id == id { return Some(rows[n - 1].event); }
        n := n - 1;
      }
      e := None;
    }

    method StreamOf(session: string) returns (events: seq<Event>)
      ensures events == Stream(rows, session)
    {
      events := [];
      for n := 0 to |rows|
        invariant events == Stream(rows[..n], session)
      {
        assert rows[..n + 1][..n] == rows[..n];
        if rows[n].event.session == session { events := events + [rows[n].event]; }
      }
      assert rows[..|rows|] == rows;
    }

    method AppendEvent(e: Event, key: Key) returns (r: Result<EventId, LedgerError>)
      modifies this`rows
      ensures match AppendOne(old(rows), artifacts, e, key)
        case Failure(error) => r == Failure(error) && rows == old(rows)
        case Success(grown) => r == Success(e.id) && rows == grown
    {
      if !Memory.PortableToken(key) { return Failure(InvalidKey); }
      var missing := FirstMissing(rows, e.parents);
      if missing.Some? { return Failure(MissingParent(missing.value)); }
      var unresolved := FirstUnresolved(artifacts, e.refs);
      if unresolved.Some? { return Failure(UnresolvedReference(unresolved.value)); }
      if Insertable(rows, e, key) {
        rows := rows + [Row(e, key)];
        return Success(e.id);
      }
      var existing := ByKey(rows, key);
      if existing == Some(e) { return Success(e.id); }
      if existing.Some? { return Failure(IdempotencyConflict); }
      if HasId(rows, e.id) { return Failure(DuplicateEvent); }
      r := Failure(EventConstraint);
    }

    // A batch is committed as a whole or not at all.
    method AppendBatch(entries: seq<Row>) returns (r: Result<seq<EventId>, LedgerError>)
      requires Valid()
      modifies this`rows
      ensures Valid() && old(rows) <= rows
      ensures match AppendMany(old(rows), artifacts, entries)
        case Failure(error) => r == Failure(error) && rows == old(rows)
        case Success(grown) => r == Success(Ids(entries)) && rows == grown
    {
      var before := rows;
      var ids: seq<EventId> := [];
      hide AppendOne, LedgerOk;
      for n := 0 to |entries|
        invariant AppendMany(before, artifacts, entries[..n]) == Success(rows)
        invariant ids == Ids(entries[..n])
      {
        assert entries[..n + 1][..n] == entries[..n];
        var one := AppendEvent(entries[n].event, entries[n].key);
        if one.Failure? {
          rows := before;
          StaysFailed(before, artifacts, entries, n + 1);
          return Failure(one.error);
        }
        ids := ids + [one.value];
      }
      assert entries[..|entries|] == entries;
      AppendManyKeeps(before, artifacts, entries);
      r := Success(ids);
    }
  }

  lemma {:induction false} StaysFailed(rows: seq<Row>, artifacts: set<Ref>, entries: seq<Row>, n: nat)
    requires n <= |entries| && AppendMany(rows, artifacts, entries[..n]).Failure?
    ensures AppendMany(rows, artifacts, entries) == AppendMany(rows, artifacts, entries[..n])
    decreases |entries|
  {
    hide AppendOne;
    if n == |entries| {
      assert entries[..n] == entries;
    } else {
      var front := entries[..|entries| - 1];
      assert front[..n] == entries[..n];
      StaysFailed(rows, artifacts, front, n);
    }
  }
}
