/** What every row of the memory tables keeps true between transactions. */
module MemoryInvariant {
  import opened Wrappers
  import opened Relational
  import opened Memory

  // Stored authority only says where a record came from; approval lives in the review log.
  predicate WellSourced(r: Record) {
    && BodyFits(r.body)
    && match r.kind
      case Native => r.authority == Candidate && r.sourcePath.None? && r.status == NoStatus
      case Obsidian => r.authority == Curated && r.sourcePath.Some?
  }

  ghost predicate RecordsOk(t: Tables) {
    && t.records.Valid()
    && forall id :: id in t.records.rows ==> t.records.rows[id].id == id && WellSourced(t.records.rows[id])
  }

  // Every current record is a stored revision; a native record has no other one.
  ghost predicate RevisionsOk(t: Tables) {
    && NoDuplicates(t.revisions)
    && (forall id :: id in t.records.rows ==> t.records.rows[id] in t.revisions)
    && forall r :: r in t.revisions ==>
      && r.id in t.records.rows
      && WellSourced(r)
      && r.kind == t.records.rows[r.id].kind
      && (r.kind == Native ==> r == t.records.rows[r.id])
  }

  predicate BoundAt(t: Tables, p: Place, id: RecordId) {
    p in t.bindings.rows && t.bindings.rows[p].record == id
  }

  predicate PlaceOf(r: Record, p: Place) {
    r.kind == Obsidian && r.sourceKey == p.key && r.sourcePath == Some(p.locator)
  }

  // The bindings and the Obsidian records are the two sides of one bijection.
  ghost predicate BindingsOk(t: Tables) {
    && t.bindings.Valid()
    && (forall p :: p in t.bindings.rows ==>
      && t.bindings.rows[p].record in t.records.rows
      && PlaceOf(t.records.rows[t.bindings.rows[p].record], p)
      && t.records.rows[t.bindings.rows[p].record].hash == t.bindings.rows[p].hash)
    && (forall id :: id in t.records.rows && t.records.rows[id].kind == Obsidian ==>
      && t.records.rows[id].sourcePath.Some?
      && BoundAt(t, Place(t.records.rows[id].sourceKey, t.records.rows[id].sourcePath.value), id))
  }

  datatype Revision = Revision(record: RecordId, hash: Digest)

  // The decisions logged for one revision, oldest first.
  function Decisions(reviews: seq<ReviewRow>, v: Revision): seq<Authority> {
    if |reviews| == 0 then [] else
    var last := reviews[|reviews| - 1];
    Decisions(reviews[..|reviews| - 1], v)
    + (if last.record == v.record && last.hash == v.hash then [last.decision] else [])
  }

  predicate Governed(d: seq<Authority>) {
    d == [] || d == [Approved] || d == [Rejected] || d == [Approved, Superseded]
  }

  // Row i of the log replaces one approved revision by another that was approved at that moment.
  predicate Replaces(reviews: seq<ReviewRow>, i: nat, a: Revision, b: Revision) {
    && i < |reviews|
    && reviews[i].decision == Superseded
    && a == Revision(reviews[i].record, reviews[i].hash)
    && reviews[i].replacement == Some(b.record)
    && b.record != a.record
    && Decisions(reviews[..i], a) == [Approved]
    && Decisions(reviews[..i], b) == [Approved]
  }

  ghost predicate RowOk(t: Tables, i: nat)
    requires i < |t.reviews|
  {
    var row := t.reviews[i];
    && row.record in t.records.rows
    && (exists r :: r in t.revisions && r.id == row.record && r.hash == row.hash)
    && (row.decision == Superseded <==> row.replacement.Some?)
    && (row.decision == Superseded ==>
      exists b: Revision :: b.record in t.records.rows && Replaces(t.reviews, i, Revision(row.record, row.hash), b))
  }

  ghost predicate ReviewsOk(t: Tables) {
    && (forall i, j :: 0 <= i < j < |t.reviews| ==> t.reviews[i].event != t.reviews[j].event && t.reviews[i].key != t.reviews[j].key)
    && (forall i :: 0 <= i < |t.reviews| ==> RowOk(t, i))
    && forall v :: Governed(Decisions(t.reviews, v))
  }

  ghost predicate SyncsOk(t: Tables) {
    forall i, j :: 0 <= i < j < |t.syncs| ==> t.syncs[i].event != t.syncs[j].event && t.syncs[i].key != t.syncs[j].key
  }

  ghost predicate Inv(t: Tables) {
    && RecordsOk(t)
    && RevisionsOk(t)
    && BindingsOk(t)
    && ReviewsOk(t)
    && SyncsOk(t)
  }

  // Writing a record changes no review, keeps every old revision and every other current record.
  lemma {:induction false} ReviewsStay(t: Tables, u: Tables)
    requires ReviewsOk(t)
    requires u.reviews == t.reviews
    requires t.records.rows.Keys <= u.records.rows.Keys
    requires forall r :: r in t.revisions ==> r in u.revisions
    ensures ReviewsOk(u)
  {
    forall i | 0 <= i < |u.reviews|
      ensures RowOk(u, i)
    {
      assert RowOk(t, i);
    }
  }
}
