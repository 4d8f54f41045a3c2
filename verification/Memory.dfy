/** The product memory repository as values: its rows, and each transaction as a function on the tables. */
module Memory {
  import opened Wrappers
  import opened Relational

  // The 130-bit token after the "mem_" prefix; module Crockford relates the token to its text.
  type RecordId = nat
  type SourceKey = string
  type Locator = string
  type Key = string

  datatype Digest = Sha256(preimage: string)

  datatype Authority = Curated | Candidate | Approved | Rejected | Superseded | Contradicted | Retracted

  datatype SourceKind = Native | Obsidian

  // The optional status text of a source; Missing stands for the text "missing".
  datatype SourceStatus = NoStatus | Missing | Status(name: string)

  // A text with the terms the retrieval tokeniser finds in it and its number of white-space separated words.
  datatype Text = Text(raw: string, terms: seq<string>, words: nat)

  datatype Body = Body(
    title: Text,
    content: Text,
    category: Text,
    domains: seq<Text>,
    topics: seq<Text>,
    wikilinks: seq<string>,
    classificationBasis: seq<string>)

  const MAX_TITLE := 512
  const MAX_CONTENT := 2 * 1024 * 1024

  // The lengths the record contract allows; the fields of a note are not bounded that way.
  predicate BodyFits(b: Body) {
    1 <= |b.title.raw| <= MAX_TITLE && 1 <= |b.content.raw| <= MAX_CONTENT
  }

  datatype Provenance = Provenance(
    architectureNodes: seq<string>,
    sourceRefs: seq<string>,
    createdBy: Option<string>,
    creationRequest: Option<string>,
    correctionTarget: Option<RecordId>,
    correctionExpectedHash: Option<Digest>,
    correctionReason: Option<string>)

  const NO_PROVENANCE := Provenance([], [], None, None, None, None, None)

  datatype Record = Record(
    id: RecordId,
    authority: Authority,
    kind: SourceKind,
    sourceKey: SourceKey,
    sourcePath: Option<Locator>,
    status: SourceStatus,
    hash: Digest,
    body: Body,
    provenance: Provenance)

  datatype Place = Place(key: SourceKey, locator: Locator)

  datatype Binding = Binding(hash: Digest, record: RecordId)

  datatype ReviewRow = ReviewRow(
    event: string,
    key: Key,
    record: RecordId,
    hash: Digest,
    decision: Authority,
    replacement: Option<RecordId>)

  datatype SyncRow = SyncRow(
    event: string,
    key: Key,
    source: SourceKey,
    snapshot: Digest,
    created: nat,
    revised: nat,
    kept: nat,
    missing: nat,
    issues: nat)

  datatype Tables = Tables(
    records: Table<RecordId, Record>,
    revisions: seq<Record>,
    reviews: seq<ReviewRow>,
    bindings: Table<Place, Binding>,
    syncs: seq<SyncRow>)

  const EMPTY := Tables(Table(map[], []), [], [], Table(map[], []), [])

  datatype Error =
    | InvalidKey
    | InvalidRecord
    | RecordNotFound
    | CreateConflict
    | UnsupportedDecision
    | ReviewConflict
    | TransitionConflict
    | SyncConflict

  // One letter or digit followed by at most 127 letters, digits, dots, underscores, colons or hyphens.
  predicate PortableToken(key: string) {
    && 1 <= |key| <= 128
    && AlphaNumeric(key[0])
    && forall i :: 1 <= i < |key| ==> AlphaNumeric(key[i]) || key[i] in {'.', '_', ':', '-'}
  }

  predicate AlphaNumeric(c: char) {
    'A' <= c <= 'Z' || 'a' <= c <= 'z' || '0' <= c <= '9'
  }

  // ---------- reads ----------

  // The newest review of one revision.
  function LatestReview(reviews: seq<ReviewRow>, id: RecordId, hash: Digest): Option<ReviewRow> {
    if |reviews| == 0 then None else
    var last := reviews[|reviews| - 1];
    if last.record == id && last.hash == hash then Some(last)
    else LatestReview(reviews[..|reviews| - 1], id, hash)
  }

  // A stored record under the authority its latest review gives it.
  function WithReviewState(reviews: seq<ReviewRow>, r: Record): Record {
    match LatestReview(reviews, r.id, r.hash)
    case None => r
    case Some(row) => r.(authority := row.decision)
  }

  function Get(t: Tables, id: RecordId): Option<Record> {
    if id in t.records.rows then Some(WithReviewState(t.reviews, t.records.rows[id])) else None
  }

  function List(t: Tables): seq<Record>
    requires t.records.Valid()
  {
    ListFirst(t, |t.records.order|)
  }

  function ListFirst(t: Tables, n: nat): (s: seq<Record>)
    requires t.records.Valid() && n <= |t.records.order|
    ensures |s| == n
    ensures forall i :: 0 <= i < n ==> s[i] == WithReviewState(t.reviews, t.records.rows[t.records.order[i]])
  {
    if n == 0 then [] else
    assert t.records.order[n - 1] in t.records.order;
    ListFirst(t, n - 1) + [WithReviewState(t.reviews, t.records.rows[t.records.order[n - 1]])]
  }

  // The newest stored revision of a record with one content hash.
  function NewestRevision(revisions: seq<Record>, id: RecordId, hash: Digest): Option<Record> {
    if |revisions| == 0 then None else
    var last := revisions[|revisions| - 1];
    if last.id == id && last.hash == hash then Some(last)
    else NewestRevision(revisions[..|revisions| - 1], id, hash)
  }

  function GetRevision(t: Tables, id: RecordId, hash: Digest): Option<Record> {
    match NewestRevision(t.revisions, id, hash)
    case None => None
    case Some(r) => Some(WithReviewState(t.reviews, r))
  }

  // ---------- writes ----------

  // Upsert of the current row; the revision is added unless the same revision is already stored.
  function Write(t: Tables, r: Record): Tables {
    t.(records := t.records.Put(r.id, r),
       revisions := if r in t.revisions then t.revisions else t.revisions + [r])
  }

  function NativeRecord(id: RecordId, body: Body, hash: Digest, provenance: Provenance): Record {
    Record(id, Candidate, Native, "native", None, NoStatus, hash,
           body.(wikilinks := [], classificationBasis := ["customer:native"]), provenance)
  }

  // Creation under an identity the caller chose, of a record that fits its contract.
  function CreateExplicit(t: Tables, r: Record): Result<Tables, Error> {
    if r.id in t.records.rows then
      if t.records.rows[r.id] == r then Success(t) else Failure(CreateConflict)
    else
      Success(t.(records := t.records.Put(r.id, r), revisions := t.revisions + [r]))
  }

  // ---------- synchronisation with a source ----------

  datatype Note = Note(path: Locator, status: SourceStatus, hash: Digest, body: Body)

  predicate NotesFit(notes: seq<Note>) {
    forall n :: n in notes ==> BodyFits(n.body)
  }

  function NoteRecord(id: RecordId, key: SourceKey, note: Note): Record {
    Record(id, Curated, Obsidian, key, Some(note.path), note.status, note.hash, note.body, NO_PROVENANCE)
  }

  predicate IsVanished(b: Table<Place, Binding>, key: SourceKey, hash: Digest, current: set<Locator>, p: Place) {
    p in b.rows && p.key == key && b.rows[p].hash == hash && p.locator !in current
  }

  // The places of the source bound to some content whose locator the snapshot no longer has, in scan order.
  function Vanished(b: Table<Place, Binding>, key: SourceKey, hash: Digest, current: set<Locator>, n: nat): seq<Place>
    requires n <= |b.order|
  {
    if n == 0 then [] else
    var rest := Vanished(b, key, hash, current, n - 1);
    if IsVanished(b, key, hash, current, b.order[n - 1]) then rest + [b.order[n - 1]] else rest
  }

  datatype Identity = Bound(id: RecordId) | Renamed(id: RecordId, from: Place) | Fresh(id: RecordId)

  // Which record a note is: the one bound to its place, the one that moved there, or a new one.
  function Identify(b: Table<Place, Binding>, key: SourceKey, note: Note, current: set<Locator>, unused: RecordId): Identity
    requires b.Valid()
  {
    var here := Place(key, note.path);
    if here in b.rows then Bound(b.rows[here].record) else
    var gone := Vanished(b, key, note.hash, current, |b.order|);
    VanishedMembers(b, key, note.hash, current, |b.order|);
    if |gone| == 1 then
      assert gone[0] in gone;
      Renamed(b.rows[gone[0]].record, gone[0])
    else Fresh(unused)
  }

  lemma {:induction false} VanishedMembers(b: Table<Place, Binding>, key: SourceKey, hash: Digest, current: set<Locator>, n: nat)
    requires b.Valid() && n <= |b.order|
    ensures forall p :: p in Vanished(b, key, hash, current, n) <==> p in b.order[..n] && IsVanished(b, key, hash, current, p)
    ensures NoDuplicates(Vanished(b, key, hash, current, n))
  {
    if n > 0 {
      VanishedMembers(b, key, hash, current, n - 1);
      assert b.order[..n] == b.order[..n - 1] + [b.order[n - 1]];
    }
  }

  datatype Progress = Progress(
    tables: Tables,
    created: nat,
    revised: nat,
    kept: nat,
    synchronized: seq<Record>)

  function Rebind(b: Table<Place, Binding>, key: SourceKey, note: Note, who: Identity): Table<Place, Binding> {
    var kept := if who.Renamed? then b.Delete(who.from) else b;
    kept.Put(Place(key, note.path), Binding(note.hash, who.id))
  }

  // One round of the loop over the notes of a snapshot.
  function SyncNote(p: Progress, key: SourceKey, note: Note, current: set<Locator>, unused: RecordId): Progress
    requires p.tables.bindings.Valid()
  {
    var t := p.tables;
    var who := Identify(t.bindings, key, note, current, unused);
    var record := NoteRecord(who.id, key, note);
    var same := who.id in t.records.rows && t.records.rows[who.id] == record;
    var written := Write(t, record).(bindings := Rebind(t.bindings, key, note, who));
    Progress(
      written,
      p.created + (if who.Fresh? then 1 else 0),
      p.revised + (if !who.Fresh? && !same then 1 else 0),
      p.kept + (if !who.Fresh? && same then 1 else 0),
      p.synchronized + [WithReviewState(t.reviews, record)])
  }

  lemma {:induction false} RebindValid(b: Table<Place, Binding>, key: SourceKey, note: Note, who: Identity)
    requires b.Valid()
    ensures Rebind(b, key, note, who).Valid()
  {
    if who.Renamed? { DeleteValid(b, who.from); }
  }

  function Locators(notes: seq<Note>): set<Locator> {
    set n | n in notes :: n.path
  }

  // The tables after the first n notes.
  function SyncNotes(t: Tables, key: SourceKey, notes: seq<Note>, unused: seq<RecordId>, n: nat): (p: Progress)
    requires t.bindings.Valid() && |unused| == |notes| && n <= |notes|
    ensures p.tables.bindings.Valid()
  {
    if n == 0 then Progress(t, 0, 0, 0, []) else
    var before := SyncNotes(t, key, notes, unused, n - 1);
    var who := Identify(before.tables.bindings, key, notes[n - 1], Locators(notes), unused[n - 1]);
    RebindValid(before.tables.bindings, key, notes[n - 1], who);
    SyncNote(before, key, notes[n - 1], Locators(notes), unused[n - 1])
  }

  datatype Sweep = Sweep(tables: Tables, missing: nat)

  function MarkMissing(s: Sweep, place: Place): Sweep
  {
    if place !in s.tables.bindings.rows then s else
    var id := s.tables.bindings.rows[place].record;
    if id !in s.tables.records.rows || s.tables.records.rows[id].status == Missing then s
    else Sweep(Write(s.tables, s.tables.records.rows[id].(status := Missing)), s.missing + 1)
  }

  // The tables after the first n bindings have been looked at for a locator the snapshot lacks.
  function SweepMissing(t: Tables, key: SourceKey, current: set<Locator>, n: nat): (s: Sweep)
    requires n <= |t.bindings.order|
    ensures s.tables.bindings == t.bindings && s.tables.reviews == t.reviews && s.tables.syncs == t.syncs
  {
    if n == 0 then Sweep(t, 0) else
    var before := SweepMissing(t, key, current, n - 1);
    var place := t.bindings.order[n - 1];
    if place.key == key && place.locator !in current then MarkMissing(before, place) else before
  }

  datatype SyncRequest = SyncRequest(
    source: SourceKey,
    notes: seq<Note>,
    event: string,
    key: Key,
    snapshot: Digest,
    issues: nat)

  datatype SyncResult = SyncResult(
    records: seq<Record>,
    created: nat,
    revised: nat,
    kept: nat,
    missing: nat,
    issues: nat)

  function SyncByKey(syncs: seq<SyncRow>, key: Key): Option<SyncRow> {
    if |syncs| == 0 then None
    else if syncs[|syncs| - 1].key == key then Some(syncs[|syncs| - 1])
    else SyncByKey(syncs[..|syncs| - 1], key)
  }

  function OfSource(records: seq<Record>, key: SourceKey): seq<Record> {
    if |records| == 0 then [] else
    var last := records[|records| - 1];
    OfSource(records[..|records| - 1], key) + (if last.sourceKey == key then [last] else [])
  }

  // The whole synchronisation transaction, with one unused identity for every note. A note that makes no record, such
  // as one with an empty or overlong heading, ends it and rolls everything back.
  function Sync(t: Tables, q: SyncRequest, unused: seq<RecordId>): Result<(Tables, SyncResult), Error>
    requires t.records.Valid() && t.bindings.Valid() && |unused| == |q.notes|
  {
    if !PortableToken(q.key) then Failure(InvalidKey) else
    match SyncByKey(t.syncs, q.key)
    case Some(row) =>
      if row.event != q.event || row.source != q.source || row.snapshot != q.snapshot then Failure(SyncConflict)
      else Success((t, SyncResult(OfSource(List(t), q.source), row.created, row.revised, row.kept, row.missing, row.issues)))
    case None =>
      if exists row :: row in t.syncs && row.event == q.event then Failure(SyncConflict) else
      if !NotesFit(q.notes) then Failure(InvalidRecord) else
      var p := SyncNotes(t, q.source, q.notes, unused, |q.notes|);
      var s := SweepMissing(p.tables, q.source, Locators(q.notes), |p.tables.bindings.order|);
      var row := SyncRow(q.event, q.key, q.source, q.snapshot, p.created, p.revised, p.kept, s.missing, q.issues);
      Success((s.tables.(syncs := s.tables.syncs + [row]),
               SyncResult(p.synchronized, p.created, p.revised, p.kept, s.missing, q.issues)))
  }

  // ---------- reviews ----------

  datatype ReviewRequest = ReviewRequest(
    record: RecordId,
    decision: Authority,
    event: string,
    key: Key,
    replacement: Option<RecordId>)

  function ReviewByKey(reviews: seq<ReviewRow>, key: Key): Option<ReviewRow> {
    if |reviews| == 0 then None
    else if reviews[|reviews| - 1].key == key then Some(reviews[|reviews| - 1])
    else ReviewByKey(reviews[..|reviews| - 1], key)
  }

  // The transitions of the authority state machine.
  predicate TransitionAllowed(t: Tables, current: Record, q: ReviewRequest) {
    if q.decision == Approved || q.decision == Rejected then
      (current.authority == Candidate || current.authority == Curated) && q.replacement.None?
    else
      && current.authority == Approved
      && q.replacement.Some?
      && Get(t, q.replacement.value).Some?
      && q.replacement.value != q.record
      && Get(t, q.replacement.value).value.authority == Approved
  }

  // The whole review transaction: the new tables and the record as reviewed.
  function Review(t: Tables, q: ReviewRequest): Result<(Tables, Record), Error> {
    if q.decision !in {Approved, Rejected, Superseded} then Failure(UnsupportedDecision) else
    if !PortableToken(q.key) then Failure(InvalidKey) else
    if q.record !in t.records.rows then Failure(RecordNotFound) else
    var stored := t.records.rows[q.record];
    var current := WithReviewState(t.reviews, stored);
    var row := ReviewRow(q.event, q.key, q.record, current.hash, q.decision, q.replacement);
    match ReviewByKey(t.reviews, q.key)
    case Some(existing) =>
      if existing != row then Failure(ReviewConflict) else Success((t, current))
    case None =>
      if !TransitionAllowed(t, current, q) then Failure(TransitionConflict) else
      if exists other :: other in t.reviews && other.event == q.event then Failure(ReviewConflict) else
      var reviewed := t.(reviews := t.reviews + [row]);
      Success((reviewed, WithReviewState(reviewed.reviews, stored)))
  }
}
