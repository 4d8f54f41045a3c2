/** Governed file imports: one selected file is published, its outcome recorded, and every returned outcome replayed. */
module Imports {
  import opened Wrappers
  import opened Relational
  import opened Events
  import opened Context
  import opened Artifacts
  import C = EventContracts
  import L = Ledger
  import Targets
  import Memory
  import Crockford

  const MAX_IMPORT_BYTES := 268435456

  // ---------- selecting and publishing one file ----------

  // What the walk along the selected path meets first. Another error of the system is a segment below a regular file,
  // or one that is too long for it.
  datatype Walk = Clear | LinkFirst | MissingFirst | ErrorFirst

  // What the host shows: the configured roots, the segments in order, the resolved file, and what reading it yields.
  datatype Source = Source(
    rootsAreFolders: bool,
    scopeIsKnown: bool,
    walk: Walk,
    isInside: bool,
    opens: bool,
    isRegular: bool,
    size: nat,
    name: string,
    chunks: seq<Chunk>)

  function ExtensionOf(name: string): string {
    Targets.Lower(Targets.SuffixOf(name))
  }

  predicate ExtensionAllowed(extension: string) {
    extension in [".csv", ".json", ".jsonl", ".md", ".parquet", ".txt"]
  }

  function MediaType(extension: string): string {
    if extension == ".csv" then "text/csv"
    else if extension == ".json" then "application/json"
    else if extension == ".jsonl" then "application/x-ndjson"
    else if extension == ".md" then "text/markdown"
    else if extension == ".parquet" then "application/vnd.apache.parquet"
    else if extension == ".txt" then "text/plain"
    else "application/octet-stream"
  }

  function Refusal(s: Source): Option<ImportFailure> {
    if !s.scopeIsKnown then Some(ScopeMissing)
    else if s.walk == LinkFirst then Some(PathEscape)
    else if s.walk == MissingFirst then Some(SourceUnavailable)
    else if s.walk == ErrorFirst then Some(SourceUnreadable)
    else if !s.isInside then Some(PathEscape)
    else if !ExtensionAllowed(ExtensionOf(s.name)) then Some(ExtensionNotAllowed)
    else if !s.opens || !s.isRegular then Some(SourceUnavailable)
    else if s.size > MAX_IMPORT_BYTES then Some(SourceTooLarge)
    else None
  }

  datatype Imported = Imported(reference: Ref, source: SelectedFile, name: string, media: string, logical: nat, unique: nat, deduplicated: bool)

  // A source that breaks off while it is read is an error of the system, everything else one of the store.
  function StreamFailure(e: StoreError): ImportFailure {
    if e == BrokenStream then SourceUnreadable else StoreFailed
  }

  function ImportSelected(files: Files, selection: SelectedFile, s: Source): Result<(Files, Imported), ImportFailure> {
    if Refusal(s).Some? then Failure(Refusal(s).value) else
    match PublishStream(files, s.chunks, MAX_IMPORT_BYTES, Some(s.size))
    case Failure(e) => Failure(StreamFailure(e))
    case Success((u, p)) =>
      Success((u, Imported(p.reference, selection, s.name, MediaType(ExtensionOf(s.name)), p.byteCount, if p.deduplicated then 0 else p.byteCount, p.deduplicated)))
  }

  // An import stores the whole file of the size that was seen, or nothing; its new bytes are what the store grew by.
  lemma {:induction false} ImportPublishesExactly(files: Files, selection: SelectedFile, s: Source)
    requires files.Valid()
    ensures var r := ImportSelected(files, selection, s);
      && (r.Success? <==>
        && Refusal(s).None? && Whole(s.chunks).Some? && |Whole(s.chunks).value| == s.size
        && (Address(Whole(s.chunks).value) in files.rows ==> Intact(files, Address(Whole(s.chunks).value))))
      && (r.Success? ==>
        && r.value.1.reference == Address(Whole(s.chunks).value)
        && r.value.1.logical == s.size
        && r.value.0.Valid()
        && Intact(r.value.0, r.value.1.reference)
        && StoredBytes(r.value.0) == StoredBytes(files) + r.value.1.unique)
  {
    ChunkedIsWhole(files, s.chunks, MAX_IMPORT_BYTES, Some(s.size));
    if ImportSelected(files, selection, s).Success? {
      PublishAdds(files, Whole(s.chunks).value);
      var (u, p) := Publish(files, Whole(s.chunks).value).value;
      if !p.deduplicated { OneMoreFile(files, p.reference, Whole(s.chunks).value); }
    }
  }

  datatype Attempted = Attempted(selection: SelectedFile, source: Source)

  // The store after some imports, and the new bytes they reported.
  function AfterImports(files: Files, imports: seq<Attempted>): Files {
    if |imports| == 0 then files else
    var before, last := AfterImports(files, imports[..|imports| - 1]), imports[|imports| - 1];
    match ImportSelected(before, last.selection, last.source)
    case Failure(_) => before
    case Success((after, _)) => after
  }

  function ReportedUnique(files: Files, imports: seq<Attempted>): nat {
    if |imports| == 0 then 0 else
    var last := imports[|imports| - 1];
    ReportedUnique(files, imports[..|imports| - 1])
    + (match ImportSelected(AfterImports(files, imports[..|imports| - 1]), last.selection, last.source)
       case Failure(_) => 0
       case Success((_, x)) => x.unique)
  }

  // Over any sequence of imports, refused ones included, the bytes reported as unique are the growth of the store.
  lemma {:induction false} UniqueBytesAreGrowth(files: Files, imports: seq<Attempted>)
    requires files.Valid()
    ensures AfterImports(files, imports).Valid()
    ensures StoredBytes(AfterImports(files, imports)) == StoredBytes(files) + ReportedUnique(files, imports)
  {
    hide ImportSelected, BytesOf;
    if |imports| > 0 {
      var front, last := imports[..|imports| - 1], imports[|imports| - 1];
      UniqueBytesAreGrowth(files, front);
      ImportPublishesExactly(AfterImports(files, front), last.selection, last.source);
    }
  }

  // ---------- the service ----------

  datatype ImportRequest = ImportRequest(id: nat, source: SelectedFile, observed: Timestamp, target: Option<Memory.RecordId>)

  // The contract of a selection: an opaque scope and a portable target in it.
  predicate SelectionFits(s: SelectedFile) {
    C.ScopeFits(s.scope) && Targets.IsPortable(s.target)
  }

  function SelectedName(q: ImportRequest): string {
    Targets.FileName(q.source.target)
  }

  // A request with its idempotency key and the key derived from that for the association.
  datatype ImportCall = ImportCall(request: ImportRequest, key: L.Key, associationKey: L.Key)

  datatype Disk = Disk(rows: seq<L.Row>, files: Files)

  datatype Association = Unattached | CandidateFor(target: Memory.RecordId, event: EventId)

  datatype Reply = Reply(event: EventId, artifact: Imported, association: Association)

  datatype HttpError = ImportUnavailable | NodeNotFound | Conflict | Refused(code: ImportFailure) | Raised

  // The addresses whose files verify.
  function Resolvable(files: Files): set<Ref> {
    set a | a in files.rows && Intact(files, a)
  }

  function TextOf(prefix: string, id: nat): string {
    prefix + Crockford.Token(id, Crockford.TOKEN_LENGTH)
  }

  function ImportEvent(id: EventId, q: ImportRequest, eventType: EventType, actor: string, at: int, refs: seq<Ref>, parents: seq<EventId>, p: Payload): Event {
    Event(id, TextOf("ses_", q.id), OtherRun(q.id), TextOf("tsk_", q.id), Actor(actor, Human), eventType, q.observed.instant, at, refs,
          parents, ExternalUntrusted, p, None)
  }

  function OutcomeEvent(q: ImportRequest, actor: string, at: int, refs: seq<Ref>, d: Detail): Event {
    ImportEvent(Client(q.id), q, Observed, actor, at, refs, [], Payload(ArtifactImport, d))
  }

  const ASSOCIATION := OtherPurpose("association")

  function AssociationEvent(q: ImportRequest, actor: string, at: int, r: Ref, target: Memory.RecordId): Event {
    ImportEvent(Derived(q.id, ASSOCIATION), q, MemoryProposal, actor, at, [r], [Client(q.id)], Payload(ArtifactAssociation, AssociationDetail(Some(target))))
  }

  function DetailOf(x: Imported): Detail {
    ImportedDetail(x.source, x.name, x.media, x.logical, x.unique, x.deduplicated)
  }

  // What is checked before anything is imported: every configured root, the time and the actor of the request.
  predicate Admissible(q: ImportRequest, s: Source, actor: string) {
    s.rootsAreFolders && ContractTime(q.observed) && ActorFits(Actor(actor, Human))
  }

  // An event cannot be recorded before it was observed.
  predicate Recordable(q: ImportRequest, at: int) {
    q.observed.instant <= at
  }

  lemma {:induction false} MediaTypeFits(extension: string)
    ensures |MediaType(extension)| <= C.MAX_MEDIA
  {
  }

  // The event of an import that was attempted, and its association, can be built exactly when they are not recorded
  // before they were observed.
  lemma {:induction false} ImportEventsAreValid(files: Files, q: ImportRequest, s: Source, actor: string, at: int, target: Memory.RecordId)
    requires files.Valid() && SelectionFits(q.source) && Admissible(q, s, actor)
    ensures match ImportSelected(files, q.source, s)
      case Failure(code) =>
        ValidEvent(OutcomeEvent(q, actor, at, [], ImportFailedDetail(code, q.source, SelectedName(q)))) <==> Recordable(q, at)
      case Success((_, x)) =>
        C.FileNameFits(x.name) ==>
          && (ValidEvent(OutcomeEvent(q, actor, at, [x.reference], DetailOf(x))) <==> Recordable(q, at))
          && (ValidEvent(AssociationEvent(q, actor, at, x.reference, target)) <==> Recordable(q, at))
  {
    hide TextOf, NoDuplicates, Form, Payloads.Acceptable, ImportSelected, ActorFits, MediaType, C.ScopeFits, C.FileNameFits, ContractTime,
      Targets.IsPortable;
    match ImportSelected(files, q.source, s) {
      case Failure(code) =>
        C.SegmentIsShort(q.source.target, SelectedName(q));
        C.ImportFailedFits(code, q.source, SelectedName(q));
        ShortIsDistinct(q, Address(""));
      case Success((_, x)) =>
        ImportedIsBounded(files, q.source, s);
        ShortIsDistinct(q, x.reference);
        C.AssociationFits(target);
        if C.FileNameFits(x.name) {
          assert |x.name| <= C.MAX_FILE_NAME by { NameIsShort(x.name); }
          C.ImportedFits(x.source, x.name, x.media, x.logical, x.unique, x.deduplicated);
        }
    }
  }

  lemma {:induction false} NameIsShort(name: string)
    requires C.FileNameFits(name)
    ensures |name| <= C.MAX_FILE_NAME
  {
  }

  lemma {:induction false} ImportedIsBounded(files: Files, selection: SelectedFile, s: Source)
    requires files.Valid() && ImportSelected(files, selection, s).Success?
    ensures var x := ImportSelected(files, selection, s).value.1;
      && x.source == selection && |x.media| <= C.MAX_MEDIA && x.unique <= x.logical <= Payloads.MAX_INTEGER
  {
    hide MediaType, ExtensionOf, ExtensionAllowed;
    MediaTypeFits(ExtensionOf(s.name));
    ImportPublishesExactly(files, selection, s);
  }

  lemma {:induction false} ShortIsDistinct(q: ImportRequest, r: Ref)
    ensures NoDuplicates<EventId>([]) && NoDuplicates<Ref>([]) && NoDuplicates([Client(q.id)]) && NoDuplicates([r])
  {
  }

  predicate Matches(e: Event, q: ImportRequest) {
    && e.id == Client(q.id)
    && e.observedAt == q.observed.instant
    && e.payload.operation == ArtifactImport
    && match e.payload.detail
      case ImportedDetail(source, name, _, _, _, _) => source == q.source && name == SelectedName(q)
      case ImportFailedDetail(_, source, name) => source == q.source && name == SelectedName(q)
      case _ => false
  }

  predicate IsAssociation(e: Event, q: ImportRequest, r: Ref, target: Memory.RecordId) {
    && e.id == Derived(q.id, ASSOCIATION)
    && e.eventType == MemoryProposal
    && e.parents == [Client(q.id)]
    && e.refs == [r]
    && e.payload == Payload(ArtifactAssociation, AssociationDetail(Some(target)))
  }

  // The answer to a request whose key is stored already.
  function Replay(rows: seq<L.Row>, c: ImportCall, existing: Event): Result<Reply, HttpError> {
    var q := c.request;
    if !Matches(existing, q) then Failure(Conflict) else
    match existing.payload.detail
    case ImportFailedDetail(code, _, _) =>
      if code == StoreFailed || code == SourceUnreadable then Failure(Conflict) else Failure(Refused(code))
    case ImportedDetail(source, name, media, logical, unique, deduplicated) =>
      if |existing.refs| != 1 then Failure(Conflict) else
      var artifact := Imported(existing.refs[0], source, name, media, logical, unique, deduplicated);
      var candidate := L.ByKey(rows, c.associationKey);
      match q.target
      case None => if candidate.Some? then Failure(Conflict) else Success(Reply(existing.id, artifact, Unattached))
      case Some(target) =>
        if candidate.None? || !IsAssociation(candidate.value, q, artifact.reference, target) then Failure(Conflict)
        else Success(Reply(existing.id, artifact, CandidateFor(target, candidate.value.id)))
  }

  function Record(d: Disk, e: Event, key: L.Key): Result<Disk, ()> {
    match L.AppendOne(d.rows, Resolvable(d.files), e, key)
    case Failure(_) => Failure(())
    case Success(grown) => Success(Disk(grown, d.files))
  }

  // The outcome of a published file is recorded, then its association with the target of the request. A file whose name
  // no contract accepts is published all the same.
  function RecordImport(published: Disk, c: ImportCall, x: Imported, at: int, actor: string): (Disk, Result<Reply, HttpError>) {
    var q := c.request;
    var e := OutcomeEvent(q, actor, at, [x.reference], DetailOf(x));
    if !C.FileNameFits(x.name) || !Recordable(q, at) || Record(published, e, c.key).Failure? then (published, Failure(Raised))
    else RecordAssociation(Record(published, e, c.key).value, c, x, at, actor)
  }

  function RecordAssociation(recorded: Disk, c: ImportCall, x: Imported, at: int, actor: string): (Disk, Result<Reply, HttpError>) {
    var q := c.request;
    match q.target
    case None => (recorded, Success(Reply(Client(q.id), x, Unattached)))
    case Some(target) =>
      var a := AssociationEvent(q, actor, at, x.reference, target);
      match Record(recorded, a, c.associationKey)
      case Failure(_) => (recorded, Failure(Raised))
      case Success(linked) => (linked, Success(Reply(Client(q.id), x, CandidateFor(target, a.id))))
  }

  // A request that is not stored: import the file and record the outcome.
  function FreshImport(d: Disk, c: ImportCall, s: Source, at: int, actor: string): (Disk, Result<Reply, HttpError>) {
    var q := c.request;
    if !Admissible(q, s, actor) then (d, Failure(Raised)) else
    match ImportSelected(d.files, q.source, s)
    case Failure(code) =>
      var e := OutcomeEvent(q, actor, at, [], ImportFailedDetail(code, q.source, SelectedName(q)));
      if !Recordable(q, at) || Record(d, e, c.key).Failure? then (d, Failure(Raised))
      else (Record(d, e, c.key).value,
            if code == StoreFailed || code == SourceUnreadable then Failure(Raised) else Failure(Refused(code)))
    case Success((files, x)) => RecordImport(Disk(d.rows, files), c, x, at, actor)
  }

  function ImportArtifact(d: Disk, scopesConfigured: bool, records: set<Memory.RecordId>, c: ImportCall, s: Source, at: int, actor: string)
    : (Disk, Result<Reply, HttpError>)
  {
    if !scopesConfigured then (d, Failure(ImportUnavailable))
    else if c.request.target.Some? && c.request.target.value !in records then (d, Failure(NodeNotFound))
    else if !Memory.PortableToken(c.key) then (d, Failure(Raised))
    else
      match L.ByKey(d.rows, c.key)
      case Some(existing) => (d, Replay(d.rows, c, existing))
      case None => FreshImport(d, c, s, at, actor)
  }

  // ---------- what is stored after a call ----------

  ghost predicate Sound(d: Disk) {
    d.files.Valid() && L.LedgerOk(d.rows, Resolvable(d.files))
  }

  lemma {:induction false} MoreResolve(files: Files, selection: SelectedFile, s: Source)
    requires files.Valid() && ImportSelected(files, selection, s).Success?
    ensures var (u, x) := ImportSelected(files, selection, s).value;
      u.Valid() && Resolvable(files) <= Resolvable(u) && x.reference in Resolvable(u)
  {
    ImportPublishesExactly(files, selection, s);
    ChunkedIsWhole(files, s.chunks, MAX_IMPORT_BYTES, Some(s.size));
    PublishAdds(files, Whole(s.chunks).value);
  }

  lemma {:induction false} RecordKeeps(d: Disk, e: Event, key: L.Key)
    requires Sound(d) && Record(d, e, key).Success?
    ensures var u := Record(d, e, key).value;
      Sound(u) && u.files == d.files && d.rows <= u.rows && L.Row(e, key) in u.rows && L.ByKey(u.rows, key) == Some(e)
  {
    hide L.LedgerOk, L.AppendOne, Resolvable;
    L.AppendOneKeeps(d.rows, Resolvable(d.files), e, key);
    var u := Record(d, e, key).value;
    KeysDiffer(u.rows, Resolvable(d.files));
    L.StoredByKey(u.rows, L.Row(e, key));
  }

  lemma {:induction false} KeysDiffer(rows: seq<L.Row>, artifacts: set<Ref>)
    requires L.LedgerOk(rows, artifacts)
    ensures forall i, j :: 0 <= i < j < |rows| ==> rows[i].key != rows[j].key
  {
    hide L.RowOk;
  }

  // What a call that answered has left in the ledger.
  ghost predicate Answered(rows: seq<L.Row>, c: ImportCall, r: Result<Reply, HttpError>) {
    L.ByKey(rows, c.key).Some? &&
    var e := L.ByKey(rows, c.key).value;
    && e.id == Client(c.request.id) && e.observedAt == c.request.observed.instant && e.payload.operation == ArtifactImport
    && match r
      case Failure(Refused(code)) =>
        && code != StoreFailed && code != SourceUnreadable
        && e.payload.detail == ImportFailedDetail(code, c.request.source, SelectedName(c.request))
      case Success(reply) =>
        && var x := reply.artifact;
        && reply.event == e.id && e.refs == [x.reference] && x.source == c.request.source
        && e.payload.detail == DetailOf(x)
        && (match c.request.target
            case None => reply.association == Unattached
            case Some(target) =>
              && L.ByKey(rows, c.associationKey).Some?
              && IsAssociation(L.ByKey(rows, c.associationKey).value, c.request, x.reference, target)
              && reply.association == CandidateFor(target, Derived(c.request.id, ASSOCIATION)))
      case _ => true
  }

  lemma {:induction false} ImportLeaves(d: Disk, scopesConfigured: bool, records: set<Memory.RecordId>, c: ImportCall, s: Source, at: int, actor: string)
    requires Sound(d)
    ensures var (u, r) := ImportArtifact(d, scopesConfigured, records, c, s, at, actor);
      && Sound(u) && d.rows <= u.rows
      && (r.Success? || (r.Failure? && r.error.Refused?) ==> Answered(u.rows, c, r) && Memory.PortableToken(c.key))
      && (r.Failure? && r.error.Refused? ==> u.files == d.files)
  {
    hide Sound, Memory.PortableToken, ImportSelected, L.ByKey;
    if scopesConfigured && !(c.request.target.Some? && c.request.target.value !in records) && Memory.PortableToken(c.key)
      && L.ByKey(d.rows, c.key).None? {
      FreshLeaves(d, c, s, at, actor);
    } else {
      hide FreshImport, TextOf;
    }
  }

  lemma {:induction false} FreshLeaves(d: Disk, c: ImportCall, s: Source, at: int, actor: string)
    requires Sound(d)
    ensures var (u, r) := FreshImport(d, c, s, at, actor);
      && Sound(u) && d.rows <= u.rows
      && (r.Success? || (r.Failure? && r.error.Refused?) ==> Answered(u.rows, c, r))
      && (r.Failure? && r.error.Refused? ==> u.files == d.files)
  {
    var q := c.request;
    if ImportSelected(d.files, q.source, s).Failure? {
      RefusedLeaves(d, c, s, at, actor);
    } else {
      ImportedLeaves(d, c, s, at, actor);
    }
  }

  lemma {:induction false} RefusedLeaves(d: Disk, c: ImportCall, s: Source, at: int, actor: string)
    requires Sound(d) && ImportSelected(d.files, c.request.source, s).Failure?
    ensures var (u, r) := FreshImport(d, c, s, at, actor);
      && Sound(u) && d.rows <= u.rows && r.Failure? && u.files == d.files
      && (r.error.Refused? ==> Answered(u.rows, c, r))
  {
    hide Sound, ImportSelected, TextOf, Record, L.ByKey;
    var q := c.request;
    var e := OutcomeEvent(q, actor, at, [], ImportFailedDetail(ImportSelected(d.files, q.source, s).error, q.source, SelectedName(q)));
    if Record(d, e, c.key).Success? { RecordKeeps(d, e, c.key); }
  }

  lemma {:induction false} PublishedSound(d: Disk, q: ImportRequest, s: Source)
    requires Sound(d) && ImportSelected(d.files, q.source, s).Success?
    ensures Sound(Disk(d.rows, ImportSelected(d.files, q.source, s).value.0))
  {
    hide ImportSelected, L.LedgerOk, Resolvable;
    MoreResolve(d.files, q.source, s);
    L.MoreArtifacts(d.rows, Resolvable(d.files), Resolvable(ImportSelected(d.files, q.source, s).value.0));
  }

  lemma {:induction false} ImportedLeaves(d: Disk, c: ImportCall, s: Source, at: int, actor: string)
    requires Sound(d) && ImportSelected(d.files, c.request.source, s).Success?
    ensures var (u, r) := FreshImport(d, c, s, at, actor);
      && Sound(u) && d.rows <= u.rows && (r.Failure? ==> r.error == Raised)
      && (r.Success? ==> Answered(u.rows, c, r))
  {
    PublishedSound(d, c.request, s);
    var (files, x) := ImportSelected(d.files, c.request.source, s).value;
    assert x.source == c.request.source;
    hide Sound, ImportSelected, RecordImport, Answered;
    RecordedLeaves(Disk(d.rows, files), c, x, at, actor);
  }

  lemma {:induction false} RecordedLeaves(d: Disk, c: ImportCall, x: Imported, at: int, actor: string)
    requires Sound(d) && x.source == c.request.source
    ensures var (u, r) := RecordImport(d, c, x, at, actor);
      && Sound(u) && d.rows <= u.rows && (r.Failure? ==> r.error == Raised)
      && (r.Success? ==> Answered(u.rows, c, r))
  {
    hide Sound, TextOf, Record, L.ByKey, Answered, RecordAssociation;
    var e := OutcomeEvent(c.request, actor, at, [x.reference], DetailOf(x));
    if Record(d, e, c.key).Success? {
      RecordKeeps(d, e, c.key);
      AssociatedLeaves(Record(d, e, c.key).value, c, x, at, actor, e);
    }
  }

  lemma {:induction false} AssociatedLeaves(d: Disk, c: ImportCall, x: Imported, at: int, actor: string, e: Event)
    requires Sound(d) && x.source == c.request.source && L.ByKey(d.rows, c.key) == Some(e)
    requires e.id == Client(c.request.id) && e.observedAt == c.request.observed.instant && e.payload.operation == ArtifactImport
    requires e.refs == [x.reference] && e.payload.detail == DetailOf(x)
    ensures var (u, r) := RecordAssociation(d, c, x, at, actor);
      && Sound(u) && d.rows <= u.rows && (r.Failure? ==> r.error == Raised)
      && (r.Success? ==> Answered(u.rows, c, r))
  {
    hide Sound, TextOf, Record, L.ByKey;
    var q := c.request;
    if q.target.Some? {
      var a := AssociationEvent(q, actor, at, x.reference, q.target.value);
      if Record(d, a, c.associationKey).Success? {
        RecordKeeps(d, a, c.associationKey);
        StillFound(d, Record(d, a, c.associationKey).value, e, c.key);
      }
    }
  }

  // What a key finds, it finds in every later ledger.
  lemma {:induction false} StillFound(d: Disk, later: Disk, e: Event, key: L.Key)
    requires Sound(d) && Sound(later) && d.rows <= later.rows && L.ByKey(d.rows, key) == Some(e)
    ensures L.ByKey(later.rows, key) == Some(e)
  {
    hide L.LedgerOk, L.ByKey;
    L.KeyLookup(d.rows, key);
    assert L.Row(e, key) in later.rows;
    KeysDiffer(later.rows, Resolvable(later.files));
    L.StoredByKey(later.rows, L.Row(e, key));
  }

  // ---------- which imports succeed ----------

  // A row that is not stored yet and needs no review slot is recorded exactly when it clashes with nothing.
  lemma {:induction false} RecordsNew(d: Disk, e: Event, key: L.Key)
    requires Sound(d) && L.Row(e, key) !in d.rows && !e.payload.operation.AssociationReview?
    requires forall r :: r in e.refs ==> r in Resolvable(d.files)
    requires forall p :: p in e.parents ==> L.HasId(d.rows, p)
    ensures Record(d, e, key).Success? <==> Memory.PortableToken(key) && !L.HasId(d.rows, e.id) && !L.HasKey(d.rows, key)
    ensures Record(d, e, key).Success? ==> Record(d, e, key).value == Disk(d.rows + [L.Row(e, key)], d.files)
  {
    L.AcceptedExactly(d.rows, Resolvable(d.files), e, key);
    if Record(d, e, key).Success? { L.AppendOneOutcome(d.rows, Resolvable(d.files), e, key); }
    hide L.LedgerOk, L.HasId, L.HasKey, Memory.PortableToken, L.AppendOne, Resolvable;
  }

  lemma {:induction false} AppendedRow(rows: seq<L.Row>, row: L.Row, id: EventId, key: L.Key)
    ensures L.HasId(rows + [row], id) <==> L.HasId(rows, id) || row.event.id == id
    ensures L.HasKey(rows + [row], key) <==> L.HasKey(rows, key) || row.key == key
  {
    assert forall x :: x in rows + [row] <==> x in rows || x == row;
    assert row in rows + [row];
  }

  // What a sound ledger stores was appended after its causes.
  lemma {:induction false} CauseIsStored(rows: seq<L.Row>, artifacts: set<Ref>, row: L.Row, p: EventId)
    requires L.LedgerOk(rows, artifacts) && row in rows && p in row.event.parents
    ensures L.HasId(rows, p)
  {
    var i :| 0 <= i < |rows| && rows[i] == row;
    assert L.RowOk(rows, artifacts, i);
    var cause :| cause in rows[..i] && cause.event.id == p;
    assert cause in rows;
  }

  // What stands between a published file and the answer.
  predicate Answerable(d: Disk, c: ImportCall, x: Imported, at: int) {
    && C.FileNameFits(x.name)
    && Recordable(c.request, at)
    && !L.HasId(d.rows, Client(c.request.id))
    && (c.request.target.Some? ==>
      && Memory.PortableToken(c.associationKey) && c.associationKey != c.key
      && !L.HasKey(d.rows, c.associationKey) && !L.HasId(d.rows, Derived(c.request.id, ASSOCIATION)))
  }

  lemma {:induction false} AnswersExactly(d: Disk, c: ImportCall, x: Imported, at: int, actor: string)
    requires Sound(d) && x.reference in Resolvable(d.files)
    requires Memory.PortableToken(c.key) && L.ByKey(d.rows, c.key).None?
    ensures RecordImport(d, c, x, at, actor).1.Success? <==> Answerable(d, c, x, at)
  {
    hide Sound, TextOf, L.ByKey, Memory.PortableToken, C.FileNameFits, Resolvable, Record, L.HasId, L.HasKey;
    var q := c.request;
    var e := OutcomeEvent(q, actor, at, [x.reference], DetailOf(x));
    L.KeyLookup(d.rows, c.key);
    KeyAbsent(d.rows, e, c.key);
    RecordsNew(d, e, c.key);
    if C.FileNameFits(x.name) && Recordable(q, at) && Record(d, e, c.key).Success? && q.target.Some? {
      RecordKeeps(d, e, c.key);
      var recorded := Record(d, e, c.key).value;
      var a := AssociationEvent(q, actor, at, x.reference, q.target.value);
      AppendedRow(d.rows, L.Row(e, c.key), Client(q.id), c.associationKey);
      AppendedRow(d.rows, L.Row(e, c.key), a.id, c.associationKey);
      AssociationIsNew(d, L.Row(e, c.key), L.Row(a, c.associationKey), Client(q.id));
      RecordsNew(recorded, a, c.associationKey);
    }
  }

  lemma {:induction false} KeyAbsent(rows: seq<L.Row>, e: Event, key: L.Key)
    requires !L.HasKey(rows, key)
    ensures L.Row(e, key) !in rows
  {
  }

  lemma {:induction false} AssociationIsNew(d: Disk, outcome: L.Row, association: L.Row, cause: EventId)
    requires Sound(d) && !L.HasId(d.rows, cause) && cause in association.event.parents && association.event.id != outcome.event.id
    ensures association !in d.rows + [outcome]
  {
    hide L.LedgerOk, L.HasId;
    if association in d.rows { CauseIsStored(d.rows, Resolvable(d.files), association, cause); }
  }

  // A call under a new key succeeds exactly when nothing is checked in vain: the request, the file, its name, the times,
  // and the identities and keys its events would take.
  lemma {:induction false} ImportSucceedsExactly(d: Disk, records: set<Memory.RecordId>, c: ImportCall, s: Source, at: int, actor: string)
    requires Sound(d) && L.ByKey(d.rows, c.key).None?
    ensures var selected := ImportSelected(d.files, c.request.source, s);
      ImportArtifact(d, true, records, c, s, at, actor).1.Success? <==>
        && (c.request.target.Some? ==> c.request.target.value in records)
        && Memory.PortableToken(c.key)
        && Admissible(c.request, s, actor)
        && selected.Success?
        && Answerable(d, c, selected.value.1, at)
  {
    hide TextOf, L.ByKey, Memory.PortableToken, C.FileNameFits, L.HasId, L.HasKey, ImportSelected, Answerable, Sound, RecordImport, Admissible;
    if Memory.PortableToken(c.key) && ImportSelected(d.files, c.request.source, s).Success? {
      var (files, x) := ImportSelected(d.files, c.request.source, s).value;
      PublishedSound(d, c.request, s);
      PublishedResolves(d, c.request.source, s);
      AnswersExactly(Disk(d.rows, files), c, x, at, actor);
      AnswerableFiles(d, Disk(d.rows, files), c, x, at);
    }
  }

  lemma {:induction false} AnswerableFiles(d: Disk, u: Disk, c: ImportCall, x: Imported, at: int)
    requires d.rows == u.rows
    ensures Answerable(d, c, x, at) <==> Answerable(u, c, x, at)
  {
  }

  lemma {:induction false} PublishedResolves(d: Disk, selection: SelectedFile, s: Source)
    requires Sound(d) && ImportSelected(d.files, selection, s).Success?
    ensures var (u, x) := ImportSelected(d.files, selection, s).value; x.reference in Resolvable(u)
  {
    hide ImportSelected, Resolvable, L.LedgerOk;
    MoreResolve(d.files, selection, s);
  }

  // ---------- replay ----------

  // A refusal that was returned is returned again at any later time, whatever the source then is, and nothing changes.
  lemma {:induction false} RefusalReplays(d: Disk, records: set<Memory.RecordId>, c: ImportCall, s: Source, at: int, actor: string,
                       later: Disk, laterRecords: set<Memory.RecordId>, laterSource: Source, laterAt: int, laterActor: string)
    requires Sound(d)
    requires var (u, r) := ImportArtifact(d, true, records, c, s, at, actor); r.Failure? && r.error.Refused? && u.rows <= later.rows
    requires Sound(later) && (c.request.target.Some? ==> c.request.target.value in laterRecords)
    ensures ImportArtifact(later, true, laterRecords, c, laterSource, laterAt, laterActor)
      == (later, ImportArtifact(d, true, records, c, s, at, actor).1)
  {
    var (u, r) := ImportArtifact(d, true, records, c, s, at, actor);
    ImportLeaves(d, true, records, c, s, at, actor);
    StillFound(u, later, L.ByKey(u.rows, c.key).value, c.key);
    hide Sound, L.ByKey, Memory.PortableToken, FreshImport;
  }

  // A file that could not be read or stored is an error of the server when it is recorded, and a conflict ever after.
  lemma {:induction false} UnreadableConflicts(d: Disk, records: set<Memory.RecordId>, c: ImportCall, s: Source, at: int, actor: string,
                                               later: Disk, laterRecords: set<Memory.RecordId>, laterSource: Source, laterAt: int, laterActor: string)
    requires Sound(d) && L.ByKey(d.rows, c.key).None? && ImportSelected(d.files, c.request.source, s).Failure?
    requires ImportSelected(d.files, c.request.source, s).error == StoreFailed || ImportSelected(d.files, c.request.source, s).error == SourceUnreadable
    requires var u := ImportArtifact(d, true, records, c, s, at, actor).0; L.ByKey(u.rows, c.key).Some? && u.rows <= later.rows
    requires Sound(later) && (c.request.target.Some? ==> c.request.target.value in laterRecords)
    ensures ImportArtifact(d, true, records, c, s, at, actor).1 == Failure(Raised)
    ensures ImportArtifact(later, true, laterRecords, c, laterSource, laterAt, laterActor) == (later, Failure(Conflict))
  {
    hide Sound, L.ByKey, Memory.PortableToken, TextOf, Record, Admissible, ImportSelected;
    var q := c.request;
    var e := OutcomeEvent(q, actor, at, [], ImportFailedDetail(ImportSelected(d.files, q.source, s).error, q.source, SelectedName(q)));
    var u := ImportArtifact(d, true, records, c, s, at, actor).0;
    assert u != d;
    assert Record(d, e, c.key).Success? && u == Record(d, e, c.key).value && Memory.PortableToken(c.key);
    hide FreshImport, ImportArtifact, Replay;
    RecordKeeps(d, e, c.key);
    ImportLeaves(d, true, records, c, s, at, actor);
    StillFound(u, later, e, c.key);
    ByStoredKey(later, laterRecords, c, laterSource, laterAt, laterActor);
    FailureIsConflict(later.rows, c, e);
  }

  lemma {:induction false} FailureIsConflict(rows: seq<L.Row>, c: ImportCall, e: Event)
    requires e.payload.detail.ImportFailedDetail? && (e.payload.detail.code == StoreFailed || e.payload.detail.code == SourceUnreadable)
    ensures Replay(rows, c, e) == Failure(Conflict)
  {
  }

  // A success that was returned is returned again, whatever the source then is, exactly when the file was found under
  // the selected name and, for a request without a target, nobody stored an event under the derived key.
  lemma {:induction false} SuccessReplaysExactly(d: Disk, records: set<Memory.RecordId>, c: ImportCall, s: Source, at: int, actor: string,
                              later: Disk, laterRecords: set<Memory.RecordId>, laterSource: Source, laterAt: int, laterActor: string)
    requires Sound(d)
    requires var (u, r) := ImportArtifact(d, true, records, c, s, at, actor); r.Success? && u.rows <= later.rows
    requires Sound(later) && (c.request.target.Some? ==> c.request.target.value in laterRecords)
    ensures var r := ImportArtifact(d, true, records, c, s, at, actor).1;
      var again := ImportArtifact(later, true, laterRecords, c, laterSource, laterAt, laterActor);
      && again.0 == later
      && (again.1 == r <==>
        r.value.artifact.name == SelectedName(c.request) && (c.request.target.None? ==> !L.HasKey(later.rows, c.associationKey)))
      && (again.1 != r ==> again.1 == Failure(Conflict))
  {
    var (u, r) := ImportArtifact(d, true, records, c, s, at, actor);
    ImportLeaves(d, true, records, c, s, at, actor);
    StillFound(u, later, L.ByKey(u.rows, c.key).value, c.key);
    L.KeyLookup(later.rows, c.associationKey);
    if c.request.target.Some? { StillFound(u, later, L.ByKey(u.rows, c.associationKey).value, c.associationKey); }
    hide Sound, L.ByKey, L.HasKey, Memory.PortableToken, FreshImport, ImportArtifact;
    var e := L.ByKey(later.rows, c.key).value;
    SameReply(later.rows, c, r, e);
    ByStoredKey(later, laterRecords, c, laterSource, laterAt, laterActor);
  }

  lemma {:induction false} ByStoredKey(d: Disk, records: set<Memory.RecordId>, c: ImportCall, s: Source, at: int, actor: string)
    requires Memory.PortableToken(c.key) && L.ByKey(d.rows, c.key).Some? && (c.request.target.Some? ==> c.request.target.value in records)
    ensures ImportArtifact(d, true, records, c, s, at, actor) == (d, Replay(d.rows, c, L.ByKey(d.rows, c.key).value))
  {
  }

  lemma {:induction false} SameReply(rows: seq<L.Row>, c: ImportCall, r: Result<Reply, HttpError>, e: Event)
    requires r.Success? && e.id == Client(c.request.id) && e.observedAt == c.request.observed.instant && e.payload.operation == ArtifactImport
    requires var x := r.value.artifact;
      && r.value.event == e.id && e.refs == [x.reference] && x.source == c.request.source
      && e.payload.detail == DetailOf(x)
    requires match c.request.target
      case None => r.value.association == Unattached
      case Some(target) =>
        && L.ByKey(rows, c.associationKey).Some?
        && IsAssociation(L.ByKey(rows, c.associationKey).value, c.request, r.value.artifact.reference, target)
        && r.value.association == CandidateFor(target, Derived(c.request.id, ASSOCIATION))
    ensures Replay(rows, c, e) == r <==>
      r.value.artifact.name == SelectedName(c.request) && (c.request.target.None? ==> L.ByKey(rows, c.associationKey).None?)
    ensures Replay(rows, c, e) != r ==> Replay(rows, c, e) == Failure(Conflict)
  {
    hide L.ByKey;
  }

  // ---------- the service over its two stores ----------

  class ImportService {
    const store: ArtifactStore
    const events: L.EventStore

    // The ledger resolves references in the artifact store.
    ghost predicate Valid()
      reads this, store, events
    {
      events.artifacts == Resolvable(store.files)
    }

    ghost function State(): Disk
      reads this, store, events
    {
      Disk(events.rows, store.files)
    }

    constructor (store: ArtifactStore, events: L.EventStore)
      requires events.artifacts == Resolvable(store.files)
      ensures this.store == store && this.events == events && Valid()
    {
      this.store, this.events := store, events;
    }

    method RecordOutcome(e: Event, key: L.Key) returns (ok: bool)
      requires Valid()
      modifies events`rows
      ensures Valid() && ok == Record(old(State()), e, key).Success?
      ensures State() == if ok then Record(old(State()), e, key).value else old(State())
    {
      var appended := events.AppendEvent(e, key);
      ok := appended.Success?;
    }

    method ImportFile(selection: SelectedFile, s: Source) returns (r: Result<Imported, ImportFailure>)
      requires Valid()
      modifies store, events`artifacts
      ensures Valid() && events.rows == old(events.rows)
      ensures match ImportSelected(old(store.files), selection, s)
        case Failure(code) => r == Failure(code) && store.files == old(store.files)
        case Success((files, x)) => r == Success(x) && store.files == files
    {
      var refusal := Refusal(s);
      if refusal.Some? { return Failure(refusal.value); }
      var published := store.PutStream(s.chunks, MAX_IMPORT_BYTES, Some(s.size));
      if published.Failure? { return Failure(StreamFailure(published.error)); }
      events.artifacts := Resolvable(store.files);
      var p := published.value;
      r := Success(Imported(p.reference, selection, s.name, MediaType(ExtensionOf(s.name)), p.byteCount, if p.deduplicated then 0 else p.byteCount, p.deduplicated));
    }

    method Import(scopesConfigured: bool, records: set<Memory.RecordId>, c: ImportCall, s: Source, at: int, actor: string)
      returns (r: Result<Reply, HttpError>)
      requires Valid()
      modifies store, events
      ensures Valid() && (State(), r) == ImportArtifact(old(State()), scopesConfigured, records, c, s, at, actor)
    {
      hide ImportSelected, Record, Memory.PortableToken, L.ByKey, Replay, TextOf;
      var q := c.request;
      if !scopesConfigured { return Failure(ImportUnavailable); }
      if q.target.Some? && q.target.value !in records { return Failure(NodeNotFound); }
      var existing := events.GetByIdempotency(c.key);
      if existing.Failure? { return Failure(Raised); }
      if existing.value.Some? { return Replay(events.rows, c, existing.value.value); }
      if !Admissible(q, s, actor) { return Failure(Raised); }
      var imported := ImportFile(q.source, s);
      var detail, refs: seq<Ref> := NoDetail, [];
      match imported {
        case Failure(code) => detail := ImportFailedDetail(code, q.source, SelectedName(q));
        case Success(x) =>
          if !C.FileNameFits(x.name) { return Failure(Raised); }
          detail := DetailOf(x);
          refs := [x.reference];
      }
      if !Recordable(q, at) { return Failure(Raised); }
      var recorded := RecordOutcome(OutcomeEvent(q, actor, at, refs, detail), c.key);
      if !recorded { return Failure(Raised); }
      if imported.Failure? {
        return Failure(if imported.error == StoreFailed || imported.error == SourceUnreadable then Raised else Refused(imported.error));
      }
      var x := imported.value;
      if q.target.None? { return Success(Reply(Client(q.id), x, Unattached)); }
      var association := AssociationEvent(q, actor, at, x.reference, q.target.value);
      var linked := RecordOutcome(association, c.associationKey);
      r := if linked then Success(Reply(Client(q.id), x, CandidateFor(q.target.value, association.id))) else Failure(Raised);
    }
  }
}
