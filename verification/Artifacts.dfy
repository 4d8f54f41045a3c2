/** The content-addressed artifact store: what a publication stores, whole or in chunks, and what it never touches. */
module Artifacts {
  import opened Wrappers
  import opened Relational
  import opened Events

  // Bytes are written as characters. The address of some bytes is their hash, modelled by the bytes themselves.
  function Address(content: string): Ref {
    RefTo(Bytes(content))
  }

  datatype StoreError = Corrupt | NoSuchArtifact | LimitExceeded | InvalidStream | LengthMismatch | BrokenStream

  // The files under their addresses; nothing forces a file to hold what its address says.
  type Files = Table<Ref, string>

  predicate Intact(files: Files, a: Ref) {
    a in files.rows && a == Address(files.rows[a])
  }

  function Get(files: Files, a: Ref): Result<string, StoreError> {
    if a !in files.rows then Failure(NoSuchArtifact)
    else if a != Address(files.rows[a]) then Failure(Corrupt)
    else Success(files.rows[a])
  }

  datatype Publication = Publication(reference: Ref, byteCount: nat, deduplicated: bool)

  function Publish(files: Files, content: string): Result<(Files, Publication), StoreError> {
    var a := Address(content);
    if a in files.rows then
      if Get(files, a).Failure? then Failure(Get(files, a).error)
      else Success((files, Publication(a, |content|, true)))
    else Success((files.Put(a, content), Publication(a, |content|, false)))
  }

  // ---------- streams ----------

  // What one read of a stream yields.
  datatype Chunk = Chunk(bytes: string) | NotBytes | ReadError

  // The bytes of a stream up to its first empty read; none when a read yields something else before that.
  function Whole(chunks: seq<Chunk>): Option<string> {
    if |chunks| == 0 then Some("")
    else if !chunks[0].Chunk? then None
    else if chunks[0].bytes == "" then Some("")
    else
      match Whole(chunks[1..])
      case None => None
      case Some(rest) => Some(chunks[0].bytes + rest)
  }

  // What the reading loop makes of a stream after it has taken in the given bytes.
  function ReadAll(chunks: seq<Chunk>, sofar: string, limit: nat): Result<string, StoreError> {
    if |chunks| == 0 then Success(sofar)
    else if chunks[0].NotBytes? then Failure(InvalidStream)
    else if chunks[0].ReadError? then Failure(BrokenStream)
    else if chunks[0].bytes == "" then Success(sofar)
    else if |sofar + chunks[0].bytes| > limit then Failure(LimitExceeded)
    else ReadAll(chunks[1..], sofar + chunks[0].bytes, limit)
  }

  function PublishStream(files: Files, chunks: seq<Chunk>, limit: nat, expected: Option<nat>): Result<(Files, Publication), StoreError> {
    match ReadAll(chunks, "", limit)
    case Failure(e) => Failure(e)
    case Success(content) =>
      if expected.Some? && |content| != expected.value then Failure(LengthMismatch) else Publish(files, content)
  }

  lemma {:induction false} ReadAllIsWhole(chunks: seq<Chunk>, sofar: string, limit: nat)
    requires |sofar| <= limit
    ensures ReadAll(chunks, sofar, limit).Success? <==> Whole(chunks).Some? && |sofar| + |Whole(chunks).value| <= limit
    ensures ReadAll(chunks, sofar, limit).Success? ==> ReadAll(chunks, sofar, limit).value == sofar + Whole(chunks).value
  {
    if |chunks| > 0 && chunks[0].Chunk? && chunks[0].bytes != "" && |sofar + chunks[0].bytes| <= limit {
      ReadAllIsWhole(chunks[1..], sofar + chunks[0].bytes, limit);
      if Whole(chunks[1..]).Some? {
        assert sofar + chunks[0].bytes + Whole(chunks[1..]).value == sofar + (chunks[0].bytes + Whole(chunks[1..]).value);
      }
    }
  }

  // However a stream is cut into chunks, publishing it is publishing its whole content; it is refused exactly when
  // the stream breaks off, is too long or has another length than announced, or the stored object is corrupt.
  lemma {:induction false} ChunkedIsWhole(files: Files, chunks: seq<Chunk>, limit: nat, expected: Option<nat>)
    ensures var r := PublishStream(files, chunks, limit, expected);
      && (r.Success? <==>
        && Whole(chunks).Some?
        && |Whole(chunks).value| <= limit
        && (expected.Some? ==> expected.value == |Whole(chunks).value|)
        && (Address(Whole(chunks).value) in files.rows ==> Intact(files, Address(Whole(chunks).value))))
      && (r.Success? ==> r == Publish(files, Whole(chunks).value))
  {
    ReadAllIsWhole(chunks, "", limit);
    if Whole(chunks).Some? { assert "" + Whole(chunks).value == Whole(chunks).value; }
  }

  // ---------- what publications keep ----------

  datatype Attempt = Put(content: string) | Stream(chunks: seq<Chunk>, limit: nat, expected: Option<nat>)

  function Try(files: Files, a: Attempt): Result<(Files, Publication), StoreError> {
    match a
    case Put(content) => Publish(files, content)
    case Stream(chunks, limit, expected) => PublishStream(files, chunks, limit, expected)
  }

  // A refused publication leaves the store as it was.
  function AfterAttempts(files: Files, attempts: seq<Attempt>): Files {
    if |attempts| == 0 then files else
    var before := AfterAttempts(files, attempts[..|attempts| - 1]);
    match Try(before, attempts[|attempts| - 1])
    case Failure(_) => before
    case Success((after, _)) => after
  }

  lemma {:induction false} TryAdds(files: Files, a: Attempt)
    requires files.Valid() && Try(files, a).Success?
    ensures var (u, p) := Try(files, a).value;
      && u.Valid()
      && Intact(u, p.reference)
      && p.byteCount == |u.rows[p.reference]|
      && (if p.deduplicated then u == files else p.reference !in files.rows && u == files.Put(p.reference, u.rows[p.reference]))
  {
    match a
    case Put(content) => PublishAdds(files, content);
    case Stream(chunks, limit, expected) =>
      ChunkedIsWhole(files, chunks, limit, expected);
      PublishAdds(files, Whole(chunks).value);
  }

  lemma {:induction false} PublishAdds(files: Files, content: string)
    requires files.Valid() && Publish(files, content).Success?
    ensures var (u, p) := Publish(files, content).value;
      && u.Valid()
      && p.reference == Address(content) && p.byteCount == |content|
      && p.reference in u.rows && u.rows[p.reference] == content
      && (if p.deduplicated then u == files else p.reference !in files.rows && u == files.Put(p.reference, content))
  {
    PutValid(files, Address(content), content);
  }

  // No publication replaces or removes a stored file, so a corrupt object stays as it is and an intact one readable.
  lemma {:induction false} FilesStay(files: Files, attempts: seq<Attempt>)
    requires files.Valid()
    ensures AfterAttempts(files, attempts).Valid()
    ensures forall a :: a in files.rows ==>
      a in AfterAttempts(files, attempts).rows && AfterAttempts(files, attempts).rows[a] == files.rows[a]
  {
    hide Try;
    if |attempts| > 0 {
      FilesStay(files, attempts[..|attempts| - 1]);
      var before := AfterAttempts(files, attempts[..|attempts| - 1]);
      if Try(before, attempts[|attempts| - 1]).Success? { TryAdds(before, attempts[|attempts| - 1]); }
    }
  }

  // What was published is read back unchanged at any later time.
  lemma {:induction false} PublishedIsReadBack(files: Files, a: Attempt, later: seq<Attempt>)
    requires files.Valid() && Try(files, a).Success?
    ensures var (u, p) := Try(files, a).value;
      && Get(AfterAttempts(u, later), p.reference).Success?
      && Address(Get(AfterAttempts(u, later), p.reference).value) == p.reference
      && |Get(AfterAttempts(u, later), p.reference).value| == p.byteCount
  {
    hide Try;
    TryAdds(files, a);
    FilesStay(Try(files, a).value.0, later);
  }

  // ---------- the bytes that are stored ----------

  function BytesOf(files: Files, n: nat): nat
    requires files.Valid() && n <= |files.order|
  {
    if n == 0 then 0 else
    assert files.order[n - 1] in files.order;
    BytesOf(files, n - 1) + |files.rows[files.order[n - 1]]|
  }

  function StoredBytes(files: Files): nat
    requires files.Valid()
  {
    BytesOf(files, |files.order|)
  }

  // The bytes a publication reports as new.
  function UniqueBytes(r: Result<(Files, Publication), StoreError>): nat {
    match r
    case Failure(_) => 0
    case Success((_, p)) => if p.deduplicated then 0 else p.byteCount
  }

  function Reported(files: Files, attempts: seq<Attempt>): nat {
    if |attempts| == 0 then 0
    else Reported(files, attempts[..|attempts| - 1])
         + UniqueBytes(Try(AfterAttempts(files, attempts[..|attempts| - 1]), attempts[|attempts| - 1]))
  }

  lemma {:induction false} BytesOfFront(files: Files, more: Files, n: nat)
    requires files.Valid() && more.Valid() && n <= |files.order| <= |more.order|
    requires more.order[..|files.order|] == files.order
    requires forall a :: a in files.rows ==> a in more.rows && more.rows[a] == files.rows[a]
    ensures BytesOf(more, n) == BytesOf(files, n)
  {
    if n > 0 {
      BytesOfFront(files, more, n - 1);
      assert files.order[n - 1] in files.order && more.order[n - 1] == more.order[..|files.order|][n - 1];
    }
  }

  lemma {:induction false} OneMoreFile(files: Files, a: Ref, content: string)
    requires files.Valid() && a !in files.rows
    ensures files.Put(a, content).Valid() && StoredBytes(files.Put(a, content)) == StoredBytes(files) + |content|
  {
    PutValid(files, a, content);
    var more := files.Put(a, content);
    assert more.order[..|files.order|] == files.order;
    BytesOfFront(files, more, |files.order|);
    assert more.order[|files.order|] == a;
  }

  // Over any sequence of publications the bytes reported as new are the bytes the store grew by.
  lemma {:induction false} ReportedIsGrowth(files: Files, attempts: seq<Attempt>)
    requires files.Valid()
    ensures AfterAttempts(files, attempts).Valid()
    ensures StoredBytes(AfterAttempts(files, attempts)) == StoredBytes(files) + Reported(files, attempts)
  {
    hide Try, BytesOf;
    if |attempts| > 0 {
      var front, last := attempts[..|attempts| - 1], attempts[|attempts| - 1];
      ReportedIsGrowth(files, front);
      var before := AfterAttempts(files, front);
      if Try(before, last).Success? {
        TryAdds(before, last);
        var (u, p) := Try(before, last).value;
        if !p.deduplicated { OneMoreFile(before, p.reference, u.rows[p.reference]); }
      }
    }
  }

  // ---------- the store ----------

  class ArtifactStore {
    var files: Files

    constructor ()
      ensures files == Table(map[], []) && files.Valid()
    {
      files := Table(map[], []);
    }

    method Read(a: Ref) returns (r: Result<string, StoreError>)
      ensures r == Get(files, a)
    {
      if a !in files.rows { return Failure(NoSuchArtifact); }
      if Address(files.rows[a]) != a { return Failure(Corrupt); }
      r := Success(files.rows[a]);
    }

    method PutContent(content: string) returns (r: Result<Publication, StoreError>)
      modifies this
      ensures match Publish(old(files), content)
        case Failure(e) => r == Failure(e) && files == old(files)
        case Success((u, p)) => r == Success(p) && files == u
    {
      var a := Address(content);
      if a in files.rows {
        var stored := Read(a);
        if stored.Failure? { return Failure(stored.error); }
        return Success(Publication(a, |content|, true));
      }
      files := files.Put(a, content);
      r := Success(Publication(a, |content|, false));
    }

    // The content is collected chunk by chunk and linked under its address only when all of it has arrived.
    method PutStream(chunks: seq<Chunk>, limit: nat, expected: Option<nat>) returns (r: Result<Publication, StoreError>)
      modifies this
      ensures match PublishStream(old(files), chunks, limit, expected)
        case Failure(e) => r == Failure(e) && files == old(files)
        case Success((u, p)) => r == Success(p) && files == u
    {
      var content := "";
      var n := 0;
      assert chunks[0..] == chunks;
      while n < |chunks|
        invariant n <= |chunks|
        invariant ReadAll(chunks, "", limit) == ReadAll(chunks[n..], content, limit)
      {
        var chunk := chunks[n];
        assert chunks[n..][0] == chunk && chunks[n..][1..] == chunks[n + 1..];
        if chunk.NotBytes? { return Failure(InvalidStream); }
        if chunk.ReadError? { return Failure(BrokenStream); }
        if chunk.bytes == "" { break; }
        if |content| + |chunk.bytes| > limit { return Failure(LimitExceeded); }
        content := content + chunk.bytes;
        n := n + 1;
      }
      assert ReadAll(chunks, "", limit) == Success(content);
      if expected.Some? && |content| != expected.value { return Failure(LengthMismatch); }
      r := PutContent(content);
    }
  }
}
