/** Imports that were returned and are refused when they are repeated, each from an empty store. */
module ImportCounterexamples {
  import opened Wrappers
  import opened Relational
  import opened Events
  import opened Artifacts
  import opened Imports
  import C = EventContracts
  import L = Ledger
  import Memory
  import Targets

  const EMPTY := Disk([], Table(map[], []))
  const USER := "human_local_user"

  // A file of two characters under the given name.
  function Host(name: string): Source {
    Source(true, true, Clear, true, true, true, 2, name, [Chunk("hi")])
  }

  // A request for one file without a target record.
  function Call(id: nat, key: L.Key, derived: L.Key): ImportCall {
    ImportCall(ImportRequest(id, SelectedFile("files", "notes.md"), Timestamp(0, 0), None), key, derived)
  }

  function Run(d: Disk, c: ImportCall, s: Source): (Disk, Result<Reply, HttpError>) {
    ImportArtifact(d, true, {}, c, s, 0, USER)
  }

  lemma {:induction false} EmptyIsSound()
    ensures Sound(EMPTY)
  {
  }

  lemma {:induction false} TargetFits()
    ensures SelectionFits(SelectedFile("files", "notes.md")) && Targets.FileName("notes.md") == "notes.md"
  {
    hide Targets.Segments, Targets.SegmentFits, C.ScopeFits;
    Targets.OneSegment("notes.md");
    SegmentIsFit();
    ScopeIsFit();
  }

  lemma {:induction false} SegmentIsFit()
    ensures Targets.SegmentFits("notes.md")
  {
  }

  lemma {:induction false} ScopeIsFit()
    ensures C.ScopeFits("files")
  {
  }

  lemma {:induction false} UserFits()
    ensures ActorFits(Actor(USER, Human))
  {
    assert USER[6..] == "local_user" && USER[..6] == "human_";
  }

  lemma {:induction false} MarkdownAllowed(name: string)
    requires name == "notes.md" || name == "Notes.md"
    ensures ExtensionAllowed(ExtensionOf(name)) && C.FileNameFits(name)
  {
    Targets.DotEnds(name, 5);
    assert name[5..] == ".md";
    hide Targets.FromLastDot;
    assert Targets.Lower(".md") == ".md";
  }

  // The file is published, into an empty store and into one that holds it.
  lemma {:induction false} Published(files: Files, name: string)
    requires files.Valid() && (name == "notes.md" || name == "Notes.md")
    requires Address("hi") in files.rows ==> Intact(files, Address("hi"))
    ensures var r := ImportSelected(files, SelectedFile("files", "notes.md"), Host(name));
      r.Success? && r.value.1.name == name && r.value.1.reference == Address("hi")
      && r.value.0.Valid() && Intact(r.value.0, Address("hi"))
  {
    MarkdownAllowed(name);
    hide ExtensionAllowed, ExtensionOf, MediaType, C.FileNameFits;
    assert Whole([Chunk("hi")]) == Some("hi") by {
      assert [Chunk("hi")][1..] == [];
      assert "hi" + "" == "hi";
    }
    hide Whole, Intact;
    ImportPublishesExactly(files, SelectedFile("files", "notes.md"), Host(name));
  }

  lemma {:induction false} Portable(key: L.Key)
    requires key == "a" || key == "b" || key == "c"
    ensures Memory.PortableToken(key)
  {
  }

  // A first call under a new key and identity is answered.
  lemma {:induction false} Answers(d: Disk, id: nat, key: L.Key, derived: L.Key, name: string)
    requires Sound(d) && (name == "notes.md" || name == "Notes.md") && (key == "a" || key == "b")
    requires Address("hi") in d.files.rows ==> Intact(d.files, Address("hi"))
    requires L.ByKey(d.rows, key).None? && !L.HasId(d.rows, Client(id))
    ensures var (u, r) := Run(d, Call(id, key, derived), Host(name));
      && r.Success? && r.value.artifact.name == name && Sound(u) && Intact(u.files, Address("hi"))
      && (exists e :: u.rows == d.rows + [L.Row(e, key)] && e.id == Client(id))
  {
    Published(d.files, name);
    MarkdownAllowed(name);
    UserFits();
    Portable(key);
    hide ImportSelected, Sound, Intact, L.ByKey, L.HasId, ActorFits, C.FileNameFits, Memory.PortableToken, TextOf, Record;
    var c, s := Call(id, key, derived), Host(name);
    ImportSucceedsExactly(d, {}, c, s, 0, USER);
    ImportLeaves(d, true, {}, c, s, 0, USER);
    hide Admissible, Answerable, ImportArtifact;
    LastRow(d, c, s);
  }

  lemma {:induction false} LastRow(d: Disk, c: ImportCall, s: Source)
    requires c.request.target.None? && L.ByKey(d.rows, c.key).None? && Run(d, c, s).1.Success?
    ensures ImportSelected(d.files, c.request.source, s).Success?
    ensures var (u, r) := Run(d, c, s);
      && u.files == ImportSelected(d.files, c.request.source, s).value.0
      && r.value.artifact == ImportSelected(d.files, c.request.source, s).value.1
      && exists e :: u.rows == d.rows + [L.Row(e, c.key)] && e.id == Client(c.request.id)
  {
    hide ImportSelected, L.ByKey, Memory.PortableToken, TextOf, Record, Admissible, Recordable, C.FileNameFits;
    var (files, x) := ImportSelected(d.files, c.request.source, s).value;
    var e := OutcomeEvent(c.request, USER, 0, [x.reference], DetailOf(x));
    assert Run(d, c, s).0 == Record(Disk(d.rows, files), e, c.key).value;
    RecordedLast(Disk(d.rows, files), e, c.key);
  }

  lemma {:induction false} RecordedLast(d: Disk, e: Event, key: L.Key)
    requires Record(d, e, key).Success? && L.ByKey(d.rows, key).None?
    ensures Record(d, e, key).value == Disk(d.rows + [L.Row(e, key)], d.files)
  {
    L.AppendOneOutcome(d.rows, Resolvable(d.files), e, key);
    L.KeyLookup(d.rows, key);
    hide L.AppendOne, Resolvable, L.ByKey;
  }

  // On a host that takes no account of letter case, a selected file is found under another spelling of its name. The
  // import is returned, and its repetition is a conflict.
  lemma {:induction false} OtherSpellingConflicts()
    ensures SelectionFits(Call(0, "a", "b").request.source)
    ensures var (u, r) := Run(EMPTY, Call(0, "a", "b"), Host("Notes.md"));
      && r.Success? && r.value.artifact.name == "Notes.md"
      && Run(u, Call(0, "a", "b"), Host("Notes.md")) == (u, Failure(Conflict))
  {
    EmptyIsSound();
    TargetFits();
    Answers(EMPTY, 0, "a", "b", "Notes.md");
    hide ImportArtifact, Sound, Intact, Targets.Segments, SelectionFits;
    var (u, r) := Run(EMPTY, Call(0, "a", "b"), Host("Notes.md"));
    SuccessReplaysExactly(EMPTY, {}, Call(0, "a", "b"), Host("Notes.md"), 0, USER, u, {}, Host("Notes.md"), 0, USER);
    assert "Notes.md"[0] != "notes.md"[0];
  }

  // A client imports the same file under the key that the service derives from the key of the first import. Both imports
  // are returned, and the repetition of the first is a conflict.
  lemma {:induction false} UsedDerivedKeyConflicts()
    ensures var (u, r) := Run(EMPTY, Call(0, "a", "b"), Host("notes.md"));
      var (v, other) := Run(u, Call(1, "b", "c"), Host("notes.md"));
      && r.Success? && other.Success?
      && Run(u, Call(0, "a", "b"), Host("notes.md")) == (u, r)
      && Run(v, Call(0, "a", "b"), Host("notes.md")) == (v, Failure(Conflict))
  {
    EmptyIsSound();
    TargetFits();
    var first, second, host := Call(0, "a", "b"), Call(1, "b", "c"), Host("notes.md");
    Answers(EMPTY, 0, "a", "b", "notes.md");
    var (u, r) := Run(EMPTY, first, host);
    var e :| u.rows == EMPTY.rows + [L.Row(e, "a")] && e.id == Client(0);
    assert u.rows == [L.Row(e, "a")];
    L.KeyLookup(u.rows, "b");
    Answers(u, 1, "b", "c", "notes.md");
    hide ImportArtifact, Sound, Intact, Targets.Segments, SelectionFits, L.ByKey;
    var v := Run(u, second, host).0;
    var f :| v.rows == u.rows + [L.Row(f, "b")] && f.id == Client(1);
    assert L.Row(f, "b") in v.rows;
    SuccessReplaysExactly(EMPTY, {}, first, host, 0, USER, u, {}, host, 0, USER);
    SuccessReplaysExactly(EMPTY, {}, first, host, 0, USER, v, {}, host, 0, USER);
  }

  // ---------- files that cannot be read ----------

  // The selected path leads through a regular file.
  const BELOW_FILE := Host("notes.md").(walk := ErrorFirst)

  lemma {:induction false} FailureOutcome(d: Disk, c: ImportCall, s: Source)
    requires Sound(d) && Memory.PortableToken(c.key) && L.ByKey(d.rows, c.key).None? && !L.HasId(d.rows, Client(c.request.id))
    requires c.request.target.None? && Admissible(c.request, s, USER) && Recordable(c.request, 0)
    requires ImportSelected(d.files, c.request.source, s) == Failure(SourceUnreadable)
    ensures var (u, r) := Run(d, c, s); r == Failure(Raised) && |u.rows| == |d.rows| + 1 && u.files == d.files && L.ByKey(u.rows, c.key).Some?
  {
    hide Sound, L.ByKey, L.HasId, L.HasKey, Memory.PortableToken, TextOf, Record, Admissible, ImportSelected, Resolvable;
    var q := c.request;
    var e := OutcomeEvent(q, USER, 0, [], ImportFailedDetail(SourceUnreadable, q.source, SelectedName(q)));
    L.KeyLookup(d.rows, c.key);
    KeyAbsent(d.rows, e, c.key);
    RecordsNew(d, e, c.key);
    RecordKeeps(d, e, c.key);
  }

  // From an empty store: the outcome is recorded while the call raises, and the repetition is a conflict, although the
  // file can be read by then.
  lemma {:induction false} UnreadableFileConflicts()
    ensures var (u, r) := Run(EMPTY, Call(0, "a", "b"), BELOW_FILE);
      && r == Failure(Raised) && |u.rows| == 1
      && Run(u, Call(0, "a", "b"), Host("notes.md")) == (u, Failure(Conflict))
  {
    EmptyIsSound();
    UserFits();
    Portable("a");
    var c := Call(0, "a", "b");
    assert ImportSelected(EMPTY.files, c.request.source, BELOW_FILE) == Failure(SourceUnreadable);
    hide Sound, Memory.PortableToken, ActorFits, ImportArtifact, ImportSelected, L.HasId;
    assert !L.HasId(EMPTY.rows, Client(0)) by { EmptyHolds(); }
    FailureOutcome(EMPTY, c, BELOW_FILE);
    ImportLeaves(EMPTY, true, {}, c, BELOW_FILE, 0, USER);
    var u := Run(EMPTY, c, BELOW_FILE).0;
    UnreadableConflicts(EMPTY, {}, c, BELOW_FILE, 0, USER, u, {}, Host("notes.md"), 0, USER);
  }

  lemma {:induction false} EmptyHolds()
    ensures !L.HasId(EMPTY.rows, Client(0)) && L.ByKey(EMPTY.rows, "a").None?
  {
  }

  // ---------- times with seconds in their offset ----------

  // The request was observed at an offset of thirty seconds, which its transport contract allows: the call raises and
  // changes nothing. The same request with an offset of no seconds is answered.
  lemma {:induction false} SecondsInOffsetRaise()
    ensures var c := Call(0, "a", "b");
      var late := c.(request := c.request.(observed := Timestamp(0, 30000000)));
      && Run(EMPTY, late, Host("notes.md")) == (EMPTY, Failure(Raised))
      && Run(EMPTY, c, Host("notes.md")).1.Success?
  {
    EmptyIsSound();
    EmptyHolds();
    Answers(EMPTY, 0, "a", "b", "notes.md");
    Portable("a");
    hide Memory.PortableToken, ActorFits, ImportSelected, Sound, Intact, RecordImport;
  }
}
