/** Exporting a workspace as a hashed bundle and restoring it by renaming a verified copy into place. */
module Workspace {
  import opened Wrappers
  import opened Relational

  datatype Store = EventsStore | MemoryStore | CapabilitiesStore

  // A file of a workspace or a bundle. Misnamed stands for an entry two levels below the artifact directory whose
  // directory and name are no content address; Other for every file that is not canonical.
  datatype Path =
    | DbFile(store: Store)
    | ExportedDb(store: Store)
    | Artifact(address: Digest)
    | Misnamed(directory: string, name: string)
    | ManifestFile
    | Other(text: string)

  // A database with its schema version and the statements that dump it; it may be damaged.
  datatype Content =
    | Db(data: string, dump: seq<string>, version: int, isSound: bool)
    | Plain(bytes: string)
    | ManifestText(manifest: Manifest)

  datatype Digest = HashOf(content: Content)

  datatype Entry = Entry(path: Path, size: nat, hash: Digest)

  // The store versions of a manifest are fixed by its contract.
  datatype Manifest = Manifest(entries: seq<Entry>)

  const VERSION := 1

  type Tree = map<Path, Content>

  function Size(c: Content): nat {
    match c
    case Db(data, _, _, _) => |data|
    case Plain(bytes) => |bytes|
    case ManifestText(_) => 0
  }

  const STORES := [EventsStore, MemoryStore, CapabilitiesStore]

  // ---------- the search for paths of the host ----------

  predicate IsSpace(c: char) {
    || '\U{9}' <= c <= '\U{D}' || '\U{1C}' <= c <= ' ' || c == '\U{85}' || c == '\U{A0}' || c == '\U{1680}'
    || '\U{2000}' <= c <= '\U{200A}' || c == '\U{2028}' || c == '\U{2029}' || c == '\U{202F}' || c == '\U{205F}' || c == '\U{3000}'
  }

  predicate Letter(c: char) {
    'A' <= c <= 'Z' || 'a' <= c <= 'z'
  }

  const HOST_ROOTS := ["/home/", "/Users/", "/tmp/", "/var/", "/etc/", "/opt/", "/srv/", "/mnt/", "/media/", "/root/"]

  // A drive or a root folder, at the beginning of a text or after white space or a quotation mark.
  predicate HostPathAt(s: string, i: nat)
    requires i <= |s|
  {
    && (i == 0 || IsSpace(s[i - 1]) || s[i - 1] == '\"' || s[i - 1] == '\'')
    && (|| (i + 2 < |s| && Letter(s[i]) && s[i + 1] == ':' && (s[i + 2] == '\\' || s[i + 2] == '/'))
        || exists root :: root in HOST_ROOTS && root <= s[i..])
  }

  predicate HoldsHostPath(s: string) {
    exists i :: 0 <= i <= |s| && HostPathAt(s, i)
  }

  predicate IsPortable(dump: seq<string>) {
    forall s :: s in dump ==> !HoldsHostPath(s)
  }

  // ---------- what an export is ----------

  predicate DbExportable(c: Content) {
    c.Db? && c.isSound && c.version == VERSION && IsPortable(c.dump)
  }

  predicate Exportable(w: Tree) {
    && (forall p :: p in w && p.DbFile? ==> DbExportable(w[p]))
    && (forall p :: p in w && p.Artifact? ==> HashOf(w[p]) == p.address)
    && (forall p :: p in w ==> !p.Misnamed?)
  }

  predicate Canonical(p: Path) {
    p.DbFile? || p.Artifact?
  }

  // The part of a workspace that an export carries.
  function CanonicalPart(w: Tree): Tree {
    map p | p in w && Canonical(p) :: w[p]
  }

  // Where a canonical file lies in a bundle, and where a bundled file lies in a workspace.
  function Bundled(p: Path): Path {
    if p.DbFile? then ExportedDb(p.store) else p
  }

  function Placed(p: Path): Path {
    if p.ExportedDb? then DbFile(p.store) else p
  }

  function EntryOf(p: Path, c: Content): Entry {
    Entry(Bundled(p), Size(c), HashOf(c))
  }

  // The entries for some files of a workspace, in the order of the listing.
  function Entries(w: Tree, listing: seq<Path>): seq<Entry>
    requires forall p :: p in listing ==> p in w
  {
    seq(|listing|, i requires 0 <= i < |listing| => EntryOf(listing[i], w[listing[i]]))
  }

  // The databases that are there, in their fixed order.
  function Databases(w: Tree, n: nat): seq<Path>
    requires n <= |STORES|
  {
    if n == 0 then [] else
    Databases(w, n - 1) + (if DbFile(STORES[n - 1]) in w then [DbFile(STORES[n - 1])] else [])
  }

  // The sorted listing of the artifact directory names every entry of it once.
  ghost predicate Lists(w: Tree, artifacts: seq<Path>) {
    && NoDuplicates(artifacts)
    && forall p :: p in artifacts <==> p in w && (p.Artifact? || p.Misnamed?)
  }

  function Files(w: Tree, listing: seq<Path>): Tree
    requires forall p :: p in listing ==> p in w
  {
    if |listing| == 0 then map[] else
    Files(w, listing[..|listing| - 1])[Bundled(listing[|listing| - 1]) := w[listing[|listing| - 1]]]
  }

  function BundleOf(w: Tree, listing: seq<Path>): Tree
    requires forall p :: p in listing ==> p in w
  {
    Files(w, listing)[ManifestFile := ManifestText(Manifest(Entries(w, listing)))]
  }

  // ---------- what a restore accepts ----------

  predicate ManifestValid(m: Manifest) {
    && (forall i :: 0 <= i < |m.entries| ==> m.entries[i].path.ExportedDb? || m.entries[i].path.Artifact?)
    && (forall i, j :: 0 <= i < j < |m.entries| ==> m.entries[i].path != m.entries[j].path)
  }

  function Load(b: Tree): Option<Manifest> {
    if ManifestFile in b && b[ManifestFile].ManifestText? && ManifestValid(b[ManifestFile].manifest)
    then Some(b[ManifestFile].manifest) else None
  }

  function Paths(m: Manifest): set<Path> {
    set e | e in m.entries :: e.path
  }

  // The files are those of the manifest, each with the content it names.
  predicate BundleMatches(b: Tree, m: Manifest) {
    && b.Keys == Paths(m) + {ManifestFile}
    && forall i :: 0 <= i < |m.entries| ==>
      && m.entries[i].path in b
      && HashOf(b[m.entries[i].path]) == m.entries[i].hash
      && Size(b[m.entries[i].path]) == m.entries[i].size
  }

  function Staged(b: Tree, m: Manifest, n: nat): Tree
    requires n <= |m.entries| && BundleMatches(b, m)
  {
    if n == 0 then map[] else Staged(b, m, n - 1)[Placed(m.entries[n - 1].path) := b[m.entries[n - 1].path]]
  }

  predicate StagingValid(s: Tree) {
    && (forall p :: p in s && p.DbFile? ==> s[p].Db? && s[p].isSound && s[p].version == VERSION)
    && (forall p :: p in s && p.Artifact? ==> HashOf(s[p]) == p.address)
  }

  // A bundle that a restore puts in place when nothing fails.
  predicate Restorable(b: Tree) {
    && Load(b).Some?
    && BundleMatches(b, Load(b).value)
    && StagingValid(Staged(b, Load(b).value, |Load(b).value.entries|))
  }

  function RestoredFrom(b: Tree): Tree
    requires Restorable(b)
  {
    Staged(b, Load(b).value, |Load(b).value.entries|)
  }

  // ---------- the round trip ----------

  lemma {:induction false} DatabasesListed(w: Tree, n: nat)
    requires n <= |STORES|
    ensures NoDuplicates(Databases(w, n))
    ensures forall p :: p in Databases(w, n) <==> p in w && p.DbFile? && p.store in STORES[..n]
  {
    assert forall i, j :: 0 <= i < j < |STORES| ==> STORES[i] != STORES[j];
    if n > 0 {
      DatabasesListed(w, n - 1);
      assert STORES[..n] == STORES[..n - 1] + [STORES[n - 1]];
    }
  }

  ghost predicate ListsCanonical(w: Tree, listing: seq<Path>) {
    && NoDuplicates(listing)
    && forall p :: p in listing <==> p in w && Canonical(p)
  }

  lemma {:induction false} ListingIsCanonical(w: Tree, artifacts: seq<Path>)
    requires Exportable(w) && Lists(w, artifacts)
    ensures ListsCanonical(w, Databases(w, |STORES|) + artifacts)
  {
    DatabasesListed(w, |STORES|);
    AllStores();
    hide Databases;
    var d := Databases(w, |STORES|);
    forall i, j | 0 <= i < j < |d + artifacts|
      ensures (d + artifacts)[i] != (d + artifacts)[j]
    {
      if i < |d| { assert d[i] in d; }
      if j >= |d| { assert artifacts[j - |d|] in artifacts; }
    }
    forall p
      ensures p in Databases(w, |STORES|) + artifacts <==> p in w && Canonical(p)
    {
      if p.DbFile? { assert p.store in STORES; }
    }
  }

  lemma {:induction false} AllStores()
    ensures forall s: Store :: s in STORES
    ensures STORES[..|STORES|] == STORES
  {
    assert STORES[0] == EventsStore && STORES[1] == MemoryStore && STORES[2] == CapabilitiesStore;
    forall s: Store
      ensures s in STORES
    {
      match s
      case EventsStore =>
      case MemoryStore =>
      case CapabilitiesStore =>
    }
  }

  lemma {:induction false} BundledApart(p: Path, q: Path)
    requires Canonical(p) && Canonical(q) && p != q
    ensures Bundled(p) != Bundled(q)
  {
  }

  lemma {:induction false} FilesHold(w: Tree, listing: seq<Path>)
    requires NoDuplicates(listing) && forall p :: p in listing ==> p in w && Canonical(p)
    ensures forall p :: p in listing ==> Bundled(p) in Files(w, listing) && Files(w, listing)[Bundled(p)] == w[p]
    ensures forall x :: x in Files(w, listing) ==> exists p :: p in listing && x == Bundled(p)
  {
    if |listing| > 0 {
      var front, last := listing[..|listing| - 1], listing[|listing| - 1];
      assert listing == front + [last];
      FilesHold(w, front);
      forall p | p in listing
        ensures Bundled(p) in Files(w, listing) && Files(w, listing)[Bundled(p)] == w[p]
      {
        if p != last {
          assert p in front;
          BundledApart(p, last);
        }
      }
      forall x | x in Files(w, listing)
        ensures exists p :: p in listing && x == Bundled(p)
      {
        if x == Bundled(last) { assert last in listing; } else { assert x in Files(w, front); }
      }
    }
  }

  lemma {:induction false} BundleIsValid(w: Tree, listing: seq<Path>)
    requires ListsCanonical(w, listing)
    ensures var b, m := BundleOf(w, listing), Manifest(Entries(w, listing)); Load(b) == Some(m) && BundleMatches(b, m)
  {
    FilesHold(w, listing);
    var b, m := BundleOf(w, listing), Manifest(Entries(w, listing));
    forall i, j | 0 <= i < j < |m.entries|
      ensures m.entries[i].path != m.entries[j].path
    {
      assert listing[i] in listing && listing[j] in listing && listing[i] != listing[j];
    }
    forall i | 0 <= i < |m.entries|
      ensures m.entries[i].path.ExportedDb? || m.entries[i].path.Artifact?
      ensures m.entries[i].path in b && b[m.entries[i].path] == w[listing[i]]
    {
      assert listing[i] in listing;
    }
    BundleKeys(w, listing, b, m);
  }

  lemma {:induction false} BundleKeys(w: Tree, listing: seq<Path>, b: Tree, m: Manifest)
    requires ListsCanonical(w, listing) && b == BundleOf(w, listing) && m == Manifest(Entries(w, listing))
    ensures b.Keys == Paths(m) + {ManifestFile}
  {
    FilesHold(w, listing);
    forall x
      ensures x in b <==> x in Paths(m) + {ManifestFile}
    {
      if x in b && x != ManifestFile {
        var p :| p in listing && x == Bundled(p);
        var i :| 0 <= i < |listing| && listing[i] == p;
        assert m.entries[i] in m.entries && m.entries[i].path == x;
      }
      if x in Paths(m) {
        var e :| e in m.entries && e.path == x;
        var i :| 0 <= i < |m.entries| && m.entries[i] == e;
        assert listing[i] in listing;
      }
    }
  }

  lemma {:induction false} BundledFile(w: Tree, listing: seq<Path>, i: nat)
    requires ListsCanonical(w, listing) && i < |listing|
    ensures var p, m := listing[i], Manifest(Entries(w, listing));
      && p in w && Placed(m.entries[i].path) == p
      && m.entries[i].path in BundleOf(w, listing) && BundleOf(w, listing)[m.entries[i].path] == w[p]
  {
    FilesHold(w, listing);
    assert listing[i] in listing;
  }

  // What is staged from the bundle of a workspace after n entries.
  lemma {:induction false} StagedIsPart(w: Tree, listing: seq<Path>, n: nat)
    requires ListsCanonical(w, listing) && n <= |listing|
    requires BundleMatches(BundleOf(w, listing), Manifest(Entries(w, listing)))
    ensures Staged(BundleOf(w, listing), Manifest(Entries(w, listing)), n) == PartOf(w, listing[..n])
  {
    hide ListsCanonical, BundleMatches, BundleOf, PartOf, Placed, Entries, Staged;
    StagedStep(w, listing, n);
    if n > 0 {
      StagedIsPart(w, listing, n - 1);
      assert listing[..n] == listing[..n - 1] + [listing[n - 1]];
      PartGrows(w, listing[..n - 1], listing[n - 1]);
    } else {
      NoPart(w);
      assert listing[..0] == [];
    }
  }

  // The files of a workspace that a listing names.
  function PartOf(w: Tree, listing: seq<Path>): Tree {
    map p | p in listing && p in w :: w[p]
  }

  lemma {:induction false} PartGrows(w: Tree, listing: seq<Path>, p: Path)
    requires p in w
    ensures PartOf(w, listing + [p]) == PartOf(w, listing)[p := w[p]]
  {
  }

  lemma {:induction false} NoPart(w: Tree)
    ensures PartOf(w, []) == map[]
  {
  }

  lemma {:induction false} StagedStep(w: Tree, listing: seq<Path>, n: nat)
    requires ListsCanonical(w, listing) && n <= |listing|
    requires BundleMatches(BundleOf(w, listing), Manifest(Entries(w, listing)))
    ensures var b, m := BundleOf(w, listing), Manifest(Entries(w, listing));
      && |m.entries| == |listing|
      && (n == 0 ==> Staged(b, m, n) == map[])
      && (n > 0 ==> listing[n - 1] in w && Staged(b, m, n) == Staged(b, m, n - 1)[listing[n - 1] := w[listing[n - 1]]])
  {
    if n > 0 {
      BundledFile(w, listing, n - 1);
      hide ListsCanonical, BundleMatches, BundleOf;
    }
  }

  lemma {:induction false} CanonicalRestores(w: Tree, listing: seq<Path>, b: Tree, m: Manifest)
    requires Exportable(w) && ListsCanonical(w, listing) && Load(b) == Some(m) && BundleMatches(b, m)
    requires Staged(b, m, |m.entries|) == PartOf(w, listing)
    ensures Restorable(b) && RestoredFrom(b) == CanonicalPart(w)
  {
    hide BundleMatches, Load, Staged, NoDuplicates;
    assert Staged(b, m, |m.entries|) == CanonicalPart(w);
  }

  // Restoring the bundle of a workspace yields its databases and artifacts, unchanged and nothing else.
  lemma {:induction false} RestoreOfExport(w: Tree, artifacts: seq<Path>)
    requires Exportable(w) && Lists(w, artifacts)
    ensures Restorable(BundleFor(w, artifacts)) && RestoredFrom(BundleFor(w, artifacts)) == CanonicalPart(w)
  {
    ListingIsCanonical(w, artifacts);
    var listing := Databases(w, |STORES|) + artifacts;
    BundleIsValid(w, listing);
    StagedIsPart(w, listing, |listing|);
    assert listing[..|listing|] == listing;
    hide BundleOf, Databases, Lists, ListsCanonical, BundleMatches, Load, Staged, Exportable, Restorable, RestoredFrom, PartOf;
    CanonicalRestores(w, listing, BundleOf(w, listing), Manifest(Entries(w, listing)));
  }

  // ---------- building a bundle ----------

  lemma {:induction false} FilesSnoc(w: Tree, listing: seq<Path>, p: Path)
    requires p in w && forall x :: x in listing ==> x in w
    ensures Files(w, listing + [p]) == Files(w, listing)[Bundled(p) := w[p]]
    ensures Entries(w, listing + [p]) == Entries(w, listing) + [EntryOf(p, w[p])]
  {
    assert (listing + [p])[..|listing|] == listing;
  }

  lemma {:induction false} NoneUnexportable(w: Tree, artifacts: seq<Path>)
    requires Lists(w, artifacts)
    requires forall s :: s in STORES && DbFile(s) in w ==> DbExportable(w[DbFile(s)])
    requires forall i :: 0 <= i < |artifacts| ==> artifacts[i].Artifact? && HashOf(w[artifacts[i]]) == artifacts[i].address
    ensures Exportable(w)
  {
    AllStores();
    forall p | p in w && p.DbFile?
      ensures DbExportable(w[p])
    {
      assert p == DbFile(p.store) && p.store in STORES;
    }
  }

  lemma {:induction false} ListedAll(w: Tree, artifacts: seq<Path>)
    requires Lists(w, artifacts)
    ensures forall p :: p in Databases(w, |STORES|) + artifacts ==> p in w
  {
    DatabasesListed(w, |STORES|);
  }

  // The bundle of a workspace: its databases first, then the artifacts of the listing.
  ghost function BundleFor(w: Tree, artifacts: seq<Path>): Tree
    requires Lists(w, artifacts)
  {
    ListedAll(w, artifacts);
    BundleOf(w, Databases(w, |STORES|) + artifacts)
  }

  method CollectDatabases(w: Tree) returns (ok: bool, files: Tree, entries: seq<Entry>)
    ensures forall p :: p in Databases(w, |STORES|) ==> p in w
    ensures ok <==> forall s :: s in STORES && DbFile(s) in w ==> DbExportable(w[DbFile(s)])
    ensures ok ==> files == Files(w, Databases(w, |STORES|)) && entries == Entries(w, Databases(w, |STORES|))
  {
    hide DbExportable, Databases, Files, Entries, Bundled, EntryOf, STORES;
    NoDatabases(w);
    files, entries := map[], [];
    for n := 0 to |STORES|
      invariant forall p :: p in Databases(w, n) ==> p in w
      invariant files == Files(w, Databases(w, n)) && entries == Entries(w, Databases(w, n))
      invariant forall s :: s in STORES[..n] && DbFile(s) in w ==> DbExportable(w[DbFile(s)])
    {
      var file := DbFile(STORES[n]);
      assert STORES[..n + 1] == STORES[..n] + [STORES[n]];
      MoreDatabases(w, n);
      if file in w {
        if !DbExportable(w[file]) { return false, files, entries; }
        FilesSnoc(w, Databases(w, n), file);
        files, entries := files[Bundled(file) := w[file]], entries + [EntryOf(file, w[file])];
      }
    }
    assert STORES[..|STORES|] == STORES;
    ok := true;
  }

  lemma {:induction false} NoDatabases(w: Tree)
    ensures Databases(w, 0) == [] && Files(w, []) == map[] && Entries(w, []) == []
    ensures forall p :: p in Databases(w, |STORES|) ==> p in w
  {
    DatabasesListed(w, |STORES|);
  }

  lemma {:induction false} MoreDatabases(w: Tree, n: nat)
    requires n < |STORES|
    ensures Databases(w, n + 1) == if DbFile(STORES[n]) in w then Databases(w, n) + [DbFile(STORES[n])] else Databases(w, n)
  {
  }

  // The first file that may not leave ends the export.
  method BuildBundle(w: Tree, artifacts: seq<Path>) returns (bundle: Option<Tree>)
    requires Lists(w, artifacts)
    ensures bundle.Some? <==> Exportable(w)
    ensures bundle.Some? ==> bundle.value == BundleFor(w, artifacts)
  {
    hide Files, Entries, Databases, DbExportable;
    ListedAll(w, artifacts);
    var exportable, files, entries := CollectDatabases(w);
    if !exportable { return None; }
    ghost var listed := Databases(w, |STORES|);
    assert listed + artifacts[..0] == listed;
    for n := 0 to |artifacts|
      invariant forall p :: p in listed + artifacts[..n] ==> p in w
      invariant files == Files(w, listed + artifacts[..n]) && entries == Entries(w, listed + artifacts[..n])
      invariant forall i :: 0 <= i < n ==> artifacts[i].Artifact? && HashOf(w[artifacts[i]]) == artifacts[i].address
    {
      var file := artifacts[n];
      assert file in artifacts;
      if file.Misnamed? || HashOf(w[file]) != file.address { return None; }
      assert listed + artifacts[..n + 1] == listed + artifacts[..n] + [file];
      FilesSnoc(w, listed + artifacts[..n], file);
      files, entries := files[Bundled(file) := w[file]], entries + [EntryOf(file, w[file])];
    }
    assert artifacts[..|artifacts|] == artifacts;
    NoneUnexportable(w, artifacts);
    bundle := Some(files[ManifestFile := ManifestText(Manifest(entries))]);
  }

  // ---------- what keeps a workspace from being exported ----------

  predicate IsAddressName(directory: string, name: string) {
    && |directory| == 2 && |name| == 62
    && forall i :: 0 <= i < |directory + name| ==> '0' <= (directory + name)[i] <= '9' || 'a' <= (directory + name)[i] <= 'f'
  }

  // The file that a publication of some bytes leaves behind when it is cut off.
  function Leftover(hexadecimal: string, random: string): Path
    requires |hexadecimal| == 64
  {
    Misnamed(hexadecimal[..2], "." + hexadecimal + "." + random + ".tmp")
  }

  // One such file, whatever it holds, keeps a workspace that could be exported from being exported.
  lemma {:induction false} LeftoverBlocks(w: Tree, hexadecimal: string, random: string, c: Content)
    requires Exportable(w) && |hexadecimal| == 64
    ensures var leftover := Leftover(hexadecimal, random);
      && !IsAddressName(leftover.directory, leftover.name)
      && leftover !in w && !Exportable(w[leftover := c]) && Exportable(w[leftover := c] - {leftover})
  {
    var leftover := Leftover(hexadecimal, random);
    assert leftover.name[0] == '.';
    assert w[leftover := c] - {leftover} == w;
  }

  // A path that does not begin a text is found wherever the text is stored.
  lemma {:induction false} PathIsFound(before: string, text: string, after: string, i: nat)
    requires 0 < i <= |text| && HostPathAt(text, i)
    ensures HoldsHostPath(before + text + after)
  {
    var s, k := before + text + after, |before| + i;
    assert s[k - 1] == text[i - 1];
    if exists root :: root in HOST_ROOTS && root <= text[i..] {
      var root :| root in HOST_ROOTS && root <= text[i..];
      assert s[k..] == text[i..] + after;
      assert root <= s[k..];
    } else {
      assert s[k] == text[i] && s[k + 1] == text[i + 1] && s[k + 2] == text[i + 2];
    }
    assert HostPathAt(s, k);
  }

  // Once a stored text holds such a path, no workspace is exported whose database still dumps what this one dumps, as
  // that of an append-only ledger does.
  lemma {:induction false} HostPathBlocks(w: Tree, later: Tree, store: Store, before: string, text: string, after: string, i: nat)
    requires DbFile(store) in w && w[DbFile(store)].Db? && before + text + after in w[DbFile(store)].dump
    requires 0 < i <= |text| && HostPathAt(text, i)
    requires DbFile(store) in later && later[DbFile(store)].Db?
    requires forall s :: s in w[DbFile(store)].dump ==> s in later[DbFile(store)].dump
    ensures !Exportable(w) && !Exportable(later)
  {
    hide HostPathAt, HoldsHostPath;
    PathIsFound(before, text, after, i);
  }

  // A message that names a system file is such a text.
  const MESSAGE := "see /etc/hosts"

  lemma {:induction false} MessageIsHostPath()
    ensures 4 <= |MESSAGE| && HostPathAt(MESSAGE, 4)
  {
    var root := HOST_ROOTS[4];
    assert MESSAGE[4..] == root + "hosts";
    assert root in HOST_ROOTS && root <= MESSAGE[4..];
  }

  const SOUND := Db("", ["INSERT INTO events"], VERSION, true)

  // The same database with the message in its last row.
  const NOTED := SOUND.(dump := SOUND.dump + ["VALUES('" + MESSAGE + "')"])

  // The smallest such workspaces: each could be exported but for one file, or for one message in its ledger.
  lemma {:induction false} BlockedWorkspaces(hexadecimal: string)
    requires |hexadecimal| == 64
    ensures var w: Tree := map[DbFile(EventsStore) := SOUND];
      && Exportable(w)
      && !Exportable(w[Leftover(hexadecimal, "x") := Plain("")])
      && !Exportable(w[DbFile(EventsStore) := NOTED])
  {
    var w: Tree := map[DbFile(EventsStore) := SOUND];
    NoPathIn("INSERT INTO events");
    hide HostPathAt, HoldsHostPath, Leftover;
    assert IsPortable(SOUND.dump);
    LeftoverBlocks(w, hexadecimal, "x", Plain(""));
    MessageIsHostPath();
    hide MESSAGE;
    var noted := w[DbFile(EventsStore) := NOTED];
    assert noted[DbFile(EventsStore)].dump[1] == "VALUES('" + MESSAGE + "')";
    HostPathBlocks(noted, noted, EventsStore, "VALUES('", MESSAGE, "')", 4);
  }

  lemma {:induction false} NoPathIn(s: string)
    requires forall i :: 0 <= i < |s| ==> s[i] != '/' && s[i] != ':'
    ensures !HoldsHostPath(s)
  {
    forall i | 0 <= i <= |s|
      ensures !HostPathAt(s, i)
    {
      forall root | root in HOST_ROOTS
        ensures !(root <= s[i..])
      {
        assert root[0] == '/';
      }
    }
  }

  // ---------- the directory that holds workspaces ----------

  type Dirs = map<string, Tree>

  // Which operations of the file system fail.
  datatype Faults = Faults(copyAt: Option<nat>, asideFails: bool, publishFails: bool, backFails: bool, cleanupFails: bool)

  const NO_FAULTS := Faults(None, false, false, false, false)

  // Until the new tree is in place, the old one is whole under its own name or under the name it was put aside.
  predicate OldOrNew(d: Dirs, active: string, aside: string, before: Tree, after: Tree) {
    || (active in d && (d[active] == before || d[active] == after))
    || (active !in d && aside in d && d[aside] == before)
  }

  class Volume {
    var dirs: Dirs
    // Every state the directory has been in.
    ghost var history: seq<Dirs>

    constructor (dirs: Dirs)
      ensures this.dirs == dirs && history == [dirs]
    {
      this.dirs := dirs;
      history := [dirs];
    }

    method SetTree(name: string, tree: Tree)
      modifies this
      ensures dirs == old(dirs)[name := tree] && history == old(history) + [dirs]
    {
      dirs := dirs[name := tree];
      history := history + [dirs];
    }

    method RemoveTree(name: string)
      modifies this
      ensures dirs == old(dirs) - {name} && history == old(history) + [dirs]
    {
      dirs := dirs - {name};
      history := history + [dirs];
    }

    // An atomic rename onto a name that is free; a failed rename changes nothing.
    method Rename(source: string, target: string, fails: bool) returns (ok: bool)
      requires source in dirs && target !in dirs
      modifies this
      ensures ok == !fails
      ensures dirs == if ok then (old(dirs) - {source})[target := old(dirs)[source]] else old(dirs)
      ensures history == old(history) + [dirs]
    {
      ok := !fails;
      if ok { dirs := (dirs - {source})[target := dirs[source]]; }
      history := history + [dirs];
    }

    // Puts the staged tree under a name that another tree has; that one is put aside, and back when this fails.
    method Swap(staging: string, target: string, aside: string, faults: Faults) returns (ok: bool)
      requires staging in dirs && target in dirs && aside !in dirs && staging != target
      modifies this
      ensures ok == !(faults.asideFails || faults.publishFails)
      ensures dirs == if ok then (old(dirs) - {staging})[aside := old(dirs)[target]][target := old(dirs)[staging]]
        else if !faults.asideFails && faults.backFails then (old(dirs) - {target})[aside := old(dirs)[target]]
        else old(dirs)
      ensures old(history) <= history
      ensures forall k :: |old(history)| <= k < |history| ==>
        OldOrNew(history[k], target, aside, old(dirs)[target], old(dirs)[staging])
    {
      hide OldOrNew;
      ghost var before, after := dirs[target], dirs[staging];
      ok := Rename(target, aside, faults.asideFails);
      if !ok {
        StillThere(dirs, target, aside, before, after);
        return;
      }
      PutAside(dirs, target, aside, before, after);
      ok := Rename(staging, target, faults.publishFails);
      if ok {
        NewInPlace(dirs, target, aside, before, after);
      } else {
        PutAside(dirs, target, aside, before, after);
        var back := Rename(aside, target, faults.backFails);
        if back { StillThere(dirs, target, aside, before, after); } else { PutAside(dirs, target, aside, before, after); }
      }
    }

    // Puts the staged tree under the given name.
    method Publish(staging: string, target: string, aside: string, faults: Faults) returns (ok: bool)
      requires staging in dirs && aside !in dirs && staging != target && aside != target && staging != aside
      modifies this
      ensures ok == !((target in old(dirs) && faults.asideFails) || faults.publishFails)
      ensures ok && target in old(dirs) ==> dirs == (old(dirs) - {staging})[aside := old(dirs)[target]][target := old(dirs)[staging]]
      ensures ok && target !in old(dirs) ==> dirs == (old(dirs) - {staging})[target := old(dirs)[staging]]
      ensures !ok && (target in old(dirs) && !faults.asideFails && faults.backFails) ==>
        dirs == (old(dirs) - {target})[aside := old(dirs)[target]]
      ensures !ok && !(target in old(dirs) && !faults.asideFails && faults.backFails) ==> dirs == old(dirs)
      ensures old(history) <= history
      ensures target in old(dirs) ==> forall k :: |old(history)| <= k < |history| ==>
        OldOrNew(history[k], target, aside, old(dirs)[target], old(dirs)[staging])
    {
      hide OldOrNew;
      if target in dirs {
        ok := Swap(staging, target, aside, faults);
      } else {
        ok := Rename(staging, target, faults.publishFails);
      }
    }

    // ---------- export ----------

    // An export leaves every workspace as it is. It publishes the bundle of the source exactly when the source is
    // exportable, the destination is free or may be replaced, and no rename fails; it reports success when the
    // bundle it replaced could be removed as well.
    method Export(source: string, destination: string, artifacts: seq<Path>, staging: string, aside: string, replace: bool, faults: Faults)
      returns (ok: bool)
      requires source in dirs && source != destination && Lists(dirs[source], artifacts)
      requires staging !in dirs && aside !in dirs && staging != aside && staging != destination && aside != destination
      modifies this
      ensures faults == NO_FAULTS ==>
        (ok <==> Exportable(old(dirs)[source]) && (destination in old(dirs) ==> replace))
      ensures ok ==> Exportable(old(dirs)[source]) && dirs == old(dirs)[destination := BundleFor(old(dirs)[source], artifacts)]
      ensures source in dirs && dirs[source] == old(dirs)[source]
      ensures !ok && !faults.backFails && !faults.cleanupFails ==> dirs == old(dirs)
    {
      ghost var before := dirs;
      hide Exportable, Lists, BundleFor;
      var built := BuildBundle(dirs[source], artifacts);
      if built.None? || (destination in dirs && !replace) { return false; }
      SetTree(staging, built.value);
      assert dirs - {staging} == before;
      var hadOld := destination in dirs;
      ok := Publish(staging, destination, aside, faults);
      if !ok {
        RemoveTree(staging);
      } else if hadOld {
        if faults.cleanupFails { return false; }
        RemoveTree(aside);
      }
    }

    // ---------- restore ----------

    method Stage(bundle: Tree, m: Manifest, staging: string, copyAt: Option<nat>) returns (ok: bool)
      requires BundleMatches(bundle, m)
      modifies this
      ensures staging in dirs && dirs - {staging} == old(dirs) - {staging}
      ensures ok <==> !(copyAt.Some? && copyAt.value < |m.entries|)
      ensures ok ==> dirs[staging] == Staged(bundle, m, |m.entries|)
      ensures old(history) <= history
      ensures forall k :: |old(history)| <= k < |history| ==> history[k] - {staging} == old(dirs) - {staging}
    {
      SetTree(staging, map[]);
      for n := 0 to |m.entries|
        invariant staging in dirs && dirs - {staging} == old(dirs) - {staging}
        invariant dirs[staging] == Staged(bundle, m, n)
        invariant copyAt.Some? ==> copyAt.value >= n
        invariant old(history) <= history
        invariant forall k :: |old(history)| <= k < |history| ==> history[k] - {staging} == old(dirs) - {staging}
      {
        if copyAt == Some(n) { return false; }
        var entry := m.entries[n];
        SetTree(staging, dirs[staging][Placed(entry.path) := bundle[entry.path]]);
      }
      ok := true;
    }

    // Checks the bundle and copies it to the staging directory, which is removed again when a check or a copy fails.
    method StageVerified(bundle: Tree, staging: string, copyAt: Option<nat>) returns (ok: bool)
      requires staging !in dirs
      modifies this
      ensures ok ==> Restorable(bundle) && dirs == old(dirs)[staging := RestoredFrom(bundle)]
      ensures !ok ==> dirs == old(dirs)
      ensures copyAt.None? ==> ok == Restorable(bundle)
      ensures old(history) <= history
      ensures forall k :: |old(history)| <= k < |history| ==> history[k] - {staging} == old(dirs)
    {
      hide Restorable, BundleMatches, StagingValid, ManifestValid, Staged, RestoredFrom;
      Decided(bundle);
      var loaded := Load(bundle);
      if loaded.None? { return false; }
      var m := loaded.value;
      if !BundleMatches(bundle, m) { return false; }
      ghost var before := dirs;
      assert before - {staging} == before;
      ok := Stage(bundle, m, staging, copyAt);
      if ok && StagingValid(dirs[staging]) {
        assert dirs == before[staging := RestoredFrom(bundle)];
      } else {
        RemoveTree(staging);
        ok := false;
      }
    }

    // Renames the verified staging directory into place and removes what was put aside, or puts it back.
    method ReplaceActive(active: string, staging: string, rollback: string, faults: Faults, ghost before: Dirs)
      returns (ok: bool)
      requires staging in dirs && staging !in before && before == dirs - {staging}
      requires rollback !in dirs && staging != rollback && staging != active && rollback != active
      modifies this
      ensures ok ==> Replaced(before, dirs, active, rollback, old(dirs)[staging])
      ensures !ok ==> Kept(before, dirs, active, rollback, faults)
      ensures faults == NO_FAULTS ==> ok && rollback !in dirs
      ensures old(history) <= history
      ensures active in before ==> forall k :: |old(history)| <= k < |history| ==>
        OldOrNew(history[k], active, rollback, before[active], old(dirs)[staging])
    {
      hide OldOrNew;
      ghost var after := dirs[staging];
      var hadOld := active in dirs;
      StagedOver(before, dirs, staging);
      ok := Publish(staging, active, rollback, faults);
      if !ok {
        RemoveTree(staging);
        AfterFailure(before, dirs, active, staging, rollback, after);
      } else if hadOld && !faults.cleanupFails {
        RemoveTree(rollback);
        NewInPlace(dirs, active, rollback, before[active], after);
      }
    }

    // A restore replaces the active workspace by the verified content of the bundle, or leaves everything as it was.
    method Restore(bundle: string, active: string, staging: string, rollback: string, faults: Faults) returns (ok: bool)
      requires bundle in dirs && bundle != active
      requires staging !in dirs && rollback !in dirs && staging != rollback && staging != active && rollback != active
      modifies this
      ensures ok ==> Restorable(old(dirs)[bundle]) && Replaced(old(dirs), dirs, active, rollback, RestoredFrom(old(dirs)[bundle]))
      ensures !ok ==> Kept(old(dirs), dirs, active, rollback, faults)
      ensures faults == NO_FAULTS ==> ok == Restorable(old(dirs)[bundle]) && rollback !in dirs
      ensures old(history) <= history
      ensures active in old(dirs) && Restorable(old(dirs)[bundle]) ==> forall k :: |old(history)| <= k < |history| ==>
        OldOrNew(history[k], active, rollback, old(dirs)[active], RestoredFrom(old(dirs)[bundle]))
      ensures !Restorable(old(dirs)[bundle]) ==> forall k :: |old(history)| <= k < |history| ==> history[k] - {staging} == old(dirs)
    {
      hide Restorable, RestoredFrom, OldOrNew, Replaced, Kept;
      var b := dirs[bundle];
      ghost var before := dirs;
      ghost var after := if Restorable(b) then RestoredFrom(b) else map[];
      var staged := StageVerified(b, staging, faults.copyAt);
      StagingOnly(before, staging, active, rollback, history, |old(history)|, after);
      if !staged {
        Unchanged(before, active, rollback, faults);
        return false;
      }
      ok := ReplaceActive(active, staging, rollback, faults, before);
    }
  }

  // The restored tree is active; nothing else changed but for what may be left of the tree put aside.
  predicate Replaced(before: Dirs, d: Dirs, active: string, aside: string, tree: Tree) {
    active in d && d[active] == tree && d - {aside, active} == before - {active}
  }

  // Everything is as it was, unless putting the old workspace back failed: then it is whole where it was put aside.
  predicate Kept(before: Dirs, d: Dirs, active: string, aside: string, faults: Faults) {
    || d == before
    || (faults.backFails && active in before && d == (before - {active})[aside := before[active]])
  }

  lemma {:induction false} Unchanged(before: Dirs, active: string, aside: string, faults: Faults)
    ensures Kept(before, before, active, aside, faults)
  {
  }

  // The checks of a restore, one by one.
  lemma {:induction false} Decided(b: Tree)
    ensures Load(b).None? ==> !Restorable(b)
    ensures Load(b).Some? && !BundleMatches(b, Load(b).value) ==> !Restorable(b)
    ensures Load(b).Some? && BundleMatches(b, Load(b).value) ==>
      && (Restorable(b) <==> StagingValid(Staged(b, Load(b).value, |Load(b).value.entries|)))
      && (Restorable(b) ==> RestoredFrom(b) == Staged(b, Load(b).value, |Load(b).value.entries|))
  {
  }

  lemma {:induction false} StillThere(d: Dirs, active: string, aside: string, before: Tree, after: Tree)
    requires active in d && d[active] == before
    ensures OldOrNew(d, active, aside, before, after)
  {
  }

  lemma {:induction false} PutAside(d: Dirs, active: string, aside: string, before: Tree, after: Tree)
    requires active !in d && aside in d && d[aside] == before
    ensures OldOrNew(d, active, aside, before, after)
  {
  }

  lemma {:induction false} NewInPlace(d: Dirs, active: string, aside: string, before: Tree, after: Tree)
    requires active in d && d[active] == after
    ensures OldOrNew(d, active, aside, before, after)
  {
  }

  // While only the staging directory changes, the old workspace is under its own name.
  lemma {:induction false} StagingOnly(before: Dirs, staging: string, active: string, aside: string, history: seq<Dirs>, n: nat, after: Tree)
    requires staging !in before && staging != active
    requires forall k :: n <= k < |history| ==> history[k] - {staging} == before
    ensures active in before ==> forall k :: n <= k < |history| ==> OldOrNew(history[k], active, aside, before[active], after)
  {
    if active in before {
      forall k | n <= k < |history|
        ensures OldOrNew(history[k], active, aside, before[active], after)
      {
        assert active in history[k] - {staging} && (history[k] - {staging})[active] == before[active];
      }
    }
  }

  lemma {:induction false} StagedOver(before: Dirs, d: Dirs, staging: string)
    requires staging in d && before == d - {staging}
    ensures forall x :: x != staging ==> (x in d <==> x in before) && (x in d ==> d[x] == before[x])
  {
  }

  lemma {:induction false} AfterFailure(before: Dirs, d: Dirs, active: string, staging: string, aside: string, after: Tree)
    requires staging != active && staging != aside && active != aside && staging !in before
    requires d == before || (active in before && d == (before - {active})[aside := before[active]])
    ensures active in before ==> OldOrNew(d, active, aside, before[active], after)
  {
  }
}
