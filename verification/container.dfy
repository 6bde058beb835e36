/**
 * The portable container: the resolved-pack metadata it stores, the manifest that covers its files,
 * and the sorting of its files into sources, pack files and assets. File contents are compared,
 * never looked into; `digest` and `media` stand for the hash and for the image sniffer.
 */
module PortableContainer {
  import opened Options
  import opened TextOrder

  type Content = nat

  datatype PackFile = PackFile(path: string, digest: string)
  datatype Dependency = Dependency(local: string, install: string)
  datatype Pack = Pack(
    install: string, canonicalId: string, version: string, digest: string, path: string, entry: string,
    manifestPath: string, manifest: Content, registry: string, files: seq<PackFile>, dependencies: seq<Dependency>)

  datatype Envelope = Envelope(format: string, formatVersion: int, language: int)

  /** A pack as the metadata document stores it, under its install name; a document may lack a map. */
  datatype StoredPack = StoredPack(
    canonicalId: string, version: string, digest: string, path: string, entry: string,
    files: Option<map<string, string>>, dependencies: Option<map<string, string>>, registry: string)

  type Installs = map<string, StoredPack>

  datatype Document = Document(envelope: Envelope, rootPack: string, installs: Option<Installs>)

  const RESOLVED_ENVELOPE := Envelope("layerdraw-resolved", 1, 1)
  const MANIFEST := "manifest.json"
  const RESOLVED := "layerdraw.resolved.json"

  function Joined(directory: string, name: string): string {
    directory + "/" + name
  }

  /** A pack that names no manifest path has its manifest at the default one. */
  function Defaulted(p: Pack): Pack {
    if p.manifestPath == "" then p.(manifestPath := MANIFEST) else p
  }

  function ManifestPathOf(p: Pack): string {
    Joined(p.path, Defaulted(p).manifestPath)
  }

  // ----- Encoding the metadata ----------------------------------------------------------------

  /** A later entry under an occupied key is refused, unless what occupies it is empty. */
  function FilesMap(files: seq<PackFile>): Option<map<string, string>> {
    if files == [] then Some(map[])
    else
      var front, last := FilesMap(files[..|files| - 1]), files[|files| - 1];
      if front.None? || last.path == "" || (last.path in front.value && front.value[last.path] != "") then None
      else Some(front.value[last.path := last.digest])
  }

  function DependenciesMap(dependencies: seq<Dependency>): Option<map<string, string>> {
    if dependencies == [] then Some(map[])
    else
      var front, last := DependenciesMap(dependencies[..|dependencies| - 1]), dependencies[|dependencies| - 1];
      if front.None? || last.local == "" || (last.local in front.value && front.value[last.local] != "") then None
      else Some(front.value[last.local := last.install])
  }

  function StoredOf(p: Pack): Option<StoredPack> {
    var files, dependencies := FilesMap(p.files), DependenciesMap(p.dependencies);
    if files.None? || dependencies.None? then None
    else Some(StoredPack(p.canonicalId, p.version, p.digest, p.path, p.entry, files, dependencies, p.registry))
  }

  function Encoded(installs: seq<Pack>): Option<Installs> {
    if installs == [] then Some(map[])
    else
      var front, last := Encoded(installs[..|installs| - 1]), installs[|installs| - 1];
      if front.None? || last.install == "" || last.registry == "" || StoredOf(last).None? then None
      else if last.install in front.value && front.value[last.install].canonicalId != "" then None
      else Some(front.value[last.install := StoredOf(last).value])
  }

  method CanonicalFiles(files: seq<PackFile>) returns (result: Option<map<string, string>>)
    ensures result == FilesMap(files)
  {
    var converted: map<string, string> := map[];
    for i := 0 to |files|
      invariant FilesMap(files[..i]) == Some(converted)
    {
      assert files[..i + 1][..i] == files[..i];
      if files[i].path == "" || (files[i].path in converted && converted[files[i].path] != "") {
        FilesStayRefused(files, i + 1);
        return None;
      }
      converted := converted[files[i].path := files[i].digest];
    }
    assert files[..|files|] == files;
    return Some(converted);
  }

  lemma {:induction false} FilesStayRefused(files: seq<PackFile>, n: nat)
    requires n <= |files| && FilesMap(files[..n]).None?
    ensures FilesMap(files).None?
    decreases |files| - n
  {
    if n == |files| {
      assert files[..n] == files;
    } else {
      assert files[..n + 1][..n] == files[..n];
      FilesStayRefused(files, n + 1);
    }
  }

  method CanonicalDependencies(dependencies: seq<Dependency>) returns (result: Option<map<string, string>>)
    ensures result == DependenciesMap(dependencies)
  {
    var converted: map<string, string> := map[];
    for i := 0 to |dependencies|
      invariant DependenciesMap(dependencies[..i]) == Some(converted)
    {
      assert dependencies[..i + 1][..i] == dependencies[..i];
      if dependencies[i].local == "" || (dependencies[i].local in converted && converted[dependencies[i].local] != "") {
        DependenciesStayRefused(dependencies, i + 1);
        return None;
      }
      converted := converted[dependencies[i].local := dependencies[i].install];
    }
    assert dependencies[..|dependencies|] == dependencies;
    return Some(converted);
  }

  lemma {:induction false} DependenciesStayRefused(dependencies: seq<Dependency>, n: nat)
    requires n <= |dependencies| && DependenciesMap(dependencies[..n]).None?
    ensures DependenciesMap(dependencies).None?
    decreases |dependencies| - n
  {
    if n == |dependencies| {
      assert dependencies[..n] == dependencies;
    } else {
      assert dependencies[..n + 1][..n] == dependencies[..n];
      DependenciesStayRefused(dependencies, n + 1);
    }
  }

  function DocumentOf(envelope: Envelope, installs: seq<Pack>): Option<Document> {
    if envelope != RESOLVED_ENVELOPE || Encoded(installs).None? then None
    else Some(Document(envelope, "", Some(Encoded(installs).value)))
  }

  method CanonicalResolved(envelope: Envelope, installs: seq<Pack>) returns (result: Option<Document>)
    ensures result == DocumentOf(envelope, installs)
  {
    if envelope != RESOLVED_ENVELOPE {
      return None;
    }
    var document: Installs := map[];
    for i := 0 to |installs|
      invariant Encoded(installs[..i]) == Some(document)
    {
      assert installs[..i + 1][..i] == installs[..i];
      var p := installs[i];
      if p.install == "" || p.registry == "" || (p.install in document && document[p.install].canonicalId != "") {
        EncodedStaysRefused(installs, i + 1);
        return None;
      }
      var files := CanonicalFiles(p.files);
      var dependencies := CanonicalDependencies(p.dependencies);
      if files.None? || dependencies.None? {
        EncodedStaysRefused(installs, i + 1);
        return None;
      }
      document := document[p.install := StoredPack(p.canonicalId, p.version, p.digest, p.path, p.entry, files,
                                                   dependencies, p.registry)];
    }
    assert installs[..|installs|] == installs;
    return Some(Document(envelope, "", Some(document)));
  }

  lemma {:induction false} EncodedStaysRefused(installs: seq<Pack>, n: nat)
    requires n <= |installs| && Encoded(installs[..n]).None?
    ensures Encoded(installs).None?
    decreases |installs| - n
  {
    if n == |installs| {
      assert installs[..n] == installs;
    } else {
      assert installs[..n + 1][..n] == installs[..n];
      EncodedStaysRefused(installs, n + 1);
    }
  }

  // ----- Decoding the metadata ----------------------------------------------------------------

  /** The one strictly sorted list of a set of names. */
  ghost predicate Lists(names: set<string>, order: seq<string>) {
    Strict(order) && forall name :: name in order <==> name in names
  }

  method SortedKeys(names: set<string>) returns (order: seq<string>)
    ensures Lists(names, order)
  {
    hide Less;
    var found: seq<string> := [];
    var pending := names;
    while pending != {}
      invariant pending <= names && forall name :: name in found <==> name in names - pending
      invariant forall i, j :: 0 <= i < j < |found| ==> found[i] != found[j]
      decreases |pending|
    {
      var name :| name in pending;
      assert name !in found;
      pending := pending - {name};
      found := found + [name];
    }
    order := SortedBy(Less, found);
    SortingLists(names, found);
  }

  lemma SortingLists(names: set<string>, found: seq<string>)
    requires forall name :: name in found <==> name in names
    requires forall i, j :: 0 <= i < j < |found| ==> found[i] != found[j]
    ensures Lists(names, SortedBy(Less, found))
  {
    hide Less, SortedBy;
    var order := SortedBy(Less, found);
    LessIsComparison();
    SortedByIsOrdered(Less, found);
    SameElements(found, order);
    var key := (x: string) => x;
    assert DistinctBy(key, found);
    PermutedStaysDistinct(key, found, order);
    forall i, j | 0 <= i < j < |order| ensures Less(order[i], order[j]) {
      assert key(order[i]) != key(order[j]);
      LessIsTotal(order[i], order[j]);
    }
  }

  lemma {:induction false} Enumerated(names: set<string>) returns (found: seq<string>)
    ensures forall name :: name in found <==> name in names
    ensures forall i, j :: 0 <= i < j < |found| ==> found[i] != found[j]
    decreases |names|
  {
    found := [];
    if names != {} {
      var name :| name in names;
      var rest := Enumerated(names - {name});
      found := rest + [name];
    }
  }

  lemma ListExists(names: set<string>)
    ensures exists order :: Lists(names, order)
  {
    var found := Enumerated(names);
    SortingLists(names, found);
  }

  ghost function ListOf(names: set<string>): (order: seq<string>)
    ensures Lists(names, order)
  {
    ListExists(names);
    var order :| Lists(names, order);
    order
  }

  function InstallNames(packs: seq<Pack>): seq<string> {
    seq(|packs|, i requires 0 <= i < |packs| => packs[i].install)
  }

  function FilePaths(files: seq<PackFile>): seq<string> {
    seq(|files|, i requires 0 <= i < |files| => files[i].path)
  }

  function LocalNames(dependencies: seq<Dependency>): seq<string> {
    seq(|dependencies|, i requires 0 <= i < |dependencies| => dependencies[i].local)
  }

  predicate Mapped(stored: StoredPack) {
    stored.files.Some? && stored.dependencies.Some?
  }

  /** The pack read back under an install name, given its manifest and the orders its maps are read in. */
  function PackOf(name: string, stored: StoredPack, manifest: Content, files: seq<string>, locals: seq<string>): Pack
    requires Mapped(stored)
    requires (forall f :: f in files ==> f in stored.files.value) && forall l :: l in locals ==>
               l in stored.dependencies.value
  {
    Pack(name, stored.canonicalId, stored.version, stored.digest, stored.path, stored.entry, MANIFEST, manifest,
         stored.registry, seq(|files|, i requires 0 <= i < |files| => PackFile(files[i], stored.files.value[files[i]])),
         seq(|locals|, i requires 0 <= i < |locals| => Dependency(locals[i], stored.dependencies.value[locals[i]])))
  }

  ghost predicate ReadBack(files: map<string, Content>, name: string, stored: StoredPack, p: Pack) {
    && Mapped(stored) && stored.registry != "" && Joined(stored.path, MANIFEST) in files
    && exists order, locals :: Lists(stored.files.value.Keys, order) && Lists(stored.dependencies.value.Keys, locals)
         && p == PackOf(name, stored, files[Joined(stored.path, MANIFEST)], order, locals)
  }

  predicate Readable(files: map<string, Content>, stored: StoredPack) {
    Mapped(stored) && stored.registry != "" && Joined(stored.path, MANIFEST) in files
  }

  /** The packs a document is read as, in name order. */
  ghost predicate DecodesTo(files: map<string, Content>, installs: Installs, packs: seq<Pack>) {
    && Lists(installs.Keys, InstallNames(packs))
    && forall p :: p in packs ==> p.install in installs && ReadBack(files, p.install, installs[p.install], p)
  }

  predicate Supported(document: Document) {
    document.envelope == RESOLVED_ENVELOPE && document.rootPack == "" && document.installs.Some?
  }

  ghost predicate Decodable(files: map<string, Content>, document: Document) {
    Supported(document) && forall name :: name in document.installs.value ==>
      Readable(files, document.installs.value[name])
  }

  method DecodePack(files: map<string, Content>, name: string, stored: StoredPack) returns (result: Option<Pack>)
    ensures result.Some? <==> Readable(files, stored)
    ensures result.Some? ==> ReadBack(files, name, stored, result.value)
  {
    if stored.registry == "" || stored.files.None? || stored.dependencies.None? {
      return None;
    }
    if Joined(stored.path, MANIFEST) !in files {
      return None;
    }
    var order := SortedKeys(stored.files.value.Keys);
    var locals := SortedKeys(stored.dependencies.value.Keys);
    return Some(PackOf(name, stored, files[Joined(stored.path, MANIFEST)], order, locals));
  }

  method DecodeInstalls(files: map<string, Content>, document: Document) returns (result: Option<seq<Pack>>)
    ensures result.Some? <==> Decodable(files, document)
    ensures result.Some? ==> DecodesTo(files, document.installs.value, result.value)
  {
    hide Less, ReadBack;
    if !Supported(document) {
      return None;
    }
    var stored := document.installs.value;
    var names := SortedKeys(stored.Keys);
    var installs: seq<Pack> := [];
    for i := 0 to |names|
      invariant |installs| == i && forall k :: 0 <= k < i ==> names[k] in stored && Readable(files, stored[names[k]])
      invariant forall k :: 0 <= k < i ==>
                  installs[k].install == names[k] && ReadBack(files, names[k], stored[names[k]], installs[k])
    {
      assert names[i] in names;
      var p := DecodePack(files, names[i], stored[names[i]]);
      if p.None? {
        return None;
      }
      ReadBackKeepsName(files, names[i], stored[names[i]], p.value);
      installs := installs + [p.value];
    }
    assert names == InstallNames(installs);
    return Some(installs);
  }

  ghost function PackRead(files: map<string, Content>, name: string, stored: StoredPack): (p: Pack)
    requires Readable(files, stored)
    ensures ReadBack(files, name, stored, p)
  {
    var order, locals := ListOf(stored.files.value.Keys), ListOf(stored.dependencies.value.Keys);
    assert Lists(stored.files.value.Keys, order) && Lists(stored.dependencies.value.Keys, locals);
    PackOf(name, stored, files[Joined(stored.path, MANIFEST)], order, locals)
  }

  /** A readable document can be read. */
  lemma DecodingExists(files: map<string, Content>, document: Document) returns (packs: seq<Pack>)
    requires Decodable(files, document)
    ensures DecodesTo(files, document.installs.value, packs)
  {
    hide Less, ReadBack, Readable;
    var stored := document.installs.value;
    var names := ListOf(stored.Keys);
    packs := [];
    for i := 0 to |names|
      invariant |packs| == i && forall k :: 0 <= k < i ==> names[k] in stored && packs[k].install == names[k]
      invariant forall k :: 0 <= k < i ==> ReadBack(files, names[k], stored[names[k]], packs[k])
    {
      assert names[i] in names;
      var p := PackRead(files, names[i], stored[names[i]]);
      ReadBackKeepsName(files, names[i], stored[names[i]], p);
      packs := packs + [p];
    }
    assert InstallNames(packs) == names;
  }

  /** A document is read in one way only. */
  lemma DecodingIsUnique(files: map<string, Content>, installs: Installs, a: seq<Pack>, b: seq<Pack>)
    requires DecodesTo(files, installs, a) && DecodesTo(files, installs, b)
    ensures a == b
  {
    hide Less, ReadBack;
    StrictIsUnique(InstallNames(a), InstallNames(b));
    assert |a| == |InstallNames(a)| && |b| == |InstallNames(b)|;
    forall i | 0 <= i < |a| ensures a[i] == b[i] {
      assert InstallNames(a)[i] == InstallNames(b)[i];
      assert a[i] in a && b[i] in b;
      ReadingIsUnique(files, a[i].install, installs[a[i].install], a[i], b[i]);
    }
  }

  lemma ReadingIsUnique(files: map<string, Content>, name: string, stored: StoredPack, p: Pack, q: Pack)
    requires ReadBack(files, name, stored, p) && ReadBack(files, name, stored, q)
    ensures p == q
  {
    hide Less;
    var fileNames, localNames :| Lists(stored.files.value.Keys, fileNames) &&
      Lists(stored.dependencies.value.Keys, localNames)
      && p == PackOf(name, stored, files[Joined(stored.path, MANIFEST)], fileNames, localNames);
    var order, locals :| Lists(stored.files.value.Keys, order) && Lists(stored.dependencies.value.Keys, locals)
      && q == PackOf(name, stored, files[Joined(stored.path, MANIFEST)], order, locals);
    StrictIsUnique(fileNames, order);
    StrictIsUnique(localNames, locals);
  }

  lemma ReadBackKeepsName(files: map<string, Content>, name: string, stored: StoredPack, p: Pack)
    requires ReadBack(files, name, stored, p)
    ensures p.install == name && p.manifestPath == MANIFEST && p.path == stored.path &&
            p.canonicalId == stored.canonicalId
  {
  }

  // ----- Round trip ---------------------------------------------------------------------------

  ghost predicate NamedOnce(p: Pack) {
    && (forall i :: 0 <= i < |p.files| ==> p.files[i].path != "")
    && (forall i, j :: 0 <= i < j < |p.files| ==> p.files[i].path != p.files[j].path)
    && (forall i :: 0 <= i < |p.dependencies| ==> p.dependencies[i].local != "")
    && (forall i, j :: 0 <= i < j < |p.dependencies| ==> p.dependencies[i].local != p.dependencies[j].local)
  }

  ghost predicate DuplicateFree(installs: seq<Pack>) {
    && (forall i :: 0 <= i < |installs| ==>
      installs[i].install != "" && installs[i].registry != "" && NamedOnce(installs[i]))
    && (forall i, j :: 0 <= i < j < |installs| ==> installs[i].install != installs[j].install)
  }

  /** Nothing the writer uses as an "occupied" mark is empty. */
  ghost predicate Marked(installs: seq<Pack>) {
    forall i :: 0 <= i < |installs| ==>
      var p := installs[i];
      && p.canonicalId != "" && (forall f :: f in p.files ==> f.digest != "") && (forall d :: d in p.dependencies ==>
          d.install != "")
  }

  lemma FilesEncodeNext(front: seq<PackFile>, d: map<string, string>, last: PackFile)
    requires (forall f :: f in front ==> f.path in d && d[f.path] == f.digest && f.path != last.path)
    requires forall path :: path in d ==> exists f :: f in front && f.path == path
    ensures var m, files := d[last.path := last.digest], front + [last];
            && last.path !in d && (forall f :: f in files ==> f.path in m && m[f.path] == f.digest)
            && forall path :: path in m ==> exists f :: f in files && f.path == path
  {
    forall path | path in d ensures path != last.path && exists f :: f in front + [last] && f.path == path {
      var f :| f in front && f.path == path;
      assert f in front + [last];
    }
    assert last in front + [last];
  }

  lemma {:induction false} DistinctFilesEncode(files: seq<PackFile>)
    requires forall i :: 0 <= i < |files| ==> files[i].path != ""
    requires forall i, j :: 0 <= i < j < |files| ==> files[i].path != files[j].path
    ensures var m := FilesMap(files);
            && m.Some? && (forall f :: f in files ==> f.path in m.value && m.value[f.path] == f.digest)
            && forall path :: path in m.value ==> exists f :: f in files && f.path == path
    decreases |files|
  {
    if files != [] {
      var front, last := files[..|files| - 1], files[|files| - 1];
      DistinctFilesEncode(front);
      assert files == front + [last];
      forall f | f in front ensures f.path != last.path {
      }
      FilesEncodeNext(front, FilesMap(front).value, last);
    }
  }

  lemma DependenciesEncodeNext(front: seq<Dependency>, d: map<string, string>, last: Dependency)
    requires (forall e :: e in front ==> e.local in d && d[e.local] == e.install && e.local != last.local)
    requires forall local :: local in d ==> exists e :: e in front && e.local == local
    ensures var m, dependencies := d[last.local := last.install], front + [last];
            && last.local !in d && (forall e :: e in dependencies ==> e.local in m && m[e.local] == e.install)
            && forall local :: local in m ==> exists e :: e in dependencies && e.local == local
  {
    forall local | local in d ensures local != last.local && exists e :: e in front + [last] && e.local == local {
      var e :| e in front && e.local == local;
      assert e in front + [last];
    }
    assert last in front + [last];
  }

  lemma {:induction false} DistinctDependenciesEncode(dependencies: seq<Dependency>)
    requires forall i :: 0 <= i < |dependencies| ==> dependencies[i].local != ""
    requires forall i, j :: 0 <= i < j < |dependencies| ==> dependencies[i].local != dependencies[j].local
    ensures var m := DependenciesMap(dependencies);
            && m.Some? && (forall d :: d in dependencies ==> d.local in m.value && m.value[d.local] == d.install)
            && forall local :: local in m.value ==> exists d :: d in dependencies && d.local == local
    decreases |dependencies|
  {
    if dependencies != [] {
      var front, last := dependencies[..|dependencies| - 1], dependencies[|dependencies| - 1];
      DistinctDependenciesEncode(front);
      assert dependencies == front + [last];
      forall d | d in front ensures d.local != last.local {
      }
      DependenciesEncodeNext(front, DependenciesMap(front).value, last);
    }
  }

  lemma PackEncodes(p: Pack)
    requires NamedOnce(p)
    ensures StoredOf(p).Some?
  {
    DistinctFilesEncode(p.files);
    DistinctDependenciesEncode(p.dependencies);
  }

  /** Each pack stands in the document under its own install name, and nothing else does. */
  ghost predicate Documents(installs: seq<Pack>, d: Installs) {
    EachStored(installs, d) && EachOwned(installs, d) && |d| == |installs|
  }

  ghost predicate EachStored(installs: seq<Pack>, d: Installs) {
    forall p :: p in installs ==> p.install in d && Some(d[p.install]) == StoredOf(p)
  }

  ghost predicate EachOwned(installs: seq<Pack>, d: Installs) {
    forall name :: name in d ==> exists p :: p in installs && p.install == name
  }

  lemma StoredUnder(installs: seq<Pack>, d: Installs, p: Pack)
    requires Documents(installs, d) && p in installs
    ensures p.install in d && Some(d[p.install]) == StoredOf(p)
  {
  }

  lemma OwnerOf(installs: seq<Pack>, d: Installs, name: string) returns (p: Pack)
    requires Documents(installs, d) && name in d
    ensures p in installs && p.install == name
  {
    p :| p in installs && p.install == name;
  }

  lemma DocumentsNext(front: seq<Pack>, d: Installs, last: Pack)
    requires Documents(front, d) && StoredOf(last).Some? && forall p :: p in front ==> p.install != last.install
    ensures Documents(front + [last], d[last.install := StoredOf(last).value])
  {
    hide StoredOf, EachStored, EachOwned;
    var n := d[last.install := StoredOf(last).value];
    if last.install in d {
      var p := OwnerOf(front, d, last.install);
    }
    StoredNext(front, d, last);
    OwnedNext(front, d, last);
    assert n.Keys == d.Keys + {last.install};
  }

  lemma StoredNext(front: seq<Pack>, d: Installs, last: Pack)
    requires EachStored(front, d) && StoredOf(last).Some? && forall p :: p in front ==> p.install != last.install
    ensures EachStored(front + [last], d[last.install := StoredOf(last).value])
  {
    hide StoredOf;
    assert forall p :: p in front + [last] <==> p in front || p == last;
  }

  lemma OwnedNext(front: seq<Pack>, d: Installs, last: Pack)
    requires EachOwned(front, d) && StoredOf(last).Some?
    ensures EachOwned(front + [last], d[last.install := StoredOf(last).value])
  {
    hide StoredOf;
    var n := d[last.install := StoredOf(last).value];
    forall name | name in n ensures exists p :: p in front + [last] && p.install == name {
      if name == last.install {
        assert last in front + [last];
      } else {
        var p :| p in front && p.install == name;
        assert p in front + [last];
      }
    }
  }

  /** Duplicate-free metadata encodes, and the document is its metadata. */
  lemma {:induction false} DuplicateFreeEncodes(installs: seq<Pack>)
    requires DuplicateFree(installs)
    ensures Encoded(installs).Some? && Documents(installs, Encoded(installs).value)
    decreases |installs|
  {
    hide StoredOf, Documents;
    if installs == [] {
      NothingDocumented();
    } else {
      var front, last := installs[..|installs| - 1], installs[|installs| - 1];
      DuplicateFreeEncodes(front);
      PackEncodes(last);
      assert installs == front + [last];
      var d := Encoded(front).value;
      assert forall p :: p in front ==> p.install != last.install;
      if last.install in d {
        var p := OwnerOf(front, d, last.install);
      }
      DocumentsNext(front, d, last);
    }
  }

  lemma NothingDocumented()
    ensures Documents([], map[])
  {
  }

  lemma {:induction false} EncodedFilesDiffer(files: seq<PackFile>)
    requires FilesMap(files).Some? && forall f :: f in files ==> f.digest != ""
    ensures forall i :: 0 <= i < |files| ==> files[i].path != ""
    ensures forall i, j :: 0 <= i < j < |files| ==> files[i].path != files[j].path
    decreases |files|
  {
    if files != [] {
      var front, last := files[..|files| - 1], files[|files| - 1];
      assert files == front + [last];
      EncodedFilesDiffer(front);
      DistinctFilesEncode(front);
      forall i | 0 <= i < |front| ensures front[i].path != last.path {
        assert front[i] in front;
      }
    }
  }

  lemma {:induction false} EncodedDependenciesDiffer(dependencies: seq<Dependency>)
    requires DependenciesMap(dependencies).Some? && forall d :: d in dependencies ==> d.install != ""
    ensures forall i :: 0 <= i < |dependencies| ==> dependencies[i].local != ""
    ensures forall i, j :: 0 <= i < j < |dependencies| ==> dependencies[i].local != dependencies[j].local
    decreases |dependencies|
  {
    if dependencies != [] {
      var front, last := dependencies[..|dependencies| - 1], dependencies[|dependencies| - 1];
      assert dependencies == front + [last];
      EncodedDependenciesDiffer(front);
      DistinctDependenciesEncode(front);
      forall i | 0 <= i < |front| ensures front[i].local != last.local {
        assert front[i] in front;
      }
    }
  }

  lemma StoredIsNamedOnce(p: Pack)
    requires StoredOf(p).Some? && (forall f :: f in p.files ==> f.digest != "") && forall d :: d in p.dependencies ==>
               d.install != ""
    ensures NamedOnce(p)
  {
    EncodedFilesDiffer(p.files);
    EncodedDependenciesDiffer(p.dependencies);
  }

  /** With no empty identifier or digest about, exactly the duplicate-free metadata encodes. */
  lemma {:induction false} EncodesIffDuplicateFree(installs: seq<Pack>)
    requires Marked(installs)
    ensures Encoded(installs).Some? <==> DuplicateFree(installs)
    decreases |installs|
  {
    hide StoredOf, Documents, NamedOnce;
    if DuplicateFree(installs) {
      DuplicateFreeEncodes(installs);
    } else if Encoded(installs).Some? {
      var front, last := installs[..|installs| - 1], installs[|installs| - 1];
      EncodesIffDuplicateFree(front);
      DuplicateFreeEncodes(front);
      assert installs == front + [last];
      StoredIsNamedOnce(last);
      forall i | 0 <= i < |front| ensures front[i].install != last.install {
        assert front[i] in front;
        StoredUnder(front, Encoded(front).value, front[i]);
        StoredKeepsPath(front[i]);
      }
    }
  }

  /** The same pack with its files and dependencies listed in another order. */
  ghost predicate SamePack(p: Pack, q: Pack) {
    && q == p.(files := q.files, dependencies := q.dependencies)
    && (forall f :: f in p.files <==> f in q.files) && (forall d :: d in p.dependencies <==> d in q.dependencies)
  }

  lemma StoringIgnoresOrder(p: Pack, q: Pack)
    requires NamedOnce(p) && NamedOnce(q) && SamePack(p, q)
    ensures StoredOf(p) == StoredOf(q)
  {
    DistinctFilesEncode(p.files);
    DistinctFilesEncode(q.files);
    DistinctDependenciesEncode(p.dependencies);
    DistinctDependenciesEncode(q.dependencies);
    var a, b := FilesMap(p.files).value, FilesMap(q.files).value;
    forall path ensures path in a <==> path in b {
    }
    forall path | path in a ensures a[path] == b[path] {
      var f :| f in p.files && f.path == path;
    }
    assert a == b;
    var c, d := DependenciesMap(p.dependencies).value, DependenciesMap(q.dependencies).value;
    forall local ensures local in c <==> local in d {
    }
    forall local | local in c ensures c[local] == d[local] {
      var e :| e in p.dependencies && e.local == local;
    }
    assert c == d;
  }

  /** The packs of one list are those of the other, each list and each pack's own lists in any order. */
  ghost predicate SamePacks(a: seq<Pack>, b: seq<Pack>) {
    && (forall p :: p in a ==> exists q :: q in b && SamePack(p, q))
    && (forall q :: q in b ==> exists p :: p in a && SamePack(p, q))
  }

  /** The order in which packs, files and dependencies are listed does not show in the encoding. */
  lemma EncodingIgnoresOrder(a: seq<Pack>, b: seq<Pack>)
    requires DuplicateFree(a) && DuplicateFree(b) && SamePacks(a, b)
    ensures Encoded(a) == Encoded(b)
  {
    hide StoredOf, Documents, Encoded, NamedOnce, SamePack;
    DuplicateFreeEncodes(a);
    DuplicateFreeEncodes(b);
    var d, e := Encoded(a).value, Encoded(b).value;
    forall name | name in d ensures name in e && d[name] == e[name] {
      var p := OwnerOf(a, d, name);
      var q :| q in b && SamePack(p, q);
      SamePackSameName(p, q);
      StoredUnder(a, d, p);
      StoredUnder(b, e, q);
      StoringIgnoresOrder(p, q);
    }
    forall name | name in e ensures name in d {
      var q := OwnerOf(b, e, name);
      var p :| p in a && SamePack(p, q);
      SamePackSameName(p, q);
      StoredUnder(a, d, p);
    }
    assert d == e;
  }

  lemma SamePackSameName(p: Pack, q: Pack)
    requires SamePack(p, q)
    ensures p.install == q.install
  {
  }

  /** `q` is `p` with its lists in name order and its manifest path spelled out: what a pack is read back as. */
  ghost predicate NormalForm(p: Pack, q: Pack) {
    && SamePack(Defaulted(p), q)
    && Strict(FilePaths(q.files))
    && Strict(LocalNames(q.dependencies))
  }

  lemma PackRoundTrip(files: map<string, Content>, p: Pack, q: Pack)
    requires NamedOnce(p) && StoredOf(p).Some? && ReadBack(files, p.install, StoredOf(p).value, q)
    requires Defaulted(p).manifestPath == MANIFEST && files[Joined(p.path, MANIFEST)] == p.manifest
    ensures NormalForm(p, q)
  {
    hide Less, FilesMap, DependenciesMap;
    var stored := StoredOf(p).value;
    DistinctFilesEncode(p.files);
    DistinctDependenciesEncode(p.dependencies);
    var order, locals :| Lists(stored.files.value.Keys, order) && Lists(stored.dependencies.value.Keys, locals)
      && q == PackOf(p.install, stored, files[Joined(stored.path, MANIFEST)], order, locals);
    assert order == FilePaths(q.files);
    assert locals == LocalNames(q.dependencies);
    forall f ensures f in p.files <==> f in q.files {
      FileRoundTrip(p, q, order, f);
    }
    forall d ensures d in p.dependencies <==> d in q.dependencies {
      DependencyRoundTrip(p, q, locals, d);
    }
  }

  lemma FileRoundTrip(p: Pack, q: Pack, order: seq<string>, f: PackFile)
    requires NamedOnce(p) && StoredOf(p).Some? && forall path :: path in order <==>
             path in StoredOf(p).value.files.value
    requires |q.files| == |order| && forall i :: 0 <= i < |order| ==>
               order[i] in StoredOf(p).value.files.value &&
                 q.files[i] == PackFile(order[i], StoredOf(p).value.files.value[order[i]])
    ensures f in p.files <==> f in q.files
  {
    DistinctFilesEncode(p.files);
    if f in p.files {
      var i :| 0 <= i < |order| && order[i] == f.path;
      assert q.files[i] == f;
    }
    if f in q.files {
      var i :| 0 <= i < |q.files| && q.files[i] == f;
      assert order[i] in order;
      var g :| g in p.files && g.path == order[i];
    }
  }

  lemma DependencyRoundTrip(p: Pack, q: Pack, locals: seq<string>, d: Dependency)
    requires NamedOnce(p) && StoredOf(p).Some? && forall local :: local in locals <==>
             local in StoredOf(p).value.dependencies.value
    requires |q.dependencies| == |locals| && forall i :: 0 <= i < |locals| ==>
               locals[i] in StoredOf(p).value.dependencies.value &&
                 q.dependencies[i] == Dependency(locals[i], StoredOf(p).value.dependencies.value[locals[i]])
    ensures d in p.dependencies <==> d in q.dependencies
  {
    DistinctDependenciesEncode(p.dependencies);
    if d in p.dependencies {
      var i :| 0 <= i < |locals| && locals[i] == d.local;
      assert q.dependencies[i] == d;
    }
    if d in q.dependencies {
      var i :| 0 <= i < |q.dependencies| && q.dependencies[i] == d;
      assert locals[i] in locals;
      var g :| g in p.dependencies && g.local == locals[i];
    }
  }

  /** The manifests of the packs stand in the container at their default paths. */
  ghost predicate Carries(files: map<string, Content>, installs: seq<Pack>) {
    forall p :: p in installs ==>
      Defaulted(p).manifestPath == MANIFEST && Joined(p.path, MANIFEST) in files &&
        files[Joined(p.path, MANIFEST)] == p.manifest
  }

  ghost predicate EachIsRead(installs: seq<Pack>, back: seq<Pack>) {
    forall p :: p in installs ==> exists q :: q in back && NormalForm(p, q)
  }

  ghost predicate EachWasWritten(installs: seq<Pack>, back: seq<Pack>) {
    forall q :: q in back ==> exists p :: p in installs && NormalForm(p, q)
  }

  /** The same packs, each in its normal form, in strict order of their names. */
  ghost predicate SameUpToOrder(installs: seq<Pack>, back: seq<Pack>) {
    |back| == |installs| && Strict(InstallNames(back)) && EachIsRead(installs, back) && EachWasWritten(installs, back)
  }

  lemma EncodedIsReadable(files: map<string, Content>, installs: seq<Pack>)
    requires DuplicateFree(installs) && Carries(files, installs)
    ensures DocumentOf(RESOLVED_ENVELOPE, installs).Some? &&
            Decodable(files, DocumentOf(RESOLVED_ENVELOPE, installs).value)
  {
    hide StoredOf, Documents, Encoded, NamedOnce;
    DuplicateFreeEncodes(installs);
    var stored := Encoded(installs).value;
    forall name | name in stored ensures Readable(files, stored[name]) {
      var p := OwnerOf(installs, stored, name);
      StoredUnder(installs, stored, p);
      StoredKeepsPath(p);
    }
  }

  lemma DecodedIsSame(files: map<string, Content>, installs: seq<Pack>, back: seq<Pack>)
    requires DuplicateFree(installs) && Carries(files, installs)
    requires Encoded(installs).Some? && DecodesTo(files, Encoded(installs).value, back)
    ensures SameUpToOrder(installs, back)
  {
    hide Less, StoredOf, ReadBack, NormalForm, Documents, Encoded, NamedOnce;
    DuplicateFreeEncodes(installs);
    var stored := Encoded(installs).value;
    var names := InstallNames(back);
    forall q | q in back ensures exists p :: p in installs && NormalForm(p, q) {
      var p := OwnerOf(installs, stored, q.install);
      StoredUnder(installs, stored, p);
      PackRoundTrip(files, p, q);
    }
    forall p | p in installs ensures exists q :: q in back && NormalForm(p, q) {
      StoredUnder(installs, stored, p);
      assert p.install in names;
      var i :| 0 <= i < |names| && names[i] == p.install;
      assert back[i] in back;
      PackRoundTrip(files, p, back[i]);
    }
    DocumentsSize(installs, stored);
    ListsSize(stored.Keys, names);
  }

  /**
   * Writing duplicate-free metadata and reading it back gives the same packs: in name order, each
   * with its files and dependencies in name order, and none added or lost.
   */
  method MetadataRoundTrip(files: map<string, Content>, installs: seq<Pack>) returns (back: seq<Pack>)
    requires DuplicateFree(installs) && Carries(files, installs)
    ensures SameUpToOrder(installs, back)
  {
    hide Less, StoredOf, ReadBack, NormalForm, Documents, Encoded, NamedOnce;
    EncodedIsReadable(files, installs);
    var encoded := CanonicalResolved(RESOLVED_ENVELOPE, installs);
    var decoded := DecodeInstalls(files, encoded.value);
    back := decoded.value;
    DecodedIsSame(files, installs, back);
  }

  lemma DocumentsSize(installs: seq<Pack>, d: Installs)
    requires Documents(installs, d)
    ensures |d| == |installs|
  {
  }

  lemma StoredKeepsPath(p: Pack)
    requires StoredOf(p).Some?
    ensures var s := StoredOf(p).value;
            Mapped(s) && s.path == p.path && s.registry == p.registry && s.canonicalId == p.canonicalId
  {
  }

  lemma ListsSize(names: set<string>, order: seq<string>)
    requires Lists(names, order)
    ensures |order| == |names|
  {
    hide Less;
    StrictIsSorted(order);
    DistinctSetSize(order);
    assert (set x | x in order) == names;
  }

  lemma {:induction false} DistinctSetSize(a: seq<string>)
    requires forall i, j :: 0 <= i < j < |a| ==> a[i] != a[j]
    ensures |set x | x in a| == |a|
    decreases |a|
  {
    if a != [] {
      var front, last := a[..|a| - 1], a[|a| - 1];
      DistinctSetSize(front);
      assert a == front + [last] && last !in front;
      assert (set x | x in a) == (set x | x in front) + {last};
    }
  }
}
