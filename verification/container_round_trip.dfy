/**
 * What the writer promises of the containers it emits: which metadata it can encode, when its own
 * reading refuses the files, when a reader accepts them, and what the reader gets back.
 */
module ContainerRoundTrip {
  import opened Options
  import opened TextOrder
  import opened PortableContainer
  import opened ContainerFiles
  import opened ContainerWriter
  import ClosedInput

  // ----- Metadata of a clean input ------------------------------------------------------------

  ghost predicate Clean(t: Tools, input: WriteInput) {
    ClosedInput.Clean(input.tree, t.digest, t.parses, SortedBy(ClosedInput.PackBefore, input.installs), input.assets)
  }

  predicate Named(p: Pack) {
    p.registry != "" && forall d :: d in p.dependencies ==> d.local != ""
  }

  lemma CleanInstalls(t: Tools, input: WriteInput)
    requires Clean(t, input)
    ensures forall i, j :: 0 <= i < j < |input.installs| ==> input.installs[i].install != input.installs[j].install
    ensures forall p :: p in input.installs ==> ClosedInput.PackClean(input.tree, t.digest, t.parses, p)
  {
    hide Less, ClosedInput.PackClean, ClosedInput.Unclashing;
    var packs := SortedBy(ClosedInput.PackBefore, input.installs);
    SameElements(input.installs, packs);
    var key := (p: Pack) => p.install;
    assert DistinctBy(key, packs);
    PermutedStaysDistinct(key, packs, input.installs);
    forall i, j | 0 <= i < j < |input.installs| ensures input.installs[i].install != input.installs[j].install {
      assert key(input.installs[i]) != key(input.installs[j]);
    }
  }

  lemma {:induction false} EncodedIsNamed(installs: seq<Pack>)
    requires Encoded(installs).Some?
    ensures forall p :: p in installs ==> Named(p)
    decreases |installs|
  {
    hide StoredOf;
    if installs != [] {
      var front, last := installs[..|installs| - 1], installs[|installs| - 1];
      assert installs == front + [last];
      EncodedIsNamed(front);
      StoredIsNamed(last);
    }
  }

  lemma StoredIsNamed(p: Pack)
    requires StoredOf(p).Some?
    ensures forall d :: d in p.dependencies ==> d.local != ""
  {
    LocalsAreNamed(p.dependencies);
  }

  lemma {:induction false} LocalsAreNamed(dependencies: seq<Dependency>)
    requires DependenciesMap(dependencies).Some?
    ensures forall d :: d in dependencies ==> d.local != ""
    decreases |dependencies|
  {
    if dependencies != [] {
      var front, last := dependencies[..|dependencies| - 1], dependencies[|dependencies| - 1];
      assert dependencies == front + [last];
      LocalsAreNamed(front);
    }
  }

  /**
   * The compiler has already refused repeated and empty install names, so all the encoder can still object to is an
   * empty registry or dependency name; and then every pack stands in the document under its own name.
   */
  lemma CleanEncodesIff(t: Tools, input: WriteInput)
    requires Clean(t, input)
    ensures Encoded(input.installs).Some? <==> forall p :: p in input.installs ==> Named(p)
    ensures Encoded(input.installs).Some? ==>
              DuplicateFree(input.installs) && Documents(input.installs, Encoded(input.installs).value)
  {
    hide Encoded, Documents, ClosedInput.Clean;
    CleanInstalls(t, input);
    if Encoded(input.installs).Some? {
      EncodedIsNamed(input.installs);
    }
    if forall p :: p in input.installs ==> Named(p) {
      forall i | 0 <= i < |input.installs|
        ensures input.installs[i].install != "" && input.installs[i].registry != "" && NamedOnce(input.installs[i])
      {
        CleanPackIsNamedOnce(t, input.tree, input.installs[i]);
      }
      DuplicateFreeEncodes(input.installs);
    }
  }

  lemma CleanPackIsNamedOnce(t: Tools, tree: Files, p: Pack)
    requires ClosedInput.PackClean(tree, t.digest, t.parses, p) && Named(p)
    ensures p.install != "" && p.registry != "" && NamedOnce(p)
  {
    forall i | 0 <= i < |p.files| ensures p.files[i].path != "" {
      assert p.files[i] in p.files;
    }
    forall i | 0 <= i < |p.dependencies| ensures p.dependencies[i].local != "" {
      assert p.dependencies[i] in p.dependencies;
    }
  }

  // ----- What the files hold ------------------------------------------------------------------

  predicate IsAssetPath(assets: seq<ClosedInput.AssetInput>, name: string) {
    exists a :: a in assets && a.origin.ProjectAsset? && a.locator == name
  }

  lemma {:induction false} ManifestsAt(t: Tools, files: Files, installs: seq<Pack>)
    requires WithManifests(t, files, installs).Some?
    ensures var r := WithManifests(t, files, installs).value;
            && (forall name :: name in files ==> name in r && r[name] == files[name])
            && (forall p :: p in installs ==> ManifestPathOf(p) in r && r[ManifestPathOf(p)] == p.manifest)
            && (forall name :: name in r ==> name in files || ClosedInput.IsManifestPath(installs, name))
    decreases |installs|
  {
    hide ManifestPathOf;
    if installs != [] {
      var front, last := installs[..|installs| - 1], installs[|installs| - 1];
      assert installs == front + [last];
      assert forall p :: p in installs <==> p in front || p == last;
      ManifestsAt(t, files, front);
    }
  }

  lemma {:induction false} AssetsAt(files: Files, assets: seq<ClosedInput.AssetInput>)
    requires WithAssets(files, assets).Some?
    ensures var r := WithAssets(files, assets).value;
            && (forall name :: name in files ==> name in r && r[name] == files[name])
            && (forall a :: a in assets && a.origin.ProjectAsset? ==> a.locator in r && r[a.locator] == a.content)
            && (forall name :: name in r ==> name in files || IsAssetPath(assets, name))
    decreases |assets|
  {
    if assets != [] {
      var front, last := assets[..|assets| - 1], assets[|assets| - 1];
      assert assets == front + [last];
      assert forall a :: a in assets <==> a in front || a == last;
      AssetsAt(files, front);
    }
  }

  predicate IsSnapshotName(states: seq<State>, name: string) {
    exists s :: s in states && SnapshotName(s) == name
  }

  lemma {:induction false} StatesAt(files: Files, states: seq<State>)
    ensures var r := WithStates(files, states);
            && (forall name :: name in r <==> name in files || IsSnapshotName(states, name))
            && forall name :: name in files && !IsSnapshotName(states, name) ==> r[name] == files[name]
    decreases |states|
  {
    hide SnapshotName;
    if states != [] {
      var front, last := states[..|states| - 1], states[|states| - 1];
      assert states == front + [last];
      assert forall s :: s in states <==> s in front || s == last;
      StatesAt(files, front);
    }
  }

  /** Of two states with one name the later is on file. */
  lemma {:induction false} StateStands(files: Files, states: seq<State>, name: string)
    requires IsSnapshotName(states, name)
    ensures name in WithStates(files, states)
    ensures exists s :: s in states && SnapshotName(s) == name && WithStates(files, states)[name] == s.content
    decreases |states|
  {
    hide SnapshotName;
    var front, last := states[..|states| - 1], states[|states| - 1];
    assert states == front + [last];
    assert forall s :: s in states <==> s in front || s == last;
    if SnapshotName(last) != name {
      StateStands(files, front, name);
    }
  }

  lemma SnapshotsAreReserved(s: State)
    ensures Reserved(SnapshotName(s))
  {
    assert SNAPSHOTS <= SnapshotName(s);
  }

  /** The names the writer chooses itself. */
  predicate Made(input: WriteInput, name: string) {
    name == RESOLVED || name == DOCUMENT || name == INDEX || IsSnapshotName(input.states, name) ||
      name in input.artifacts
  }

  predicate Given(input: WriteInput, name: string) {
    || name in input.sources || name in input.tree || ClosedInput.IsManifestPath(input.installs, name)
    || IsAssetPath(input.assets, name)
  }

  /** Every given file is there with its content, as long as the writer does not put one of its own over it. */
  ghost predicate Holds(input: WriteInput, files: Files) {
    && (forall name :: name in files <==> Given(input, name) || Made(input, name))
    && (forall name :: name in input.artifacts ==> ArtifactName(name) && !Given(input, name))
    && forall name :: Given(input, name) && !Made(input, name) ==> HoldsAt(input, files, name)
  }

  predicate HoldsAt(input: WriteInput, files: Files, name: string)
    requires name in files
  {
    && (name in input.sources ==> files[name] == input.sources[name])
    && (name in input.tree ==> files[name] == input.tree[name])
    && (forall p :: p in input.installs && ManifestPathOf(p) == name ==> files[name] == p.manifest)
    && forall a :: a in input.assets && a.origin.ProjectAsset? && a.locator == name ==> files[name] == a.content
  }

  lemma AssembledHolds(t: Tools, input: WriteInput, c: Compiled, files: Files)
    requires Assembled(t, input, c) == Some(files)
    ensures Holds(input, files)
  {
    hide WithManifests, WithAssets, WithStates, Given, Made, ArtifactName, DocumentOf, HoldsAt;
    var document := DocumentOf(input.envelope, input.installs);
    var base := (input.sources + input.tree)[RESOLVED := t.encode(document.value)];
    var manifests := WithManifests(t, base, input.installs).value;
    forall name ensures (name in files <==> Given(input, name) || Made(input, name))
                        && (name in input.artifacts ==> !Given(input, name)) {
      NamesAre(t, input, c, base, manifests, files, name);
    }
    forall name | Given(input, name) && !Made(input, name) ensures name in files && HoldsAt(input, files, name) {
      GivenHolds(t, input, c, base, manifests, files, name);
    }
  }

  lemma NamesAre(t: Tools, input: WriteInput, c: Compiled, base: Files, manifests: Files, files: Files, name: string)
    requires DocumentOf(input.envelope, input.installs).Some?
    requires base == (input.sources + input.tree)[
                       RESOLVED := t.encode(DocumentOf(input.envelope, input.installs).value)]
    requires WithManifests(t, base, input.installs) == Some(manifests) && WithAssets(manifests, input.assets).Some?
    requires var added := WithAssets(manifests, input.assets).value[DOCUMENT := c.document][INDEX := c.index];
             var derived := WithStates(added, input.states);
             files == derived + input.artifacts && ArtifactsFit(derived, input.artifacts)
    ensures name in files <==> Given(input, name) || Made(input, name)
    ensures name in input.artifacts ==> !Given(input, name)
  {
    hide WithManifests, WithAssets, WithStates, ManifestPathOf, IsSnapshotName, ArtifactName, DocumentOf;
    ManifestsAt(t, base, input.installs);
    AssetsAt(manifests, input.assets);
    StatesAt(WithAssets(manifests, input.assets).value[DOCUMENT := c.document][INDEX := c.index], input.states);
  }

  lemma GivenHolds(t: Tools, input: WriteInput, c: Compiled, base: Files, manifests: Files, files: Files, name: string)
    requires Given(input, name) && !Made(input, name) && input.sources.Keys * input.tree.Keys == {}
    requires DocumentOf(input.envelope, input.installs).Some?
    requires base == (input.sources + input.tree)[
                       RESOLVED := t.encode(DocumentOf(input.envelope, input.installs).value)]
    requires WithManifests(t, base, input.installs) == Some(manifests) && WithAssets(manifests, input.assets).Some?
    requires files == WithStates(WithAssets(manifests, input.assets).value[DOCUMENT := c.document][INDEX := c.index],
                                 input.states)
                      + input.artifacts
    ensures name in files && HoldsAt(input, files, name)
  {
    hide WithManifests, WithAssets, WithStates, ManifestPathOf, IsSnapshotName, ArtifactName, DocumentOf;
    ManifestsAt(t, base, input.installs);
    AssetsAt(manifests, input.assets);
    var assets := WithAssets(manifests, input.assets).value;
    StatesAt(assets[DOCUMENT := c.document][INDEX := c.index], input.states);
    assert name in input.sources ==> name !in input.tree by {
      assert name in input.sources && name in input.tree ==> name in input.sources.Keys * input.tree.Keys;
    }
    assert name in assets;
    assert files[name] == assets[name];
  }

  /** The metadata is never overwritten. */
  lemma MetadataStands(t: Tools, input: WriteInput, c: Compiled, files: Files)
    requires Assembled(t, input, c) == Some(files)
    ensures DocumentOf(input.envelope, input.installs).Some?
    ensures RESOLVED in files && files[RESOLVED] == t.encode(DocumentOf(input.envelope, input.installs).value)
  {
    hide WithManifests, WithAssets, WithStates, DocumentOf;
    var document := DocumentOf(input.envelope, input.installs);
    var base := (input.sources + input.tree)[RESOLVED := t.encode(document.value)];
    ManifestsAt(t, base, input.installs);
    var manifests := WithManifests(t, base, input.installs).value;
    AssetsAt(manifests, input.assets);
    var derived := WithAssets(manifests, input.assets).value[DOCUMENT := c.document][INDEX := c.index];
    assert |RESOLVED| == 23 && |DOCUMENT| == 13 && |INDEX| == 20;
    StatesAt(derived, input.states);
    forall s | s in input.states ensures SnapshotName(s) != RESOLVED {
      assert SnapshotName(s)[0] == 's';
    }
  }

  // ----- The packs that are read back claim what the packs that were written claim --------------

  function Defaults(installs: seq<Pack>): (r: seq<Pack>)
    ensures |r| == |installs| && forall i :: 0 <= i < |r| ==> r[i] == Defaulted(installs[i])
  {
    if installs == [] then [] else Defaults(installs[..|installs| - 1]) + [Defaulted(installs[|installs| - 1])]
  }

  /** The same packs under the same names, each listing the same files. */
  ghost predicate Alike(a: seq<Pack>, b: seq<Pack>) {
    Within(a, b) && Within(b, a)
  }

  ghost predicate Within(a: seq<Pack>, b: seq<Pack>) {
    forall p :: p in a ==> exists q :: q in b && ClaimsAlike(p, q)
  }

  lemma Counterpart(a: seq<Pack>, b: seq<Pack>, i: nat) returns (j: nat)
    requires Within(a, b) && i < |a|
    ensures j < |b| && ClaimsAlike(a[i], b[j]) && ClaimsAlike(b[j], a[i])
    ensures a[i].install == b[j].install && a[i].path == b[j].path
  {
    assert a[i] in a;
    var q :| q in b && ClaimsAlike(a[i], q);
    j :| 0 <= j < |b| && b[j] == q;
  }

  ghost predicate ClaimsAlike(p: Pack, q: Pack) {
    && p.install == q.install && p.path == q.path && p.manifestPath == q.manifestPath && p.canonicalId == q.canonicalId
    && (forall f :: f in p.files <==> f in q.files)
    && FilesDiffer(p.files) && FilesDiffer(q.files)
  }

  ghost predicate FilesDiffer(files: seq<PackFile>) {
    forall i, j :: 0 <= i < j < |files| ==> files[i].path != files[j].path
  }

  ghost predicate InstallsDiffer(installs: seq<Pack>) {
    forall i, j :: 0 <= i < j < |installs| ==> installs[i].install != installs[j].install
  }

  lemma JoinedIsInjective(directory: string, a: string, b: string)
    requires Joined(directory, a) == Joined(directory, b)
    ensures a == b
  {
    assert a == Joined(directory, a)[|directory| + 1..] && b == Joined(directory, b)[|directory| + 1..];
  }

  /** A pack with distinct files claims a path twice only by listing its own manifest. */
  lemma OwnClaimsUnsharedIff(p: Pack)
    requires FilesDiffer(p.files)
    ensures Unshared(PackClaims(p)) <==> forall f :: f in p.files ==> f.path != p.manifestPath
  {
    hide Joined;
    var claims := PackClaims(p);
    assert forall i :: 0 <= i < |p.files| ==> claims[i + 1].path == Joined(p.path, p.files[i].path);
    if forall f :: f in p.files ==> f.path != p.manifestPath {
      forall i, j | 0 <= i < j < |claims| ensures claims[i].path != claims[j].path {
        var named := if i == 0 then p.manifestPath else p.files[i - 1].path;
        assert p.files[j - 1] in p.files && named != p.files[j - 1].path;
        if Joined(p.path, named) == Joined(p.path, p.files[j - 1].path) {
          JoinedIsInjective(p.path, named, p.files[j - 1].path);
        }
      }
    } else {
      var f :| f in p.files && f.path == p.manifestPath;
      var i :| 0 <= i < |p.files| && p.files[i] == f;
      assert claims[0].path == claims[i + 1].path;
    }
  }

  lemma AlikeClaims(p: Pack, q: Pack)
    requires ClaimsAlike(p, q)
    ensures forall c :: c in PackClaims(p) ==> c in PackClaims(q)
    ensures Unshared(PackClaims(p)) ==> Unshared(PackClaims(q))
  {
    hide Joined;
    OwnClaimsUnsharedIff(p);
    OwnClaimsUnsharedIff(q);
    forall c | c in PackClaims(p) ensures c in PackClaims(q) {
      var i :| 0 <= i < |PackClaims(p)| && PackClaims(p)[i] == c;
      if i == 0 {
        assert PackClaims(q)[0] == c;
      } else {
        assert p.files[i - 1] in q.files;
        var j :| 0 <= j < |q.files| && q.files[j] == p.files[i - 1];
        assert PackClaims(q)[j + 1] == c;
      }
    }
  }

  lemma ApartIsSymmetric(p: Pack, q: Pack)
    requires Apart(p, q)
    ensures Apart(q, p)
  {
    forall c, d | c in PackClaims(q) && d in PackClaims(p) ensures c.path != d.path {
      assert d.path != c.path;
    }
  }

  lemma AlikeKeepsApart(p: Pack, q: Pack, r: Pack, s: Pack)
    requires ClaimsAlike(r, p) && ClaimsAlike(s, q) && Apart(p, q)
    ensures Apart(r, s)
  {
    hide PackClaims, ClaimsAlike;
    AlikeClaims(r, p);
    AlikeClaims(s, q);
  }

  lemma AlikeKeepsUnshared(a: seq<Pack>, b: seq<Pack>)
    requires Alike(a, b) && InstallsDiffer(a) && InstallsDiffer(b) && Unshared(Claims(a))
    ensures Unshared(Claims(b))
  {
    hide PackClaims, Apart, Claims, ClaimsAlike, Unshared, Within;
    UnsharedIffApart(a);
    UnsharedIffApart(b);
    forall j | 0 <= j < |b| ensures Unshared(PackClaims(b[j])) {
      var i := Counterpart(b, a, j);
      AlikeClaims(a[i], b[j]);
    }
    forall k, l | 0 <= k < l < |b| ensures Apart(b[k], b[l]) {
      var i := Counterpart(b, a, k);
      var j := Counterpart(b, a, l);
      if j < i {
        ApartIsSymmetric(a[j], a[i]);
      }
      AlikeKeepsApart(a[i], a[j], b[k], b[l]);
    }
  }

  lemma AlikeClaimPaths(a: seq<Pack>, b: seq<Pack>, name: string)
    requires Within(a, b) && ClaimAt(Claims(a), name).Some?
    ensures ClaimAt(Claims(b), name).Some?
  {
    hide PackClaims, ClaimsAlike, Within;
    ClaimAtIsClaim(Claims(a), name);
    ClaimAtIsClaim(Claims(b), name);
    var c :| c in Claims(a) && c.path == name;
    var i := ClaimantOf(a, c);
    var j := Counterpart(a, b, i);
    AlikeClaims(a[i], b[j]);
    ClaimsContain(b, j, c);
  }

  lemma AlikePrefixes(a: seq<Pack>, b: seq<Pack>, name: string)
    requires Within(a, b) && InsidePack(a, name)
    ensures InsidePack(b, name)
  {
    hide ClaimsAlike, Within;
    var i :| 0 <= i < |a| && a[i].path + "/" <= name;
    var j := Counterpart(a, b, i);
  }

  lemma AlikeSortsAlike(a: seq<Pack>, b: seq<Pack>, files: Files, media: (string, Content) -> string)
    requires Alike(a, b) && InstallsDiffer(a) && InstallsDiffer(b) && Sortable(files, a, media)
    ensures Sortable(files, b, media)
  {
    hide PackClaims, ClaimsAlike, Claims, Unshared, InsidePack, ClaimAt, Within;
    AlikeKeepsUnshared(a, b);
    forall name | name in files ensures !Unreadable(ClassOf(b, media, name, files[name])) {
      if ClaimAt(Claims(a), name).Some? {
        AlikeClaimPaths(a, b, name);
      }
      if InsidePack(b, name) {
        AlikePrefixes(b, a, name);
      }
    }
  }

  // ----- The writer's own reading -------------------------------------------------------------

  predicate DefaultPaths(installs: seq<Pack>) {
    forall p :: p in installs ==> Defaulted(p).manifestPath == MANIFEST
  }

  lemma ManifestIsNotMade(input: WriteInput, directory: string)
    requires forall s :: s in input.states ==> SemanticHash("sha256:" + s.hash)
    ensures Joined(directory, MANIFEST) !in {MANIFEST, RESOLVED, DOCUMENT, INDEX} &&
            !IsSnapshotName(input.states, Joined(directory, MANIFEST))
  {
    var name := Joined(directory, MANIFEST);
    assert name[|directory|] == '/';
    assert forall i :: 0 <= i < |MANIFEST| ==> MANIFEST[i] != '/';
    assert forall i :: 0 <= i < |RESOLVED| ==> RESOLVED[i] != '/';
    assert forall i :: 0 <= i < |DOCUMENT| ==> DOCUMENT[i] != '/';
    assert forall i :: 0 <= i < |INDEX| ==> INDEX[i] != '/';
    forall s | s in input.states ensures SnapshotName(s) != name {
      SnapshotIsNoManifest(s, directory);
    }
  }

  /** A snapshot is named by the digits of its hash, and has no directory just before its last thirteen letters. */
  lemma SnapshotIsNoManifest(s: State, directory: string)
    requires SemanticHash("sha256:" + s.hash)
    ensures SnapshotName(s) != Joined(directory, MANIFEST)
  {
    var name, hash := SnapshotName(s), "sha256:" + s.hash;
    assert |name| == 91 && name[77] == s.hash[55] && s.hash[55] == hash[62];
    assert |Joined(directory, MANIFEST)| == |directory| + 14 && Joined(directory, MANIFEST)[|directory|] == '/';
  }

  lemma ManifestsAreCarried(t: Tools, input: WriteInput, c: Compiled, files: Files)
    requires Promised(t, input, c) && DefaultPaths(input.installs) && Assembled(t, input, c) == Some(files)
    ensures Carries(files, input.installs)
  {
    hide Assembled, Joined, IsSnapshotName;
    AssembledHolds(t, input, c, files);
    forall p | p in input.installs
      ensures Joined(p.path, MANIFEST) in files && files[Joined(p.path, MANIFEST)] == p.manifest
    {
      ManifestIsNotMade(input, p.path);
      assert Given(input, ManifestPathOf(p));
      assert HoldsAt(input, files, ManifestPathOf(p));
    }
  }

  lemma SameIsAlike(installs: seq<Pack>, back: seq<Pack>)
    requires SameUpToOrder(installs, back) && DuplicateFree(installs)
    ensures Alike(Defaults(installs), back) && InstallsDiffer(Defaults(installs)) && InstallsDiffer(back)
  {
    hide Less, NormalForm, NamedOnce, EachIsRead, EachWasWritten;
    StrictIsSorted(InstallNames(back));
    assert forall i :: 0 <= i < |back| ==> InstallNames(back)[i] == back[i].install;
    WrittenWithinRead(installs, back);
    ReadWithinWritten(installs, back);
  }

  lemma ReadAs(installs: seq<Pack>, back: seq<Pack>, p: Pack) returns (q: Pack)
    requires SameUpToOrder(installs, back) && p in installs
    ensures q in back && NormalForm(p, q)
  {
    hide EachWasWritten, NormalForm, Strict;
    q :| q in back && NormalForm(p, q);
  }

  lemma WrittenAs(installs: seq<Pack>, back: seq<Pack>, q: Pack) returns (p: Pack)
    requires SameUpToOrder(installs, back) && q in back
    ensures p in installs && NormalForm(p, q)
  {
    hide EachIsRead, NormalForm, Strict;
    p :| p in installs && NormalForm(p, q);
  }

  lemma WrittenWithinRead(installs: seq<Pack>, back: seq<Pack>)
    requires SameUpToOrder(installs, back) && forall i :: 0 <= i < |installs| ==> NamedOnce(installs[i])
    ensures Within(Defaults(installs), back)
  {
    hide NormalForm, ClaimsAlike, NamedOnce, SameUpToOrder, Defaults, Defaulted;
    forall d | d in Defaults(installs) ensures exists q :: q in back && ClaimsAlike(d, q) {
      var i :| 0 <= i < |installs| && Defaults(installs)[i] == d;
      assert installs[i] in installs;
      var q := ReadAs(installs, back, installs[i]);
      NormalIsAlike(installs[i], q);
    }
  }

  lemma ReadWithinWritten(installs: seq<Pack>, back: seq<Pack>)
    requires SameUpToOrder(installs, back) && forall i :: 0 <= i < |installs| ==> NamedOnce(installs[i])
    ensures Within(back, Defaults(installs))
  {
    hide NormalForm, ClaimsAlike, NamedOnce, SameUpToOrder, Defaults, Defaulted;
    forall q | q in back ensures exists d :: d in Defaults(installs) && ClaimsAlike(q, d) {
      var p := WrittenAs(installs, back, q);
      var i :| 0 <= i < |installs| && installs[i] == p;
      assert Defaults(installs)[i] in Defaults(installs);
      NormalIsAlike(p, q);
    }
  }

  lemma NormalIsAlike(p: Pack, q: Pack)
    requires NormalForm(p, q) && NamedOnce(p)
    ensures ClaimsAlike(Defaulted(p), q) && ClaimsAlike(q, Defaulted(p))
  {
    hide Less;
    StrictIsSorted(FilePaths(q.files));
    assert forall i :: 0 <= i < |q.files| ==> FilePaths(q.files)[i] == q.files[i].path;
  }

  /** Whatever is decoded from the files are the packs that were encoded. */
  lemma DecodedAreWritten(t: Tools, input: WriteInput, c: Compiled, files: Files, packs: seq<Pack>)
    requires Sound(t) && Clean(t, input) && Carries(files, input.installs) &&
             DocumentOf(input.envelope, input.installs).Some?
    requires DecodesTo(files, DocumentOf(input.envelope, input.installs).value.installs.value, packs)
    ensures DuplicateFree(input.installs) && SameUpToOrder(input.installs, packs)
    ensures Alike(Defaults(input.installs), packs) && InstallsDiffer(Defaults(input.installs)) && InstallsDiffer(packs)
  {
    hide Clean, Encoded, Carries, DuplicateFree, DecodesTo, Alike, SameUpToOrder, InstallsDiffer, Documents;
    CleanEncodesIff(t, input);
    DecodedIsSame(files, input.installs, packs);
    SameIsAlike(input.installs, packs);
  }

  /** The writer's own reading succeeds exactly when no claim of the packs is shared and every file has a place. */
  lemma SelfReadIff(t: Tools, input: WriteInput, c: Compiled, files: Files)
    requires Sound(t) && Promised(t, input, c) && Compiles(t, input, Some(c)) && DefaultPaths(input.installs)
    requires Assembled(t, input, c) == Some(files)
    ensures Acceptable(t, files) <==> Sortable(files, Defaults(input.installs), t.media)
  {
    hide Assembled, Carries, DecodesTo, Sortable, Encoded, Within, ClosedInput.Clean, InstallsDiffer, SameUpToOrder,
         DuplicateFree;
    ManifestsAreCarried(t, input, c, files);
    MetadataStands(t, input, c, files);
    var document := DocumentOf(input.envelope, input.installs).value;
    CleanEncodesIff(t, input);
    EncodedIsReadable(files, input.installs);
    var packs := DecodingExists(files, document);
    DecodedAreWritten(t, input, c, files, packs);
    if Acceptable(t, files) {
      var others :| Accepts(t, files, others);
      DecodingIsUnique(files, document.installs.value, packs, others);
      AlikeSortsAlike(packs, Defaults(input.installs), files, t.media);
    }
    if Sortable(files, Defaults(input.installs), t.media) {
      AlikeSortsAlike(Defaults(input.installs), packs, files, t.media);
      assert Accepts(t, files, packs);
    }
  }

  // ----- What a reader makes of an emitted container ------------------------------------------

  lemma UnreservedIsNotMade(input: WriteInput, files: Files, name: string)
    requires Holds(input, files) && !Reserved(name)
    ensures !Made(input, name)
  {
    forall s | s in input.states ensures SnapshotName(s) != name {
      SnapshotsAreReserved(s);
    }
  }

  /** Only an asset can sit where the manifest belongs. */
  lemma ManifestPathIsFree(t: Tools, input: WriteInput, c: Compiled, files: Files)
    requires Promised(t, input, c) && Clean(t, input) && Assembled(t, input, c) == Some(files)
    ensures MANIFEST in files <==> IsAssetPath(input.assets, MANIFEST)
  {
    hide Assembled, ClosedInput.Clean;
    AssembledHolds(t, input, c, files);
    assert |MANIFEST| == 13 && |RESOLVED| == 23 && |INDEX| == 20 && MANIFEST[0] == 'm' && DOCUMENT[0] == 'd';
    assert forall i :: 0 <= i < |MANIFEST| ==> MANIFEST[i] != '/';
    assert MANIFEST[|MANIFEST| - 4..] != ".ldl" by {
      assert MANIFEST[|MANIFEST| - 4] == 'j';
    }
    forall s | s in input.states ensures SnapshotName(s) != MANIFEST {
      assert SnapshotName(s)[0] == 's';
    }
    forall directory, name ensures Joined(directory, name) != MANIFEST {
      assert Joined(directory, name)[|directory|] == '/';
    }
    assert !ClosedInput.IsManifestPath(input.installs, MANIFEST);
    if MANIFEST in input.tree {
      TreePathsAreClaimed(t, input, MANIFEST);
    }
  }

  predicate IsClaimed(installs: seq<Pack>, name: string) {
    ClosedInput.IsFilePath(installs, name) || ClosedInput.IsManifestPath(installs, name)
  }

  /** The installed tree is what the packs claim, less the manifests that are not in it. */
  lemma TreePathsAreClaimed(t: Tools, input: WriteInput, name: string)
    requires Clean(t, input)
    ensures name in input.tree ==> IsClaimed(input.installs, name)
    ensures ClosedInput.IsFilePath(input.installs, name) ==> name in input.tree
  {
    hide Less, ClosedInput.Clean, Joined, ManifestPathOf;
    var packs := SortedBy(ClosedInput.PackBefore, input.installs);
    SameElements(input.installs, packs);
    ClosedInput.CleanTreeIsExact(input.tree, t.digest, t.parses, packs, input.assets, name);
  }

  lemma SortingReadsNoManifest(files: Files, content: Content, packs: seq<Pack>, media: (string, Content) -> string)
    requires Sortable(files, packs, media)
    ensures Sortable(files[MANIFEST := content], packs, media)
  {
    hide Claims, Unshared, ClaimAt, InsidePack;
    assert Reserved(MANIFEST);
  }

  lemma DecodingReadsNoManifest(files: Files, content: Content, installs: Installs, packs: seq<Pack>)
    requires DecodesTo(files, installs, packs)
    ensures DecodesTo(files[MANIFEST := content], installs, packs)
  {
    hide Less, Joined;
    forall p | p in packs ensures ReadBack(files[MANIFEST := content], p.install, installs[p.install], p) {
      assert |Joined(installs[p.install].path, MANIFEST)| > |MANIFEST| by {
        JoinedIsLonger(installs[p.install].path);
      }
    }
  }

  lemma JoinedIsLonger(directory: string)
    ensures |Joined(directory, MANIFEST)| > |MANIFEST|
  {
  }

  /** The snapshots are on file: only an artifact could take their names, and it may not. */
  lemma SnapshotsStand(t: Tools, input: WriteInput, c: Compiled, files: Files, name: string)
    requires Assembled(t, input, c) == Some(files) && IsSnapshotName(input.states, name)
    ensures exists s :: s in input.states && SnapshotName(s) == name && name in files && files[name] == s.content
  {
    hide WithManifests, WithAssets, WithStates, DocumentOf, SnapshotName;
    var document := DocumentOf(input.envelope, input.installs);
    var base := (input.sources + input.tree)[RESOLVED := t.encode(document.value)];
    var manifests := WithManifests(t, base, input.installs).value;
    StateStands(WithAssets(manifests, input.assets).value[DOCUMENT := c.document][INDEX := c.index], input.states,
                name);
  }

  /** A given file that the state check leaves alone, or that one of the snapshots is put over. */
  predicate KeepsOff(t: Tools, input: WriteInput, name: string, content: Content) {
    STATE <= name && !IsSnapshotName(input.states, name) ==> IsStateFile(t, Redaction(input), name, content)
  }

  /** No source lies under `state/`, and what else was given there is a snapshot under its own name. */
  ghost predicate StatesApart(t: Tools, input: WriteInput) {
    && (forall name :: name in input.sources ==> !(STATE <= name))
    && (forall name :: name in input.tree ==> KeepsOff(t, input, name, input.tree[name]))
    && (forall p :: p in input.installs ==> KeepsOff(t, input, ManifestPathOf(p), p.manifest))
    && forall a :: a in input.assets && a.origin.ProjectAsset? ==> KeepsOff(t, input, a.locator, a.content)
  }

  lemma SourceIsNoState(t: Tools, redaction: Option<string>, states: seq<State>, name: string, content: Content)
    requires HasSuffix(name, ".ldl")
    ensures !IsStateFile(t, redaction, name, content) && !IsSnapshotName(states, name)
  {
    assert name[|name| - 1] == ".ldl"[3] == 'l';
    assert forall hash: string :: (SNAPSHOTS + hash + ".json")[|SNAPSHOTS| + |hash| + 4] == 'n';
  }

  lemma StateFileIsGivenOrMade(input: WriteInput, files: Files, name: string)
    requires Holds(input, files) && name in files && STATE <= name
    ensures IsSnapshotName(input.states, name) || (Given(input, name) && !Made(input, name))
  {
    assert name[0] == 's';
    assert !ArtifactName(name);
  }

  lemma MadeStateHolds(t: Tools, input: WriteInput, c: Compiled, files: Files, name: string)
    requires Promised(t, input, c) && PolicyFits(t, input) && Assembled(t, input, c) == Some(files)
    requires IsSnapshotName(input.states, name)
    ensures name in files && IsStateFile(t, Redaction(input), name, files[name])
  {
    hide Assembled, SemanticHash;
    SnapshotsStand(t, input, c, files, name);
    var s :| s in input.states && SnapshotName(s) == name && name in files && files[name] == s.content;
  }

  lemma GivenStateHolds(t: Tools, input: WriteInput, c: Compiled, files: Files, name: string)
    requires Promised(t, input, c) && StatesApart(t, input) && Holds(input, files) && STATE <= name
    requires Given(input, name) && !Made(input, name)
    ensures name in files && IsStateFile(t, Redaction(input), name, files[name])
  {
    hide IsStateFile, ManifestPathOf;
    assert HoldsAt(input, files, name);
  }

  lemma MisplacedStateShows(t: Tools, input: WriteInput, c: Compiled, files: Files, name: string, content: Content)
    requires Holds(input, files) && StatesHold(t, Redaction(input), files) && Given(input, name)
    requires !Made(input, name) ==> name in files && files[name] == content
    ensures KeepsOff(t, input, name, content)
  {
    hide IsStateFile, IsSnapshotName, Given;
    if STATE <= name && !IsSnapshotName(input.states, name) {
      assert name[0] == 's';
      assert !Made(input, name) by {
        assert !ArtifactName(name);
      }
    }
  }

  /** The reader's state check passes exactly when nothing but snapshots was given under `state/`. */
  lemma EmittedStatesHoldIff(t: Tools, input: WriteInput, c: Compiled, files: Files)
    requires Promised(t, input, c) && PolicyFits(t, input) && Assembled(t, input, c) == Some(files)
    ensures StatesHold(t, Redaction(input), files) <==> StatesApart(t, input)
  {
    hide Assembled, IsStateFile, SemanticHash, IsSnapshotName, Made, ManifestPathOf, KeepsOff, PolicyFits;
    AssembledHolds(t, input, c, files);
    if StatesApart(t, input) {
      hide StatesApart, Given, Holds;
      forall name | name in files && STATE <= name ensures IsStateFile(t, Redaction(input), name, files[name]) {
        StateFileIsGivenOrMade(input, files, name);
        if IsSnapshotName(input.states, name) {
          MadeStateHolds(t, input, c, files, name);
        } else {
          GivenStateHolds(t, input, c, files, name);
        }
      }
    }
    if StatesHold(t, Redaction(input), files) {
      forall name | name in input.sources ensures !(STATE <= name) {
        MisplacedStateShows(t, input, c, files, name, input.sources[name]);
        SourceKeepsOff(t, input, name);
      }
      forall name | name in input.tree ensures KeepsOff(t, input, name, input.tree[name]) {
        MisplacedStateShows(t, input, c, files, name, input.tree[name]);
      }
      forall p | p in input.installs ensures KeepsOff(t, input, ManifestPathOf(p), p.manifest) {
        MisplacedStateShows(t, input, c, files, ManifestPathOf(p), p.manifest);
      }
      forall a | a in input.assets && a.origin.ProjectAsset? ensures KeepsOff(t, input, a.locator, a.content) {
        MisplacedStateShows(t, input, c, files, a.locator, a.content);
      }
    }
  }

  lemma SourceKeepsOff(t: Tools, input: WriteInput, name: string)
    requires name in input.sources && HasSuffix(name, ".ldl") && KeepsOff(t, input, name, input.sources[name])
    ensures !(STATE <= name)
  {
    hide IsStateFile, IsSnapshotName, HasSuffix;
    SourceIsNoState(t, Redaction(input), input.states, name, input.sources[name]);
  }

  lemma ManifestIsNoState(t: Tools, redaction: Option<string>, files: Files, content: Content)
    ensures StatesHold(t, redaction, files[MANIFEST := content]) <==> StatesHold(t, redaction, files)
  {
    hide IsStateFile;
    assert MANIFEST[0] == 'm' && STATE[0] == 's';
    var all := files[MANIFEST := content];
    assert forall name :: STATE <= name ==> name != MANIFEST && (name in all <==> name in files);
    assert forall name :: STATE <= name && name in files ==> all[name] == files[name];
  }

  /**
   * A reader can always sort and decode an emitted container. It accepts the manifest exactly when no project asset
   * was placed at the manifest's own name, as the digests are taken before the manifest takes that place; and the
   * states exactly when nothing but snapshots was given under `state/`, which the writer does not look at.
   */
  lemma EmittedIsAcceptedIff(t: Tools, input: WriteInput, c: Compiled, files: Files)
    requires Sound(t) && Promised(t, input, c) && Emits(t, input, Some(c), files)
    ensures RESOLVED in files
    ensures var w := Emitted(t, input, c, files);
            && Acceptable(t, w.files)
            && (ManifestHolds(w.manifest, w.files, t.digest, t.normal) <==> !IsAssetPath(input.assets, MANIFEST))
            && (StatesHold(t, w.manifest.redaction, w.files) <==> StatesApart(t, input))
  {
    hide Assembled, DecodesTo, Sortable, SemanticHash, ClosedInput.Clean, Given, Made, StatesHold, StatesApart;
    MetadataStands(t, input, c, files);
    AssembledHolds(t, input, c, files);
    ManifestPathIsFree(t, input, c, files);
    EmittedStatesHoldIff(t, input, c, files);
    var w := Emitted(t, input, c, files);
    ManifestIsNoState(t, w.manifest.redaction, files, t.render(w.manifest));
    assert |MANIFEST| == 13 && |RESOLVED| == 23;
    var packs :| Accepts(t, files, packs);
    DecodingReadsNoManifest(files, t.render(w.manifest), t.decode(files[RESOLVED]).value.installs.value, packs);
    SortingReadsNoManifest(files, t.render(w.manifest), packs, t.media);
    assert Accepts(t, w.files, packs);
    EntryStands(t, input, c, files);
    if MANIFEST in files {
      assert MANIFEST in w.manifest.files.value;
    } else {
      WrittenManifestCovers(w.manifest, files, t.render(w.manifest), t.digest);
    }
  }

  lemma EntryStands(t: Tools, input: WriteInput, c: Compiled, files: Files)
    requires Promised(t, input, c) && Holds(input, files)
    ensures input.entry in files && HasSuffix(input.entry, ".ldl") && input.entry != ""
  {
    assert Given(input, input.entry);
  }

  /** A source that is read back as one, or an asset that is taken for one. */
  predicate ReadAsSource(input: WriteInput, name: string) {
    && !Reserved(name) && !IsClaimed(input.installs, name) && HasSuffix(name, ".ldl")
    && (name in input.sources || IsAssetPath(input.assets, name))
  }

  /** No source hides behind a reserved name or a pack's, and no asset looks like a source. */
  ghost predicate SourcesApart(input: WriteInput) {
    && (forall name :: name in input.sources ==> !Reserved(name) && !IsClaimed(input.installs, name))
    && forall a :: a in input.assets && a.origin.ProjectAsset? && ReadAsSource(input, a.locator) ==>
       a.locator in input.sources
  }

  /** A project asset that is read back as one: reserved and claimed names and names of sources are not. */
  predicate ReadAsAsset(input: WriteInput, name: string) {
    !Reserved(name) && !IsClaimed(input.installs, name) && !HasSuffix(name, ".ldl")
  }

  ghost predicate ComesBack(t: Tools, input: WriteInput, x: Asset) {
    exists a :: a in input.assets && a.origin.ProjectAsset? && ReadAsAsset(input, a.locator) &&
                x == Asset(ProjectOrigin, "", a.locator, a.content, t.media(a.locator, a.content))
  }

  lemma ClaimedIff(installs: seq<Pack>, name: string)
    ensures ClaimAt(Claims(Defaults(installs)), name).Some? <==> IsClaimed(installs, name)
  {
    hide Joined, PackClaims, Claims, ClaimAt;
    var defaults := Defaults(installs);
    ClaimAtIsClaim(Claims(defaults), name);
    if ClaimAt(Claims(defaults), name).Some? {
      var claim :| claim in Claims(defaults) && claim.path == name;
      var i := ClaimantOf(defaults, claim);
      assert installs[i] in installs;
      ClaimIsOfPack(installs[i], claim);
    }
    if ClosedInput.IsFilePath(installs, name) {
      var p :| p in installs && exists f :: f in p.files && Joined(p.path, f.path) == name;
      var claim := FileIsClaimed(p, name);
      var i :| 0 <= i < |installs| && installs[i] == p;
      ClaimsContain(defaults, i, claim);
    }
    if ClosedInput.IsManifestPath(installs, name) {
      var p :| p in installs && ManifestPathOf(p) == name;
      var claim := ManifestIsClaimed(p);
      var i :| 0 <= i < |installs| && installs[i] == p;
      ClaimsContain(defaults, i, claim);
    }
  }

  lemma ClaimIsOfPack(p: Pack, claim: Claim)
    requires claim in PackClaims(Defaulted(p))
    ensures claim.path == ManifestPathOf(p) || exists f :: f in p.files && Joined(p.path, f.path) == claim.path
  {
    hide Joined;
    var k :| 0 <= k < |PackClaims(Defaulted(p))| && PackClaims(Defaulted(p))[k] == claim;
    if k > 0 {
      assert p.files[k - 1] in p.files;
    }
  }

  lemma FileIsClaimed(p: Pack, name: string) returns (claim: Claim)
    requires exists f :: f in p.files && Joined(p.path, f.path) == name
    ensures claim in PackClaims(Defaulted(p)) && claim.path == name
  {
    hide Joined;
    var f :| f in p.files && Joined(p.path, f.path) == name;
    var k :| 0 <= k < |p.files| && p.files[k] == f;
    claim := PackClaims(Defaulted(p))[k + 1];
  }

  lemma ManifestIsClaimed(p: Pack) returns (claim: Claim)
    ensures claim in PackClaims(Defaulted(p)) && claim.path == ManifestPathOf(p)
  {
    claim := PackClaims(Defaulted(p))[0];
  }

  lemma ClaimedWhenRead(installs: seq<Pack>, packs: seq<Pack>, name: string)
    requires Alike(Defaults(installs), packs)
    ensures ClaimAt(Claims(packs), name).Some? <==> IsClaimed(installs, name)
  {
    hide Within, Claims, ClaimAt, IsClaimed;
    ClaimedIff(installs, name);
    if ClaimAt(Claims(packs), name).Some? {
      AlikeClaimPaths(packs, Defaults(installs), name);
    }
    if ClaimAt(Claims(Defaults(installs)), name).Some? {
      AlikeClaimPaths(Defaults(installs), packs, name);
    }
  }

  /** What a file of an emitted container is read as. */
  lemma FileIsReadAs(t: Tools, input: WriteInput, files: Files, content: Content, packs: seq<Pack>, name: string)
    requires Clean(t, input) && Holds(input, files) && Alike(Defaults(input.installs), packs)
    requires Sortable(files[MANIFEST := content], packs, t.media)
    ensures var all := files[MANIFEST := content];
            && (name in all && ClassOf(packs, t.media, name, all[name]).PackFileOf? <==>
                  !Reserved(name) && (name in input.tree || ClosedInput.IsManifestPath(input.installs, name)))
            && (name in all && ClassOf(packs, t.media, name, all[name]).SourceFile? <==> ReadAsSource(input, name))
            && (!Reserved(name) && name in all ==> name in files && all[name] == files[name])
  {
    hide Alike, ClosedInput.Clean, Claims, ClaimAt, InsidePack, Unshared, HasSuffix, Made, ManifestPathOf,
         ClosedInput.IsFilePath, ClosedInput.IsManifestPath, IsAssetPath, HoldsAt;
    var all := files[MANIFEST := content];
    assert Reserved(MANIFEST);
    ClaimedWhenRead(input.installs, packs, name);
    TreePathsAreClaimed(t, input, name);
    if !Reserved(name) {
      UnreservedIsNotMade(input, files, name);
      assert name in all <==> Given(input, name);
      if name in all {
        assert !Unreadable(ClassOf(packs, t.media, name, all[name]));
      }
    }
  }

  /** The files of an emitted container, as read: by name, what each becomes and what it holds. */
  lemma FileReadsBack(t: Tools, input: WriteInput, files: Files, content: Content, packs: seq<Pack>, r: Sorting,
                      name: string)
    requires Clean(t, input) && Holds(input, files) && Alike(Defaults(input.installs), packs)
    requires var all := files[MANIFEST := content];
             Sortable(all, packs, t.media) && SortedInto(packs, t.media, all, all.Keys, r)
    ensures name in r.tree <==>
              !Reserved(name) && (name in input.tree || ClosedInput.IsManifestPath(input.installs, name))
    ensures name in r.tree && name in input.tree ==> r.tree[name] == input.tree[name]
    ensures forall p :: p in input.installs && name in r.tree && ManifestPathOf(p) == name ==>
              r.tree[name] == p.manifest
    ensures name in r.sources <==> ReadAsSource(input, name)
    ensures name in r.sources && name in input.sources ==> r.sources[name] == input.sources[name]
  {
    hide Alike, Clean, ClassOf, Sortable, HasSuffix, Made, ManifestPathOf, ClosedInput.IsManifestPath, Reserved,
         IsClaimed, IsAssetPath, AssetOf;
    var all := files[MANIFEST := content];
    FileIsReadAs(t, input, files, content, packs, name);
    if !Reserved(name) && name in all {
      UnreservedIsNotMade(input, files, name);
      assert HoldsAt(input, files, name);
    }
  }

  /** What a file that is read as a project asset was written as. */
  lemma AssetWasWritten(t: Tools, input: WriteInput, files: Files, packs: seq<Pack>, name: string)
    requires Clean(t, input) && Holds(input, files) && Alike(Defaults(input.installs), packs) && name in files
    requires forall source :: source in input.sources ==> HasSuffix(source, ".ldl")
    requires ClassOf(packs, t.media, name, files[name]).ProjectAsset?
    ensures ComesBack(t, input, Asset(ProjectOrigin, "", name, files[name], t.media(name, files[name])))
  {
    hide Alike, Clean, Claims, ClaimAt, InsidePack, HasSuffix, Made, ManifestPathOf, ClosedInput.IsManifestPath,
         Reserved, ClosedInput.IsFilePath;
    ClaimedWhenRead(input.installs, packs, name);
    TreePathsAreClaimed(t, input, name);
    UnreservedIsNotMade(input, files, name);
    assert HoldsAt(input, files, name);
    var a :| a in input.assets && a.origin.ProjectAsset? && a.locator == name;
  }

  lemma AssetIsRead(t: Tools, input: WriteInput, files: Files, packs: seq<Pack>, a: ClosedInput.AssetInput)
    requires Clean(t, input) && Holds(input, files) && Alike(Defaults(input.installs), packs)
    requires a in input.assets && a.origin.ProjectAsset? && ReadAsAsset(input, a.locator)
    requires a.locator in files ==> !Unreadable(ClassOf(packs, t.media, a.locator, files[a.locator]))
    ensures a.locator in files && files[a.locator] == a.content &&
            ClassOf(packs, t.media, a.locator, a.content).ProjectAsset?
  {
    hide Alike, Clean, Claims, ClaimAt, InsidePack, HasSuffix, Made, ManifestPathOf, ClosedInput.IsManifestPath,
         Reserved, ClosedInput.IsFilePath, IsClaimed;
    ClaimedWhenRead(input.installs, packs, a.locator);
    UnreservedIsNotMade(input, files, a.locator);
    assert HoldsAt(input, files, a.locator);
  }

  lemma AssetReadsBack(t: Tools, input: WriteInput, files: Files, content: Content, packs: seq<Pack>, r: Sorting,
                       x: Asset)
    requires Clean(t, input) && Holds(input, files) && Alike(Defaults(input.installs), packs)
    requires forall source :: source in input.sources ==> HasSuffix(source, ".ldl")
    requires var all := files[MANIFEST := content];
             Sortable(all, packs, t.media) && SortedInto(packs, t.media, all, all.Keys, r)
    ensures x in r.assets && x.origin.ProjectOrigin? <==> ComesBack(t, input, x)
  {
    hide Alike, Clean, ClassOf, HasSuffix, Holds, Unshared, Reserved, IsClaimed;
    var all := files[MANIFEST := content];
    ManifestIsReserved();
    if x in r.assets && x.origin.ProjectOrigin? {
      var name :| name in all && AssetOf(packs, t.media, name, all[name]) == Some(x);
      ReservedIsNoAsset(packs, t.media, name, all[name]);
      AssetWasWritten(t, input, files, packs, name);
    }
    if ComesBack(t, input, x) {
      var a :| a in input.assets && a.origin.ProjectAsset? && ReadAsAsset(input, a.locator) &&
               x == Asset(ProjectOrigin, "", a.locator, a.content, t.media(a.locator, a.content));
      assert a.locator != MANIFEST;
      if a.locator in files {
        assert a.locator in all && all[a.locator] == files[a.locator];
      }
      AssetIsRead(t, input, files, packs, a);
      assert AssetOf(packs, t.media, a.locator, all[a.locator]) == Some(x);
    }
  }

  lemma ManifestIsReserved()
    ensures Reserved(MANIFEST)
  {
  }

  lemma ReservedIsNoAsset(packs: seq<Pack>, media: (string, Content) -> string, name: string, content: Content)
    ensures ClassOf(packs, media, name, content).ProjectAsset? ==> !Reserved(name)
  {
    hide Claims, ClaimAt, InsidePack, HasSuffix, Reserved;
  }

  /**
   * The packs, the installed tree and, exactly when they stand apart, the sources come back as they were written; of
   * the project assets exactly those come back that no reserved name, pack or source hides.
   */
  lemma EmittedReadsBack(t: Tools, input: WriteInput, c: Compiled, files: Files, packs: seq<Pack>, r: Sorting)
    requires Sound(t) && Promised(t, input, c) && DefaultPaths(input.installs) && Emits(t, input, Some(c), files) &&
             RESOLVED in files
    requires var w := Emitted(t, input, c, files);
             Accepts(t, w.files, packs) && SortedInto(packs, t.media, w.files, w.files.Keys, r)
    ensures SameUpToOrder(input.installs, packs)
    ensures forall name :: name in r.tree <==>
              !Reserved(name) && (name in input.tree || ClosedInput.IsManifestPath(input.installs, name))
    ensures forall name :: name in r.tree && name in input.tree ==> r.tree[name] == input.tree[name]
    ensures forall p :: p in input.installs && ManifestPathOf(p) in r.tree ==> r.tree[ManifestPathOf(p)] == p.manifest
    ensures r.sources == input.sources <==> SourcesApart(input)
    ensures forall x :: x in r.assets && x.origin.ProjectOrigin? <==> ComesBack(t, input, x)
  {
    hide Assembled, DecodesTo, Sortable, SortedInto, ClosedInput.Clean, Given, Made, Carries, SameUpToOrder, Within,
         HasSuffix, ManifestPathOf, ReadAsSource, Reserved, IsClaimed, ClosedInput.IsManifestPath, InstallsDiffer,
         DuplicateFree, Encoded, ComesBack;
    var w := Emitted(t, input, c, files);
    var content := t.render(w.manifest);
    AssembledHolds(t, input, c, files);
    MetadataStands(t, input, c, files);
    ManifestsAreCarried(t, input, c, files);
    CarriedBesideManifest(input, files, content);
    assert |MANIFEST| == 13 && |RESOLVED| == 23;
    DecodedAreWritten(t, input, c, w.files, packs);
    forall name {
      FileReadsBack(t, input, files, content, packs, r, name);
    }
    forall x ensures x in r.assets && x.origin.ProjectOrigin? <==> ComesBack(t, input, x) {
      AssetReadsBack(t, input, files, content, packs, r, x);
    }
    SourcesReadBackIff(t, input, c, r);
  }

  lemma CarriedBesideManifest(input: WriteInput, files: Files, content: Content)
    requires Carries(files, input.installs)
    ensures Carries(files[MANIFEST := content], input.installs)
  {
    forall p | p in input.installs ensures Joined(p.path, MANIFEST) != MANIFEST {
      JoinedIsLonger(p.path);
    }
  }

  lemma SourcesReadBackIff(t: Tools, input: WriteInput, c: Compiled, r: Sorting)
    requires Promised(t, input, c) && forall name :: name in r.sources <==> ReadAsSource(input, name)
    requires forall name :: name in r.sources && name in input.sources ==> r.sources[name] == input.sources[name]
    ensures r.sources == input.sources <==> SourcesApart(input)
  {
    hide Reserved, IsClaimed, HasSuffix;
    if SourcesApart(input) {
      forall name ensures name in r.sources <==> name in input.sources {
        if name in r.sources && IsAssetPath(input.assets, name) {
          var a :| a in input.assets && a.origin.ProjectAsset? && a.locator == name;
          assert a.locator in input.sources;
        }
      }
      assert r.sources == input.sources;
    } else if r.sources == input.sources {
      forall name | name in input.sources ensures !Reserved(name) && !IsClaimed(input.installs, name) {
        assert name in r.sources;
      }
      forall a | a in input.assets && a.origin.ProjectAsset? && ReadAsSource(input, a.locator)
        ensures a.locator in input.sources {
        assert a.locator in r.sources;
      }
    }
  }

  /** Writing, then reading what was written. */
  method WriteThenRead(t: Tools, input: WriteInput, c: Option<Compiled>)
    returns (written: Option<Written>, back: Option<CompileInput>)
    requires Sound(t) && (c.Some? ==> Promised(t, input, c.value)) && DefaultPaths(input.installs)
    ensures written.Some? ==> (back.Some? <==> !IsAssetPath(input.assets, MANIFEST) && StatesApart(t, input))
    ensures back.Some? ==>
              && SameUpToOrder(input.installs, back.value.packs)
              && (forall name :: name in back.value.sorting.tree <==>
                    !Reserved(name) && (name in input.tree || ClosedInput.IsManifestPath(input.installs, name)))
              && (back.value.sorting.sources == input.sources <==> SourcesApart(input))
              && (forall x :: x in back.value.sorting.assets && x.origin.ProjectOrigin? <==> ComesBack(t, input, x))
  {
    hide Emits, ManifestHolds, Acceptable, SortedInto, Accepts, Promised, Sound, SameUpToOrder, SourcesApart, Reserved,
         StatesHold, StatesApart, ComesBack;
    written := Write(t, input, c);
    if written.None? {
      return written, None;
    }
    ghost var files :| Emits(t, input, c, files) && RESOLVED in files &&
      written.value == Emitted(t, input, c.value, files);
    EmittedIsAcceptedIff(t, input, c.value, files);
    back := ReadContainer(t, written.value.manifest, written.value.files);
    if back.Some? {
      EmittedReadsBack(t, input, c.value, files, back.value.packs, back.value.sorting);
    }
  }

  // ----- Inputs that the writer emits and the reader does not give back -------------------------

  const ENTRY := "main.ldl"
  const PREVIEW := "previews/p.ldl"
  const STATE_SOURCE := "state/x.ldl"

  function SampleInput(misplaced: bool, extra: string): WriteInput {
    WriteInput(ClosedInput.ProjectMode, ENTRY, "", RESOLVED_ENVELOPE, map[ENTRY := 1, extra := 2], map[], [],
               if misplaced then [ClosedInput.AssetInput(ClosedInput.ProjectAsset, "", MANIFEST, 3)] else [],
               [], map[], "")
  }

  function SampleFiles(t: Tools, c: Compiled, misplaced: bool, extra: string): Files {
    var sources: Files := map[ENTRY := 1, extra := 2];
    var metadata := sources[RESOLVED := t.encode(Document(RESOLVED_ENVELOPE, "", Some(map[])))];
    (if misplaced then metadata[MANIFEST := 3] else metadata)[DOCUMENT := c.document][INDEX := c.index]
  }

  lemma SampleAssembles(t: Tools, c: Compiled, misplaced: bool, extra: string)
    requires extra in {PREVIEW, STATE_SOURCE}
    ensures Assembled(t, SampleInput(misplaced, extra), c) == Some(SampleFiles(t, c, misplaced, extra))
  {
    var input := SampleInput(misplaced, extra);
    var base: Files := (input.sources + input.tree)[RESOLVED := t.encode(Document(RESOLVED_ENVELOPE, "", Some(map[])))];
    assert input.sources + input.tree == input.sources && input.sources.Keys * input.tree.Keys == {};
    assert WithManifests(t, base, []) == Some(base);
    assert |MANIFEST| == 13 && |RESOLVED| == 23 && |ENTRY| == 8 && |PREVIEW| == 14 && |STATE_SOURCE| == 11;
    if misplaced {
      assert input.assets[..0] == [];
      assert WithAssets(base, input.assets) == Some(base[MANIFEST := 3]);
    }
    assert SampleFiles(t, c, misplaced, extra) + map[] == SampleFiles(t, c, misplaced, extra);
  }

  lemma SampleCompiles(t: Tools, c: Compiled, misplaced: bool, extra: string)
    ensures Compiles(t, SampleInput(misplaced, extra), Some(c))
  {
    assert ClosedInput.Takings(map[], []) == [];
  }

  lemma SampleReads(t: Tools, c: Compiled, misplaced: bool, extra: string)
    requires Sound(t) && extra in {PREVIEW, STATE_SOURCE}
    ensures Accepts(t, SampleFiles(t, c, misplaced, extra), [])
  {
    var files := SampleFiles(t, c, misplaced, extra);
    assert |RESOLVED| == 23 && |DOCUMENT| == 13 && |INDEX| == 20 && |MANIFEST| == 13 && DOCUMENT[0] == 'd' &&
      MANIFEST[0] == 'm';
    assert Claims([]) == [];
    assert |ENTRY| == 8 && ENTRY[0] == 'm' && |"exports/"| == 8 && "exports/"[0] == 'e';
    assert HasSuffix(ENTRY, ".ldl") && !Reserved(ENTRY);
    assert "previews/" <= PREVIEW;
    assert |STATE_SOURCE| == 11 && STATE_SOURCE[0] == 's' && HasSuffix(STATE_SOURCE, ".ldl") && !Reserved(STATE_SOURCE);
    forall name | name in files ensures !Unreadable(ClassOf([], t.media, name, files[name])) {
      assert name in {ENTRY, extra, RESOLVED, DOCUMENT, INDEX, MANIFEST};
    }
    assert InstallNames([]) == [];
  }

  lemma SampleEmits(t: Tools, c: Compiled, misplaced: bool, extra: string)
    requires Sound(t) && c.address != "" && SemanticHash(c.definitionHash) && extra in {PREVIEW, STATE_SOURCE}
    ensures Promised(t, SampleInput(misplaced, extra), c)
    ensures Emits(t, SampleInput(misplaced, extra), Some(c), SampleFiles(t, c, misplaced, extra))
  {
    hide Assembled, Accepts, Compiles, SampleFiles;
    SampleAssembles(t, c, misplaced, extra);
    SampleCompiles(t, c, misplaced, extra);
    SampleReads(t, c, misplaced, extra);
    assert HasSuffix(ENTRY, ".ldl") && HasSuffix(PREVIEW, ".ldl") && HasSuffix(STATE_SOURCE, ".ldl");
  }

  /** A project asset at the manifest's name: the writer emits a container that every reader refuses. */
  lemma MisplacedAssetIsEmitted(t: Tools, c: Compiled)
    requires Sound(t) && c.address != "" && SemanticHash(c.definitionHash)
    ensures var files := SampleFiles(t, c, true, PREVIEW);
            && Emits(t, SampleInput(true, PREVIEW), Some(c), files)
            && RESOLVED in files
            && var w := Emitted(t, SampleInput(true, PREVIEW), c, files);
               !ManifestHolds(w.manifest, w.files, t.digest, t.normal)
  {
    hide Emits, ManifestHolds, Promised, SampleFiles;
    SampleEmits(t, c, true, PREVIEW);
    EmittedIsAcceptedIff(t, SampleInput(true, PREVIEW), c, SampleFiles(t, c, true, PREVIEW));
    assert IsAssetPath(SampleInput(true, PREVIEW).assets, MANIFEST) by {
      assert SampleInput(true, PREVIEW).assets[0] in SampleInput(true, PREVIEW).assets;
    }
  }

  /** A source under `state/`: the writer reads it back itself, and every reader refuses the container. */
  lemma StateSourceIsRefused(t: Tools, c: Compiled)
    requires Sound(t) && c.address != "" && SemanticHash(c.definitionHash)
    ensures var files := SampleFiles(t, c, false, STATE_SOURCE);
            && Emits(t, SampleInput(false, STATE_SOURCE), Some(c), files)
            && RESOLVED in files
            && var w := Emitted(t, SampleInput(false, STATE_SOURCE), c, files);
               && ManifestHolds(w.manifest, w.files, t.digest, t.normal)
               && !StatesHold(t, w.manifest.redaction, w.files)
  {
    hide Emits, ManifestHolds, Promised, SampleFiles, StatesHold, Acceptable;
    SampleEmits(t, c, false, STATE_SOURCE);
    EmittedIsAcceptedIff(t, SampleInput(false, STATE_SOURCE), c, SampleFiles(t, c, false, STATE_SOURCE));
    assert STATE_SOURCE in SampleInput(false, STATE_SOURCE).sources && STATE <= STATE_SOURCE;
  }

  /** A source under `previews/`: the container is emitted and accepted, and the source is gone. */
  lemma PreviewSourceIsLost(t: Tools, c: Compiled, packs: seq<Pack>, r: Sorting)
    requires Sound(t) && c.address != "" && SemanticHash(c.definitionHash)
    ensures var files := SampleFiles(t, c, false, PREVIEW);
            && Emits(t, SampleInput(false, PREVIEW), Some(c), files) && RESOLVED in files
            && var w := Emitted(t, SampleInput(false, PREVIEW), c, files);
               && ManifestHolds(w.manifest, w.files, t.digest, t.normal) && Acceptable(t, w.files)
               && StatesHold(t, w.manifest.redaction, w.files)
               && (Accepts(t, w.files, packs) && SortedInto(packs, t.media, w.files, w.files.Keys, r) ==>
                     r.sources != SampleInput(false, PREVIEW).sources)
  {
    hide Emits, ManifestHolds, Promised, SampleFiles, Acceptable, Accepts, SortedInto, StatesHold;
    var input, files := SampleInput(false, PREVIEW), SampleFiles(t, c, false, PREVIEW);
    SampleEmits(t, c, false, PREVIEW);
    EmittedIsAcceptedIff(t, input, c, files);
    assert ENTRY[0] == 'm' && PREVIEW[0] == 'p' && STATE[0] == 's';
    var w := Emitted(t, input, c, files);
    if Accepts(t, w.files, packs) && SortedInto(packs, t.media, w.files, w.files.Keys, r) {
      EmittedReadsBack(t, input, c, files, packs, r);
      assert PREVIEW in input.sources && Reserved(PREVIEW);
    }
  }
}
