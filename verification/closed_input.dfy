/**
 * Preparing a closed compiler input: every byte of the installed tree must be accounted for by the
 * resolved metadata, and every asset by the tree.
 */
module ClosedInput {
  import opened Options
  import opened TextOrder
  import opened PortableContainer

  datatype AssetOrigin = ProjectAsset | PackAsset | UnknownOrigin
  datatype AssetInput = AssetInput(origin: AssetOrigin, packId: string, locator: string, content: Content)

  datatype Mode = ProjectMode | PackMode | OtherMode

  datatype Diagnostic =
    | CompileMode | PackModeProjectTree | ProjectModeRootPack | ResolvedEnvelope | DuplicateInstall
    | InvalidPackManifest | DuplicateDependency | DuplicatePackFile | MissingPackFile | DigestMismatch
    | DuplicatePackPath | ManifestMismatch | UnexpectedPackFile | DuplicateAsset | InvalidAssetOrigin
    | PackAssetMismatch

  predicate HeaderClean(mode: Mode, rootPack: string, sources: map<string, Content>, envelope: Envelope) {
    && !mode.OtherMode? && (mode.PackMode? ==> sources == map[]) && (mode.ProjectMode? ==> rootPack == "")
    && envelope == RESOLVED_ENVELOPE
  }

  function PackBefore(a: Pack, b: Pack): bool {
    if a.install != b.install then Less(a.install, b.install) else Less(a.canonicalId, b.canonicalId)
  }

  function FileBefore(a: PackFile, b: PackFile): bool {
    Less(a.path, b.path)
  }

  /** A path of the tree taken by a file or a manifest of the pack `owner`. */
  datatype Taking = Taking(path: string, owner: string, isFile: bool)

  function FileTakings(p: Pack, files: seq<PackFile>): seq<Taking> {
    seq(|files|, i requires 0 <= i < |files| => Taking(Joined(p.path, files[i].path), p.canonicalId, true))
  }

  function PackTakings(tree: map<string, Content>, p: Pack): seq<Taking> {
    FileTakings(p, SortedBy(FileBefore, p.files))
    + if ManifestPathOf(p) in tree then [Taking(ManifestPathOf(p), p.canonicalId, false)] else []
  }

  function Takings(tree: map<string, Content>, packs: seq<Pack>): seq<Taking> {
    if packs == [] then [] else Takings(tree, packs[..|packs| - 1]) + PackTakings(tree, packs[|packs| - 1])
  }

  function LastOwner(takings: seq<Taking>, path: string): Option<string> {
    if takings == [] then None
    else if takings[|takings| - 1].path == path then Some(takings[|takings| - 1].owner)
    else LastOwner(takings[..|takings| - 1], path)
  }

  /** No file takes a path whose last taker was a different pack. */
  ghost predicate Unclashing(takings: seq<Taking>) {
    forall i :: 0 <= i < |takings| && takings[i].isFile ==>
      var prior := LastOwner(takings[..i], takings[i].path); prior.None? || prior.value == takings[i].owner
  }

  ghost predicate FilesClean(tree: map<string, Content>, digest: Content -> string, p: Pack, files: seq<PackFile>) {
    && (forall f :: f in files ==>
          f.path != "" && Joined(p.path, f.path) in tree && digest(tree[Joined(p.path, f.path)]) == f.digest)
    && forall i, j :: 0 <= i < j < |files| ==> files[i].path != files[j].path
  }

  ghost predicate LocalsDiffer(dependencies: seq<Dependency>) {
    forall i, j :: 0 <= i < j < |dependencies| ==> dependencies[i].local != dependencies[j].local
  }

  ghost predicate PackClean(tree: map<string, Content>, digest: Content -> string, parses: Content -> bool, p: Pack) {
    && p.install != "" && parses(p.manifest) && LocalsDiffer(p.dependencies) && FilesClean(tree, digest, p, p.files)
    && (ManifestPathOf(p) in tree ==> tree[ManifestPathOf(p)] == p.manifest)
  }

  ghost predicate PacksClean(tree: map<string, Content>, digest: Content -> string, parses: Content -> bool,
                             packs: seq<Pack>) {
    && (forall i :: 0 <= i < |packs| ==> PackClean(tree, digest, parses, packs[i]))
    && (forall i, j :: 0 <= i < j < |packs| ==> packs[i].install != packs[j].install)
    && Unclashing(Takings(tree, packs))
  }

  ghost predicate Taken(takings: seq<Taking>, path: string) {
    exists i :: 0 <= i < |takings| && takings[i].path == path
  }

  /** The asset is this file of this pack, byte for byte. */
  predicate Holds(tree: map<string, Content>, a: AssetInput, p: Pack, f: PackFile) {
    f.path == a.locator && Joined(p.path, f.path) in tree && tree[Joined(p.path, f.path)] == a.content
  }

  ghost predicate AssetClean(tree: map<string, Content>, packs: seq<Pack>, a: AssetInput) {
    match a.origin
    case ProjectAsset => a.packId == ""
    case PackAsset =>
      a.packId != "" && exists p, f :: p in packs && p.canonicalId == a.packId && f in p.files && Holds(tree, a, p, f)
    case UnknownOrigin => false
  }

  ghost predicate AssetsClean(tree: map<string, Content>, packs: seq<Pack>, assets: seq<AssetInput>) {
    && (forall i :: 0 <= i < |assets| ==> AssetClean(tree, packs, assets[i]))
    && forall i, j :: 0 <= i < j < |assets| ==>
         !(assets[i].origin == assets[j].origin && assets[i].packId == assets[j].packId &&
           assets[i].locator == assets[j].locator)
  }

  ghost predicate Clean(tree: map<string, Content>, digest: Content -> string, parses: Content -> bool,
                        packs: seq<Pack>, assets: seq<AssetInput>) {
    && PacksClean(tree, digest, parses, packs)
    && (forall path :: path in tree ==> Taken(Takings(tree, packs), path))
    && AssetsClean(tree, packs, assets)
  }

  // ----- One pack -----------------------------------------------------------------------------

  /** `expected` names, for each path taken so far, the pack that took it last. */
  ghost predicate Expects(expected: map<string, string>, takings: seq<Taking>) {
    forall path :: LastOwner(takings, path) == if path in expected then Some(expected[path]) else None
  }

  lemma LastOwnerNext(takings: seq<Taking>, t: Taking, path: string)
    ensures LastOwner(takings + [t], path) == if t.path == path then Some(t.owner) else LastOwner(takings, path)
  {
    assert (takings + [t])[..|takings|] == takings;
  }

  lemma ExpectsNext(expected: map<string, string>, takings: seq<Taking>, t: Taking)
    requires Expects(expected, takings)
    ensures Expects(expected[t.path := t.owner], takings + [t])
  {
    forall path ensures LastOwner(takings + [t], path) ==
                        if path in expected[t.path := t.owner] then Some(expected[t.path := t.owner][path]) else None
    {
      LastOwnerNext(takings, t, path);
    }
  }

  lemma UnclashingNext(takings: seq<Taking>, t: Taking)
    requires Unclashing(takings)
    ensures Unclashing(takings + [t]) <==>
              !t.isFile || LastOwner(takings, t.path).None? || LastOwner(takings, t.path).value == t.owner
  {
    var n := takings + [t];
    assert n[..|takings|] == takings;
    forall i | 0 <= i < |takings| ensures n[..i] == takings[..i] && n[i] == takings[i] {
    }
  }

  lemma UnclashingPrefix(a: seq<Taking>, b: seq<Taking>)
    requires a <= b && Unclashing(b)
    ensures Unclashing(a)
  {
    forall i | 0 <= i < |a| ensures a[..i] == b[..i] && a[i] == b[i] {
    }
  }

  method CheckDependencies(dependencies: seq<Dependency>) returns (diagnostics: seq<Diagnostic>)
    ensures diagnostics == [] <==> LocalsDiffer(dependencies)
  {
    diagnostics := [];
    var names: set<string> := {};
    for i := 0 to |dependencies|
      invariant names == set k | 0 <= k < i :: dependencies[k].local
      invariant diagnostics == [] <==> forall k, l :: 0 <= k < l < i ==> dependencies[k].local != dependencies[l].local
    {
      if dependencies[i].local in names {
        diagnostics := diagnostics + [DuplicateDependency];
      }
      names := names + {dependencies[i].local};
    }
  }

  /**
   * The files of one pack, in path order. `clean` says that nothing was wrong before: afterwards
   * `expected` follows the source, but says nothing of interest.
   */
  method CheckFiles(tree: map<string, Content>, digest: Content -> string, p: Pack, files: seq<PackFile>,
                    expected: map<string, string>, ghost takings: seq<Taking>, ghost clean: bool)
    returns (diagnostics: seq<Diagnostic>, next: map<string, string>)
    requires clean ==> Expects(expected, takings) && Unclashing(takings)
    ensures clean ==> (diagnostics == [] <==>
                       FilesClean(tree, digest, p, files) && Unclashing(takings + FileTakings(p, files)))
    ensures clean && diagnostics == [] ==> Expects(next, takings + FileTakings(p, files))
  {
    hide Unclashing;
    diagnostics, next := [], expected;
    var known: set<string> := {};
    ghost var mine := FileTakings(p, files);
    assert takings + [] == takings;
    for i := 0 to |files|
      invariant clean && diagnostics == [] ==>
                  && known == (set k | 0 <= k < i :: files[k].path)
                  && FilesClean(tree, digest, p, files[..i])
                  && Unclashing(takings + mine[..i]) && Expects(next, takings + mine[..i])
      invariant clean && diagnostics != [] ==> !(FilesClean(tree, digest, p, files) && Unclashing(takings + mine))
    {
      assert takings + mine[..i + 1] == (takings + mine[..i]) + [mine[i]];
      assert takings + mine[..i + 1] <= takings + mine;
      assert files[..i + 1] == files[..i] + [files[i]] && files[i] in files;
      var full := Joined(p.path, files[i].path);
      if files[i].path in known || files[i].path == "" {
        diagnostics := diagnostics + [DuplicatePackFile];
        continue;
      }
      known := known + {files[i].path};
      if full !in tree {
        diagnostics := diagnostics + [MissingPackFile];
        continue;
      }
      if digest(tree[full]) != files[i].digest {
        diagnostics := diagnostics + [DigestMismatch];
      }
      if clean && diagnostics == [] {
        UnclashingNext(takings + mine[..i], mine[i]);
        ExpectsNext(next, takings + mine[..i], mine[i]);
        if !Unclashing(takings + mine[..i + 1]) && Unclashing(takings + mine) {
          UnclashingPrefix(takings + mine[..i + 1], takings + mine);
        }
      }
      if full in next && next[full] != p.canonicalId {
        diagnostics := diagnostics + [DuplicatePackPath];
      }
      next := next[full := p.canonicalId];
    }
    assert files[..|files|] == files && mine[..|files|] == mine;
  }

  lemma PermutedPathsStayDistinct(a: seq<PackFile>, b: seq<PackFile>)
    requires multiset(a) == multiset(b) && forall i, j :: 0 <= i < j < |a| ==> a[i].path != a[j].path
    ensures forall i, j :: 0 <= i < j < |b| ==> b[i].path != b[j].path
  {
    var key := (f: PackFile) => f.path;
    assert DistinctBy(key, a);
    PermutedStaysDistinct(key, a, b);
    forall i, j | 0 <= i < j < |b| ensures b[i].path != b[j].path {
      assert key(b[i]) != key(b[j]);
    }
  }

  lemma SortedFilesAreAsClean(tree: map<string, Content>, digest: Content -> string, p: Pack)
    ensures FilesClean(tree, digest, p, SortedBy(FileBefore, p.files)) <==> FilesClean(tree, digest, p, p.files)
  {
    hide Less, Joined, SortedBy;
    var sorted := SortedBy(FileBefore, p.files);
    SameElements(p.files, sorted);
    if FilesClean(tree, digest, p, p.files) {
      PermutedPathsStayDistinct(p.files, sorted);
    } else if FilesClean(tree, digest, p, sorted) {
      PermutedPathsStayDistinct(sorted, p.files);
    }
  }

  method CheckPack(tree: map<string, Content>, digest: Content -> string, parses: Content -> bool, p: Pack, known: bool,
                   expected: map<string, string>, ghost takings: seq<Taking>, ghost clean: bool)
    returns (diagnostics: seq<Diagnostic>, next: map<string, string>)
    requires clean ==> Expects(expected, takings) && Unclashing(takings)
    ensures clean ==> (diagnostics == [] <==>
              !known && PackClean(tree, digest, parses, p) && Unclashing(takings + PackTakings(tree, p)))
    ensures clean && diagnostics == [] ==> Expects(next, takings + PackTakings(tree, p))
  {
    hide Less, SortedBy, Unclashing, FilesClean, LocalsDiffer;
    next := expected;
    if known || p.install == "" {
      return [DuplicateInstall], next;
    }
    if !parses(p.manifest) {
      return [InvalidPackManifest], next;
    }
    var repeated := CheckDependencies(p.dependencies);
    var files := SortedBy(FileBefore, p.files);
    SortedFilesAreAsClean(tree, digest, p);
    var found;
    found, next := CheckFiles(tree, digest, p, files, expected, takings, clean);
    diagnostics := repeated + found;
    ghost var mine := FileTakings(p, files);
    var full := ManifestPathOf(p);
    if full in tree {
      ghost var t := Taking(full, p.canonicalId, false);
      assert takings + PackTakings(tree, p) == (takings + mine) + [t];
      if tree[full] != p.manifest {
        diagnostics := diagnostics + [ManifestMismatch];
      }
      if Unclashing(takings + mine) {
        UnclashingNext(takings + mine, t);
      } else if Unclashing((takings + mine) + [t]) {
        UnclashingPrefix(takings + mine, (takings + mine) + [t]);
      }
      if clean && found == [] {
        ExpectsNext(next, takings + mine, t);
      }
      next := next[full := p.canonicalId];
    } else {
      assert takings + PackTakings(tree, p) == takings + mine;
    }
  }

  // ----- All packs, the tree and the assets ---------------------------------------------------

  lemma {:induction false} TakingsPrefix(tree: map<string, Content>, packs: seq<Pack>, n: nat)
    requires n <= |packs|
    ensures Takings(tree, packs[..n]) <= Takings(tree, packs)
    decreases |packs| - n
  {
    hide PackTakings;
    if n == |packs| {
      assert packs[..n] == packs;
    } else {
      assert packs[..n + 1][..n] == packs[..n];
      TakingsPrefix(tree, packs, n + 1);
    }
  }

  lemma PacksCleanNext(tree: map<string, Content>, digest: Content -> string, parses: Content -> bool,
                       packs: seq<Pack>, n: nat)
    requires n < |packs| && PacksClean(tree, digest, parses, packs[..n])
    ensures Takings(tree, packs[..n + 1]) == Takings(tree, packs[..n]) + PackTakings(tree, packs[n])
    ensures PacksClean(tree, digest, parses, packs[..n + 1]) <==>
              && PackClean(tree, digest, parses, packs[n])
              && (forall k :: 0 <= k < n ==> packs[k].install != packs[n].install)
              && Unclashing(Takings(tree, packs[..n]) + PackTakings(tree, packs[n]))
    ensures PacksClean(tree, digest, parses, packs) ==> PacksClean(tree, digest, parses, packs[..n + 1])
  {
    hide PackTakings, PackClean, Unclashing;
    var now := packs[..n + 1];
    assert now[..n] == packs[..n] && now[n] == packs[n];
    assert forall k :: 0 <= k < n ==> now[k] == packs[..n][k];
    TakingsPrefix(tree, packs, n + 1);
    if Unclashing(Takings(tree, packs)) {
      UnclashingPrefix(Takings(tree, now), Takings(tree, packs));
    }
  }

  lemma CleanPackIsNamed(tree: map<string, Content>, digest: Content -> string, parses: Content -> bool, p: Pack)
    requires PackClean(tree, digest, parses, p)
    ensures p.install != "" && parses(p.manifest)
  {
  }

  method CheckPacks(tree: map<string, Content>, digest: Content -> string, parses: Content -> bool, packs: seq<Pack>)
    returns (diagnostics: seq<Diagnostic>, expected: map<string, string>)
    ensures diagnostics == [] <==> PacksClean(tree, digest, parses, packs)
    ensures diagnostics == [] ==> Expects(expected, Takings(tree, packs))
  {
    hide PackTakings, PackClean, Expects, Unclashing;
    diagnostics, expected := [], map[];
    var installed: set<string> := {};
    NothingTaken();
    for n := 0 to |packs|
      invariant diagnostics == [] ==>
                  && installed == (set k | 0 <= k < n :: packs[k].install)
                  && PacksClean(tree, digest, parses, packs[..n]) && Expects(expected, Takings(tree, packs[..n]))
      invariant diagnostics != [] ==> !PacksClean(tree, digest, parses, packs)
    {
      var p := packs[n];
      ghost var clean := diagnostics == [];
      if clean {
        PacksCleanNext(tree, digest, parses, packs, n);
      }
      var found, next := CheckPack(tree, digest, parses, p, p.install in installed, expected,
                                   Takings(tree, packs[..n]), clean);
      diagnostics, expected := diagnostics + found, next;
      if PackClean(tree, digest, parses, p) {
        CleanPackIsNamed(tree, digest, parses, p);
      }
      if p.install !in installed && p.install != "" && parses(p.manifest) {
        installed := installed + {p.install};
      }
    }
    assert packs[..|packs|] == packs;
  }

  lemma NothingTaken()
    ensures Expects(map[], []) && Unclashing([])
  {
  }

  method CheckTree(tree: map<string, Content>, expected: map<string, string>) returns (diagnostics: seq<Diagnostic>)
    ensures diagnostics == [] <==> forall path :: path in tree ==> path in expected
  {
    diagnostics := [];
    var pending := tree.Keys;
    while pending != {}
      invariant pending <= tree.Keys
      invariant diagnostics == [] <==> forall path :: path in tree.Keys - pending ==> path in expected
      decreases |pending|
    {
      var path :| path in pending;
      pending := pending - {path};
      if path !in expected {
        diagnostics := diagnostics + [UnexpectedPackFile];
      }
    }
  }

  method HasAsset(tree: map<string, Content>, packs: seq<Pack>, a: AssetInput) returns (found: bool)
    ensures found <==> exists p, f :: p in packs && p.canonicalId == a.packId && f in p.files && Holds(tree, a, p, f)
  {
    for i := 0 to |packs|
      invariant forall p, f | p in packs[..i] && p.canonicalId == a.packId && f in p.files :: !Holds(tree, a, p, f)
    {
      var p := packs[i];
      if p.canonicalId == a.packId {
        for k := 0 to |p.files|
          invariant forall f | f in p.files[..k] :: !Holds(tree, a, p, f)
        {
          var f := p.files[k];
          if Holds(tree, a, p, f) {
            return true;
          }
        }
      }
    }
    return false;
  }

  method CheckAssets(tree: map<string, Content>, packs: seq<Pack>, assets: seq<AssetInput>)
    returns (diagnostics: seq<Diagnostic>)
    ensures diagnostics == [] <==> AssetsClean(tree, packs, assets)
  {
    diagnostics := [];
    var identities := set p | p in packs :: p.canonicalId;
    var keys: set<(AssetOrigin, string, string)> := {};
    for i := 0 to |assets|
      invariant keys == set k | 0 <= k < i :: (assets[k].origin, assets[k].packId, assets[k].locator)
      invariant diagnostics == [] <==> AssetsClean(tree, packs, assets[..i])
    {
      var a := assets[i];
      if (a.origin, a.packId, a.locator) in keys {
        diagnostics := diagnostics + [DuplicateAsset];
      }
      keys := keys + {(a.origin, a.packId, a.locator)};
      var held := HasAsset(tree, packs, a);
      match a.origin {
        case ProjectAsset => if a.packId != "" { diagnostics := diagnostics + [InvalidAssetOrigin]; }
        case PackAsset =>
          if a.packId == "" || a.packId !in identities {
            diagnostics := diagnostics + [InvalidAssetOrigin];
          } else if !held {
            diagnostics := diagnostics + [PackAssetMismatch];
          }
        case UnknownOrigin => diagnostics := diagnostics + [InvalidAssetOrigin];
      }
    }
    assert assets[..|assets|] == assets;
  }

  method CheckHeader(mode: Mode, rootPack: string, sources: map<string, Content>, envelope: Envelope)
    returns (diagnostics: seq<Diagnostic>)
    ensures diagnostics == [] <==> HeaderClean(mode, rootPack, sources, envelope)
  {
    diagnostics := [];
    if mode != ProjectMode && mode != PackMode {
      diagnostics := diagnostics + [CompileMode];
    }
    if mode == PackMode && |sources| != 0 {
      diagnostics := diagnostics + [PackModeProjectTree];
    }
    if mode == ProjectMode && rootPack != "" {
      diagnostics := diagnostics + [ProjectModeRootPack];
    }
    if envelope != RESOLVED_ENVELOPE {
      diagnostics := diagnostics + [ResolvedEnvelope];
    }
  }

  /** No diagnostics exactly when everything in the input is accounted for. */
  method PrepareClosedInput(mode: Mode, rootPack: string, sources: map<string, Content>, envelope: Envelope,
                            tree: map<string, Content>, digest: Content -> string, parses: Content -> bool,
                            installs: seq<Pack>, assets: seq<AssetInput>)
    returns (packs: seq<Pack>, diagnostics: seq<Diagnostic>)
    ensures packs == SortedBy(PackBefore, installs)
    ensures diagnostics == [] <==>
              HeaderClean(mode, rootPack, sources, envelope) && Clean(tree, digest, parses, packs, assets)
  {
    hide Less, SortedBy, PacksClean, AssetsClean;
    packs := SortedBy(PackBefore, installs);
    var header := CheckHeader(mode, rootPack, sources, envelope);
    var expected, found;
    diagnostics, expected := CheckPacks(tree, digest, parses, packs);
    found := CheckTree(tree, expected);
    if diagnostics == [] {
      forall path ensures path in expected <==> Taken(Takings(tree, packs), path) {
        assert Expects(expected, Takings(tree, packs));
        LastOwnerIsTaker(Takings(tree, packs), path);
      }
    }
    diagnostics := diagnostics + found;
    found := CheckAssets(tree, packs, assets);
    diagnostics := header + diagnostics + found;
  }

  lemma {:induction false} LastOwnerIsTaker(takings: seq<Taking>, path: string)
    ensures LastOwner(takings, path).Some? <==> Taken(takings, path)
    decreases |takings|
  {
    if takings != [] {
      var front := takings[..|takings| - 1];
      assert takings == front + [takings[|takings| - 1]];
      LastOwnerIsTaker(front, path);
      if Taken(front, path) {
        var i :| 0 <= i < |front| && front[i].path == path;
        assert takings[i].path == path;
      }
    }
  }

  // ----- What a clean input means -------------------------------------------------------------

  predicate IsFilePath(packs: seq<Pack>, path: string) {
    exists p :: p in packs && exists f :: f in p.files && Joined(p.path, f.path) == path
  }

  predicate IsManifestPath(packs: seq<Pack>, path: string) {
    exists p :: p in packs && ManifestPathOf(p) == path
  }

  lemma {:induction false} TakenIsFileOrManifest(tree: map<string, Content>, packs: seq<Pack>, path: string)
    requires Taken(Takings(tree, packs), path)
    ensures IsFilePath(packs, path) || (IsManifestPath(packs, path) && path in tree)
    decreases |packs|
  {
    hide Less, SortedBy;
    var front, last := packs[..|packs| - 1], packs[|packs| - 1];
    assert packs == front + [last] && last in packs;
    assert forall p :: p in front ==> p in packs;
    var all, prior := Takings(tree, packs), Takings(tree, front);
    var i :| 0 <= i < |all| && all[i].path == path;
    if i < |prior| {
      assert prior[i].path == path;
      TakenIsFileOrManifest(tree, front, path);
    } else {
      PackTakingIsFileOrManifest(tree, last, i - |prior|);
    }
  }

  lemma PackTakingIsFileOrManifest(tree: map<string, Content>, p: Pack, i: nat)
    requires i < |PackTakings(tree, p)|
    ensures var path := PackTakings(tree, p)[i].path;
            (exists f :: f in p.files && Joined(p.path, f.path) == path) || (ManifestPathOf(p) == path && path in tree)
  {
    hide Less;
    var files := SortedBy(FileBefore, p.files);
    SameElements(p.files, files);
    if i < |files| {
      assert files[i] in files;
    }
  }

  /** The installed tree of a clean input is exactly its resolved files and the manifests present, unaltered. */
  lemma CleanTreeIsExact(tree: map<string, Content>, digest: Content -> string, parses: Content -> bool,
                         packs: seq<Pack>, assets: seq<AssetInput>, path: string)
    requires Clean(tree, digest, parses, packs, assets)
    ensures path in tree ==> IsFilePath(packs, path) || IsManifestPath(packs, path)
    ensures IsFilePath(packs, path) ==> path in tree
    ensures forall p, f :: p in packs && f in p.files ==>
              Joined(p.path, f.path) in tree && digest(tree[Joined(p.path, f.path)]) == f.digest
    ensures forall p :: p in packs && ManifestPathOf(p) in tree ==> tree[ManifestPathOf(p)] == p.manifest
  {
    forall p | p in packs ensures PackClean(tree, digest, parses, p) {
    }
    if path in tree {
      TakenIsFileOrManifest(tree, packs, path);
    }
  }

  // ----- Which canonical packs share a path ---------------------------------------------------

  predicate ListsFile(p: Pack, path: string) {
    exists f :: f in p.files && Joined(p.path, f.path) == path
  }

  /** The canonical pack whose manifest stood at the path last, or `start` if none did. */
  function ManifestOwner(packs: seq<Pack>, path: string, start: string): string {
    if packs == [] then start
    else if ManifestPathOf(packs[|packs| - 1]) == path then packs[|packs| - 1].canonicalId
    else ManifestOwner(packs[..|packs| - 1], path, start)
  }

  lemma {:induction false} LastOwnerAcross(before: seq<Taking>, takings: seq<Taking>, path: string)
    ensures LastOwner(before + takings, path) ==
            if LastOwner(takings, path).Some? then LastOwner(takings, path) else LastOwner(before, path)
    decreases |takings|
  {
    if takings == [] {
      assert before + takings == before;
    } else {
      var front := takings[..|takings| - 1];
      assert (before + takings)[..|before + takings| - 1] == before + front;
      LastOwnerAcross(before, front, path);
    }
  }

  lemma {:induction false} OwnTakings(takings: seq<Taking>, owner: string, path: string)
    requires forall t :: t in takings ==> t.owner == owner
    ensures LastOwner(takings, path) == if exists t :: t in takings && t.path == path then Some(owner) else None
    decreases |takings|
  {
    if takings != [] {
      var front, last := takings[..|takings| - 1], takings[|takings| - 1];
      assert takings == front + [last];
      OwnTakings(front, owner, path);
      assert forall t :: t in takings <==> t in front || t == last;
    }
  }

  lemma PackTakes(tree: map<string, Content>, p: Pack, path: string)
    ensures forall t :: t in PackTakings(tree, p) ==> t.owner == p.canonicalId
    ensures (exists t :: t in PackTakings(tree, p) && t.path == path) <==>
              ListsFile(p, path) || (path in tree && ManifestPathOf(p) == path)
  {
    hide Less, Joined;
    var files := SortedBy(FileBefore, p.files);
    SameElements(p.files, files);
    var mine := PackTakings(tree, p);
    if ListsFile(p, path) {
      var f :| f in p.files && Joined(p.path, f.path) == path;
      var i :| 0 <= i < |files| && files[i] == f;
      assert mine[i] in mine;
    }
    if path in tree && ManifestPathOf(p) == path {
      assert mine[|mine| - 1] in mine;
    }
    forall t | t in mine && t.path == path ensures ListsFile(p, path) || (path in tree && ManifestPathOf(p) == path) {
      var i :| 0 <= i < |mine| && mine[i] == t;
      if i < |files| {
        assert files[i] in files;
      }
    }
  }

  /** The first file of a pack at a taken path belongs to the pack that took it last. */
  lemma {:induction false} FirstFileAgrees(before: seq<Taking>, mine: seq<Taking>, i: nat, owner: string)
    requires Unclashing(before + mine) && i < |mine| && LastOwner(before, mine[i].path) == Some(owner)
    requires forall k :: 0 <= k <= i ==> mine[k].isFile && mine[k].owner == mine[i].owner
    ensures mine[i].owner == owner
    decreases i
  {
    var path, all := mine[i].path, before + mine;
    assert all[..|before| + i] == before + mine[..i] && all[|before| + i] == mine[i];
    if k :| 0 <= k < i && mine[k].path == path {
      FirstFileAgrees(before, mine, k, owner);
    } else {
      LastOwnerAcross(before, mine[..i], path);
      OwnTakings(mine[..i], mine[i].owner, path);
    }
  }

  lemma FileAgrees(tree: map<string, Content>, before: seq<Taking>, p: Pack, path: string, owner: string)
    requires Unclashing(before + PackTakings(tree, p)) && LastOwner(before, path) == Some(owner) && ListsFile(p, path)
    ensures p.canonicalId == owner
  {
    hide Less, Joined, Unclashing;
    var files := SortedBy(FileBefore, p.files);
    SameElements(p.files, files);
    var f :| f in p.files && Joined(p.path, f.path) == path;
    var i :| 0 <= i < |files| && files[i] == f;
    FirstFileAgrees(before, PackTakings(tree, p), i, owner);
  }

  /** Once a file of pack `a` took the path, it belongs to that pack until a manifest takes it. */
  lemma {:induction false} OwnerFollowsManifests(tree: map<string, Content>, packs: seq<Pack>, a: nat, n: nat,
                                                 path: string)
    requires a < n <= |packs| && Unclashing(Takings(tree, packs)) && ListsFile(packs[a], path) && path in tree
    ensures LastOwner(Takings(tree, packs[..n]), path) ==
            Some(ManifestOwner(packs[a + 1..n], path, packs[a].canonicalId))
    decreases n
  {
    hide Less, Joined, Unclashing, PackTakings, LastOwner;
    var p, before, mine := packs[n - 1], Takings(tree, packs[..n - 1]), PackTakings(tree, packs[n - 1]);
    assert packs[..n][..n - 1] == packs[..n - 1];
    TakingsPrefix(tree, packs, n);
    UnclashingPrefix(before + mine, Takings(tree, packs));
    PackTakes(tree, p, path);
    OwnTakings(mine, p.canonicalId, path);
    LastOwnerAcross(before, mine, path);
    if n - 1 == a {
      assert packs[a + 1..n] == [];
    } else {
      OwnerFollowsManifests(tree, packs, a, n - 1, path);
      assert packs[a + 1..n][..n - 1 - (a + 1)] == packs[a + 1..n - 1];
      if ListsFile(p, path) {
        FileAgrees(tree, before, p, path, ManifestOwner(packs[a + 1..n - 1], path, packs[a].canonicalId));
      }
    }
  }

  /**
   * Of two packs that list a file at one path, the later belongs to the canonical pack whose manifest
   * took the path last in between, or to the earlier one's if none did.
   */
  lemma LaterSharerIsManifestOwner(tree: map<string, Content>, digest: Content -> string, parses: Content -> bool,
                                   packs: seq<Pack>, a: nat, b: nat, path: string)
    requires PacksClean(tree, digest, parses, packs) && a < b < |packs| && ListsFile(packs[a], path) &&
             ListsFile(packs[b], path)
    ensures packs[b].canonicalId == ManifestOwner(packs[a + 1..b], path, packs[a].canonicalId)
  {
    hide Less, Unclashing, PackTakings, LastOwner;
    assert PackClean(tree, digest, parses, packs[a]);
    OwnerFollowsManifests(tree, packs, a, b, path);
    var before := Takings(tree, packs[..b]);
    assert packs[..b + 1][..b] == packs[..b];
    TakingsPrefix(tree, packs, b + 1);
    UnclashingPrefix(before + PackTakings(tree, packs[b]), Takings(tree, packs));
    FileAgrees(tree, before, packs[b], path, ManifestOwner(packs[a + 1..b], path, packs[a].canonicalId));
  }

  predicate Between(p: Pack, m: Pack, q: Pack) {
    Less(p.install, m.install) && Less(m.install, q.install)
  }

  /** The last manifest at the path between `p` and `q`, in install order. */
  ghost predicate LastManifest(installs: seq<Pack>, p: Pack, m: Pack, q: Pack, path: string) {
    && m in installs && Between(p, m, q) && ManifestPathOf(m) == path
    && forall l :: l in installs && Between(m, l, q) ==> ManifestPathOf(l) != path
  }

  /** The last manifest at the path between `p` and `q` is that of another canonical pack than `p`. */
  ghost predicate ManifestStandsBetween(installs: seq<Pack>, p: Pack, q: Pack, path: string) {
    exists m :: LastManifest(installs, p, m, q, path) && m.canonicalId != p.canonicalId
  }

  lemma {:induction false} ManifestOwnerIsLast(packs: seq<Pack>, path: string, start: string)
    ensures ManifestOwner(packs, path, start) != start ==>
              exists k :: 0 <= k < |packs| && ManifestPathOf(packs[k]) == path &&
                packs[k].canonicalId == ManifestOwner(packs, path, start)
                          && forall l :: k < l < |packs| ==> ManifestPathOf(packs[l]) != path
    decreases |packs|
  {
    hide ManifestPathOf;
    if packs != [] {
      var n := |packs| - 1;
      var front := packs[..n];
      if ManifestPathOf(packs[n]) == path {
        assert packs[n].canonicalId == ManifestOwner(packs, path, start);
      } else {
        ManifestOwnerIsLast(front, path, start);
        if ManifestOwner(front, path, start) != start {
          var k :| 0 <= k < |front| && ManifestPathOf(front[k]) == path &&
            front[k].canonicalId == ManifestOwner(front, path, start)
                   && forall l :: k < l < |front| ==> ManifestPathOf(front[l]) != path;
          assert packs[k] == front[k];
          forall l | k < l < |packs| ensures ManifestPathOf(packs[l]) != path {
            if l < n {
              assert packs[l] == front[l];
            }
          }
        }
      }
    }
  }

  lemma {:induction false} LastManifestOwns(packs: seq<Pack>, k: nat, path: string, start: string)
    requires k < |packs| && ManifestPathOf(packs[k]) == path
    requires forall l :: k < l < |packs| ==> ManifestPathOf(packs[l]) != path
    ensures ManifestOwner(packs, path, start) == packs[k].canonicalId
    decreases |packs|
  {
    hide ManifestPathOf;
    if k < |packs| - 1 {
      LastManifestOwns(packs[..|packs| - 1], k, path, start);
    }
  }

  lemma PackBeforeIsComparison()
    ensures Comparison(PackBefore)
  {
    hide Less;
    forall a, b | PackBefore(a, b) ensures !PackBefore(b, a) {
      LessIsAsymmetric(if a.install != b.install then a.install else a.canonicalId,
                       if a.install != b.install then b.install else b.canonicalId);
    }
    forall a, b, c | !PackBefore(b, a) && !PackBefore(c, b) ensures !PackBefore(c, a) {
      if a.install == b.install == c.install {
        AtMostIsTransitive(a.canonicalId, b.canonicalId, c.canonicalId);
      } else if a.install == c.install {
        LessIsTotal(a.install, b.install);
      } else {
        InstallOrderChains(a, b, c);
      }
    }
  }

  lemma InstallOrderChains(a: Pack, b: Pack, c: Pack)
    requires !PackBefore(b, a) && !PackBefore(c, b) && a.install != c.install
    ensures !Less(c.install, a.install)
  {
    hide Less;
    if a.install != b.install && b.install != c.install {
      AtMostIsTransitive(a.install, b.install, c.install);
    }
  }

  /** The packs of a clean input stand in strict order of their install names. */
  lemma CleanPacksAscend(tree: map<string, Content>, digest: Content -> string, parses: Content -> bool,
                         packs: seq<Pack>, installs: seq<Pack>)
    requires packs == SortedBy(PackBefore, installs) && PacksClean(tree, digest, parses, packs)
    ensures forall i, j :: 0 <= i < j < |packs| ==> Less(packs[i].install, packs[j].install)
    ensures forall i, j :: 0 <= i < |packs| && 0 <= j < |packs| && Less(packs[i].install, packs[j].install) ==> i < j
  {
    hide Less, SortedBy, PackClean, Unclashing;
    PackBeforeIsComparison();
    SortedByIsOrdered(PackBefore, installs);
    forall i, j | 0 <= i < j < |packs| ensures Less(packs[i].install, packs[j].install) {
      LessIsTotal(packs[i].install, packs[j].install);
    }
    forall i, j | 0 <= i < |packs| && 0 <= j < |packs| && Less(packs[i].install, packs[j].install) ensures i < j {
      if j < i {
        LessIsAsymmetric(packs[i].install, packs[j].install);
      } else if i == j {
        LessIsIrreflexive(packs[i].install);
      }
    }
  }

  /**
   * `packs` ascends by install name, with `p` at `a` and `q` at `b`: what stands between them is what is listed
   * between.
   */
  ghost predicate Placed(packs: seq<Pack>, p: Pack, a: nat, q: Pack, b: nat) {
    && a < b < |packs| && packs[a] == p && packs[b] == q
    && (forall i, j :: 0 <= i < j < |packs| ==> Less(packs[i].install, packs[j].install))
    && (forall i, j :: 0 <= i < |packs| && 0 <= j < |packs| && Less(packs[i].install, packs[j].install) ==> i < j)
  }

  lemma OwnerStandsBetween(packs: seq<Pack>, p: Pack, a: nat, q: Pack, b: nat, path: string)
    requires Placed(packs, p, a, q, b) && ManifestOwner(packs[a + 1..b], path, p.canonicalId) != p.canonicalId
    ensures ManifestStandsBetween(packs, p, q, path)
  {
    hide Less, ManifestPathOf;
    var middle := packs[a + 1..b];
    ManifestOwnerIsLast(middle, path, p.canonicalId);
    var k :| 0 <= k < |middle| && ManifestPathOf(middle[k]) == path
             && middle[k].canonicalId == ManifestOwner(middle, path, p.canonicalId)
             && forall l :: k < l < |middle| ==> ManifestPathOf(middle[l]) != path;
    var m := packs[a + 1 + k];
    assert m == middle[k] && m in packs && Between(p, m, q);
    forall l | l in packs && Between(m, l, q) ensures ManifestPathOf(l) != path {
      var i :| 0 <= i < |packs| && packs[i] == l;
      assert middle[i - (a + 1)] == l;
    }
    assert LastManifest(packs, p, m, q, path);
  }

  lemma BetweenOwns(packs: seq<Pack>, p: Pack, a: nat, m: Pack, q: Pack, b: nat, path: string)
    requires Placed(packs, p, a, q, b) && LastManifest(packs, p, m, q, path)
    ensures ManifestOwner(packs[a + 1..b], path, p.canonicalId) == m.canonicalId
  {
    hide Less, ManifestPathOf;
    var middle := packs[a + 1..b];
    var i :| 0 <= i < |packs| && packs[i] == m;
    var k := i - (a + 1);
    assert middle[k] == m;
    forall l | k < l < |middle| ensures ManifestPathOf(middle[l]) != path {
      assert middle[l] == packs[a + 1 + l] && packs[a + 1 + l] in packs && Between(m, packs[a + 1 + l], q);
    }
    LastManifestOwns(middle, k, path, p.canonicalId);
  }

  /**
   * A clean input shares a path between two canonical packs exactly when the last manifest at that path in
   * between is not the earlier one's: a manifest takes its path without asking who has it.
   */
  lemma SharedAcrossIff(tree: map<string, Content>, digest: Content -> string, parses: Content -> bool,
                        installs: seq<Pack>, assets: seq<AssetInput>, p: Pack, q: Pack, path: string)
    requires Clean(tree, digest, parses, SortedBy(PackBefore, installs), assets)
    requires p in installs && q in installs && Less(p.install, q.install) && ListsFile(p, path) && ListsFile(q, path)
    ensures p.canonicalId != q.canonicalId <==> ManifestStandsBetween(installs, p, q, path)
  {
    hide Less, SortedBy, PacksClean, AssetsClean, ManifestPathOf;
    var packs := SortedBy(PackBefore, installs);
    SameElements(installs, packs);
    CleanPacksAscend(tree, digest, parses, packs, installs);
    var a :| 0 <= a < |packs| && packs[a] == p;
    var b :| 0 <= b < |packs| && packs[b] == q;
    LaterSharerIsManifestOwner(tree, digest, parses, packs, a, b, path);
    if p.canonicalId != q.canonicalId {
      OwnerStandsBetween(packs, p, a, q, b, path);
      var m :| LastManifest(packs, p, m, q, path) && m.canonicalId != p.canonicalId;
      assert LastManifest(installs, p, m, q, path);
    } else if ManifestStandsBetween(installs, p, q, path) {
      var m :| LastManifest(installs, p, m, q, path) && m.canonicalId != p.canonicalId;
      BetweenOwns(packs, p, a, m, q, b, path);
    }
  }

  function SamplePack(install: string, canonicalId: string, directory: string, manifestPath: string, manifest: Content,
                      file: PackFile): Pack {
    Pack(install, canonicalId, "1", "", directory, "main.ldl", manifestPath, manifest, "registry", [file], [])
  }

  const SAMPLE_PATH := "p/q/r/f"
  const SAMPLE_OTHER := "p/q/f"

  /**
   * Three installs in nested directories: the outermost and the innermost list one file, which the second has as
   * manifest.
   */
  function SampleSharers(digest: string, own: Content, content: Content): seq<Pack> {
    [SamplePack("a", "x", "p", "", own, PackFile("q/r/f", digest)),
     SamplePack("b", "y", "p/q", "r/f", content, PackFile("f", digest)),
     SamplePack("c", "y", "p/q/r", "", content, PackFile("f", digest))]
  }

  function SampleTree(content: Content): map<string, Content> {
    map[SAMPLE_PATH := content, SAMPLE_OTHER := content]
  }

  lemma SampleNames()
    ensures Joined("p", "q/r/f") == Joined("p/q", "r/f") == Joined("p/q/r", "f") == SAMPLE_PATH &&
            Joined("p/q", "f") == SAMPLE_OTHER
    ensures forall directory :: directory in {"p", "p/q/r"} ==>
              Joined(directory, MANIFEST) !in {SAMPLE_PATH, SAMPLE_OTHER}
  {
    assert |Joined("p", MANIFEST)| == 15 && |Joined("p/q/r", MANIFEST)| == 19;
  }

  function SampleTaken(): seq<Taking> {
    [Taking(SAMPLE_PATH, "x", true), Taking(SAMPLE_OTHER, "y", true), Taking(SAMPLE_PATH, "y", false),
     Taking(SAMPLE_PATH, "y", true)]
  }

  lemma SamplePackTakings(digest: string, own: Content, content: Content)
    ensures var tree, packs := SampleTree(content), SampleSharers(digest, own, content);
            && PackTakings(tree, packs[0]) == SampleTaken()[..1] && PackTakings(tree, packs[1]) == SampleTaken()[1..3]
            && PackTakings(tree, packs[2]) == SampleTaken()[3..]
  {
    hide Joined;
    SampleNames();
    var packs := SampleSharers(digest, own, content);
    assert SortedBy(FileBefore, [PackFile("f", digest)]) == [PackFile("f", digest)];
    assert SortedBy(FileBefore, [PackFile("q/r/f", digest)]) == [PackFile("q/r/f", digest)];
  }

  lemma SampleTakings(digest: string, own: Content, content: Content)
    ensures Takings(SampleTree(content), SampleSharers(digest, own, content)) == SampleTaken()
  {
    hide PackTakings;
    var tree, packs := SampleTree(content), SampleSharers(digest, own, content);
    SamplePackTakings(digest, own, content);
    assert packs[..3] == packs && packs[..3][..2] == packs[..2] && packs[..2][..1] == packs[..1] &&
      packs[..1][..0] == [];
    assert Takings(tree, packs[..1]) == SampleTaken()[..1];
    assert Takings(tree, packs[..2]) == SampleTaken()[..3];
  }

  lemma SampleUnclashing()
    ensures Unclashing(SampleTaken())
  {
    var t := SampleTaken();
    assert t[..0] == [] && t[..1] == [t[0]] && t[..3] == [t[0], t[1], t[2]];
    assert SAMPLE_PATH != SAMPLE_OTHER by {
      assert |SAMPLE_PATH| != |SAMPLE_OTHER|;
    }
    assert LastOwner(t[..1], SAMPLE_OTHER).None?;
  }

  lemma SampleSorted(digest: string, own: Content, content: Content)
    ensures SortedBy(PackBefore, SampleSharers(digest, own, content)) == SampleSharers(digest, own, content)
  {
    var packs := SampleSharers(digest, own, content);
    assert !PackBefore(packs[1], packs[0]) && !PackBefore(packs[2], packs[1]);
    assert packs[2..] == [packs[2]] && packs[2..][1..] == [];
    assert SortedBy(PackBefore, packs[2..]) == [packs[2]];
    assert packs[1..][1..] == packs[2..];
    assert SortedBy(PackBefore, packs[1..]) == packs[1..];
  }

  lemma SamplePackIsClean(digest: Content -> string, parses: Content -> bool, own: Content, content: Content, i: nat)
    requires parses(own) && parses(content) && i < 3
    ensures PackClean(SampleTree(content), digest, parses, SampleSharers(digest(content), own, content)[i])
  {
    hide Joined;
    SampleNames();
  }

  /** A clean input in which two canonical packs, each with its own manifest, list one file. */
  lemma CleanInputSharesPath(digest: Content -> string, parses: Content -> bool, own: Content, content: Content)
    requires parses(own) && parses(content)
    ensures var packs := SampleSharers(digest(content), own, content);
            && SortedBy(PackBefore, packs) == packs && Clean(SampleTree(content), digest, parses, packs, [])
            && ListsFile(packs[0], SAMPLE_PATH) && ListsFile(packs[2], SAMPLE_PATH) &&
               packs[0].canonicalId != packs[2].canonicalId
  {
    hide Takings, Unclashing, SortedBy, PackClean, Joined;
    var tree, packs := SampleTree(content), SampleSharers(digest(content), own, content);
    SampleNames();
    SampleTakings(digest(content), own, content);
    SampleUnclashing();
    SampleSorted(digest(content), own, content);
    forall i | 0 <= i < |packs| ensures PackClean(tree, digest, parses, packs[i]) {
      SamplePackIsClean(digest, parses, own, content, i);
    }
    assert Takings(tree, packs)[0].path == SAMPLE_PATH && Takings(tree, packs)[1].path == SAMPLE_OTHER;
    assert packs[0].files[0] in packs[0].files && packs[2].files[0] in packs[2].files;
  }
}
