/**
 * The files of a container: which the manifest must cover, and what each of them is read as.
 */
module ContainerFiles {
  import opened FiniteSets
  import opened Options
  import opened TextOrder
  import opened PortableContainer

  // ----- The manifest covers the files exactly ------------------------------------------------

  const FORMAT := "layerdraw-document"
  const FORMAT_VERSION := 1
  const LANGUAGE := 1

  datatype Manifest = Manifest(
    format: string, formatVersion: int, language: int, entry: string, projectAddress: string, definitionHash: string,
    resolvedDigest: string, files: Option<map<string, string>>, redaction: Option<string>)

  predicate HasSuffix(s: string, suffix: string) {
    |suffix| <= |s| && s[|s| - |suffix|..] == suffix
  }

  predicate HexDigit(c: char) {
    '0' <= c <= '9' || 'a' <= c <= 'f'
  }

  predicate SemanticHash(s: string) {
    |s| == 71 && "sha256:" <= s && forall i :: 7 <= i < 71 ==> HexDigit(s[i])
  }

  /** The checks on the manifest alone; `normal` says whether a policy name is valid normalized text. */
  predicate HeaderOK(m: Manifest, normal: string -> bool) {
    && m.format == FORMAT && m.formatVersion == FORMAT_VERSION && m.language == LANGUAGE
    && m.entry != "" && HasSuffix(m.entry, ".ldl") && m.projectAddress != ""
    && SemanticHash(m.definitionHash) && SemanticHash(m.resolvedDigest) && m.files.Some?
    && (m.redaction.Some? ==> m.redaction.value != "" && normal(m.redaction.value))
  }

  /** Every file but the manifest itself is listed under its digest, and nothing else is listed. */
  ghost predicate Covers(m: Manifest, files: map<string, Content>, digest: Content -> string)
    requires m.files.Some?
  {
    && MANIFEST in files && m.files.value.Keys == files.Keys - {MANIFEST}
    && forall name :: name in m.files.value ==>
       SemanticHash(m.files.value[name]) && m.files.value[name] == digest(files[name])
  }

  ghost predicate ManifestHolds(m: Manifest, files: map<string, Content>, digest: Content -> string,
                                normal: string -> bool) {
    && HeaderOK(m, normal) && Covers(m, files, digest)
    && m.entry in files && RESOLVED in files && digest(files[RESOLVED]) == m.resolvedDigest
  }

  /** A length check and lookups in one direction are enough to make the two sets of names equal. */
  method ValidateManifest(m: Manifest, files: map<string, Content>, digest: Content -> string, normal: string -> bool)
    returns (ok: bool)
    ensures ok <==> ManifestHolds(m, files, digest, normal)
  {
    hide SemanticHash;
    if !HeaderOK(m, normal) {
      return false;
    }
    var listed := m.files.value;
    if MANIFEST in listed {
      return false;
    }
    if |listed| != |files| - 1 {
      CoverSize(listed.Keys, files.Keys);
      assert |listed| == |listed.Keys| && |files| == |files.Keys|;
      return false;
    }
    var pending := files.Keys - {MANIFEST};
    while pending != {}
      invariant pending <= files.Keys - {MANIFEST}
      invariant forall name :: name in files.Keys - {MANIFEST} - pending ==>
                  name in listed && SemanticHash(listed[name]) && listed[name] == digest(files[name])
      decreases |pending|
    {
      var name :| name in pending;
      if name !in listed || !SemanticHash(listed[name]) || digest(files[name]) != listed[name] {
        return false;
      }
      pending := pending - {name};
    }
    assert |listed| == |listed.Keys| && |files| == |files.Keys|;
    OneWayCovers(listed.Keys, files.Keys);
    return m.entry in files && RESOLVED in files && digest(files[RESOLVED]) == m.resolvedDigest;
  }

  lemma CoverSize(listed: set<string>, names: set<string>)
    ensures MANIFEST in names && listed == names - {MANIFEST} ==> |listed| == |names| - 1
  {
  }

  /** If all names but one are listed, and the counts match, then that one is a name and nothing else is listed. */
  lemma OneWayCovers(listed: set<string>, names: set<string>)
    requires MANIFEST !in listed && |listed| == |names| - 1 && names - {MANIFEST} <= listed
    ensures MANIFEST in names && listed == names - {MANIFEST}
  {
    if MANIFEST !in names {
      assert names - {MANIFEST} == names;
      SubsetSize(names, listed);
    } else {
      assert |names - {MANIFEST}| == |names| - 1;
      SubsetOfSize(names - {MANIFEST}, listed);
    }
  }

  /** The manifest the writer makes for its files is one the reader's cover check accepts. */
  lemma WrittenManifestCovers(m: Manifest, files: map<string, Content>, manifest: Content, digest: Content -> string)
    requires MANIFEST !in files && forall c :: SemanticHash(digest(c))
    requires m.files == Some(map name | name in files :: digest(files[name]))
    ensures Covers(m, files[MANIFEST := manifest], digest)
  {
    var all := files[MANIFEST := manifest];
    assert all.Keys - {MANIFEST} == files.Keys;
  }

  // ----- What the packs claim -----------------------------------------------------------------

  datatype Claim = Claim(path: string, packId: string, locator: string)

  function PackClaims(p: Pack): seq<Claim> {
    [Claim(Joined(p.path, p.manifestPath), p.canonicalId, p.manifestPath)]
    + seq(|p.files|, i requires 0 <= i < |p.files| => Claim(Joined(p.path, p.files[i].path), p.canonicalId,
                                                            p.files[i].path))
  }

  function Claims(installs: seq<Pack>): seq<Claim> {
    if installs == [] then [] else Claims(installs[..|installs| - 1]) + PackClaims(installs[|installs| - 1])
  }

  ghost predicate Unshared(claims: seq<Claim>) {
    forall i, j :: 0 <= i < j < |claims| ==> claims[i].path != claims[j].path
  }

  function ClaimAt(claims: seq<Claim>, path: string): Option<Claim> {
    if claims == [] then None
    else if claims[|claims| - 1].path == path then Some(claims[|claims| - 1])
    else ClaimAt(claims[..|claims| - 1], path)
  }

  lemma {:induction false} ClaimAtIsClaim(claims: seq<Claim>, path: string)
    ensures ClaimAt(claims, path).Some? <==> exists c :: c in claims && c.path == path
    ensures ClaimAt(claims, path).Some? ==>
              ClaimAt(claims, path).value in claims && ClaimAt(claims, path).value.path == path
    decreases |claims|
  {
    if claims != [] {
      var front, last := claims[..|claims| - 1], claims[|claims| - 1];
      assert claims == front + [last];
      ClaimAtIsClaim(front, path);
      assert forall c :: c in claims <==> c in front || c == last;
    }
  }

  ghost predicate Claimed(packFiles: map<string, Claim>, claims: seq<Claim>) {
    forall path :: ClaimAt(claims, path) == if path in packFiles then Some(packFiles[path]) else None
  }

  method ClaimAll(packFiles: map<string, Claim>, ghost before: seq<Claim>, claims: seq<Claim>)
    returns (ok: bool, result: map<string, Claim>)
    requires Claimed(packFiles, before) && Unshared(before)
    ensures ok <==> Unshared(before + claims)
    ensures ok ==> Claimed(result, before + claims)
  {
    result := packFiles;
    assert before + [] == before;
    for i := 0 to |claims|
      invariant Unshared(before + claims[..i]) && Claimed(result, before + claims[..i])
    {
      ghost var done := before + claims[..i];
      assert before + claims[..i + 1] == done + [claims[i]];
      if claims[i].path in result {
        SharedStaysShared(done, claims[i], before + claims, result);
        return false, result;
      }
      ClaimNext(result, done, claims[i]);
      result := result[claims[i].path := claims[i]];
    }
    assert claims[..|claims|] == claims;
    return true, result;
  }

  lemma ClaimNext(packFiles: map<string, Claim>, done: seq<Claim>, c: Claim)
    requires Claimed(packFiles, done) && Unshared(done) && c.path !in packFiles
    ensures Claimed(packFiles[c.path := c], done + [c]) && Unshared(done + [c])
  {
    assert (done + [c])[..|done|] == done;
    ClaimAtIsClaim(done, c.path);
    forall i | 0 <= i < |done| ensures done[i].path != c.path {
      assert done[i] in done;
    }
  }

  lemma SharedStaysShared(done: seq<Claim>, c: Claim, all: seq<Claim>, packFiles: map<string, Claim>)
    requires Claimed(packFiles, done) && c.path in packFiles && done + [c] <= all
    ensures !Unshared(all)
  {
    ClaimAtIsClaim(done, c.path);
    var i :| 0 <= i < |done| && done[i].path == c.path;
    assert all[i] == done[i] && all[|done|] == c;
  }

  lemma {:induction false} ClaimsPrefix(installs: seq<Pack>, n: nat)
    requires n <= |installs|
    ensures Claims(installs[..n]) <= Claims(installs)
    decreases |installs| - n
  {
    if n == |installs| {
      assert installs[..n] == installs;
    } else {
      assert installs[..n + 1][..n] == installs[..n];
      ClaimsPrefix(installs, n + 1);
    }
  }

  lemma UnsharedPrefix(a: seq<Claim>, b: seq<Claim>)
    requires a <= b && Unshared(b)
    ensures Unshared(a)
  {
  }

  method CollectClaims(installs: seq<Pack>) returns (ok: bool, packFiles: map<string, Claim>)
    ensures ok <==> Unshared(Claims(installs))
    ensures ok ==> Claimed(packFiles, Claims(installs))
  {
    packFiles := map[];
    for n := 0 to |installs|
      invariant Unshared(Claims(installs[..n])) && Claimed(packFiles, Claims(installs[..n]))
    {
      assert installs[..n + 1][..n] == installs[..n];
      ok, packFiles := ClaimAll(packFiles, Claims(installs[..n]), PackClaims(installs[n]));
      if !ok {
        ClaimsPrefix(installs, n + 1);
        if Unshared(Claims(installs)) {
          UnsharedPrefix(Claims(installs[..n + 1]), Claims(installs));
        }
        return;
      }
    }
    assert installs[..|installs|] == installs;
    return true, packFiles;
  }

  /** Claims are unshared exactly when no pack claims a path twice and no two packs claim the same one. */
  lemma {:induction false} UnsharedIffApart(installs: seq<Pack>)
    ensures Unshared(Claims(installs)) <==>
              && (forall i :: 0 <= i < |installs| ==> Unshared(PackClaims(installs[i])))
              && forall i, j :: 0 <= i < j < |installs| ==> Apart(installs[i], installs[j])
    decreases |installs|
  {
    hide PackClaims;
    if installs != [] {
      var front, last := installs[..|installs| - 1], installs[|installs| - 1];
      UnsharedIffApart(front);
      UnsharedSum(Claims(front), PackClaims(last));
      if forall c, d :: c in Claims(front) && d in PackClaims(last) ==> c.path != d.path {
        forall i | 0 <= i < |front| ensures Apart(front[i], last) {
          forall c | c in PackClaims(front[i]) ensures c in Claims(front) {
            ClaimsContain(front, i, c);
          }
        }
      } else {
        var c, d :| c in Claims(front) && d in PackClaims(last) && c.path == d.path;
        var i := ClaimantOf(front, c);
        assert !Apart(installs[i], installs[|installs| - 1]);
      }
    }
  }

  ghost predicate Apart(p: Pack, q: Pack) {
    forall c, d :: c in PackClaims(p) && d in PackClaims(q) ==> c.path != d.path
  }

  lemma UnsharedSum(a: seq<Claim>, b: seq<Claim>)
    ensures Unshared(a + b) <==> Unshared(a) && Unshared(b) && forall c, d :: c in a && d in b ==> c.path != d.path
  {
    if Unshared(a + b) {
      forall i, j | 0 <= i < j < |b| ensures b[i].path != b[j].path {
        assert (a + b)[|a| + i] == b[i] && (a + b)[|a| + j] == b[j];
      }
      forall c, d | c in a && d in b ensures c.path != d.path {
        var i :| 0 <= i < |a| && a[i] == c;
        var j :| 0 <= j < |b| && b[j] == d;
        assert (a + b)[i] == c && (a + b)[|a| + j] == d;
      }
      UnsharedPrefix(a, a + b);
    }
  }

  lemma {:induction false} ClaimsContain(installs: seq<Pack>, i: nat, c: Claim)
    requires i < |installs| && c in PackClaims(installs[i])
    ensures c in Claims(installs)
    decreases |installs|
  {
    if i < |installs| - 1 {
      ClaimsContain(installs[..|installs| - 1], i, c);
    }
  }

  lemma {:induction false} ClaimantOf(installs: seq<Pack>, c: Claim) returns (i: nat)
    requires c in Claims(installs)
    ensures i < |installs| && c in PackClaims(installs[i])
    decreases |installs|
  {
    var front, last := installs[..|installs| - 1], installs[|installs| - 1];
    if c in PackClaims(last) {
      i := |installs| - 1;
    } else {
      i := ClaimantOf(front, c);
    }
  }

  // ----- Reading each file as what it is ------------------------------------------------------

  datatype Origin = ProjectOrigin | PackOrigin
  datatype Asset = Asset(origin: Origin, packId: string, locator: string, content: Content, media: string)

  datatype Class = ReservedFile | PackFileOf(claim: Claim) | StrayInPack | SourceFile | ProjectAsset | ForbiddenFile

  predicate Unreadable(c: Class) {
    c.StrayInPack? || c.ForbiddenFile?
  }

  predicate Reserved(name: string) {
    || name == MANIFEST || name == RESOLVED || name == "document.json" || name == "layerdraw.index.json"
    || "state/query-snapshots/" <= name || "previews/" <= name || "exports/" <= name
  }

  predicate InsidePack(installs: seq<Pack>, name: string) {
    exists i :: 0 <= i < |installs| && installs[i].path + "/" <= name
  }

  function ClassOf(installs: seq<Pack>, media: (string, Content) -> string, name: string, c: Content): Class {
    if Reserved(name) then ReservedFile
    else if ClaimAt(Claims(installs), name).Some? then PackFileOf(ClaimAt(Claims(installs), name).value)
    else if InsidePack(installs, name) then StrayInPack
    else if HasSuffix(name, ".ldl") then SourceFile
    else if "assets/" <= name && media(name, c) != "" then ProjectAsset
    else ForbiddenFile
  }

  function AssetFor(kind: Class, media: (string, Content) -> string, name: string, c: Content): Option<Asset> {
    match kind
    case PackFileOf(claim) =>
      if media(name, c) != "" then Some(Asset(PackOrigin, claim.packId, claim.locator, c, media(name, c))) else None
    case ProjectAsset => Some(Asset(ProjectOrigin, "", name, c, media(name, c)))
    case _ => None
  }

  function AssetOf(installs: seq<Pack>, media: (string, Content) -> string, name: string, c: Content)
    : Option<Asset>
  {
    AssetFor(ClassOf(installs, media, name, c), media, name, c)
  }

  datatype Sorting = Sorting(tree: map<string, Content>, sources: map<string, Content>, assets: seq<Asset>)

  function AssetKey(a: Asset): string {
    (if a.origin == ProjectOrigin then "project" else "pack") + "\0" + a.packId + "\0" + a.locator
  }

  function AssetBefore(a: Asset, b: Asset): bool {
    Less(AssetKey(a), AssetKey(b))
  }

  /** Every file of `done` is in its place, and the assets are the images among them. */
  ghost predicate SortedInto(installs: seq<Pack>, media: (string, Content) -> string,
                          files: map<string, Content>, done: set<string>, r: Sorting)
    requires done <= files.Keys
  {
    && (forall name :: name in r.tree <==> name in done && ClassOf(installs, media, name, files[name]).PackFileOf?)
    && (forall name :: name in r.tree ==> r.tree[name] == files[name])
    && (forall name :: name in r.sources <==> name in done && ClassOf(installs, media, name, files[name]).SourceFile?)
    && (forall name :: name in r.sources ==> r.sources[name] == files[name])
    && (forall a :: a in r.assets <==>
      exists name :: name in done && AssetOf(installs, media, name, files[name]) == Some(a))
    && (forall name :: name in done ==>
          !Unreadable(ClassOf(installs, media, name, files[name])))
  }

  /** A container can be read as far as its files go: no claim is shared, and each file has a place. */
  ghost predicate Sortable(files: map<string, Content>, installs: seq<Pack>, media: (string, Content) -> string) {
    && Unshared(Claims(installs))
    && forall name :: name in files ==> !Unreadable(ClassOf(installs, media, name, files[name]))
  }

  method InsideAnyPack(installs: seq<Pack>, name: string) returns (inside: bool)
    ensures inside <==> InsidePack(installs, name)
  {
    for i := 0 to |installs|
      invariant forall k :: 0 <= k < i ==> !(installs[k].path + "/" <= name)
    {
      if installs[i].path + "/" <= name {
        return true;
      }
    }
    return false;
  }

  function Placed(r: Sorting, kind: Class, media: (string, Content) -> string, name: string, c: Content): Sorting {
    var asset := AssetFor(kind, media, name, c);
    Sorting(if kind.PackFileOf? then r.tree[name := c] else r.tree,
            if kind.SourceFile? then r.sources[name := c] else r.sources,
            if asset.Some? then r.assets + [asset.value] else r.assets)
  }

  lemma PlacedKeepsSorted(installs: seq<Pack>, media: (string, Content) -> string,
                          files: map<string, Content>, done: set<string>, r: Sorting, name: string)
    requires done <= files.Keys && SortedInto(installs, media, files, done, r) && name in files && name !in done
    requires !Unreadable(ClassOf(installs, media, name, files[name]))
    ensures SortedInto(installs, media, files, done + {name},
                       Placed(r, ClassOf(installs, media, name, files[name]), media, name, files[name]))
  {
    hide ClassOf, AssetFor;
    var n := Placed(r, ClassOf(installs, media, name, files[name]), media, name, files[name]);
    var asset := AssetOf(installs, media, name, files[name]);
    assert forall a :: a in n.assets <==> a in r.assets || asset == Some(a);
  }

  method SortOne(packFiles: map<string, Claim>, installs: seq<Pack>, media: (string, Content) -> string, r: Sorting,
                 name: string, c: Content) returns (next: Option<Sorting>)
    requires Claimed(packFiles, Claims(installs))
    ensures var kind := ClassOf(installs, media, name, c);
            next == if Unreadable(kind) then None else Some(Placed(r, kind, media, name, c))
  {
    hide Reserved, InsidePack, HasSuffix, Claims, ClaimAt;
    assert ClaimAt(Claims(installs), name) == if name in packFiles then Some(packFiles[name]) else None;
    if Reserved(name) {
      return Some(r);
    }
    if name in packFiles {
      var image := media(name, c);
      var assets := if image == "" then r.assets
                    else r.assets + [Asset(PackOrigin, packFiles[name].packId, packFiles[name].locator, c, image)];
      return Some(Sorting(r.tree[name := c], r.sources, assets));
    }
    var inside := InsideAnyPack(installs, name);
    if inside {
      return None;
    }
    if HasSuffix(name, ".ldl") {
      return Some(r.(sources := r.sources[name := c]));
    }
    if "assets/" <= name {
      var image := media(name, c);
      if image != "" {
        return Some(r.(assets := r.assets + [Asset(ProjectOrigin, "", name, c, image)]));
      }
    }
    return None;
  }

  method SortFiles(files: map<string, Content>, installs: seq<Pack>, media: (string, Content) -> string)
    returns (result: Option<Sorting>)
    ensures result.Some? <==> Sortable(files, installs, media)
    ensures result.Some? ==>
              SortedInto(installs, media, files, files.Keys, result.value) && Ordered(AssetBefore, result.value.assets)
  {
    hide ClassOf, AssetOf, AssetFor, SortedInto, Placed, Less, Claims, Claimed;
    var ok, packFiles := CollectClaims(installs);
    if !ok {
      return None;
    }
    var r := Sorting(map[], map[], []);
    NothingSorted(installs, media, files);
    var pending := files.Keys;
    assert files.Keys - pending == {};
    while pending != {}
      invariant pending <= files.Keys
      invariant forall name :: name in files.Keys - pending ==> !Unreadable(ClassOf(installs, media, name, files[name]))
      invariant SortedInto(installs, media, files, files.Keys - pending, r)
      decreases |pending|
    {
      var name :| name in pending;
      var next := SortOne(packFiles, installs, media, r, name, files[name]);
      if next.None? {
        return None;
      }
      PlacedKeepsSorted(installs, media, files, files.Keys - pending, r, name);
      assert files.Keys - pending + {name} == files.Keys - (pending - {name});
      pending := pending - {name};
      r := next.value;
    }
    assert files.Keys - pending == files.Keys;
    AssetBeforeIsComparison();
    SortedByIsOrdered(AssetBefore, r.assets);
    AssetOrderIsImmaterial(installs, media, files, r);
    return Some(r.(assets := SortedBy(AssetBefore, r.assets)));
  }

  lemma NothingSorted(installs: seq<Pack>, media: (string, Content) -> string, files: map<string, Content>)
    ensures SortedInto(installs, media, files, {}, Sorting(map[], map[], []))
  {
  }

  lemma AssetBeforeIsComparison()
    ensures Comparison(AssetBefore)
  {
    hide Less, AssetKey;
    LessIsComparison();
    forall a, b | AssetBefore(a, b) ensures !AssetBefore(b, a) {
      LessIsAsymmetric(AssetKey(a), AssetKey(b));
    }
    forall a, b, c | !AssetBefore(b, a) && !AssetBefore(c, b) ensures !AssetBefore(c, a) {
      AtMostIsTransitive(AssetKey(a), AssetKey(b), AssetKey(c));
    }
  }

  lemma AssetOrderIsImmaterial(installs: seq<Pack>, media: (string, Content) -> string,
                               files: map<string, Content>, r: Sorting)
    requires SortedInto(installs, media, files, files.Keys, r)
    ensures SortedInto(installs, media, files, files.Keys, r.(assets := SortedBy(AssetBefore, r.assets)))
  {
    hide ClassOf, AssetOf, Less;
    SameElements(r.assets, SortedBy(AssetBefore, r.assets));
  }

  /** One file, one reading: reserved, a pack file, a source or a project asset, with its content unchanged. */
  lemma EveryFileIsReadOnce(installs: seq<Pack>, media: (string, Content) -> string,
                            files: map<string, Content>, r: Sorting, name: string)
    requires SortedInto(installs, media, files, files.Keys, r) && name in files
    ensures var asset := Asset(ProjectOrigin, "", name, files[name], media(name, files[name]));
            if Reserved(name) then name !in r.tree && name !in r.sources && asset !in r.assets
            else if exists c :: c in Claims(installs) && c.path == name then
              name in r.tree && r.tree[name] == files[name] && name !in r.sources && asset !in r.assets
            else if name in r.sources then r.sources[name] == files[name] && name !in r.tree && asset !in r.assets
            else name !in r.tree && asset in r.assets && asset.media != ""
  {
    hide Reserved, InsidePack, HasSuffix;
    ClaimAtIsClaim(Claims(installs), name);
    var asset := Asset(ProjectOrigin, "", name, files[name], media(name, files[name]));
    if asset in r.assets {
      var n :| n in files && AssetOf(installs, media, n, files[n]) == Some(asset);
      assert n == name;
    }
  }
}
