/**
 * Writing a container and reading it back: how the writer puts the files together, its own reading of
 * them before it emits anything, and what the reader makes of an emitted container.
 */
module ContainerWriter {
  import opened Options
  import opened TextOrder
  import opened PortableContainer
  import opened ContainerFiles
  import ClosedInput

  type Files = map<string, Content>

  const DOCUMENT := "document.json"
  const INDEX := "layerdraw.index.json"
  const STATE := "state/"
  const SNAPSHOTS := "state/query-snapshots/"

  /** What a decoded state snapshot is named by, and whether it leaves anything out. */
  datatype Snapshot = Snapshot(hash: string, redacted: bool)

  /** The hash, the image sniffer, the JSON codecs, the text checks and the decoder of state snapshots. */
  datatype Tools = Tools(
    digest: Content -> string, media: (string, Content) -> string, parses: Content -> bool, canonical: Content -> bool,
    normal: string -> bool, encode: Document -> Content, decode: Content -> Option<Document>,
    render: Manifest -> Content, snapshot: Content -> Option<Snapshot>)

  ghost predicate Sound(t: Tools) {
    (forall c :: SemanticHash(t.digest(c))) && forall d :: t.decode(t.encode(d)) == Some(d)
  }

  datatype State = State(hash: string, content: Content, redacted: bool)

  datatype WriteInput = WriteInput(
    mode: ClosedInput.Mode, entry: string, rootPack: string, envelope: Envelope, sources: Files, tree: Files,
    installs: seq<Pack>, assets: seq<ClosedInput.AssetInput>, states: seq<State>, artifacts: Files, policy: string)

  /** What the compiler and the index make of an input that compiles. */
  datatype Compiled = Compiled(address: string, definitionHash: string, document: Content, index: Content)

  /** What the later stages of the compiler have checked, and that a written state is decoded as what it was. */
  ghost predicate Promised(t: Tools, input: WriteInput, c: Compiled) {
    && input.entry in input.sources && (forall name :: name in input.sources ==> HasSuffix(name, ".ldl"))
    && c.address != "" && SemanticHash(c.definitionHash)
    && forall s :: s in input.states ==>
         SemanticHash("sha256:" + s.hash) && t.snapshot(s.content) == Some(Snapshot(s.hash, s.redacted))
  }

  // ----- Putting the files together -----------------------------------------------------------

  function WithManifests(t: Tools, files: Files, installs: seq<Pack>): Option<Files> {
    if installs == [] then Some(files)
    else
      var front, last := WithManifests(t, files, installs[..|installs| - 1]), installs[|installs| - 1];
      if front.None? || !Agrees(front.value, ManifestPathOf(last), last.manifest) || !t.canonical(last.manifest)
      then None
      else Some(front.value[ManifestPathOf(last) := last.manifest])
  }

  function WithAssets(files: Files, assets: seq<ClosedInput.AssetInput>): Option<Files> {
    if assets == [] then Some(files)
    else
      var front, last := WithAssets(files, assets[..|assets| - 1]), assets[|assets| - 1];
      if front.None? || !last.origin.ProjectAsset? then front
      else if !Agrees(front.value, last.locator, last.content) then None
      else Some(front.value[last.locator := last.content])
  }

  predicate Agrees(files: Files, name: string, content: Content) {
    name in files ==> files[name] == content
  }

  function SnapshotName(s: State): string {
    SNAPSHOTS + s.hash + ".json"
  }

  function WithStates(files: Files, states: seq<State>): Files {
    if states == [] then files
    else WithStates(files, states[..|states| - 1])[SnapshotName(states[|states| - 1]) := states[|states| - 1].content]
  }

  predicate ArtifactName(name: string) {
    "previews/" <= name || "exports/" <= name
  }

  ghost predicate ArtifactsFit(files: Files, artifacts: Files) {
    forall name :: name in artifacts ==> ArtifactName(name) && name !in files
  }

  /** The files before the manifest is made, or nothing when two of them disagree or one is misplaced. */
  ghost function Assembled(t: Tools, input: WriteInput, c: Compiled): Option<Files> {
    var document := DocumentOf(input.envelope, input.installs);
    if input.sources.Keys * input.tree.Keys != {} || document.None? then None
    else
      var manifests := WithManifests(t, (input.sources + input.tree)[RESOLVED := t.encode(document.value)],
                                     input.installs);
      var assets := if manifests.None? then None else WithAssets(manifests.value, input.assets);
      if assets.None? then None
      else
        var derived := WithStates(assets.value[DOCUMENT := c.document][INDEX := c.index], input.states);
        if ArtifactsFit(derived, input.artifacts) then Some(derived + input.artifacts) else None
  }

  method Union(files: Files, more: Files) returns (result: Option<Files>)
    ensures result == if files.Keys * more.Keys == {} then Some(files + more) else None
  {
    hide Joins;
    var all: Files := files;
    var pending := more.Keys;
    JoinsNothing(files, more);
    while pending != {}
      invariant Joins(files, more, pending, all)
      decreases |pending|
    {
      var name :| name in pending;
      JoinsNext(files, more, pending, all, name);
      if name in all {
        return None;
      }
      pending := pending - {name};
      all := all[name := more[name]];
    }
    JoinsAll(files, more, all);
    return Some(all);
  }

  /** The files outside `pending` are new, and joined. */
  ghost predicate Joins(files: Files, more: Files, pending: set<string>, all: Files) {
    && pending <= more.Keys && (forall name :: name in more && name !in pending ==> name !in files)
    && all.Keys == files.Keys + (more.Keys - pending)
    && forall name :: name in all ==> all[name] == if name in files then files[name] else more[name]
  }

  lemma JoinsNothing(files: Files, more: Files)
    ensures Joins(files, more, more.Keys, files)
  {
  }

  lemma JoinsNext(files: Files, more: Files, pending: set<string>, all: Files, name: string)
    requires Joins(files, more, pending, all) && name in pending
    ensures name in more && (name in all <==> name in files) && (name in files ==> files.Keys * more.Keys != {})
    ensures name !in files ==> Joins(files, more, pending - {name}, all[name := more[name]])
  {
    if name in files {
      assert name in files.Keys * more.Keys;
    }
  }

  lemma JoinsAll(files: Files, more: Files, all: Files)
    requires Joins(files, more, {}, all)
    ensures files.Keys * more.Keys == {} && all == files + more
  {
  }

  method AddManifests(t: Tools, files: Files, installs: seq<Pack>) returns (result: Option<Files>)
    ensures result == WithManifests(t, files, installs)
  {
    var all: Files := files;
    for i := 0 to |installs|
      invariant WithManifests(t, files, installs[..i]) == Some(all)
    {
      assert installs[..i + 1][..i] == installs[..i];
      var p := installs[i];
      if (ManifestPathOf(p) in all && all[ManifestPathOf(p)] != p.manifest) || !t.canonical(p.manifest) {
        ManifestsStayRefused(t, files, installs, i + 1);
        return None;
      }
      all := all[ManifestPathOf(p) := p.manifest];
    }
    assert installs[..|installs|] == installs;
    return Some(all);
  }

  lemma {:induction false} ManifestsStayRefused(t: Tools, files: Files, installs: seq<Pack>, n: nat)
    requires n <= |installs| && WithManifests(t, files, installs[..n]).None?
    ensures WithManifests(t, files, installs).None?
    decreases |installs| - n
  {
    if n == |installs| {
      assert installs[..n] == installs;
    } else {
      assert installs[..n + 1][..n] == installs[..n];
      ManifestsStayRefused(t, files, installs, n + 1);
    }
  }

  method AddAssets(files: Files, assets: seq<ClosedInput.AssetInput>) returns (result: Option<Files>)
    ensures result == WithAssets(files, assets)
  {
    var all: Files := files;
    for i := 0 to |assets|
      invariant WithAssets(files, assets[..i]) == Some(all)
    {
      assert assets[..i + 1][..i] == assets[..i];
      var a := assets[i];
      if !a.origin.ProjectAsset? {
        continue;
      }
      if a.locator in all && all[a.locator] != a.content {
        AssetsStayRefused(files, assets, i + 1);
        return None;
      }
      all := all[a.locator := a.content];
    }
    assert assets[..|assets|] == assets;
    return Some(all);
  }

  lemma {:induction false} AssetsStayRefused(files: Files, assets: seq<ClosedInput.AssetInput>, n: nat)
    requires n <= |assets| && WithAssets(files, assets[..n]).None?
    ensures WithAssets(files, assets).None?
    decreases |assets| - n
  {
    if n == |assets| {
      assert assets[..n] == assets;
    } else {
      assert assets[..n + 1][..n] == assets[..n];
      AssetsStayRefused(files, assets, n + 1);
    }
  }

  method AddStates(files: Files, states: seq<State>) returns (all: Files)
    ensures all == WithStates(files, states)
  {
    all := files;
    for i := 0 to |states|
      invariant all == WithStates(files, states[..i])
    {
      assert states[..i + 1][..i] == states[..i];
      all := all[SNAPSHOTS + states[i].hash + ".json" := states[i].content];
    }
    assert states[..|states|] == states;
  }

  method AddArtifacts(files: Files, artifacts: Files) returns (result: Option<Files>)
    ensures result.Some? <==> ArtifactsFit(files, artifacts)
    ensures result.Some? ==> result.value == files + artifacts
  {
    var pending := artifacts.Keys;
    while pending != {}
      invariant pending <= artifacts.Keys
      invariant forall name :: name in artifacts.Keys - pending ==> ArtifactName(name)
      decreases |pending|
    {
      var name :| name in pending;
      if !ArtifactName(name) {
        return None;
      }
      pending := pending - {name};
    }
    result := Union(files, artifacts);
    if files.Keys * artifacts.Keys != {} {
      var name :| name in files.Keys * artifacts.Keys;
      assert name in artifacts && name in files;
    } else {
      forall name | name in artifacts ensures name !in files {
        assert name !in files.Keys * artifacts.Keys;
      }
    }
  }

  method Assemble(t: Tools, input: WriteInput, c: Compiled) returns (result: Option<Files>)
    ensures result == Assembled(t, input, c)
  {
    hide WithManifests, WithAssets, WithStates;
    result := Union(input.sources, input.tree);
    if result.None? {
      return None;
    }
    var document := CanonicalResolved(input.envelope, input.installs);
    if document.None? {
      return None;
    }
    result := AddManifests(t, result.value[RESOLVED := t.encode(document.value)], input.installs);
    if result.None? {
      return None;
    }
    result := AddAssets(result.value, input.assets);
    if result.None? {
      return None;
    }
    var derived := AddStates(result.value[DOCUMENT := c.document][INDEX := c.index], input.states);
    result := AddArtifacts(derived, input.artifacts);
  }

  // ----- Reading ------------------------------------------------------------------------------

  datatype CompileInput = CompileInput(packs: seq<Pack>, sorting: Sorting)

  ghost predicate Accepts(t: Tools, files: Files, packs: seq<Pack>) {
    && RESOLVED in files && t.decode(files[RESOLVED]).Some? && Supported(t.decode(files[RESOLVED]).value)
    && DecodesTo(files, t.decode(files[RESOLVED]).value.installs.value, packs) && Sortable(files, packs, t.media)
  }

  ghost predicate Acceptable(t: Tools, files: Files) {
    exists packs :: Accepts(t, files, packs)
  }

  lemma DecodedIsDecodable(files: Files, document: Document, packs: seq<Pack>)
    requires Supported(document) && DecodesTo(files, document.installs.value, packs)
    ensures Decodable(files, document)
  {
    hide Less, ReadBack, Readable;
    var stored := document.installs.value;
    forall name | name in stored ensures Readable(files, stored[name]) {
      assert name in InstallNames(packs);
      var i :| 0 <= i < |packs| && InstallNames(packs)[i] == name;
      assert packs[i] in packs;
      ReadBackIsReadable(files, name, stored[name], packs[i]);
    }
  }

  lemma ReadBackIsReadable(files: Files, name: string, stored: StoredPack, p: Pack)
    requires ReadBack(files, name, stored, p)
    ensures Readable(files, stored)
  {
  }

  /** `compileInputFromContainer`: it succeeds exactly when the metadata decodes and every file has a place. */
  method CompileInputFrom(t: Tools, files: Files) returns (result: Option<CompileInput>)
    ensures result.Some? <==> Acceptable(t, files)
    ensures result.Some? ==>
              && Accepts(t, files, result.value.packs)
              && SortedInto(result.value.packs, t.media, files, files.Keys, result.value.sorting)
  {
    hide Decodable, DecodesTo, Sortable, SortedInto;
    if RESOLVED !in files {
      return None;
    }
    var document := t.decode(files[RESOLVED]);
    if document.None? {
      return None;
    }
    if Acceptable(t, files) {
      var packs :| Accepts(t, files, packs);
      DecodedIsDecodable(files, document.value, packs);
    }
    var packs := DecodeInstalls(files, document.value);
    if packs.None? {
      return None;
    }
    DecodableIsSupported(files, document.value);
    var sorting := SortFiles(files, packs.value, t.media);
    if sorting.None? {
      if Acceptable(t, files) {
        var others :| Accepts(t, files, others);
        DecodingIsUnique(files, document.value.installs.value, packs.value, others);
      }
      return None;
    }
    assert Accepts(t, files, packs.value);
    return Some(CompileInput(packs.value, sorting.value));
  }

  lemma DecodableIsSupported(files: Files, document: Document)
    requires Decodable(files, document)
    ensures Supported(document)
  {
  }

  predicate NamedByState(t: Tools, name: string, content: Content) {
    SNAPSHOTS <= name && t.snapshot(content).Some? && name == SNAPSHOTS + t.snapshot(content).value.hash + ".json"
  }

  predicate Redacts(t: Tools, content: Content) {
    t.snapshot(content).Some? && t.snapshot(content).value.redacted
  }

  predicate IsStateFile(t: Tools, redaction: Option<string>, name: string, content: Content) {
    NamedByState(t, name, content) && (Redacts(t, content) ==> redaction.Some?)
  }

  /** Whatever lies under `state/` is a snapshot under its own name, and nothing is left out without a policy. */
  ghost predicate StatesHold(t: Tools, redaction: Option<string>, files: Files) {
    forall name :: name in files && STATE <= name ==> IsStateFile(t, redaction, name, files[name])
  }

  method ValidateStates(t: Tools, redaction: Option<string>, files: Files) returns (ok: bool)
    ensures ok <==> StatesHold(t, redaction, files)
  {
    hide NamedByState, Redacts;
    var redacted := false;
    var pending := files.Keys;
    while pending != {}
      invariant pending <= files.Keys
      invariant forall name :: name in files.Keys - pending && STATE <= name ==> NamedByState(t, name, files[name])
      invariant redacted <==> exists name :: name in files.Keys - pending && STATE <= name && Redacts(t, files[name])
      decreases |pending|
    {
      var name :| name in pending;
      pending := pending - {name};
      if STATE <= name {
        var snapshot := t.snapshot(files[name]);
        if !(SNAPSHOTS <= name) || !HasSuffix(name, ".json") || snapshot.None?
           || name != SNAPSHOTS + snapshot.value.hash + ".json" {
          StrayIsRefused(t, redaction, files, name);
          return false;
        }
        SnapshotIsNamed(t, name, files[name]);
        redacted := redacted || snapshot.value.redacted;
      }
    }
    return !redacted || redaction.Some?;
  }

  lemma StrayIsRefused(t: Tools, redaction: Option<string>, files: Files, name: string)
    requires name in files && STATE <= name
    requires var snapshot := t.snapshot(files[name]);
             !(SNAPSHOTS <= name) || !HasSuffix(name, ".json") || snapshot.None? ||
             name != SNAPSHOTS + snapshot.value.hash + ".json"
    ensures !StatesHold(t, redaction, files)
  {
    if NamedByState(t, name, files[name]) {
      assert HasSuffix(name, ".json");
    }
  }

  lemma SnapshotIsNamed(t: Tools, name: string, content: Content)
    requires SNAPSHOTS <= name && t.snapshot(content).Some?
    requires name == SNAPSHOTS + t.snapshot(content).value.hash + ".json"
    ensures NamedByState(t, name, content) && (Redacts(t, content) <==> t.snapshot(content).value.redacted)
  {
  }

  /** The reader: the manifest is checked against the files, then the files are read, then the states are checked. */
  method ReadContainer(t: Tools, m: Manifest, files: Files) returns (result: Option<CompileInput>)
    ensures result.Some? <==>
              ManifestHolds(m, files, t.digest, t.normal) && Acceptable(t, files) && StatesHold(t, m.redaction, files)
    ensures result.Some? ==>
              && Accepts(t, files, result.value.packs)
              && SortedInto(result.value.packs, t.media, files, files.Keys, result.value.sorting)
  {
    hide Acceptable, Accepts, SortedInto, ManifestHolds, StatesHold;
    var ok := ValidateManifest(m, files, t.digest, t.normal);
    if !ok {
      return None;
    }
    result := CompileInputFrom(t, files);
    if result.None? {
      return None;
    }
    ok := ValidateStates(t, m.redaction, files);
    if !ok {
      return None;
    }
  }

  // ----- Writing ------------------------------------------------------------------------------

  datatype Written = Written(manifest: Manifest, files: Files)

  predicate AnyRedacted(states: seq<State>) {
    exists s :: s in states && s.redacted
  }

  predicate PolicyFits(t: Tools, input: WriteInput) {
    if input.policy == "" then !AnyRedacted(input.states) else t.normal(input.policy)
  }

  /** The input passes the closed-input checks and the rest of the compiler. */
  ghost predicate Compiles(t: Tools, input: WriteInput, c: Option<Compiled>) {
    && input.mode.ProjectMode? && c.Some?
    && ClosedInput.HeaderClean(input.mode, input.rootPack, input.sources, input.envelope)
    && ClosedInput.Clean(input.tree, t.digest, t.parses, SortedBy(ClosedInput.PackBefore, input.installs), input.assets)
  }

  function Redaction(input: WriteInput): Option<string> {
    if input.policy != "" then Some(input.policy) else None
  }

  function ManifestFor(t: Tools, input: WriteInput, c: Compiled, files: Files): Manifest
    requires RESOLVED in files
  {
    Manifest(FORMAT, FORMAT_VERSION, LANGUAGE, input.entry, c.address, c.definitionHash, t.digest(files[RESOLVED]),
             Some(map name | name in files :: t.digest(files[name])), Redaction(input))
  }

  /** The digests are taken of all files so far, and only then is the manifest put among them. */
  function Emitted(t: Tools, input: WriteInput, c: Compiled, files: Files): Written
    requires RESOLVED in files
  {
    var manifest := ManifestFor(t, input, c, files);
    Written(manifest, files[MANIFEST := t.render(manifest)])
  }

  ghost predicate Emits(t: Tools, input: WriteInput, c: Option<Compiled>, files: Files) {
    && Compiles(t, input, c) && Assembled(t, input, c.value) == Some(files) && Acceptable(t, files) &&
       PolicyFits(t, input)
  }

  /** The writer emits exactly when the input compiles, its files agree, and it can read them back itself. */
  method Write(t: Tools, input: WriteInput, c: Option<Compiled>) returns (result: Option<Written>)
    ensures result.Some? <==> exists files :: Emits(t, input, c, files)
    ensures result.Some? ==>
              && c.Some?
              && exists files ::
                   Emits(t, input, c, files) && RESOLVED in files && result.value == Emitted(t, input, c.value, files)
  {
    hide Acceptable, Assembled, ClosedInput.Clean;
    if input.mode != ClosedInput.ProjectMode {
      return None;
    }
    var packs, diagnostics := ClosedInput.PrepareClosedInput(input.mode, input.rootPack, input.sources, input.envelope,
                                                             input.tree,
                                                             t.digest, t.parses, input.installs, input.assets);
    if diagnostics != [] || c.None? {
      return None;
    }
    var files := Assemble(t, input, c.value);
    if files.None? {
      return None;
    }
    var redacted := false;
    for i := 0 to |input.states|
      invariant redacted <==> AnyRedacted(input.states[..i])
    {
      redacted := redacted || input.states[i].redacted;
    }
    assert input.states[..|input.states|] == input.states;
    var own := CompileInputFrom(t, files.value);
    if own.None? {
      return None;
    }
    if redacted && input.policy == "" {
      return None;
    }
    if input.policy != "" && !t.normal(input.policy) {
      return None;
    }
    assert Emits(t, input, c, files.value);
    return Some(Emitted(t, input, c.value, files.value));
  }
}
