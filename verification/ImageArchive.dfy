// The image archive check of appliance/scripts/verify-image-archive.py: an OCI layout
// (image index and image manifest of the OCI Image Format Specification) or the
// classic manifest.json layout, already read from the tar.
module ImageArchive {
  import opened Options
  import opened Sequences

  datatype Descriptor = Descriptor(digest: string, mediaType: string, os: Option<string>, architecture: Option<string>)

  // A JSON member. An absent string is "", an absent list is empty.
  datatype Json = Invalid | Doc(mediaType: string, listsManifests: bool, manifests: seq<Descriptor>,
                                config: string, layers: seq<string>)

  datatype Entry = Entry(config: string, layers: seq<string>)
  datatype Legacy = InvalidLegacy | Entries(entries: seq<Entry>)

  // What `read_archive` returns: all member names, and the small members parsed.
  datatype Archive =
    Archive(names: set<string>, small: map<string, Json>, index: Option<Json>, manifest: Option<Legacy>)

  datatype Target = Target(os: string, architecture: string)

  datatype Problem =
    | NoConfig
    | ConfigMissing(digest: string)
    | LayerMissing(digest: string)
    | BlobMissing(digest: string)
    | BlobInvalid(digest: string)
    | TooDeep
    | PlatformMissing
    | IndexEmpty
    | ManifestEmpty
    | FileMissing(name: string)
    | Unreadable
    | NoLayout

  // ---------- Naming ----------

  function ColonAt(digest: string): (n: nat)
    ensures n <= |digest|
  {
    if digest == "" || digest[0] == ':' then 0 else 1 + ColonAt(digest[1..])
  }

  function Blob(digest: string): string {
    var n := ColonAt(digest);
    "blobs/" + digest[..n] + "/" + (if n < |digest| then digest[n + 1..] else "")
  }

  predicate IsIndex(d: Descriptor, doc: Json)
    requires doc.Doc?
  {
    var mediaType := if d.mediaType != "" then d.mediaType else doc.mediaType;
    || mediaType == "application/vnd.oci.image.index.v1+json"
    || mediaType == "application/vnd.docker.distribution.manifest.list.v2+json"
    || doc.listsManifests
  }

  predicate Matches(d: Descriptor, target: Target) {
    d.os == Some(target.os) && d.architecture == Some(target.architecture)
  }

  function Matched(manifests: seq<Descriptor>, target: Target): seq<Descriptor> {
    if manifests == [] then []
    else (if Matches(manifests[0], target) then [manifests[0]] else []) + Matched(manifests[1..], target)
  }

  lemma {:induction false} MatchedMeaning(manifests: seq<Descriptor>, target: Target, d: Descriptor)
    ensures d in Matched(manifests, target) <==> d in manifests && Matches(d, target)
  {
    if manifests != [] {
      MatchedMeaning(manifests[1..], target, d);
      SplitFirst(manifests);
    }
  }

  // ---------- The problems, in order ----------

  function LayerProblems(layers: seq<string>, names: set<string>): seq<Problem> {
    if layers == [] then []
    else
      var last := layers[|layers| - 1];
      LayerProblems(layers[..|layers| - 1], names) + (if Blob(last) in names then [] else [LayerMissing(last)])
  }

  function ConfigProblems(config: string, names: set<string>): seq<Problem> {
    if config == "" then [NoConfig] else if Blob(config) in names then [] else [ConfigMissing(config)]
  }

  function ManifestProblems(doc: Json, names: set<string>): seq<Problem>
    requires doc.Doc?
  {
    ConfigProblems(doc.config, names) + LayerProblems(doc.layers, names)
  }

  function DescriptorProblems(d: Descriptor, a: Archive, target: Target, depth: nat): seq<Problem>
    decreases if depth > 3 then 0 else 4 - depth, 1, 0
  {
    if Blob(d.digest) !in a.small then [BlobMissing(d.digest)]
    else
      var doc := a.small[Blob(d.digest)];
      if doc.Invalid? then [BlobInvalid(d.digest)]
      else if !IsIndex(d, doc) then ManifestProblems(doc, a.names)
      else if depth > 3 then [TooDeep]
      else if Matched(doc.manifests, target) == [] then [PlatformMissing]
      else ListProblems(Matched(doc.manifests, target), a, target, depth + 1)
  }

  function ListProblems(ds: seq<Descriptor>, a: Archive, target: Target, depth: nat): seq<Problem>
    decreases if depth > 3 then 0 else 4 - depth, 2, |ds|
  {
    if ds == [] then []
    else ListProblems(ds[..|ds| - 1], a, target, depth) + DescriptorProblems(ds[|ds| - 1], a, target, depth)
  }

  function EntryProblems(files: seq<string>, names: set<string>): seq<Problem> {
    if files == [] then []
    else
      var last := files[|files| - 1];
      EntryProblems(files[..|files| - 1], names) + (if last in names then [] else [FileMissing(last)])
  }

  function LegacyProblems(entries: seq<Entry>, names: set<string>): seq<Problem> {
    if entries == [] then []
    else
      var last := entries[|entries| - 1];
      LegacyProblems(entries[..|entries| - 1], names) + EntryProblems([last.config] + last.layers, names)
  }

  function Problems(a: Archive, target: Target): seq<Problem> {
    match a.index
    case Some(index) =>
      if index.Invalid? then [Unreadable]
      else if index.manifests == [] then [IndexEmpty]
      else ListProblems(index.manifests, a, target, 0)
    case None =>
      match a.manifest
      case Some(legacy) =>
        if legacy.InvalidLegacy? then [Unreadable]
        else if legacy.entries == [] then [ManifestEmpty]
        else LegacyProblems(legacy.entries, a.names)
      case None => [NoLayout]
  }

  // ---------- The checker ----------

  method CheckManifest(doc: Json, names: set<string>) returns (problems: seq<Problem>)
    requires doc.Doc?
    ensures problems == ManifestProblems(doc, names)
  {
    problems := [];
    if doc.config == "" {
      problems := problems + [NoConfig];
    } else if Blob(doc.config) !in names {
      problems := problems + [ConfigMissing(doc.config)];
    }
    for i := 0 to |doc.layers|
      invariant problems == ConfigProblems(doc.config, names) + LayerProblems(doc.layers[..i], names)
    {
      var layer := doc.layers[i];
      TakeMore(doc.layers, i);
      SumSlices(doc.layers[..i], [layer]);
      if Blob(layer) !in names {
        problems := problems + [LayerMissing(layer)];
      }
    }
    TakeAll(doc.layers);
  }

  method CheckDescriptor(d: Descriptor, a: Archive, target: Target, depth: nat := 0) returns (problems: seq<Problem>)
    ensures problems == DescriptorProblems(d, a, target, depth)
    decreases if depth > 3 then 0 else 4 - depth, 1
  {
    if Blob(d.digest) !in a.small { return [BlobMissing(d.digest)]; }
    var doc := a.small[Blob(d.digest)];
    if doc.Invalid? { return [BlobInvalid(d.digest)]; }
    if IsIndex(d, doc) {
      if depth > 3 { return [TooDeep]; }
      var matched := Matched(doc.manifests, target);
      if matched == [] { return [PlatformMissing]; }
      problems := CheckAll(matched, a, target, depth + 1);
    } else {
      problems := CheckManifest(doc, a.names);
    }
  }

  // The loop over entries, of an index and of index.json alike.
  method CheckAll(ds: seq<Descriptor>, a: Archive, target: Target, depth: nat) returns (problems: seq<Problem>)
    ensures problems == ListProblems(ds, a, target, depth)
    decreases if depth > 3 then 0 else 4 - depth, 2
  {
    problems := [];
    for i := 0 to |ds|
      invariant problems == ListProblems(ds[..i], a, target, depth)
    {
      TakeMore(ds, i);
      SumSlices(ds[..i], [ds[i]]);
      var more := CheckDescriptor(ds[i], a, target, depth);
      problems := problems + more;
    }
    TakeAll(ds);
  }

  method CheckEntry(entry: Entry, names: set<string>, before: seq<Problem>) returns (problems: seq<Problem>)
    ensures problems == before + EntryProblems([entry.config] + entry.layers, names)
  {
    problems := before;
    var files := [entry.config] + entry.layers;
    for i := 0 to |files|
      invariant problems == before + EntryProblems(files[..i], names)
    {
      TakeMore(files, i);
      SumSlices(files[..i], [files[i]]);
      if files[i] !in names {
        problems := problems + [FileMissing(files[i])];
      }
    }
    TakeAll(files);
  }

  method Verify(a: Archive, target: Target) returns (problems: seq<Problem>)
    ensures problems == Problems(a, target)
  {
    if a.index.Some? {
      if a.index.value.Invalid? { return [Unreadable]; }
      var ds := a.index.value.manifests;
      if ds == [] { return [IndexEmpty]; }
      problems := CheckAll(ds, a, target, 0);
    } else if a.manifest.Some? {
      if a.manifest.value.InvalidLegacy? { return [Unreadable]; }
      var entries := a.manifest.value.entries;
      if entries == [] { return [ManifestEmpty]; }
      problems := [];
      for i := 0 to |entries|
        invariant problems == LegacyProblems(entries[..i], a.names)
      {
        TakeMore(entries, i);
        SumSlices(entries[..i], [entries[i]]);
        problems := CheckEntry(entries[i], a.names, problems);
      }
      TakeAll(entries);
    } else {
      problems := [NoLayout];
    }
  }

  // ---------- What an archive should hold ----------

  // An entry is reached through an index that lists it for the platform.
  predicate Lists(d: Descriptor, next: Descriptor, a: Archive, target: Target) {
    && Blob(d.digest) in a.small && a.small[Blob(d.digest)].Doc? && IsIndex(d, a.small[Blob(d.digest)])
    && next in a.small[Blob(d.digest)].manifests && Matches(next, target)
  }

  ghost predicate Chain(c: seq<Descriptor>, a: Archive, target: Target) {
    c != [] && forall i | 0 <= i < |c| - 1 :: Lists(c[i], c[i + 1], a, target)
  }

  // A manifest with its config and all its layers.
  predicate Whole(doc: Json, names: set<string>)
    requires doc.Doc?
  {
    doc.config != "" && Blob(doc.config) in names && forall l | l in doc.layers :: Blob(l) in names
  }

  // What must be true of a descriptor met `depth` indexes down.
  ghost predicate Sound(d: Descriptor, a: Archive, target: Target, depth: nat) {
    && Blob(d.digest) in a.small && a.small[Blob(d.digest)].Doc?
    && var doc := a.small[Blob(d.digest)];
       if IsIndex(d, doc) then depth <= 3 && exists m | m in doc.manifests :: Matches(m, target)
       else Whole(doc, a.names)
  }

  ghost predicate ChainSound(c: seq<Descriptor>, a: Archive, target: Target, depth: nat)
    requires c != []
  {
    Sound(c[|c| - 1], a, target, depth + |c| - 1)
  }

  ghost predicate AllSound(d: Descriptor, a: Archive, target: Target, depth: nat) {
    forall c | Chain(c, a, target) && c[0] == d :: ChainSound(c, a, target, depth)
  }

  lemma {:induction false} NoLayerProblems(layers: seq<string>, names: set<string>)
    ensures LayerProblems(layers, names) == [] <==> forall l | l in layers :: Blob(l) in names
  {
    if layers != [] {
      NoLayerProblems(layers[..|layers| - 1], names);
      SplitLast(layers);
    }
  }

  lemma NoManifestProblems(doc: Json, names: set<string>)
    requires doc.Doc?
    ensures ManifestProblems(doc, names) == [] <==> Whole(doc, names)
  {
    NoLayerProblems(doc.layers, names);
  }

  lemma AnyMatched(manifests: seq<Descriptor>, target: Target)
    ensures Matched(manifests, target) == [] <==> !exists m | m in manifests :: Matches(m, target)
  {
    if Matched(manifests, target) != [] {
      MatchedMeaning(manifests, target, Matched(manifests, target)[0]);
    }
    if m :| m in manifests && Matches(m, target) {
      MatchedMeaning(manifests, target, m);
    }
  }

  lemma SoundDown(d: Descriptor, a: Archive, target: Target, depth: nat)
    requires AllSound(d, a, target, depth)
    ensures Sound(d, a, target, depth)
    ensures forall m | Lists(d, m, a, target) :: AllSound(m, a, target, depth + 1)
  {
    assert Chain([d], a, target) && [d][0] == d;
    assert ChainSound([d], a, target, depth);
    forall m, c | Lists(d, m, a, target) && Chain(c, a, target) && c[0] == m
      ensures ChainSound(c, a, target, depth + 1)
    {
      LongerChain(d, c, a, target);
      assert ChainSound([d] + c, a, target, depth);
    }
  }

  lemma LongerChain(d: Descriptor, c: seq<Descriptor>, a: Archive, target: Target)
    requires Chain(c, a, target) && Lists(d, c[0], a, target)
    ensures Chain([d] + c, a, target) && ([d] + c)[0] == d
    ensures |[d] + c| == 1 + |c| && ([d] + c)[|c|] == c[|c| - 1]
  {
    var longer := [d] + c;
    forall i | 0 <= i < |longer| - 1
      ensures Lists(longer[i], longer[i + 1], a, target)
    {
      if i > 0 {
        assert longer[i] == c[i - 1] && longer[i + 1] == c[i - 1 + 1];
      }
    }
  }

  lemma SoundUp(d: Descriptor, a: Archive, target: Target, depth: nat)
    requires Sound(d, a, target, depth)
    requires forall m | Lists(d, m, a, target) :: AllSound(m, a, target, depth + 1)
    ensures AllSound(d, a, target, depth)
  {
    forall c | Chain(c, a, target) && c[0] == d
      ensures ChainSound(c, a, target, depth)
    {
      if |c| > 1 {
        assert Lists(c[0], c[0 + 1], a, target);
        TailOfChain(c, a, target);
        assert ChainSound(c[1..], a, target, depth + 1);
      }
    }
  }

  // A chain is its first descriptor, and perhaps a chain from an entry that one lists.
  lemma SoundStep(d: Descriptor, a: Archive, target: Target, depth: nat)
    ensures AllSound(d, a, target, depth) <==>
              Sound(d, a, target, depth) && forall m | Lists(d, m, a, target) :: AllSound(m, a, target, depth + 1)
  {
    if AllSound(d, a, target, depth) {
      SoundDown(d, a, target, depth);
    } else if Sound(d, a, target, depth) && forall m | Lists(d, m, a, target) :: AllSound(m, a, target, depth + 1) {
      SoundUp(d, a, target, depth);
    }
  }

  lemma TailOfChain(c: seq<Descriptor>, a: Archive, target: Target)
    requires Chain(c, a, target) && |c| > 1
    ensures Chain(c[1..], a, target)
  {
    forall i | 0 <= i < |c[1..]| - 1
      ensures Lists(c[1..][i], c[1..][i + 1], a, target)
    {
      assert Lists(c[i + 1], c[i + 2], a, target);
    }
  }

  // The document a descriptor leads to, when it is an index that is not too deep.
  predicate Opens(d: Descriptor, a: Archive, depth: nat) {
    && Blob(d.digest) in a.small && a.small[Blob(d.digest)].Doc?
    && IsIndex(d, a.small[Blob(d.digest)]) && depth <= 3
  }

  lemma ClosedIff(d: Descriptor, a: Archive, target: Target, depth: nat)
    requires !Opens(d, a, depth)
    ensures DescriptorProblems(d, a, target, depth) == [] <==> Sound(d, a, target, depth)
    ensures DescriptorProblems(d, a, target, depth) == [] ==> forall m :: !Lists(d, m, a, target)
  {
    if Blob(d.digest) in a.small && a.small[Blob(d.digest)].Doc? {
      NoManifestProblems(a.small[Blob(d.digest)], a.names);
    }
  }

  lemma OpenIff(d: Descriptor, a: Archive, target: Target, depth: nat, matched: seq<Descriptor>)
    requires Opens(d, a, depth) && matched == Matched(a.small[Blob(d.digest)].manifests, target)
    ensures matched == [] ==> DescriptorProblems(d, a, target, depth) != []
    ensures matched != [] ==> DescriptorProblems(d, a, target, depth) == ListProblems(matched, a, target, depth + 1)
    ensures Sound(d, a, target, depth) <==> matched != []
    ensures forall m :: m in matched <==> Lists(d, m, a, target)
  {
    var doc := a.small[Blob(d.digest)];
    AnyMatched(doc.manifests, target);
    forall m
      ensures m in matched <==> Lists(d, m, a, target)
    {
      MatchedMeaning(doc.manifests, target, m);
    }
  }

  // No problem below a descriptor, exactly when every chain from it is sound.
  lemma {:induction false} CleanIff(d: Descriptor, a: Archive, target: Target, depth: nat)
    ensures DescriptorProblems(d, a, target, depth) == [] <==> AllSound(d, a, target, depth)
    decreases if depth > 3 then 0 else 4 - depth, 1, 0
  {
    SoundStep(d, a, target, depth);
    if Opens(d, a, depth) {
      var matched := Matched(a.small[Blob(d.digest)].manifests, target);
      OpenIff(d, a, target, depth, matched);
      CleanListIff(matched, a, target, depth + 1);
    } else {
      ClosedIff(d, a, target, depth);
    }
  }

  lemma {:induction false} CleanListIff(ds: seq<Descriptor>, a: Archive, target: Target, depth: nat)
    ensures ListProblems(ds, a, target, depth) == [] <==> forall d | d in ds :: AllSound(d, a, target, depth)
    decreases if depth > 3 then 0 else 4 - depth, 2, |ds|
  {
    if ds != [] {
      CleanListIff(ds[..|ds| - 1], a, target, depth);
      CleanIff(ds[|ds| - 1], a, target, depth);
      SplitLast(ds);
    }
  }

  // An OCI archive passes exactly when its index lists something and every chain of
  // target-platform entries from there is sound.
  lemma AcceptedIff(a: Archive, target: Target)
    requires a.index.Some?
    ensures Problems(a, target) == [] <==>
              a.index.value.Doc? && a.index.value.manifests != [] &&
              forall c | Chain(c, a, target) && c[0] in a.index.value.manifests :: ChainSound(c, a, target, 0)
  {
    if a.index.value.Doc? {
      CleanListIff(a.index.value.manifests, a, target, 0);
    }
  }

  // A classic archive passes exactly when it names an image and has every file it names.
  lemma LegacyAcceptedIff(a: Archive, target: Target)
    requires a.index.None? && a.manifest.Some?
    ensures Problems(a, target) == [] <==>
              a.manifest.value.Entries? && a.manifest.value.entries != [] &&
              forall e | e in a.manifest.value.entries ::
                e.config in a.names && forall l | l in e.layers :: l in a.names
  {
    if a.manifest.value.Entries? {
      NoLegacyProblems(a.manifest.value.entries, a.names);
    }
  }

  lemma {:induction false} NoEntryProblems(files: seq<string>, names: set<string>)
    ensures EntryProblems(files, names) == [] <==> forall f | f in files :: f in names
  {
    if files != [] {
      NoEntryProblems(files[..|files| - 1], names);
      SplitLast(files);
    }
  }

  lemma {:induction false} NoLegacyProblems(entries: seq<Entry>, names: set<string>)
    ensures LegacyProblems(entries, names) == [] <==>
              forall e | e in entries :: e.config in names && forall l | l in e.layers :: l in names
  {
    if entries != [] {
      var last := entries[|entries| - 1];
      NoLegacyProblems(entries[..|entries| - 1], names);
      NoEntryProblems([last.config] + last.layers, names);
      SplitLast(entries);
      assert last.config in [last.config] + last.layers;
      assert forall l | l in last.layers :: l in [last.config] + last.layers;
    }
  }

  // ---------- Cycles ----------

  lemma DeepIsUnsound(a: Archive, target: Target, c: seq<Descriptor>)
    requires Chain(c, a, target) && |c| > 5
    ensures Chain(c[..5], a, target) && c[..5][0] == c[0] && !ChainSound(c[..5], a, target, 0)
  {
    assert Lists(c[4], c[4 + 1], a, target);
    PrefixOfChain(c, 5, a, target);
  }

  // An archive that passes has no chain of more than five descriptors.
  lemma ChainsAreShort(a: Archive, target: Target, c: seq<Descriptor>)
    requires a.index.Some? && Problems(a, target) == []
    requires Chain(c, a, target) && a.index.value.Doc? && c[0] in a.index.value.manifests
    ensures |c| <= 5
  {
    AcceptedIff(a, target);
    if |c| > 5 {
      DeepIsUnsound(a, target, c);
    }
  }

  lemma PrefixOfChain(c: seq<Descriptor>, n: nat, a: Archive, target: Target)
    requires Chain(c, a, target) && 0 < n <= |c|
    ensures Chain(c[..n], a, target)
  {
    forall i | 0 <= i < n - 1
      ensures Lists(c[..n][i], c[..n][i + 1], a, target)
    {
      assert Lists(c[i], c[i + 1], a, target);
    }
  }

  // A chain that comes back to a descriptor can be made as long as one likes.
  lemma {:induction false} Pumped(c: seq<Descriptor>, i: nat, n: nat, a: Archive, target: Target)
    returns (long: seq<Descriptor>)
    requires Chain(c, a, target) && i < |c| - 1 && c[i] == c[|c| - 1]
    ensures Chain(long, a, target) && |long| >= n && long[0] == c[0] && long[|long| - 1] == c[|c| - 1]
  {
    if n <= |c| {
      long := c;
    } else {
      var shorter := Pumped(c, i, n - 1, a, target);
      long := shorter + c[i + 1..];
      forall k | 0 <= k < |long| - 1
        ensures Lists(long[k], long[k + 1], a, target)
      {
        if k < |shorter| - 1 {
          assert Lists(shorter[k], shorter[k + 1], a, target);
        } else {
          var j := i + (k - (|shorter| - 1));
          assert long[k] == c[j] && long[k + 1] == c[j + 1];
          assert Lists(c[j], c[j + 1], a, target);
        }
      }
    }
  }

  // The check ends on cyclic archives too, and refuses them.
  lemma CyclicIsRefused(a: Archive, target: Target, c: seq<Descriptor>, i: nat, j: nat)
    requires a.index.Some? && a.index.value.Doc?
    requires Chain(c, a, target) && c[0] in a.index.value.manifests
    requires i < j < |c| && c[i] == c[j]
    ensures Problems(a, target) != []
  {
    if Problems(a, target) == [] {
      PrefixOfChain(c, j + 1, a, target);
      var long := Pumped(c[..j + 1], i, 6, a, target);
      ChainsAreShort(a, target, long);
    }
  }

  // ---------- Platforms, names and depth ----------

  // `sha256:abc` is the member `blobs/sha256/abc`.
  lemma {:induction false} BlobOf(algorithm: string, hex: string)
    requires ':' !in algorithm
    ensures Blob(algorithm + (":" + hex)) == "blobs/" + algorithm + "/" + hex
  {
    ColonBehind(algorithm, hex);
    SumSlices(algorithm, ":" + hex);
    DropMiddle(algorithm, ':', hex);
  }

  lemma {:induction false} ColonBehind(algorithm: string, hex: string)
    requires ':' !in algorithm
    ensures ColonAt(algorithm + (":" + hex)) == |algorithm|
  {
    if algorithm == "" {
      SumOfEmpty(":" + hex);
    } else {
      TailOfSum(algorithm, ":" + hex);
      ColonBehind(algorithm[1..], hex);
    }
  }

  lemma DropMiddle<T>(a: seq<T>, x: T, b: seq<T>)
    ensures (a + ([x] + b))[|a| + 1..] == b
  {
  }

  // A document that lists manifests is an index; else the descriptor's media type tells,
  // and the document's own where the descriptor gives none.
  lemma IndexIff(d: Descriptor, doc: Json, mediaType: string)
    requires doc.Doc? && !doc.listsManifests
    requires (d.mediaType != "" && mediaType == d.mediaType) || (d.mediaType == "" && mediaType == doc.mediaType)
    ensures IsIndex(d, doc) <==>
              mediaType in {"application/vnd.oci.image.index.v1+json",
                            "application/vnd.docker.distribution.manifest.list.v2+json"}
    ensures IsIndex(d, doc.(listsManifests := true))
  {
  }

  // An entry is for the platform when operating system and architecture both are.
  ghost predicate IsFor(d: Descriptor, os: string, architecture: string) {
    d.os.Some? && d.os.value == os && d.architecture.Some? && d.architecture.value == architecture
  }

  // An index without an entry for the platform is a problem, whatever else it lists.
  lemma OtherPlatformsAreRefused(d: Descriptor, a: Archive, target: Target, depth: nat)
    requires Opens(d, a, depth)
    requires forall m | m in a.small[Blob(d.digest)].manifests :: !IsFor(m, target.os, target.architecture)
    ensures DescriptorProblems(d, a, target, depth) == [PlatformMissing]
  {
    AnyMatched(a.small[Blob(d.digest)].manifests, target);
  }

  // Of an index the entries for the platform are followed, and no other ones.
  lemma FollowedIff(d: Descriptor, next: Descriptor, a: Archive, target: Target)
    requires Opens(d, a, 0)
    ensures Lists(d, next, a, target) <==>
              next in a.small[Blob(d.digest)].manifests && IsFor(next, target.os, target.architecture)
  {
  }

  // Indexes that each list the next one, for the platform, down to a whole manifest.
  ghost predicate Nested(ds: seq<Descriptor>, a: Archive, target: Target) {
    ds != [] && IsWhole(ds[|ds| - 1], a) && forall i | 0 <= i < |ds| - 1 :: ListsOnly(ds[i], ds[i + 1], a, target)
  }

  predicate IsWhole(d: Descriptor, a: Archive) {
    && Blob(d.digest) in a.small && a.small[Blob(d.digest)].Doc? && !IsIndex(d, a.small[Blob(d.digest)])
    && Whole(a.small[Blob(d.digest)], a.names)
  }

  ghost predicate ListsOnly(d: Descriptor, next: Descriptor, a: Archive, target: Target) {
    && Blob(d.digest) in a.small && a.small[Blob(d.digest)].Doc? && IsIndex(d, a.small[Blob(d.digest)])
    && a.small[Blob(d.digest)].manifests == [next] && IsFor(next, target.os, target.architecture)
  }

  // Four indexes above a manifest are not too many; five are.
  lemma {:induction false} NestedIff(ds: seq<Descriptor>, a: Archive, target: Target, depth: nat)
    requires Nested(ds, a, target)
    ensures DescriptorProblems(ds[0], a, target, depth) == (if |ds| == 1 || depth + |ds| <= 5 then [] else [TooDeep])
    decreases |ds|
  {
    if |ds| == 1 {
      NoManifestProblems(a.small[Blob(ds[0].digest)], a.names);
    } else {
      assert ListsOnly(ds[0], ds[0 + 1], a, target);
      OneDown(ds[0], ds[1], a, target, depth);
      NestedTail(ds, a, target);
      if depth <= 3 {
        NestedIff(ds[1..], a, target, depth + 1);
      }
    }
  }

  lemma OneDown(d: Descriptor, next: Descriptor, a: Archive, target: Target, depth: nat)
    requires ListsOnly(d, next, a, target)
    ensures DescriptorProblems(d, a, target, depth) ==
            if depth > 3 then [TooDeep] else DescriptorProblems(next, a, target, depth + 1)
  {
    OnlyMatch(next, target);
    OneListed(next, a, target, depth + 1);
  }

  lemma NestedTail(ds: seq<Descriptor>, a: Archive, target: Target)
    requires Nested(ds, a, target) && |ds| > 1
    ensures Nested(ds[1..], a, target)
  {
    var rest := ds[1..];
    TailAt(ds);
    forall i | 0 <= i < |rest| - 1
      ensures ListsOnly(rest[i], rest[i + 1], a, target)
    {
      assert ListsOnly(ds[i + 1], ds[i + 1 + 1], a, target);
    }
  }

  lemma TailAt<T>(s: seq<T>)
    requires |s| > 1
    ensures |s[1..]| == |s| - 1 && forall i | 0 <= i < |s| - 1 :: s[1..][i] == s[i + 1]
  {
  }

  lemma OnlyMatch(d: Descriptor, target: Target)
    requires IsFor(d, target.os, target.architecture)
    ensures Matched([d], target) == [d]
  {
    assert [d][1..] == [];
    SumOfEmpty([d]);
  }

  lemma OneListed(d: Descriptor, a: Archive, target: Target, depth: nat)
    ensures ListProblems([d], a, target, depth) == DescriptorProblems(d, a, target, depth)
  {
    assert [d][..0] == [];
    SumOfEmpty(DescriptorProblems(d, a, target, depth));
  }
}
