/** `treeShakeOpenAPI` for both generations: filter the paths, resolve the
    references they use, rebuild the component sections. */
module TreeShaker {
  import opened Wrappers
  import opened Seqs
  import opened Json
  import opened Refs
  import opened Partitioning
  import opened Resolver
  import opened Projector

  /** The pattern list used when the caller gives none. */
  const DefaultPatterns: seq<string> := [".*"]

  /** Some pattern accepts the path. `matches(p, path)` stands for
      `new RegExp(p).test(path)`, which the model takes as given. */
  predicate AnyMatch(patterns: seq<string>, matches: (string, string) -> bool, path: string)
  {
    exists p :: p in patterns && matches(p, path)
  }

  function PathKeep(patterns: seq<string>, matches: (string, string) -> bool): string -> bool
  {
    path => AnyMatch(patterns, matches, path)
  }

  /** Current: `spec.paths || {}`. */
  function PathEntries(spec: seq<Field>): seq<Field>
  {
    var paths := Get(spec, "paths");
    if TruthyOpt(paths) then Entries(paths.value) else []
  }

  /** Reachability from `seeds` as a test on references. */
  ghost function ReachableFrom(gen: Generation, spec: seq<Field>, seeds: set<Ref>): Ref -> bool
  {
    r => Reachable(gen, spec, seeds, r)
  }

  /** The kept paths' references plus, in Current, the document-level requirements. */
  function Seeds(gen: Generation, spec: seq<Field>, filtered: seq<Field>): set<Ref>
  {
    Elems(Seeded(gen, spec, filtered))
  }

  /** Why a shake fails: `new RegExp(pattern)` throws a SyntaxError on a pattern
      it cannot compile, and Legacy's `Object.entries(spec.paths)` throws a
      TypeError when `paths` is missing or null. */
  datatype ShakeError = PatternError(pattern: string) | PathsError(message: string)

  /** The position of the first pattern that does not compile. The patterns are
      compiled in order before anything else, and the first failure aborts. */
  function FirstInvalid(patterns: seq<string>, compiles: string -> bool): (r: Option<nat>)
    ensures r.None? <==> forall i :: 0 <= i < |patterns| ==> compiles(patterns[i])
    ensures r.Some? ==> r.value < |patterns| && !compiles(patterns[r.value])
    ensures r.Some? ==> forall i :: 0 <= i < r.value ==> compiles(patterns[i])
    decreases |patterns|
  {
    if |patterns| == 0 then None
    else if !compiles(patterns[0]) then Some(0)
    else match FirstInvalid(patterns[1..], compiles)
      case None => None
      case Some(i) => Some(i + 1)
  }

  /** The error the pattern compilation raises, if any. */
  function PatternFailure(patterns: seq<string>, compiles: string -> bool): Option<ShakeError>
  {
    match FirstInvalid(patterns, compiles)
    case Some(i) => Some(PatternError(patterns[i]))
    case None => None
  }

  /** The shake once the patterns have compiled: split the paths, keep what the
      kept paths (and, in Current, the document-level requirements) reach, and
      rebuild. */
  ghost function Shake(gen: Generation, spec: seq<Field>, patterns: seq<string>, matches: (string, string) -> bool): Shaken
  {
    var split := Partition(PathEntries(spec), PathKeep(patterns, matches));
    Project(gen, spec, split.kept, split.removed, ReachableFrom(gen, spec, Seeds(gen, spec, split.kept)))
  }

  /** Current `treeShakeOpenAPI`, with the document-level requirements expanded
      like every other seed. It fails exactly when a pattern does not compile;
      otherwise the result is the rebuild by the least closed set of references
      holding the seeds, because the worklist computes exactly reachability. */
  method TreeShake(spec: seq<Field>, patterns: seq<string>, matches: (string, string) -> bool, compiles: string -> bool)
    returns (result: Result<Shaken, ShakeError>)
    ensures result.Err? <==> exists i :: 0 <= i < |patterns| && !compiles(patterns[i])
    ensures result.Err? ==> Some(result.error) == PatternFailure(patterns, compiles)
    ensures result.Ok? ==> result.value == Shake(Current, spec, patterns, matches)
  {
    var failure := PatternFailure(patterns, compiles);
    if failure.Some? {
      return Err(failure.value);
    }
    var split := Partition(PathEntries(spec), PathKeep(patterns, matches));
    var used := FindAllReferencesFixed(Current, spec, split.kept);
    var p := Project(Current, spec, split.kept, split.removed, r => r in used);
    ProjectCongruent(Current, spec, split.kept, split.removed,
      r => r in used, ReachableFrom(Current, spec, Seeds(Current, spec, split.kept)));
    result := Ok(p);
  }

  /** Current `treeShakeOpenAPI` as written: the rebuild keeps what
      `findAllReferences` returns, which holds the seeds and only reachable
      references, and is closed except at document-level requirement keys that
      were never queued. */
  method TreeShakeAsWritten(spec: seq<Field>, patterns: seq<string>, matches: (string, string) -> bool, compiles: string -> bool)
    returns (result: Result<Shaken, ShakeError>, used: seq<Ref>)
    ensures result.Err? <==> exists i :: 0 <= i < |patterns| && !compiles(patterns[i])
    ensures result.Err? ==> Some(result.error) == PatternFailure(patterns, compiles)
    ensures result.Ok? ==>
      var split := Partition(PathEntries(spec), PathKeep(patterns, matches));
      && result.value == Project(Current, spec, split.kept, split.removed, r => r in used)
      && Seeded(Current, spec, split.kept) <= used
      && (forall r :: r in used ==> Reachable(Current, spec, Seeds(Current, spec, split.kept), r))
      && (forall r :: r in used ==>
            Expansion(Current, spec, r) <= Elems(used) ||
            (r in Seeded(Current, spec, split.kept) && r !in PathRefs(Current, split.kept)))
      && (PathRefs(Current, split.kept) == [] ==> used == Seeded(Current, spec, split.kept))
  {
    var failure := PatternFailure(patterns, compiles);
    if failure.Some? {
      return Err(failure.value), [];
    }
    var split := Partition(PathEntries(spec), PathKeep(patterns, matches));
    used := FindAllReferences(Current, spec, split.kept);
    result := Ok(Project(Current, spec, split.kept, split.removed, r => r in used));
  }

  /** The older report has no security-scheme list. */
  datatype LegacySummary = LegacySummary(
    removedPaths: seq<string>,
    removedSchemas: seq<string>,
    removedParameters: seq<string>,
    removedResponses: seq<string>,
    removedRequestBodies: seq<string>)

  datatype LegacyShaken = LegacyShaken(spec: seq<Field>, summary: LegacySummary)

  function ToLegacy(s: Summary): LegacySummary
  {
    LegacySummary(s.removedPaths, s.removedSchemas, s.removedParameters, s.removedResponses, s.removedRequestBodies)
  }

  /** What `Object.entries(spec.paths)` throws when `paths` is missing or null. */
  const NullPathsError: string := "Cannot convert undefined or null to object"

  predicate PathsMissing(spec: seq<Field>)
  {
    Get(spec, "paths") == None || Get(spec, "paths") == Some(Null)
  }

  /** Legacy `treeShakeOpenAPI`: fails on the first pattern that does not
      compile, then when `paths` is missing or null, and otherwise rebuilds the
      document by exactly the references reachable from the kept paths. */
  method LegacyTreeShake(spec: seq<Field>, patterns: seq<string>, matches: (string, string) -> bool, compiles: string -> bool)
    returns (result: Result<LegacyShaken, ShakeError>)
    ensures result.Err? <==> (exists i :: 0 <= i < |patterns| && !compiles(patterns[i])) || PathsMissing(spec)
    ensures result.Err? && PatternFailure(patterns, compiles).Some? ==>
      Some(result.error) == PatternFailure(patterns, compiles)
    ensures result.Err? && PatternFailure(patterns, compiles).None? ==> result.error == PathsError(NullPathsError)
    ensures result.Ok? ==>
      var p := Shake(Legacy, spec, patterns, matches);
      result.value == LegacyShaken(p.spec, ToLegacy(p.summary))
  {
    var failure := PatternFailure(patterns, compiles);
    if failure.Some? {
      return Err(failure.value);
    }
    if PathsMissing(spec) {
      return Err(PathsError(NullPathsError));
    }
    var entries := Entries(Get(spec, "paths").value);
    assert entries == PathEntries(spec);
    var split := Partition(entries, PathKeep(patterns, matches));
    var used := FindAllReferences(Legacy, spec, split.kept);
    var p := Project(Legacy, spec, split.kept, split.removed, r => r in used);
    ProjectCongruent(Legacy, spec, split.kept, split.removed,
      r => r in used, ReachableFrom(Legacy, spec, Seeds(Legacy, spec, split.kept)));
    result := Ok(LegacyShaken(p.spec, ToLegacy(p.summary)));
  }

  // ---------------------------------------------------------------------------
  // Consequences

  /** With the default patterns, and `.*` matching every path, every path is kept
      and none is reported. */
  lemma DefaultPatternsKeepAll(src: seq<Field>, matches: (string, string) -> bool)
    requires forall path :: matches(".*", path)
    ensures Partition(src, PathKeep(DefaultPatterns, matches)) == Split(src, [])
  {
    var keep := PathKeep(DefaultPatterns, matches);
    forall path
      ensures keep(path)
    {
      assert DefaultPatterns[0] == ".*";
      assert ".*" in DefaultPatterns && matches(".*", path);
      assert AnyMatch(DefaultPatterns, matches, path);
    }
    SubsequenceOfSelf(src);
    PartitionUnique(src, keep, src, []);
  }

  /** The paths are split by the patterns: each kept path is an entry some pattern
      accepts, each reported name a path none accepts, both in source order. */
  lemma PathsSplit(src: seq<Field>, patterns: seq<string>, matches: (string, string) -> bool)
    ensures var split := Partition(src, PathKeep(patterns, matches));
      && (forall f :: f in split.kept <==> f in src && AnyMatch(patterns, matches, f.key))
      && (forall n :: n in split.removed <==> n in Keys(src) && !AnyMatch(patterns, matches, n))
      && IsSubsequence(split.kept, src)
      && IsSubsequence(split.removed, Keys(src))
  {
    PartitionSpec(src, PathKeep(patterns, matches));
  }

  /** A rebuilt Swagger 2.0 section keeps an entry exactly when its reference is
      reachable. */
  lemma FlatKeepsReachable(gen: Generation, spec: seq<Field>, filtered: seq<Field>, removedPaths: seq<string>, seeds: set<Ref>, k: Kind, f: Field)
    requires k == Schemas || k == SecuritySchemes
    requires FlatApplies(gen, spec, k)
    ensures var out := Project(gen, spec, filtered, removedPaths, ReachableFrom(gen, spec, seeds)).spec;
      Get(out, FlatKey(k)).Some? &&
      (f in Entries(Get(out, FlatKey(k)).value) <==> f in FlatSource(gen, spec, k) && Reachable(gen, spec, seeds, Ref(k, f.key)))
  {
    FlatKeepsUsed(gen, spec, filtered, removedPaths, ReachableFrom(gen, spec, seeds), k, f);
  }

  lemma FlatKeepsUsed(gen: Generation, spec: seq<Field>, filtered: seq<Field>, removedPaths: seq<string>, used: Ref -> bool, k: Kind, f: Field)
    requires k == Schemas || k == SecuritySchemes
    requires FlatApplies(gen, spec, k)
    ensures var out := Project(gen, spec, filtered, removedPaths, used).spec;
      Get(out, FlatKey(k)).Some? &&
      (f in Entries(Get(out, FlatKey(k)).value) <==> f in FlatSource(gen, spec, k) && used(Ref(k, f.key)))
  {
    ProjectFlat(gen, spec, filtered, removedPaths, used, k);
    KeptMembers(Project(gen, spec, filtered, removedPaths, used).spec, FlatKey(k), FlatSource(gen, spec, k), used, k, f);
  }

  /** When `out[key]` is the rebuild of `src` for kind `k`, an entry is in it
      exactly when it is in `src` and `used` accepts its reference. */
  lemma KeptMembers(out: seq<Field>, key: string, src: seq<Field>, used: Ref -> bool, k: Kind, f: Field)
    requires Get(out, key) == Some(Obj(Partition(src, UsedNames(used, k)).kept))
    ensures Get(out, key).Some? && (f in Entries(Get(out, key).value) <==> f in src && used(Ref(k, f.key)))
  {
    PartitionSpec(src, UsedNames(used, k));
  }

  /** A surviving `components` container keeps an entry exactly when its reference
      is reachable. */
  lemma ComponentKeepsReachable(gen: Generation, spec: seq<Field>, seeds: set<Ref>, k: Kind, f: Field)
    ensures f in KeptEntries(gen, spec, k, ReachableFrom(gen, spec, seeds)) <==>
      KindApplies(gen, spec, k) && f in ComponentSource(gen, spec, k) && Reachable(gen, spec, seeds, Ref(k, f.key))
  {
    PartitionSpec(ComponentSource(gen, spec, k), UsedNames(ReachableFrom(gen, spec, seeds), k));
  }

  /** A name is reported for kind `k` exactly when it names an entry of a rebuilt
      section of that kind and its reference is unreachable. */
  lemma ReportsUnreachable(gen: Generation, spec: seq<Field>, filtered: seq<Field>, removedPaths: seq<string>, seeds: set<Ref>, k: Kind, n: string)
    ensures var s := Project(gen, spec, filtered, removedPaths, ReachableFrom(gen, spec, seeds)).summary;
      n in Removed(s, k) <==>
        (n in Keys(FlatSource(gen, spec, k)) || n in Keys(ComponentSource(gen, spec, k))) && !Reachable(gen, spec, seeds, Ref(k, n))
  {
    var used := ReachableFrom(gen, spec, seeds);
    ReportsUnused(gen, spec, filtered, removedPaths, used, k, n);
    assert used(Ref(k, n)) == Reachable(gen, spec, seeds, Ref(k, n));
  }

  /** The report lists a name for kind `k` exactly when it names an entry of a
      rebuilt section of that kind that `used` rejects. */
  lemma ReportsUnused(gen: Generation, spec: seq<Field>, filtered: seq<Field>, removedPaths: seq<string>, used: Ref -> bool, k: Kind, n: string)
    ensures n in Removed(Project(gen, spec, filtered, removedPaths, used).summary, k) <==>
      (n in Keys(FlatSource(gen, spec, k)) || n in Keys(ComponentSource(gen, spec, k))) && !used(Ref(k, n))
  {
    var flat := Partition(FlatSource(gen, spec, k), UsedNames(used, k));
    var comp := Partition(ComponentSource(gen, spec, k), UsedNames(used, k));
    ProjectSummary(gen, spec, filtered, removedPaths, used, k);
    PartitionSpec(FlatSource(gen, spec, k), UsedNames(used, k));
    PartitionSpec(ComponentSource(gen, spec, k), UsedNames(used, k));
    assert n in flat.removed + comp.removed <==> n in flat.removed || n in comp.removed;
  }

  /** Legacy never reports security schemes, so its five-list report loses nothing. */
  lemma LegacyReportsNoSchemes(spec: seq<Field>, filtered: seq<Field>, removedPaths: seq<string>, used: Ref -> bool)
    ensures Removed(Project(Legacy, spec, filtered, removedPaths, used).summary, SecuritySchemes) == []
  {
    var none := Partition([], UsedNames(used, SecuritySchemes));
    assert none.removed == [];
    assert FlatSource(Legacy, spec, SecuritySchemes) == [];
    assert ComponentSource(Legacy, spec, SecuritySchemes) == [];
    ProjectSummary(Legacy, spec, filtered, removedPaths, used, SecuritySchemes);
  }
}
