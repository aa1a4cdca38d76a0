/** Shaking a shaken document again with the same patterns changes nothing: every
    kept path still matches, the seeds are the same, every kept component reads
    the same, so everything is kept again and nothing is reported. */
module Idempotence {
  import opened Wrappers
  import opened Seqs
  import opened Json
  import opened Refs
  import opened Scanner
  import opened Resolver
  import opened Partitioning
  import opened Projector
  import opened TreeShaker

  /** The report of a shake that removes nothing. */
  const NoRemovals: Summary := Summary([], [], [], [], [], [])

  /** Shaking the output of a shake with the same patterns returns that output
      and reports no path and no component. */
  lemma ShakeIdempotent(gen: Generation, spec: seq<Field>, patterns: seq<string>, matches: (string, string) -> bool)
    ensures var once := Shake(gen, spec, patterns, matches);
      Shake(gen, once.spec, patterns, matches) == Shaken(once.spec, NoRemovals)
  {
    var keep := PathKeep(patterns, matches);
    var split := Partition(PathEntries(spec), keep);
    var seeds := Seeds(gen, spec, split.kept);
    var used := ReachableFrom(gen, spec, seeds);
    var out := Project(gen, spec, split.kept, split.removed, used).spec;
    KeptPathsAgain(gen, spec, split.kept, split.removed, used);
    PartitionAgain(PathEntries(spec), keep, keep);
    SameMarkers(gen, spec, split.kept, split.removed, used);
    assert Seeds(gen, out, split.kept) == seeds;
    var used2 := ReachableFrom(gen, out, seeds);
    forall r | used(r)
      ensures used2(r)
    {
      KeptStillReachable(gen, spec, split.kept, split.removed, seeds, r);
    }
    ProjectStable(gen, spec, split.kept, split.removed, used, used2);
  }

  // ---------------------------------------------------------------------------
  // The paths and the seeds

  /** The output's `paths` is exactly the kept paths. */
  lemma KeptPathsAgain(gen: Generation, spec: seq<Field>, filtered: seq<Field>, removedPaths: seq<string>, used: Ref -> bool)
    ensures PathEntries(Project(gen, spec, filtered, removedPaths, used).spec) == filtered
  {
    ProjectTopLevel(gen, spec, filtered, removedPaths, used);
    PathsOf(Project(gen, spec, filtered, removedPaths, used).spec, filtered);
  }

  lemma PathsOf(doc: seq<Field>, filtered: seq<Field>)
    requires Get(doc, "paths") == Some(Obj(filtered))
    ensures PathEntries(doc) == filtered
  {
  }

  /** The keys that choose the document's version and its document-level
      requirements are carried over. */
  lemma SameMarkers(gen: Generation, spec: seq<Field>, filtered: seq<Field>, removedPaths: seq<string>, used: Ref -> bool)
    ensures var out := Project(gen, spec, filtered, removedPaths, used).spec;
      && ("swagger" in Keys(out) <==> "swagger" in Keys(spec))
      && ("openapi" in Keys(out) <==> "openapi" in Keys(spec))
      && Get(out, SecurityKey) == Get(spec, SecurityKey)
  {
    var top := ["paths", "definitions", "securityDefinitions", "components"];
    ProjectTopLevel(gen, spec, filtered, removedPaths, used);
    assert "swagger" !in top && "openapi" !in top && SecurityKey !in top;
  }

  // ---------------------------------------------------------------------------
  // A kept reference reads the same body

  /** Whether a kind is first looked up in a Swagger 2.0 section. */
  predicate FlatRead(gen: Generation, k: Kind)
  {
    k == Schemas || (gen == Current && k == SecuritySchemes)
  }

  /** The lookup in one shape: the Swagger 2.0 section when the kind reads one and
      it is truthy, the kind's container under `components` otherwise. */
  lemma LookupShape(gen: Generation, doc: seq<Field>, r: Ref)
    ensures Lookup(gen, doc, r) ==
      if FlatRead(gen, r.kind) && TruthyOpt(Get(doc, FlatKey(r.kind))) then Prop(Get(doc, FlatKey(r.kind)).value, r.name)
      else PropOpt(PropOpt(Get(doc, "components"), KindName(r.kind)), r.name)
  {
    var container := PropOpt(Get(doc, "components"), KindName(r.kind));
    assert !TruthyOpt(container) ==> PropOpt(container, r.name) == None;
  }

  /** A used entry of a recognised kind reads the same in the output. */
  lemma LookupKept(gen: Generation, spec: seq<Field>, filtered: seq<Field>, removedPaths: seq<string>, used: Ref -> bool, r: Ref)
    requires used(r) && Recognized(gen, r.kind)
    ensures Lookup(gen, Project(gen, spec, filtered, removedPaths, used).spec, r) == Lookup(gen, spec, r)
  {
    var out := Project(gen, spec, filtered, removedPaths, used).spec;
    LookupShape(gen, out, r);
    LookupShape(gen, spec, r);
    var c := ComponentsObject(gen, spec, used);
    ProjectComponents(gen, spec, filtered, removedPaths, used);
    ComponentsObjectGet(gen, spec, used, r.kind);
    ComponentsObjectEmpty(gen, spec, used);
    ComponentReadKept(gen, spec, Get(out, "components"), c, used, r.kind, r.name);
    if FlatRead(gen, r.kind) {
      ProjectFlat(gen, spec, filtered, removedPaths, used, r.kind);
      FlatReadKept(gen, spec, Get(out, FlatKey(r.kind)), used, r.kind, r.name);
    }
  }

  /** A used entry reads the same in a rebuilt Swagger 2.0 section, and the
      section is truthy exactly when the source section is. */
  lemma FlatReadKept(gen: Generation, spec: seq<Field>, section: Option<Json>, used: Ref -> bool, k: Kind, n: string)
    requires used(Ref(k, n))
    requires section == if FlatApplies(gen, spec, k)
      then Some(Obj(Partition(FlatSource(gen, spec, k), UsedNames(used, k)).kept))
      else Get(spec, FlatKey(k))
    ensures TruthyOpt(section) == TruthyOpt(Get(spec, FlatKey(k)))
    ensures TruthyOpt(section) ==> Prop(section.value, n) == Prop(Get(spec, FlatKey(k)).value, n)
  {
    if FlatApplies(gen, spec, k) {
      PartitionGet(FlatSource(gen, spec, k), UsedNames(used, k), n);
      PropEntries(Get(spec, FlatKey(k)).value, n);
    }
  }

  /** A used entry reads the same through the output's `components`, given what
      `ComponentsObjectShape` says of the surviving containers `c`. */
  lemma ComponentReadKept(gen: Generation, spec: seq<Field>, components: Option<Json>, c: seq<Field>, used: Ref -> bool, k: Kind, n: string)
    requires Recognized(gen, k) && used(Ref(k, n))
    requires components == if !ComponentsApply(gen, spec) then Get(spec, "components")
                           else if |c| == 0 then None
                           else Some(Obj(c))
    requires Get(c, KindName(k)) ==
      if KindApplies(gen, spec, k) && |KeptEntries(gen, spec, k, used)| > 0
      then Some(Obj(KeptEntries(gen, spec, k, used))) else None
    requires |c| == 0 && KindApplies(gen, spec, k) ==> |KeptEntries(gen, spec, k, used)| == 0
    ensures PropOpt(PropOpt(components, KindName(k)), n) == PropOpt(PropOpt(Get(spec, "components"), KindName(k)), n)
  {
    if ComponentsApply(gen, spec) {
      var kept := KeptEntries(gen, spec, k, used);
      ContainerRead(gen, spec, used, k, n);
      if !KindApplies(gen, spec, k) {
        IdleKept(gen, spec, k, used);
      }
      if |c| == 0 || !KindApplies(gen, spec, k) || |kept| == 0 {
        assert Get(kept, n) == None;
        assert PropOpt(components, KindName(k)) == None;
      } else {
        assert PropOpt(components, KindName(k)) == Some(Obj(kept));
      }
    }
  }

  /** A container that is not processed keeps nothing. */
  lemma IdleKept(gen: Generation, spec: seq<Field>, k: Kind, used: Ref -> bool)
    requires !KindApplies(gen, spec, k)
    ensures KeptEntries(gen, spec, k, used) == []
    ensures DroppedNames(gen, spec, k, used) == []
  {
  }

  /** Through the source `components`, a used entry reads as it does in its
      container's kept entries. */
  lemma ContainerRead(gen: Generation, spec: seq<Field>, used: Ref -> bool, k: Kind, n: string)
    requires ComponentsApply(gen, spec) && Recognized(gen, k) && used(Ref(k, n))
    ensures PropOpt(PropOpt(Get(spec, "components"), KindName(k)), n) == Get(KeptEntries(gen, spec, k, used), n)
  {
    var container := Prop(Get(spec, "components").value, KindName(k));
    PartitionGet(ComponentSource(gen, spec, k), UsedNames(used, k), n);
    if container.Some? {
      PropEntries(container.value, n);
    }
  }

  // ---------------------------------------------------------------------------
  // What was reachable stays reachable

  /** A reference reachable in the source is reachable in the output. */
  lemma KeptStillReachable(gen: Generation, spec: seq<Field>, filtered: seq<Field>, removedPaths: seq<string>, seeds: set<Ref>, r: Ref)
    requires seeds == Seeds(gen, spec, filtered)
    requires Reachable(gen, spec, seeds, r)
    ensures Reachable(gen, Project(gen, spec, filtered, removedPaths, ReachableFrom(gen, spec, seeds)).spec, seeds, r)
  {
    var used := ReachableFrom(gen, spec, seeds);
    var out := Project(gen, spec, filtered, removedPaths, used).spec;
    SeedsRecognized(gen, spec, filtered);
    forall x | Reachable(gen, spec, seeds, x)
      ensures Lookup(gen, out, x) == Lookup(gen, spec, x)
    {
      ReachableRecognized(gen, spec, seeds, x);
      LookupKept(gen, spec, filtered, removedPaths, used, x);
    }
    ReachablePreserved(gen, spec, out, seeds, r);
  }

  /** If every reachable reference reads the same body in `out` as in `doc`,
      everything reachable in `doc` is reachable in `out`. */
  lemma ReachablePreserved(gen: Generation, doc: seq<Field>, out: seq<Field>, seeds: set<Ref>, r: Ref)
    requires forall x :: Reachable(gen, doc, seeds, x) ==> Lookup(gen, out, x) == Lookup(gen, doc, x)
    requires Reachable(gen, doc, seeds, r)
    ensures Reachable(gen, out, seeds, r)
  {
    forall t: set<Ref> | seeds <= t && Closed(gen, out, t)
      ensures r in t
    {
      var u := set x | x in t && Reachable(gen, doc, seeds, x);
      forall x | x in seeds
        ensures x in u
      {
        SeedReachable(gen, doc, seeds, x);
      }
      forall x | x in u
        ensures Expansion(gen, doc, x) <= u
      {
        ReachableStep(gen, doc, seeds, x);
        assert Expansion(gen, doc, x) == Expansion(gen, out, x);
      }
      assert r in u;
    }
  }

  lemma SeedReachable(gen: Generation, doc: seq<Field>, seeds: set<Ref>, x: Ref)
    requires x in seeds
    ensures Reachable(gen, doc, seeds, x)
  {
  }

  /** The expansion of a reachable reference is reachable. */
  lemma ReachableStep(gen: Generation, doc: seq<Field>, seeds: set<Ref>, x: Ref)
    requires Reachable(gen, doc, seeds, x)
    ensures forall y :: y in Expansion(gen, doc, x) ==> Reachable(gen, doc, seeds, y)
  {
    forall y, s: set<Ref> | y in Expansion(gen, doc, x) && seeds <= s && Closed(gen, doc, s)
      ensures y in s
    {
      assert x in s;
    }
  }

  /** The seeds have recognised kinds. */
  lemma SeedsRecognized(gen: Generation, doc: seq<Field>, filtered: seq<Field>)
    ensures forall x :: x in Seeds(gen, doc, filtered) ==> Recognized(gen, x.kind)
  {
    if gen == Legacy {
      SeededShape(gen, doc, filtered);
      ScanElems(gen, Obj(filtered), []);
      MentionedRecognized(gen, Obj(filtered));
    }
  }

  /** Everything reachable from recognised seeds has a recognised kind. */
  lemma ReachableRecognized(gen: Generation, doc: seq<Field>, seeds: set<Ref>, r: Ref)
    requires forall x :: x in seeds ==> Recognized(gen, x.kind)
    requires Reachable(gen, doc, seeds, r)
    ensures Recognized(gen, r.kind)
  {
    var t := set x | x in seeds + DeepFields(gen, doc) && Recognized(gen, x.kind);
    forall x | x in t
      ensures Expansion(gen, doc, x) <= t
    {
      LookupInDeep(gen, doc, x);
      ExpansionRecognized(gen, doc, x);
    }
    assert r in t;
  }

  lemma ExpansionRecognized(gen: Generation, doc: seq<Field>, x: Ref)
    ensures forall y :: y in Expansion(gen, doc, x) ==> Recognized(gen, y.kind)
  {
    match Lookup(gen, doc, x)
    case Some(body) => MentionedRecognized(gen, body);
    case None =>
  }

  // ---------------------------------------------------------------------------
  // The second rebuild changes nothing

  /** Rebuilding the output with the same kept paths, no removed path, and a test
      that accepts everything the first rebuild kept returns the output and
      reports nothing. */
  lemma ProjectStable(gen: Generation, spec: seq<Field>, filtered: seq<Field>, removedPaths: seq<string>, used: Ref -> bool, used2: Ref -> bool)
    requires forall r :: used(r) ==> used2(r)
    ensures var out := Project(gen, spec, filtered, removedPaths, used).spec;
      Project(gen, out, filtered, [], used2) == Shaken(out, NoRemovals)
  {
    var out := Project(gen, spec, filtered, removedPaths, used).spec;
    var c := ComponentsObject(gen, spec, used);
    ProjectTopLevel(gen, spec, filtered, removedPaths, used);
    PutSame(out, "paths", Obj(filtered));
    SameMarkers(gen, spec, filtered, removedPaths, used);
    ProjectFlat(gen, spec, filtered, removedPaths, used, Schemas);
    FlatStable(gen, spec, out, used, used2, Schemas);
    ProjectFlat(gen, spec, filtered, removedPaths, used, SecuritySchemes);
    FlatStable(gen, spec, out, used, used2, SecuritySchemes);
    ProjectComponents(gen, spec, filtered, removedPaths, used);
    if ComponentsApply(gen, spec) && |c| > 0 {
      RebuildAgain(gen, spec, out, c, used, used2);
    }
    ComponentsStable(gen, spec, out, c, used2);
  }

  /** A rebuilt Swagger 2.0 section is rebuilt again to itself. */
  lemma FlatStable(gen: Generation, spec: seq<Field>, out: seq<Field>, used: Ref -> bool, used2: Ref -> bool, k: Kind)
    requires k == Schemas || k == SecuritySchemes
    requires "swagger" in Keys(out) <==> "swagger" in Keys(spec)
    requires Get(out, FlatKey(k)) == if FlatApplies(gen, spec, k)
      then Some(Obj(Partition(FlatSource(gen, spec, k), UsedNames(used, k)).kept))
      else Get(spec, FlatKey(k))
    requires forall r :: used(r) ==> used2(r)
    ensures ShakeFlat(gen, out, k, used2, Shaken(out, NoRemovals)) == Shaken(out, NoRemovals)
  {
    if FlatApplies(gen, spec, k) {
      var kept := Partition(FlatSource(gen, spec, k), UsedNames(used, k)).kept;
      assert FlatApplies(gen, out, k);
      assert FlatSource(gen, out, k) == kept;
      PartitionAgain(FlatSource(gen, spec, k), UsedNames(used, k), UsedNames(used2, k));
      PutSame(out, FlatKey(k), Obj(kept));
      AddNothing(NoRemovals, k);
    } else {
      assert !FlatApplies(gen, out, k);
    }
  }

  /** A rebuilt `components` is rebuilt again to itself, given that its
      containers are (`RebuildAgain`); a deleted or untouched one is left alone. */
  lemma ComponentsStable(gen: Generation, spec: seq<Field>, out: seq<Field>, c: seq<Field>, used2: Ref -> bool)
    requires "openapi" in Keys(out) <==> "openapi" in Keys(spec)
    requires Get(out, "components") ==
      if !ComponentsApply(gen, spec) then Get(spec, "components")
      else if |c| == 0 then None
      else Some(Obj(c))
    requires ComponentsApply(gen, spec) && |c| > 0 ==>
      && DropEmpty(Containers(gen, out, ComponentKinds(gen), used2)) == c
      && RecordRemovals(gen, out, ComponentKinds(gen), used2, NoRemovals) == NoRemovals
    ensures ShakeComponents(gen, out, used2, Shaken(out, NoRemovals)) == Shaken(out, NoRemovals)
  {
    if ComponentsApply(gen, spec) && |c| > 0 {
      SameApplies(gen, spec, out);
      ComponentsAgain(gen, out, c, used2);
    } else {
      SameApplies(gen, spec, out);
      ComponentsIdle(gen, out, used2, Shaken(out, NoRemovals));
    }
  }

  /** With the same `openapi` key and `components` value, the rebuild applies
      alike; a missing `components` is never rebuilt. */
  lemma SameApplies(gen: Generation, spec: seq<Field>, out: seq<Field>)
    requires "openapi" in Keys(out) <==> "openapi" in Keys(spec)
    ensures Get(out, "components") == Get(spec, "components") ==> (ComponentsApply(gen, out) <==> ComponentsApply(gen, spec))
    ensures Get(out, "components") == None ==> !ComponentsApply(gen, out)
    ensures ComponentsApply(gen, spec) && Get(out, "components").Some? && Get(out, "components").value.Obj? ==> ComponentsApply(gen, out)
  {
  }

  /** A document whose `components` is not rebuilt is returned as it is. */
  lemma ComponentsIdle(gen: Generation, out: seq<Field>, used2: Ref -> bool, s: Shaken)
    requires !ComponentsApply(gen, out)
    ensures ShakeComponents(gen, out, used2, s) == s
  {
  }

  /** When the containers rebuild to the `components` object already there and
      drop nothing, the document is returned as it is. */
  lemma ComponentsAgain(gen: Generation, out: seq<Field>, c: seq<Field>, used2: Ref -> bool)
    requires ComponentsApply(gen, out) && |c| > 0
    requires Get(out, "components") == Some(Obj(c))
    requires DropEmpty(Containers(gen, out, ComponentKinds(gen), used2)) == c
    requires RecordRemovals(gen, out, ComponentKinds(gen), used2, NoRemovals) == NoRemovals
    ensures ShakeComponents(gen, out, used2, Shaken(out, NoRemovals)) == Shaken(out, NoRemovals)
  {
    PutSame(out, "components", Obj(c));
  }

  /** Rebuilding surviving containers gives them back and drops nothing. */
  lemma RebuildAgain(gen: Generation, spec: seq<Field>, out: seq<Field>, c: seq<Field>, used: Ref -> bool, used2: Ref -> bool)
    requires "openapi" in Keys(out) <==> "openapi" in Keys(spec)
    requires ComponentsApply(gen, spec)
    requires c == ComponentsObject(gen, spec, used)
    requires Get(out, "components") == Some(Obj(c))
    requires forall r :: used(r) ==> used2(r)
    ensures DropEmpty(Containers(gen, out, ComponentKinds(gen), used2)) == c
    ensures RecordRemovals(gen, out, ComponentKinds(gen), used2, NoRemovals) == NoRemovals
  {
    SameApplies(gen, spec, out);
    EveryKindAgain(gen, spec, out, c, used, used2);
    ContainersRebuilt(gen, spec, out, c, used, used2, ComponentKinds(gen));
    NothingRecorded(gen, out, ComponentKinds(gen), used2);
  }

  /** `RebuiltKind` for every kind at once. */
  lemma EveryKindAgain(gen: Generation, spec: seq<Field>, out: seq<Field>, c: seq<Field>, used: Ref -> bool, used2: Ref -> bool)
    requires ComponentsApply(gen, out)
    requires c == ComponentsObject(gen, spec, used)
    requires Get(out, "components") == Some(Obj(c))
    requires forall r :: used(r) ==> used2(r)
    ensures forall k :: KindApplies(gen, out, k) <==> KindApplies(gen, spec, k) && |KeptEntries(gen, spec, k, used)| > 0
    ensures forall k :: KindApplies(gen, out, k) ==> KeptEntries(gen, out, k, used2) == KeptEntries(gen, spec, k, used)
    ensures forall k :: DroppedNames(gen, out, k, used2) == []
  {
    forall k
      ensures KindApplies(gen, out, k) <==> KindApplies(gen, spec, k) && |KeptEntries(gen, spec, k, used)| > 0
      ensures KindApplies(gen, out, k) ==> KeptEntries(gen, out, k, used2) == KeptEntries(gen, spec, k, used)
      ensures DroppedNames(gen, out, k, used2) == []
    {
      ComponentsObjectGet(gen, spec, used, k);
      RebuiltKind(gen, spec, out, c, used, used2, k);
    }
  }

  /** Given the per-kind facts, the output's containers rebuild to `c`. */
  lemma ContainersRebuilt(gen: Generation, spec: seq<Field>, out: seq<Field>, c: seq<Field>, used: Ref -> bool, used2: Ref -> bool, kinds: seq<Kind>)
    requires c == DropEmpty(Containers(gen, spec, kinds, used))
    requires forall k :: KindApplies(gen, out, k) <==> KindApplies(gen, spec, k) && |KeptEntries(gen, spec, k, used)| > 0
    requires forall k :: KindApplies(gen, out, k) ==> KeptEntries(gen, out, k, used2) == KeptEntries(gen, spec, k, used)
    ensures DropEmpty(Containers(gen, out, kinds, used2)) == c
  {
    ContainersAgain(gen, spec, out, used, used2, kinds);
    DropEmptyKeepsAll(c);
  }

  /** A container of the output is processed exactly when the source container
      was and kept an entry; it then holds the same entries, and drops none. */
  lemma RebuiltKind(gen: Generation, spec: seq<Field>, out: seq<Field>, c: seq<Field>, used: Ref -> bool, used2: Ref -> bool, k: Kind)
    requires ComponentsApply(gen, out)
    requires Get(out, "components") == Some(Obj(c))
    requires Get(c, KindName(k)) ==
      if KindApplies(gen, spec, k) && |KeptEntries(gen, spec, k, used)| > 0
      then Some(Obj(KeptEntries(gen, spec, k, used))) else None
    requires forall r :: used(r) ==> used2(r)
    ensures KindApplies(gen, out, k) <==> KindApplies(gen, spec, k) && |KeptEntries(gen, spec, k, used)| > 0
    ensures KindApplies(gen, out, k) ==> KeptEntries(gen, out, k, used2) == KeptEntries(gen, spec, k, used)
    ensures DroppedNames(gen, out, k, used2) == []
  {
    var kept := KeptEntries(gen, spec, k, used);
    if KindApplies(gen, spec, k) && |kept| > 0 {
      assert KindApplies(gen, out, k);
      assert ComponentSource(gen, out, k) == kept;
      PartitionAgain(ComponentSource(gen, spec, k), UsedNames(used, k), UsedNames(used2, k));
    } else {
      assert !KindApplies(gen, out, k);
      IdleKept(gen, out, k, used2);
    }
  }

  /** Given the per-kind facts of `RebuiltKind`, the output's containers are the
      source's surviving containers. */
  lemma {:induction false} ContainersAgain(gen: Generation, spec: seq<Field>, out: seq<Field>, used: Ref -> bool, used2: Ref -> bool, kinds: seq<Kind>)
    requires forall k :: KindApplies(gen, out, k) <==> KindApplies(gen, spec, k) && |KeptEntries(gen, spec, k, used)| > 0
    requires forall k :: KindApplies(gen, out, k) ==> KeptEntries(gen, out, k, used2) == KeptEntries(gen, spec, k, used)
    ensures Containers(gen, out, kinds, used2) == DropEmpty(Containers(gen, spec, kinds, used))
    decreases |kinds|
  {
    if |kinds| > 0 {
      var k := kinds[0];
      var rest := Containers(gen, spec, kinds[1..], used);
      var rest2 := Containers(gen, out, kinds[1..], used2);
      var kept := KeptEntries(gen, spec, k, used);
      ContainersAgain(gen, spec, out, used, used2, kinds[1..]);
      assert rest2 == DropEmpty(rest);
      if KindApplies(gen, spec, k) {
        var f := Field(KindName(k), Obj(kept));
        assert Containers(gen, spec, kinds, used) == [f] + rest;
        DropEmptyCons(f, rest);
        if |kept| > 0 {
          assert KindApplies(gen, out, k);
          assert Containers(gen, out, kinds, used2) == [f] + rest2;
        } else {
          assert !KindApplies(gen, out, k);
          assert Containers(gen, out, kinds, used2) == rest2;
        }
      } else {
        assert !KindApplies(gen, out, k);
        assert Containers(gen, spec, kinds, used) == rest;
        assert Containers(gen, out, kinds, used2) == rest2;
      }
    }
  }

  /** Dropping empties from a list with a known head. */
  lemma DropEmptyCons(f: Field, rest: seq<Field>)
    ensures DropEmpty([f] + rest) == if NoEntries(f.value) then DropEmpty(rest) else [f] + DropEmpty(rest)
  {
    assert ([f] + rest)[1..] == rest;
  }

  /** Dropping empty containers from a list that has none changes nothing. */
  lemma {:induction false} DropEmptyKeepsAll(fields: seq<Field>)
    requires forall f :: f in fields ==> !NoEntries(f.value)
    ensures DropEmpty(fields) == fields
    decreases |fields|
  {
    if |fields| > 0 {
      var f, rest := fields[0], fields[1..];
      assert fields == [f] + rest;
      assert f in fields;
      forall g | g in rest
        ensures !NoEntries(g.value)
      {
        InCons(fields, g);
      }
      DropEmptyKeepsAll(rest);
      DropEmptyCons(f, rest);
    }
  }

  /** Recording containers that drop nothing leaves an empty report empty. */
  lemma NothingRecorded(gen: Generation, spec: seq<Field>, kinds: seq<Kind>, used: Ref -> bool)
    requires NoDup(kinds)
    requires forall k :: DroppedNames(gen, spec, k, used) == []
    ensures RecordRemovals(gen, spec, kinds, used, NoRemovals) == NoRemovals
  {
    var t := RecordRemovals(gen, spec, kinds, used, NoRemovals);
    forall k
      ensures Removed(t, k) == Removed(NoRemovals, k)
    {
      RecordRemovalsSpec(gen, spec, kinds, used, NoRemovals, k);
    }
    RecordRemovalsSpec(gen, spec, kinds, used, NoRemovals, Schemas);
    SummaryExt(t, NoRemovals);
  }

  /** Pushing no names changes no list. */
  lemma AddNothing(s: Summary, k: Kind)
    ensures AddRemoved(s, k, []) == s
  {
    var t := AddRemoved(s, k, []);
    assert Removed(t, k) == Removed(s, k) + [] == Removed(s, k);
    SummaryExt(t, s);
  }

  /** A report is determined by its path list and its five kind lists. */
  lemma SummaryExt(a: Summary, b: Summary)
    requires a.removedPaths == b.removedPaths
    requires forall k :: Removed(a, k) == Removed(b, k)
    ensures a == b
  {
    assert Removed(a, Schemas) == Removed(b, Schemas);
    assert Removed(a, Parameters) == Removed(b, Parameters);
    assert Removed(a, Responses) == Removed(b, Responses);
    assert Removed(a, RequestBodies) == Removed(b, RequestBodies);
    assert Removed(a, SecuritySchemes) == Removed(b, SecuritySchemes);
  }
}
