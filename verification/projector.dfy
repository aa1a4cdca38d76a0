/** The rebuild half of `treeShakeOpenAPI`: given the kept paths and a test for
    "is this reference used", produce the new document and the removal summary. */
module Projector {
  import opened Wrappers
  import opened Seqs
  import opened Json
  import opened Refs
  import opened Partitioning

  /** The removal report. Legacy reports the first five lists only (see
      `TreeShaker.LegacySummary`). */
  datatype Summary = Summary(
    removedPaths: seq<string>,
    removedSchemas: seq<string>,
    removedParameters: seq<string>,
    removedResponses: seq<string>,
    removedRequestBodies: seq<string>,
    removedSecuritySchemes: seq<string>)

  /** The list named `removed` + the capitalised kind name. */
  function Removed(s: Summary, k: Kind): seq<string>
  {
    match k
    case Schemas => s.removedSchemas
    case Parameters => s.removedParameters
    case Responses => s.removedResponses
    case RequestBodies => s.removedRequestBodies
    case SecuritySchemes => s.removedSecuritySchemes
  }

  /** Push names onto one kind's list. */
  function AddRemoved(s: Summary, k: Kind, names: seq<string>): (t: Summary)
    ensures Removed(t, k) == Removed(s, k) + names
    ensures forall k' :: k' != k ==> Removed(t, k') == Removed(s, k')
    ensures t.removedPaths == s.removedPaths
  {
    match k
    case Schemas => s.(removedSchemas := s.removedSchemas + names)
    case Parameters => s.(removedParameters := s.removedParameters + names)
    case Responses => s.(removedResponses := s.removedResponses + names)
    case RequestBodies => s.(removedRequestBodies := s.removedRequestBodies + names)
    case SecuritySchemes => s.(removedSecuritySchemes := s.removedSecuritySchemes + names)
  }

  /** Whether a component name of kind `k` is used. */
  function UsedNames(used: Ref -> bool, k: Kind): string -> bool
  {
    n => used(Ref(k, n))
  }

  /** The shaken document and its report. */
  datatype Shaken = Shaken(spec: seq<Field>, summary: Summary)

  // ---------------------------------------------------------------------------
  // Swagger 2.0 sections: `definitions` and (Current) `securityDefinitions`

  /** The top-level key holding a kind's Swagger 2.0 section. */
  function FlatKey(k: Kind): string
  {
    if k == SecuritySchemes then "securityDefinitions" else "definitions"
  }

  /** Whether the section for `k` is rebuilt: Legacy rebuilds `definitions` when it
      is truthy; Current rebuilds `definitions` and `securityDefinitions` when the
      document has a `swagger` key and the section is truthy. */
  predicate FlatApplies(gen: Generation, spec: seq<Field>, k: Kind)
  {
    && (if gen == Legacy then k == Schemas else k == Schemas || k == SecuritySchemes)
    && (gen == Legacy || "swagger" in Keys(spec))
    && TruthyOpt(Get(spec, FlatKey(k)))
  }

  /** The entries of the section that is rebuilt for `k`, or none. */
  function FlatSource(gen: Generation, spec: seq<Field>, k: Kind): seq<Field>
  {
    if FlatApplies(gen, spec, k) then Entries(Get(spec, FlatKey(k)).value) else []
  }

  /** Rebuild one section: a fresh object with the used entries, the rest reported. */
  function ShakeFlat(gen: Generation, spec: seq<Field>, k: Kind, used: Ref -> bool, s: Shaken): Shaken
  {
    if FlatApplies(gen, spec, k) then
      var split := Partition(FlatSource(gen, spec, k), UsedNames(used, k));
      Shaken(Put(s.spec, FlatKey(k), Obj(split.kept)), AddRemoved(s.summary, k, split.removed))
    else
      s
  }

  // ---------------------------------------------------------------------------
  // OpenAPI 3 `components`

  /** Whether `components` is rebuilt: Legacy when it is truthy, Current when the
      document also has an `openapi` key. */
  predicate ComponentsApply(gen: Generation, spec: seq<Field>)
  {
    (gen == Legacy || "openapi" in Keys(spec)) && TruthyOpt(Get(spec, "components"))
  }

  /** Whether the container of kind `k` is processed: a recognised kind whose
      container under the source `components` is truthy. */
  predicate KindApplies(gen: Generation, spec: seq<Field>, k: Kind)
  {
    ComponentsApply(gen, spec) && Recognized(gen, k) &&
    TruthyOpt(Prop(Get(spec, "components").value, KindName(k)))
  }

  /** The entries of a processed container, or none. */
  function ComponentSource(gen: Generation, spec: seq<Field>, k: Kind): seq<Field>
  {
    if KindApplies(gen, spec, k) then Entries(Prop(Get(spec, "components").value, KindName(k)).value) else []
  }

  /** The entries of kind `k`'s processed container that are used, in order. */
  function KeptEntries(gen: Generation, spec: seq<Field>, k: Kind, used: Ref -> bool): seq<Field>
  {
    Partition(ComponentSource(gen, spec, k), UsedNames(used, k)).kept
  }

  /** The names of kind `k`'s processed container that are not used, in order. */
  function DroppedNames(gen: Generation, spec: seq<Field>, k: Kind, used: Ref -> bool): seq<string>
  {
    Partition(ComponentSource(gen, spec, k), UsedNames(used, k)).removed
  }

  /** The fresh containers, one per processed kind, in the order the kinds are visited. */
  function Containers(gen: Generation, spec: seq<Field>, kinds: seq<Kind>, used: Ref -> bool): seq<Field>
    decreases |kinds|
  {
    if |kinds| == 0 then []
    else
      var k := kinds[0];
      var here := if KindApplies(gen, spec, k) then [Field(KindName(k), Obj(KeptEntries(gen, spec, k, used)))] else [];
      here + Containers(gen, spec, kinds[1..], used)
  }

  /** Every processed kind's dropped names pushed onto its list. */
  function RecordRemovals(gen: Generation, spec: seq<Field>, kinds: seq<Kind>, used: Ref -> bool, s: Summary): Summary
    decreases |kinds|
  {
    if |kinds| == 0 then s
    else RecordRemovals(gen, spec, kinds[1..], used, RecordKind(gen, spec, kinds[0], used, s))
  }

  /** One kind's dropped names pushed onto its list, when the kind is processed. */
  function RecordKind(gen: Generation, spec: seq<Field>, k: Kind, used: Ref -> bool, s: Summary): (t: Summary)
    ensures forall k' :: Removed(t, k') == Removed(s, k') +
                          (if k' == k && KindApplies(gen, spec, k) then DroppedNames(gen, spec, k, used) else [])
    ensures t.removedPaths == s.removedPaths
  {
    if KindApplies(gen, spec, k) then AddRemoved(s, k, DroppedNames(gen, spec, k, used)) else s
  }

  /** A value with no own keys. */
  predicate NoEntries(j: Json)
  {
    |Entries(j)| == 0
  }

  /** Delete every container left without entries. */
  function DropEmpty(fields: seq<Field>): (r: seq<Field>)
    ensures forall f :: f in r <==> f in fields && !NoEntries(f.value)
    ensures IsSubsequence(r, fields)
    decreases |fields|
  {
    if |fields| == 0 then []
    else
      var rest := DropEmpty(fields[1..]);
      assert fields == [fields[0]] + fields[1..];
      if NoEntries(fields[0].value) then rest
      else
        var r := [fields[0]] + rest;
        assert r[1..] == rest;
        r
  }

  /** Rebuild `components` and delete it when nothing is left. */
  function ShakeComponents(gen: Generation, spec: seq<Field>, used: Ref -> bool, s: Shaken): Shaken
  {
    if ComponentsApply(gen, spec) then
      var kinds := ComponentKinds(gen);
      var kept := DropEmpty(Containers(gen, spec, kinds, used));
      var out := if |kept| == 0 then Delete(s.spec, "components") else Put(s.spec, "components", Obj(kept));
      Shaken(out, RecordRemovals(gen, spec, kinds, used, s.summary))
    else
      s
  }

  /** The whole rebuild: `{...spec, paths: filtered}`, then the Swagger 2.0
      sections, then `components`. */
  function Project(gen: Generation, spec: seq<Field>, filtered: seq<Field>, removedPaths: seq<string>, used: Ref -> bool): Shaken
  {
    var start := Shaken(Put(spec, "paths", Obj(filtered)), Summary(removedPaths, [], [], [], [], []));
    var v2 := ShakeFlat(gen, spec, SecuritySchemes, used, ShakeFlat(gen, spec, Schemas, used, start));
    ShakeComponents(gen, spec, used, v2)
  }

  // ---------------------------------------------------------------------------
  // What the rebuild promises

  lemma KindNamesDistinct(a: Kind, b: Kind)
    ensures KindName(a) == KindName(b) <==> a == b
  {
    KindNameShape(a, b);
  }

  lemma {:induction false} ContainersGet(gen: Generation, spec: seq<Field>, kinds: seq<Kind>, used: Ref -> bool, k: Kind)
    requires NoDup(kinds)
    ensures Get(Containers(gen, spec, kinds, used), KindName(k)) ==
      if k in kinds && KindApplies(gen, spec, k) then Some(Obj(KeptEntries(gen, spec, k, used))) else None
    decreases |kinds|
  {
    if |kinds| > 0 {
      var rest := Containers(gen, spec, kinds[1..], used);
      NoDupTail(kinds);
      ContainersGet(gen, spec, kinds[1..], used, k);
      KindNamesDistinct(kinds[0], k);
      InCons(kinds, k);
      var c := Containers(gen, spec, kinds, used);
      if KindApplies(gen, spec, kinds[0]) {
        var f := Field(KindName(kinds[0]), Obj(KeptEntries(gen, spec, kinds[0], used)));
        assert c == [f] + rest;
        assert c[1..] == rest;
        GetFirst(c, KindName(k));
      } else {
        assert c == rest;
      }
    }
  }

  /** Only recognised kind names appear among the containers. */
  lemma {:induction false} ContainersKinds(gen: Generation, spec: seq<Field>, kinds: seq<Kind>, used: Ref -> bool)
    ensures forall f :: f in Containers(gen, spec, kinds, used) ==> KindOfName(gen, f.key).Some?
    decreases |kinds|
  {
    if |kinds| > 0 {
      ContainersKinds(gen, spec, kinds[1..], used);
      var k := kinds[0];
      if KindApplies(gen, spec, k) {
        assert KindOfName(gen, KindName(k)) == Some(k);
      }
    }
  }

  lemma {:induction false} ContainersDistinct(gen: Generation, spec: seq<Field>, kinds: seq<Kind>, used: Ref -> bool)
    requires NoDup(kinds)
    ensures DistinctKeys(Containers(gen, spec, kinds, used))
    decreases |kinds|
  {
    if |kinds| > 0 {
      var c := Containers(gen, spec, kinds, used);
      var rest := Containers(gen, spec, kinds[1..], used);
      NoDupTail(kinds);
      ContainersDistinct(gen, spec, kinds[1..], used);
      if KindApplies(gen, spec, kinds[0]) {
        ContainersGet(gen, spec, kinds[1..], used, kinds[0]);
        assert KindName(kinds[0]) !in Keys(rest);
        forall i, j | 0 <= i < j < |c| ensures c[i].key != c[j].key {
          if i == 0 {
            assert c[j] == rest[j - 1];
            assert Keys(rest)[j - 1] == rest[j - 1].key;
          } else {
            assert c[i] == rest[i - 1] && c[j] == rest[j - 1];
          }
        }
      }
    }
  }

  /** With distinct keys, a lookup after dropping empties finds the entry unless it
      was empty. */
  lemma {:induction false} DropEmptyGet(fields: seq<Field>, key: string)
    requires DistinctKeys(fields)
    ensures Get(DropEmpty(fields), key) ==
      if Get(fields, key).Some? && !NoEntries(Get(fields, key).value) then Get(fields, key) else None
    decreases |fields|
  {
    if |fields| > 0 {
      var rest := DropEmpty(fields[1..]);
      DistinctTail(fields);
      DropEmptyGet(fields[1..], key);
      if !NoEntries(fields[0].value) {
        assert ([fields[0]] + rest)[1..] == rest;
      }
    }
  }

  lemma {:induction false} RecordRemovalsSpec(gen: Generation, spec: seq<Field>, kinds: seq<Kind>, used: Ref -> bool, s: Summary, k: Kind)
    requires NoDup(kinds)
    ensures Removed(RecordRemovals(gen, spec, kinds, used, s), k) == Removed(s, k) +
      if k in kinds && KindApplies(gen, spec, k) then DroppedNames(gen, spec, k, used) else []
    ensures RecordRemovals(gen, spec, kinds, used, s).removedPaths == s.removedPaths
    decreases |kinds|
  {
    if |kinds| > 0 {
      NoDupTail(kinds);
      RecordRemovalsSpec(gen, spec, kinds[1..], used, RecordKind(gen, spec, kinds[0], used, s), k);
      RecordRemovalsStep(gen, spec, kinds, used, s, k);
    } else {
      assert Removed(s, k) + [] == Removed(s, k);
    }
  }

  /** The inductive step of `RecordRemovalsSpec`: the first kind's names, then the rest's. */
  lemma RecordRemovalsStep(gen: Generation, spec: seq<Field>, kinds: seq<Kind>, used: Ref -> bool, s: Summary, k: Kind)
    requires |kinds| > 0 && kinds[0] !in kinds[1..]
    requires Removed(RecordRemovals(gen, spec, kinds[1..], used, RecordKind(gen, spec, kinds[0], used, s)), k) ==
      Removed(RecordKind(gen, spec, kinds[0], used, s), k) +
      if k in kinds[1..] && KindApplies(gen, spec, k) then DroppedNames(gen, spec, k, used) else []
    ensures Removed(RecordRemovals(gen, spec, kinds, used, s), k) == Removed(s, k) +
      if k in kinds && KindApplies(gen, spec, k) then DroppedNames(gen, spec, k, used) else []
  {
    var k0 := kinds[0];
    assert k in kinds <==> k == k0 || k in kinds[1..] by {
      assert kinds == [k0] + kinds[1..];
    }
    var here := if k == k0 && KindApplies(gen, spec, k0) then DroppedNames(gen, spec, k0, used) else [];
    var later := if k in kinds[1..] && KindApplies(gen, spec, k) then DroppedNames(gen, spec, k, used) else [];
    assert Removed(RecordKind(gen, spec, k0, used, s), k) == Removed(s, k) + here;
    if here == [] {
      assert Removed(s, k) + here == Removed(s, k);
    } else {
      assert later == [];
    }
  }

  lemma ShakeFlatOthers(gen: Generation, spec: seq<Field>, k: Kind, used: Ref -> bool, s: Shaken)
    ensures forall key :: key != FlatKey(k) ==> Get(ShakeFlat(gen, spec, k, used, s).spec, key) == Get(s.spec, key)
    ensures ShakeFlat(gen, spec, k, used, s).summary.removedPaths == s.summary.removedPaths
  {
  }

  lemma ShakeComponentsOthers(gen: Generation, spec: seq<Field>, used: Ref -> bool, s: Shaken)
    ensures forall key :: key != "components" ==> Get(ShakeComponents(gen, spec, used, s).spec, key) == Get(s.spec, key)
    ensures ShakeComponents(gen, spec, used, s).summary.removedPaths == s.summary.removedPaths
  {
    if ComponentsApply(gen, spec) {
      var kinds := ComponentKinds(gen);
      ReplaceComponentsOthers(s.spec, DropEmpty(Containers(gen, spec, kinds, used)));
      RecordRemovalsSpec(gen, spec, kinds, used, s.summary, Schemas);
    }
  }

  /** Replacing or deleting `components` leaves every other key as it was. */
  lemma ReplaceComponentsOthers(fields: seq<Field>, kept: seq<Field>)
    ensures var out := if |kept| == 0 then Delete(fields, "components") else Put(fields, "components", Obj(kept));
      forall key :: key != "components" ==> Get(out, key) == Get(fields, key)
  {
  }

  /** Top level: `paths` is replaced by the kept paths, the path report is kept,
      and every key other than the rebuilt sections is carried over unchanged. */
  lemma ProjectTopLevel(gen: Generation, spec: seq<Field>, filtered: seq<Field>, removedPaths: seq<string>, used: Ref -> bool)
    ensures var p := Project(gen, spec, filtered, removedPaths, used);
      && Get(p.spec, "paths") == Some(Obj(filtered))
      && p.summary.removedPaths == removedPaths
      && forall key :: key !in ["paths", "definitions", "securityDefinitions", "components"] ==> Get(p.spec, key) == Get(spec, key)
  {
    var start := Shaken(Put(spec, "paths", Obj(filtered)), Summary(removedPaths, [], [], [], [], []));
    var v1 := ShakeFlat(gen, spec, Schemas, used, start);
    var v2 := ShakeFlat(gen, spec, SecuritySchemes, used, v1);
    ShakeFlatOthers(gen, spec, Schemas, used, start);
    ShakeFlatOthers(gen, spec, SecuritySchemes, used, v1);
    ShakeComponentsOthers(gen, spec, used, v2);
  }

  lemma ShakeFlatOwn(gen: Generation, spec: seq<Field>, k: Kind, used: Ref -> bool, s: Shaken)
    ensures Get(ShakeFlat(gen, spec, k, used, s).spec, FlatKey(k)) ==
      if FlatApplies(gen, spec, k) then Some(Obj(Partition(FlatSource(gen, spec, k), UsedNames(used, k)).kept))
      else Get(s.spec, FlatKey(k))
  {
  }

  /** The rebuilt `components` object, before the decision to delete it. */
  function ComponentsObject(gen: Generation, spec: seq<Field>, used: Ref -> bool): seq<Field>
  {
    DropEmpty(Containers(gen, spec, ComponentKinds(gen), used))
  }

  lemma ShakeComponentsOwn(gen: Generation, spec: seq<Field>, used: Ref -> bool, s: Shaken)
    ensures var c := ComponentsObject(gen, spec, used);
      Get(ShakeComponents(gen, spec, used, s).spec, "components") ==
        if !ComponentsApply(gen, spec) then Get(s.spec, "components")
        else if |c| == 0 then None
        else Some(Obj(c))
  {
  }

  /** Each kind's container survives exactly when it is processed and keeps an
      entry; only recognised kinds name a container. */
  lemma ComponentsObjectShape(gen: Generation, spec: seq<Field>, used: Ref -> bool)
    ensures var c := ComponentsObject(gen, spec, used);
      && (forall f :: f in c ==> KindOfName(gen, f.key).Some?)
      && (forall k :: Get(c, KindName(k)) ==
            if KindApplies(gen, spec, k) && |KeptEntries(gen, spec, k, used)| > 0
            then Some(Obj(KeptEntries(gen, spec, k, used))) else None)
      && (|c| == 0 <==> forall k :: KindApplies(gen, spec, k) ==> |KeptEntries(gen, spec, k, used)| == 0)
  {
    ContainersKinds(gen, spec, ComponentKinds(gen), used);
    forall k
      ensures Get(ComponentsObject(gen, spec, used), KindName(k)) ==
        if KindApplies(gen, spec, k) && |KeptEntries(gen, spec, k, used)| > 0
        then Some(Obj(KeptEntries(gen, spec, k, used))) else None
    {
      ComponentsObjectGet(gen, spec, used, k);
    }
    ComponentsObjectEmpty(gen, spec, used);
  }

  lemma ComponentsObjectGet(gen: Generation, spec: seq<Field>, used: Ref -> bool, k: Kind)
    ensures Get(ComponentsObject(gen, spec, used), KindName(k)) ==
      if KindApplies(gen, spec, k) && |KeptEntries(gen, spec, k, used)| > 0
      then Some(Obj(KeptEntries(gen, spec, k, used))) else None
  {
    var kinds := ComponentKinds(gen);
    var built := Containers(gen, spec, kinds, used);
    var kept := KeptEntries(gen, spec, k, used);
    ContainersDistinct(gen, spec, kinds, used);
    BuiltContainer(gen, spec, used, k);
    if KindApplies(gen, spec, k) {
      DropEmptyPresent(built, KindName(k), kept);
    } else {
      DropEmptyAbsent(built, KindName(k));
    }
  }

  lemma DropEmptyPresent(fields: seq<Field>, key: string, entries: seq<Field>)
    requires DistinctKeys(fields) && Get(fields, key) == Some(Obj(entries))
    ensures Get(DropEmpty(fields), key) == if |entries| > 0 then Some(Obj(entries)) else None
  {
    DropEmptyGet(fields, key);
  }

  lemma DropEmptyAbsent(fields: seq<Field>, key: string)
    requires DistinctKeys(fields) && Get(fields, key) == None
    ensures Get(DropEmpty(fields), key) == None
  {
    DropEmptyGet(fields, key);
  }

  /** Before empties are dropped, every processed kind has its container. */
  lemma BuiltContainer(gen: Generation, spec: seq<Field>, used: Ref -> bool, k: Kind)
    ensures Get(Containers(gen, spec, ComponentKinds(gen), used), KindName(k)) ==
      if KindApplies(gen, spec, k) then Some(Obj(KeptEntries(gen, spec, k, used))) else None
  {
    var kinds := ComponentKinds(gen);
    ContainersGet(gen, spec, kinds, used, k);
    assert KindApplies(gen, spec, k) ==> k in kinds;
  }

  lemma ComponentsObjectEmpty(gen: Generation, spec: seq<Field>, used: Ref -> bool)
    ensures |ComponentsObject(gen, spec, used)| == 0 <==>
      forall k :: KindApplies(gen, spec, k) ==> |KeptEntries(gen, spec, k, used)| == 0
  {
    var c := ComponentsObject(gen, spec, used);
    if |c| > 0 {
      var built := Containers(gen, spec, ComponentKinds(gen), used);
      ContainersKinds(gen, spec, ComponentKinds(gen), used);
      assert c[0] in built;
      var k :| KindOfName(gen, c[0].key) == Some(k);
      ComponentsObjectGet(gen, spec, used, k);
      assert Get(c, KindName(k)).Some?;
    } else {
      forall k | KindApplies(gen, spec, k) ensures |KeptEntries(gen, spec, k, used)| == 0 {
        ComponentsObjectGet(gen, spec, used, k);
      }
    }
  }

  /** Swagger 2.0 sections: a rebuilt section holds exactly its used entries in
      source order; a section that is not rebuilt is carried over unchanged. */
  lemma ProjectFlat(gen: Generation, spec: seq<Field>, filtered: seq<Field>, removedPaths: seq<string>, used: Ref -> bool, k: Kind)
    requires k == Schemas || k == SecuritySchemes
    ensures var out := Project(gen, spec, filtered, removedPaths, used).spec;
      if FlatApplies(gen, spec, k)
      then Get(out, FlatKey(k)) == Some(Obj(Partition(FlatSource(gen, spec, k), UsedNames(used, k)).kept))
      else Get(out, FlatKey(k)) == Get(spec, FlatKey(k))
  {
    var start := Shaken(Put(spec, "paths", Obj(filtered)), Summary(removedPaths, [], [], [], [], []));
    var v1 := ShakeFlat(gen, spec, Schemas, used, start);
    var v2 := ShakeFlat(gen, spec, SecuritySchemes, used, v1);
    ShakeFlatOwn(gen, spec, k, used, if k == Schemas then start else v1);
    ShakeFlatOthers(gen, spec, Schemas, used, start);
    ShakeFlatOthers(gen, spec, SecuritySchemes, used, v1);
    ShakeComponentsOthers(gen, spec, used, v2);
  }

  /** `components`: when rebuilt it becomes the object of surviving containers
      (see `ComponentsObjectShape`), or is deleted when none survives; otherwise
      it is carried over unchanged. */
  lemma ProjectComponents(gen: Generation, spec: seq<Field>, filtered: seq<Field>, removedPaths: seq<string>, used: Ref -> bool)
    ensures var out := Get(Project(gen, spec, filtered, removedPaths, used).spec, "components");
      var c := ComponentsObject(gen, spec, used);
      && (!ComponentsApply(gen, spec) ==> out == Get(spec, "components"))
      && (ComponentsApply(gen, spec) && |c| == 0 ==> out == None)
      && (ComponentsApply(gen, spec) && |c| > 0 ==> out == Some(Obj(c)))
  {
    var start := Shaken(Put(spec, "paths", Obj(filtered)), Summary(removedPaths, [], [], [], [], []));
    var v1 := ShakeFlat(gen, spec, Schemas, used, start);
    var v2 := ShakeFlat(gen, spec, SecuritySchemes, used, v1);
    ShakeFlatOthers(gen, spec, Schemas, used, start);
    ShakeFlatOthers(gen, spec, SecuritySchemes, used, v1);
    ShakeComponentsOwn(gen, spec, used, v2);
  }

  /** The report: each kind's list holds the dropped names of its Swagger 2.0
      section, then those of its `components` container, each in source order. */
  lemma ProjectSummary(gen: Generation, spec: seq<Field>, filtered: seq<Field>, removedPaths: seq<string>, used: Ref -> bool, k: Kind)
    ensures Removed(Project(gen, spec, filtered, removedPaths, used).summary, k) ==
      Partition(FlatSource(gen, spec, k), UsedNames(used, k)).removed +
      Partition(ComponentSource(gen, spec, k), UsedNames(used, k)).removed
  {
    var start := Shaken(Put(spec, "paths", Obj(filtered)), Summary(removedPaths, [], [], [], [], []));
    var v1 := ShakeFlat(gen, spec, Schemas, used, start);
    var v2 := ShakeFlat(gen, spec, SecuritySchemes, used, v1);
    var flat := Partition(FlatSource(gen, spec, k), UsedNames(used, k)).removed;
    assert Removed(start.summary, k) == [];
    ShakeFlatSummary(gen, spec, Schemas, used, start, k);
    ShakeFlatSummary(gen, spec, SecuritySchemes, used, v1, k);
    assert Removed(v2.summary, k) == flat by {
      assert k != Schemas && k != SecuritySchemes ==> FlatSource(gen, spec, k) == [];
    }
    ShakeComponentsSummary(gen, spec, used, v2, k);
  }

  /** Rebuilding one Swagger 2.0 section reports its dropped names on its own list. */
  lemma ShakeFlatSummary(gen: Generation, spec: seq<Field>, k0: Kind, used: Ref -> bool, s: Shaken, k: Kind)
    ensures Removed(ShakeFlat(gen, spec, k0, used, s).summary, k) == Removed(s.summary, k) +
      if k == k0 then Partition(FlatSource(gen, spec, k0), UsedNames(used, k0)).removed else []
  {
    if !FlatApplies(gen, spec, k0) || k != k0 {
      assert FlatSource(gen, spec, k0) == [] || k != k0;
      assert Removed(s.summary, k) + [] == Removed(s.summary, k);
    }
  }

  /** Rebuilding `components` reports each kind's dropped names on its own list. */
  lemma ShakeComponentsSummary(gen: Generation, spec: seq<Field>, used: Ref -> bool, s: Shaken, k: Kind)
    ensures Removed(ShakeComponents(gen, spec, used, s).summary, k) == Removed(s.summary, k) +
      Partition(ComponentSource(gen, spec, k), UsedNames(used, k)).removed
  {
    if ComponentsApply(gen, spec) {
      RecordRemovalsSpec(gen, spec, ComponentKinds(gen), used, s.summary, k);
    }
    if !KindApplies(gen, spec, k) {
      assert ComponentSource(gen, spec, k) == [];
      assert Removed(s.summary, k) + [] == Removed(s.summary, k);
    }
  }

  // ---------------------------------------------------------------------------
  // The rebuild depends on `used` only through its values

  lemma UsedNamesAgree(p: Ref -> bool, q: Ref -> bool, k: Kind, src: seq<Field>)
    requires forall r :: p(r) == q(r)
    ensures Partition(src, UsedNames(p, k)) == Partition(src, UsedNames(q, k))
  {
    PartitionCongruent(src, UsedNames(p, k), UsedNames(q, k));
  }

  lemma {:induction false} ContainersCongruent(gen: Generation, spec: seq<Field>, kinds: seq<Kind>, p: Ref -> bool, q: Ref -> bool)
    requires forall r :: p(r) == q(r)
    ensures Containers(gen, spec, kinds, p) == Containers(gen, spec, kinds, q)
    decreases |kinds|
  {
    if |kinds| > 0 {
      UsedNamesAgree(p, q, kinds[0], ComponentSource(gen, spec, kinds[0]));
      ContainersCongruent(gen, spec, kinds[1..], p, q);
    }
  }

  lemma {:induction false} RecordRemovalsCongruent(gen: Generation, spec: seq<Field>, kinds: seq<Kind>, p: Ref -> bool, q: Ref -> bool, s: Summary)
    requires forall r :: p(r) == q(r)
    ensures RecordRemovals(gen, spec, kinds, p, s) == RecordRemovals(gen, spec, kinds, q, s)
    decreases |kinds|
  {
    if |kinds| > 0 {
      var k := kinds[0];
      UsedNamesAgree(p, q, k, ComponentSource(gen, spec, k));
      RecordRemovalsCongruent(gen, spec, kinds[1..], p, q, RecordKind(gen, spec, k, p, s));
    }
  }

  lemma ShakeFlatCongruent(gen: Generation, spec: seq<Field>, k: Kind, p: Ref -> bool, q: Ref -> bool, s: Shaken)
    requires forall r :: p(r) == q(r)
    ensures ShakeFlat(gen, spec, k, p, s) == ShakeFlat(gen, spec, k, q, s)
  {
    UsedNamesAgree(p, q, k, FlatSource(gen, spec, k));
  }

  lemma ShakeComponentsCongruent(gen: Generation, spec: seq<Field>, p: Ref -> bool, q: Ref -> bool, s: Shaken)
    requires forall r :: p(r) == q(r)
    ensures ShakeComponents(gen, spec, p, s) == ShakeComponents(gen, spec, q, s)
  {
    ContainersCongruent(gen, spec, ComponentKinds(gen), p, q);
    RecordRemovalsCongruent(gen, spec, ComponentKinds(gen), p, q, s.summary);
  }

  /** Two tests that agree on every reference produce the same document and report. */
  lemma ProjectCongruent(gen: Generation, spec: seq<Field>, filtered: seq<Field>, removedPaths: seq<string>, p: Ref -> bool, q: Ref -> bool)
    requires forall r :: p(r) == q(r)
    ensures Project(gen, spec, filtered, removedPaths, p) == Project(gen, spec, filtered, removedPaths, q)
  {
    var start := Shaken(Put(spec, "paths", Obj(filtered)), Summary(removedPaths, [], [], [], [], []));
    var v1 := ShakeFlat(gen, spec, Schemas, p, start);
    ShakeFlatCongruent(gen, spec, Schemas, p, q, start);
    var v2 := ShakeFlat(gen, spec, SecuritySchemes, p, v1);
    ShakeFlatCongruent(gen, spec, SecuritySchemes, p, q, v1);
    ShakeComponentsCongruent(gen, spec, p, q, v2);
  }
}
