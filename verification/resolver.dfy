/** `findAllReferences`: the worklist that closes the references of the kept paths
    under "look the component up and scan its body". */
module Resolver {
  import opened Wrappers
  import opened Seqs
  import opened Json
  import opened Refs
  import opened Scanner

  // ---------------------------------------------------------------------------
  // Component lookup

  /** The component body a reference names, with the version-aware dispatch:
      schemas read `definitions` when it is truthy and `components.schemas`
      otherwise; (Current) security schemes read `securityDefinitions` when it is
      truthy and `components.securitySchemes` otherwise; every other kind is read
      from `components`, and only when the document has a `components` key. */
  function Lookup(gen: Generation, doc: seq<Field>, r: Ref): Option<Json>
  {
    var components := Get(doc, "components");
    if r.kind == Schemas then
      var definitions := Get(doc, "definitions");
      var schemas := PropOpt(components, "schemas");
      if TruthyOpt(definitions) then Prop(definitions.value, r.name)
      else if TruthyOpt(schemas) then Prop(schemas.value, r.name)
      else None
    else if gen == Current && r.kind == SecuritySchemes then
      var securityDefinitions := Get(doc, "securityDefinitions");
      var schemes := PropOpt(components, "securitySchemes");
      if TruthyOpt(securityDefinitions) then Prop(securityDefinitions.value, r.name)
      else if TruthyOpt(schemes) then Prop(schemes.value, r.name)
      else None
    else if components.Some? then
      PropOpt(PropOpt(components, KindName(r.kind)), r.name)
    else
      None
  }

  /** The references one expansion step adds: those mentioned by the body, when
      the body exists and is truthy; nothing otherwise. */
  function Expansion(gen: Generation, doc: seq<Field>, r: Ref): set<Ref>
  {
    match Lookup(gen, doc, r)
    case Some(body) => if Truthy(body) then Mentioned(gen, body) else {}
    case None => {}
  }

  /** A set of references that already holds the expansion of each member. */
  predicate Closed(gen: Generation, doc: seq<Field>, s: set<Ref>)
  {
    forall r :: r in s ==> Expansion(gen, doc, r) <= s
  }

  /** Reference definition of reachability: `r` lies in every closed set that
      contains the seeds (the least fixed point of expansion). */
  ghost predicate Reachable(gen: Generation, doc: seq<Field>, seeds: set<Ref>, r: Ref)
  {
    forall s: set<Ref> :: seeds <= s && Closed(gen, doc, s) ==> r in s
  }

  /** A closed set containing the seeds holds everything reachable from them. */
  lemma ClosedHoldsReachable(gen: Generation, doc: seq<Field>, seeds: set<Ref>, s: set<Ref>)
    requires seeds <= s && Closed(gen, doc, s)
    ensures forall r :: Reachable(gen, doc, seeds, r) ==> r in s
  {
  }

  // ---------------------------------------------------------------------------
  // The finite universe every scan draws from (the termination measure)

  /** Every reference any walk of any subtree of `j` can meet. */
  function Deep(gen: Generation, j: Json): set<Ref>
    decreases j
  {
    match j
    case Arr(items) => DeepItems(gen, items)
    case Obj(fields) => DeepFields(gen, fields)
    case _ => {}
  }

  function DeepItems(gen: Generation, items: seq<Json>): set<Ref>
    decreases items
  {
    if |items| == 0 then {} else Deep(gen, items[0]) + DeepItems(gen, items[1..])
  }

  function DeepFields(gen: Generation, fields: seq<Field>): set<Ref>
    decreases fields
  {
    if |fields| == 0 then {} else DeepField(gen, fields[0]) + DeepFields(gen, fields[1..])
  }

  function DeepField(gen: Generation, f: Field): set<Ref>
    decreases f
  {
    HitRefs(FieldHits(gen, f)) + Deep(gen, f.value)
  }

  lemma HitRefsAppend(a: seq<Hit>, b: seq<Hit>)
    ensures HitRefs(a + b) == HitRefs(a) + HitRefs(b)
  {
    assert forall h :: h in a + b <==> h in a || h in b;
  }

  lemma {:induction false} MentionedInDeep(gen: Generation, j: Json)
    ensures Mentioned(gen, j) <= Deep(gen, j)
    decreases j
  {
    match j
    case Arr(items) => ItemsInDeep(gen, items);
    case Obj(fields) => FieldsInDeep(gen, fields);
    case _ =>
  }

  lemma {:induction false} ItemsInDeep(gen: Generation, items: seq<Json>)
    ensures HitRefs(ItemHits(gen, items)) <= DeepItems(gen, items)
    decreases items
  {
    if |items| > 0 {
      MentionedInDeep(gen, items[0]);
      ItemsInDeep(gen, items[1..]);
      HitRefsAppend(Hits(gen, items[0]), ItemHits(gen, items[1..]));
    }
  }

  lemma {:induction false} FieldsInDeep(gen: Generation, fields: seq<Field>)
    ensures HitRefs(FieldListHits(gen, fields)) <= DeepFields(gen, fields)
    decreases fields
  {
    if |fields| > 0 {
      FieldsInDeep(gen, fields[1..]);
      HitRefsAppend(FieldHits(gen, fields[0]), FieldListHits(gen, fields[1..]));
    }
  }

  lemma {:induction false} DeepMember(gen: Generation, fields: seq<Field>, f: Field)
    requires f in fields
    ensures Deep(gen, f.value) <= DeepFields(gen, fields)
    decreases |fields|
  {
    if fields[0] != f {
      DeepMember(gen, fields[1..], f);
    }
  }

  lemma DeepProp(gen: Generation, j: Json, k: string)
    requires Prop(j, k).Some?
    ensures Deep(gen, Prop(j, k).value) <= Deep(gen, j)
  {
    DeepMember(gen, j.fields, Field(k, Prop(j, k).value));
  }

  /** Every body the lookup can return lies inside the document. */
  lemma LookupInDeep(gen: Generation, doc: seq<Field>, r: Ref)
    ensures Expansion(gen, doc, r) <= DeepFields(gen, doc)
  {
    var body := Lookup(gen, doc, r);
    if body.Some? && Truthy(body.value) {
      MentionedInDeep(gen, body.value);
      LookupInside(gen, doc, r);
    }
  }

  /** The body the lookup returns is a value found inside the document. */
  lemma LookupInside(gen: Generation, doc: seq<Field>, r: Ref)
    requires Lookup(gen, doc, r).Some?
    ensures Deep(gen, Lookup(gen, doc, r).value) <= DeepFields(gen, doc)
  {
    var top := if r.kind == Schemas then "definitions" else "securityDefinitions";
    var segment := if r.kind == Schemas then "schemas" else KindName(r.kind);
    if (r.kind == Schemas || (gen == Current && r.kind == SecuritySchemes)) && TruthyOpt(Get(doc, top)) {
      TopPropInDeep(gen, doc, top, r.name);
    } else {
      ComponentPropInDeep(gen, doc, segment, r.name);
    }
  }

  /** `doc[top]?.[name]` lies inside the document. */
  lemma TopPropInDeep(gen: Generation, doc: seq<Field>, top: string, name: string)
    requires PropOpt(Get(doc, top), name).Some?
    ensures Deep(gen, PropOpt(Get(doc, top), name).value) <= DeepFields(gen, doc)
  {
    var container := Get(doc, top).value;
    DeepProp(gen, container, name);
    DeepMember(gen, doc, Field(top, container));
  }

  /** `doc.components?.[segment]?.[name]` lies inside the document. */
  lemma ComponentPropInDeep(gen: Generation, doc: seq<Field>, segment: string, name: string)
    requires PropOpt(PropOpt(Get(doc, "components"), segment), name).Some?
    ensures Deep(gen, PropOpt(PropOpt(Get(doc, "components"), segment), name).value) <= DeepFields(gen, doc)
  {
    var components := Get(doc, "components").value;
    var container := Prop(components, segment).value;
    DeepProp(gen, container, name);
    DeepProp(gen, components, segment);
    DeepMember(gen, doc, Field("components", components));
  }

  // ---------------------------------------------------------------------------
  // The worklist

  /** After a scan grew the set: walk the collected references in order and queue
      each one that is neither processed nor already queued (the queue checked
      includes what this walk has just pushed). */
  function EnqueueNew(pending: seq<Ref>, processed: set<Ref>, queue: seq<Ref>): (q: seq<Ref>)
    ensures queue <= q
    ensures Elems(q) == Elems(queue) + (Elems(pending) - processed)
    ensures forall i :: |queue| <= i < |q| ==> q[i] !in processed && q[i] !in q[..i]
    decreases |pending|
  {
    if |pending| == 0 then queue
    else
      var x := pending[0];
      assert Elems(pending) == {x} + Elems(pending[1..]) by {
        assert pending == [x] + pending[1..];
      }
      if x !in processed && x !in queue then
        var q := EnqueueNew(pending[1..], processed, queue + [x]);
        assert q[..|queue|] == queue && q[|queue|] == x;
        q
      else
        EnqueueNew(pending[1..], processed, queue)
  }

  /** One expansion (lines of the loop after the processed check): scan the
      body when it exists and is truthy. */
  function Grow(gen: Generation, doc: seq<Field>, x: Ref, refs: seq<Ref>): (grown: seq<Ref>)
    ensures refs <= grown
  {
    match Lookup(gen, doc, x)
    case Some(body) => if Truthy(body) then Scan(gen, body, refs) else refs
    case None => refs
  }

  lemma GrowAddsExpansion(gen: Generation, doc: seq<Field>, x: Ref, refs: seq<Ref>)
    ensures Elems(Grow(gen, doc, x, refs)) == Elems(refs) + Expansion(gen, doc, x)
    ensures Elems(Grow(gen, doc, x, refs)) <= Elems(refs) + DeepFields(gen, doc)
    ensures gen == Legacy && NoDup(refs) ==> NoDup(Grow(gen, doc, x, refs))
  {
    LookupInDeep(gen, doc, x);
    match Lookup(gen, doc, x)
    case Some(body) =>
      if Truthy(body) {
        ScanElems(gen, body, refs);
        if gen == Legacy && NoDup(refs) {
          LegacyScanNoDup(body, refs);
        }
      }
    case None =>
  }

  /** Everything collected lies in every closed set holding the seeds. */
  ghost predicate Sound(gen: Generation, doc: seq<Field>, seeds: set<Ref>, refs: seq<Ref>)
  {
    forall s :: seeds <= s && Closed(gen, doc, s) ==> Elems(refs) <= s
  }

  lemma GrowSound(gen: Generation, doc: seq<Field>, seeds: set<Ref>, x: Ref, refs: seq<Ref>)
    requires Sound(gen, doc, seeds, refs) && x in refs
    ensures Sound(gen, doc, seeds, Grow(gen, doc, x, refs))
  {
    GrowAddsExpansion(gen, doc, x, refs);
  }

  /** Every collected reference is processed, queued, or one of the idle seeds. */
  predicate Tracked(refs: seq<Ref>, processed: set<Ref>, queue: seq<Ref>, idle: set<Ref>)
  {
    forall r :: r in refs ==> r in processed || r in queue || r in idle
  }

  lemma InTail(queue: seq<Ref>, r: Ref)
    requires r in queue && r != queue[0]
    ensures r in queue[1..]
  {
    var i :| 0 <= i < |queue| && queue[i] == r;
    assert queue[1..][i - 1] == r;
  }

  /** Processing the head keeps every collected reference accounted for. */
  lemma ProcessTracked(refs: seq<Ref>, grown: seq<Ref>, processed: set<Ref>, queue: seq<Ref>, idle: set<Ref>)
    requires |queue| > 0 && Tracked(refs, processed, queue, idle)
    requires refs <= grown && (|grown| > |refs| || grown == refs)
    ensures var p := processed + {queue[0]};
      Tracked(grown, p, if |grown| > |refs| then EnqueueNew(grown, p, queue[1..]) else queue[1..], idle)
  {
    var p := processed + {queue[0]};
    if |grown| > |refs| {
      var q := EnqueueNew(grown, p, queue[1..]);
      assert Elems(q) == Elems(queue[1..]) + (Elems(grown) - p);
      forall r | r in grown
        ensures r in p || r in q || r in idle
      {
        assert r in Elems(grown);
        assert r in p || r in Elems(q);
      }
    } else {
      forall r | r in grown
        ensures r in p || r in queue[1..] || r in idle
      {
        if r !in p && r !in idle {
          InTail(queue, r);
        }
      }
    }
  }

  /** Skipping a processed head keeps every collected reference accounted for. */
  lemma SkipTracked(refs: seq<Ref>, processed: set<Ref>, queue: seq<Ref>, idle: set<Ref>)
    requires |queue| > 0 && queue[0] in processed && Tracked(refs, processed, queue, idle)
    ensures Tracked(refs, processed, queue[1..], idle)
  {
    forall r | r in refs
      ensures r in processed || r in queue[1..] || r in idle
    {
      if r !in processed && r !in idle {
        InTail(queue, r);
      }
    }
  }

  /** Processing a fresh reference of the universe shrinks the unprocessed part. */
  lemma ProcessShrinks(universe: set<Ref>, processed: set<Ref>, x: Ref)
    requires x in universe && x !in processed
    ensures |universe - (processed + {x})| < |universe - processed|
  {
    var before := universe - processed;
    var after := universe - (processed + {x});
    assert before == after + {x} && x !in after;
  }

  /** Every processed reference has its expansion collected. */
  predicate Expanded(gen: Generation, doc: seq<Field>, processed: set<Ref>, refs: seq<Ref>)
  {
    forall r :: r in processed ==> Expansion(gen, doc, r) <= Elems(refs)
  }

  /** Processing `x` keeps every processed reference expanded. */
  lemma ProcessExpanded(gen: Generation, doc: seq<Field>, processed: set<Ref>, refs: seq<Ref>, x: Ref, grown: seq<Ref>)
    requires Expanded(gen, doc, processed, refs)
    requires Elems(grown) == Elems(refs) + Expansion(gen, doc, x)
    ensures Expanded(gen, doc, processed + {x}, grown)
  {
  }

  /** The tail of the queue holds nothing the queue did not. */
  lemma TailElems(queue: seq<Ref>)
    requires |queue| > 0
    ensures Elems(queue[1..]) <= Elems(queue)
  {
    InCons(queue, queue[0]);
    forall r | r in queue[1..] ensures r in queue {
      InCons(queue, r);
    }
  }

  /** After processing the head, the queue still holds only collected references. */
  lemma ProcessQueued(refs: seq<Ref>, grown: seq<Ref>, p: set<Ref>, queue: seq<Ref>)
    requires |queue| > 0 && Elems(queue) <= Elems(refs) && refs <= grown
    ensures Elems(if |grown| > |refs| then EnqueueNew(grown, p, queue[1..]) else queue[1..]) <= Elems(grown)
  {
    TailElems(queue);
    assert Elems(refs) <= Elems(grown);
  }

  /** The loop of `findAllReferences`, from a seeded set and an initial queue:
      dequeue, skip what is processed, mark the rest processed, scan the truthy
      body, and when the set grew queue whatever is new.

      The result keeps the seeded prefix, holds only references reachable from the
      seeds, and holds the expansion of every reference except seeds that were
      never queued. */
  method Drain(gen: Generation, doc: seq<Field>, seeded: seq<Ref>, queue0: seq<Ref>) returns (refs: seq<Ref>)
    requires Elems(queue0) <= Elems(seeded)
    ensures seeded <= refs
    ensures forall r :: r in refs ==> Reachable(gen, doc, Elems(seeded), r)
    ensures forall r :: r in refs ==> Expansion(gen, doc, r) <= Elems(refs) || (r in seeded && r !in queue0)
    ensures queue0 == [] ==> refs == seeded
    ensures gen == Legacy && NoDup(seeded) ==> NoDup(refs)
  {
    ghost var universe := DeepFields(gen, doc) + Elems(seeded);
    ghost var idle := Elems(seeded) - Elems(queue0);
    refs := seeded;
    var processed: set<Ref> := {};
    var queue := queue0;
    while queue != []
      invariant seeded <= refs
      invariant Elems(refs) <= universe
      invariant Elems(queue) <= Elems(refs)
      invariant Sound(gen, doc, Elems(seeded), refs)
      invariant Expanded(gen, doc, processed, refs)
      invariant Tracked(refs, processed, queue, idle)
      invariant queue0 == [] ==> refs == seeded && queue == []
      invariant gen == Legacy && NoDup(seeded) ==> NoDup(refs)
      decreases |universe - processed|, |queue|
    {
      var x := queue[0];
      assert x in Elems(refs);
      if x in processed {
        SkipTracked(refs, processed, queue, idle);
        TailElems(queue);
        queue := queue[1..];
      } else {
        ProcessShrinks(universe, processed, x);
        var grown := Grow(gen, doc, x, refs);
        GrowAddsExpansion(gen, doc, x, refs);
        GrowSound(gen, doc, Elems(seeded), x, refs);
        ProcessTracked(refs, grown, processed, queue, idle);
        ProcessExpanded(gen, doc, processed, refs, x, grown);
        ProcessQueued(refs, grown, processed + {x}, queue);
        processed := processed + {x};
        if |grown| > |refs| {
          queue := EnqueueNew(grown, processed, queue[1..]);
        } else {
          queue := queue[1..];
        }
        refs := grown;
      }
    }
  }

  /** The document-level `security` array, when there is one and it is an array
      (Current only). */
  function GlobalSecurity(gen: Generation, doc: seq<Field>): Option<seq<Json>>
  {
    match Get(doc, SecurityKey)
    case Some(Arr(items)) => if gen == Current then Some(items) else None
    case _ => None
  }

  /** The references of the kept paths, in discovery order. */
  function PathRefs(gen: Generation, filtered: seq<Field>): seq<Ref>
  {
    Scan(gen, Obj(filtered), [])
  }

  /** The set before the loop: the kept paths' references, then the document-level
      requirements scanned through a one-field wrapper object. */
  function Seeded(gen: Generation, doc: seq<Field>, filtered: seq<Field>): (s: seq<Ref>)
    ensures PathRefs(gen, filtered) <= s
  {
    match GlobalSecurity(gen, doc)
    case Some(items) => Scan(gen, Obj([Field(SecurityKey, Arr(items))]), PathRefs(gen, filtered))
    case None => PathRefs(gen, filtered)
  }

  /** The wrapper scan appends exactly the requirement keys, in order. */
  lemma SeededShape(gen: Generation, doc: seq<Field>, filtered: seq<Field>)
    ensures GlobalSecurity(gen, doc).Some? ==>
      Seeded(gen, doc, filtered) == PathRefs(gen, filtered) + RequirementRefs(GlobalSecurity(gen, doc).value)
    ensures GlobalSecurity(gen, doc).None? ==> Seeded(gen, doc, filtered) == PathRefs(gen, filtered)
  {
    if GlobalSecurity(gen, doc).Some? {
      var wrapper := [Field(SecurityKey, Arr(GlobalSecurity(gen, doc).value))];
      var paths := PathRefs(gen, filtered);
      assert wrapper[1..] == [];
      calc {
        Scan(gen, Obj(wrapper), paths);
        ScanFields(gen, wrapper, paths);
        ScanFields(gen, [], ScanField(gen, wrapper[0], paths));
      }
    }
  }

  /** `findAllReferences` as written. The queue is filled from the kept paths
      before the document-level requirements are added, so those are expanded
      only if some later body grows the set. */
  method FindAllReferences(gen: Generation, doc: seq<Field>, filtered: seq<Field>) returns (refs: seq<Ref>)
    ensures Seeded(gen, doc, filtered) <= refs
    ensures forall r :: r in refs ==> Reachable(gen, doc, Elems(Seeded(gen, doc, filtered)), r)
    ensures forall r :: r in refs ==>
      Expansion(gen, doc, r) <= Elems(refs) || (r in Seeded(gen, doc, filtered) && r !in PathRefs(gen, filtered))
    ensures PathRefs(gen, filtered) == [] ==> refs == Seeded(gen, doc, filtered)
    ensures gen == Legacy ==> NoDup(refs)
    ensures gen == Legacy ==> forall r :: r in refs <==> Reachable(gen, doc, Elems(PathRefs(gen, filtered)), r)
  {
    var found := PathRefs(gen, filtered);
    var queue := found;
    var seeded := Seeded(gen, doc, filtered);
    refs := Drain(gen, doc, seeded, queue);
    if gen == Legacy {
      LegacyScanNoDup(Obj(filtered), []);
      assert Closed(gen, doc, Elems(refs));
      ClosedHoldsReachable(gen, doc, Elems(found), Elems(refs));
    }
  }

  /** `findAllReferences` with the document-level requirements queued like every
      other seed: the result is exactly the closure of the seeds. */
  method FindAllReferencesFixed(gen: Generation, doc: seq<Field>, filtered: seq<Field>) returns (refs: seq<Ref>)
    ensures Seeded(gen, doc, filtered) <= refs
    ensures forall r :: r in refs <==> Reachable(gen, doc, Elems(Seeded(gen, doc, filtered)), r)
    ensures Closed(gen, doc, Elems(refs))
    ensures gen == Legacy ==> NoDup(refs)
  {
    var seeded := Seeded(gen, doc, filtered);
    refs := Drain(gen, doc, seeded, seeded);
    assert Closed(gen, doc, Elems(refs));
    ClosedHoldsReachable(gen, doc, Elems(seeded), Elems(refs));
    if gen == Legacy {
      LegacyScanNoDup(Obj(filtered), []);
    }
  }
}
