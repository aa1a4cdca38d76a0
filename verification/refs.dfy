/** Typed component references, shared by both generations of the engine. */
module Refs {
  import opened Wrappers
  import opened Seqs

  /** The two generations of the engine: `src/` (Legacy) and `project/src/` (Current). */
  datatype Generation = Legacy | Current

  /** The component kinds a reference may name (`ParsedReference['type']`). */
  datatype Kind = Schemas | Parameters | Responses | RequestBodies | SecuritySchemes

  /** The kind's key under `components` and its spelling in a pointer. */
  function KindName(k: Kind): string
  {
    match k
    case Schemas => "schemas"
    case Parameters => "parameters"
    case Responses => "responses"
    case RequestBodies => "requestBodies"
    case SecuritySchemes => "securitySchemes"
  }

  /** Legacy knows four kinds; Current adds security schemes. */
  predicate Recognized(gen: Generation, k: Kind)
  {
    gen == Current || k != SecuritySchemes
  }

  /** The kind spelled `s`, if the generation recognises it. */
  function KindOfName(gen: Generation, s: string): (r: Option<Kind>)
    ensures forall k :: r == Some(k) <==> s == KindName(k) && Recognized(gen, k)
  {
    if s == "schemas" then Some(Schemas)
    else if s == "parameters" then Some(Parameters)
    else if s == "responses" then Some(Responses)
    else if s == "requestBodies" then Some(RequestBodies)
    else if s == "securitySchemes" && gen == Current then Some(SecuritySchemes)
    else None
  }

  /** The kinds the projector rebuilds under `components`, in the order it visits them. */
  function ComponentKinds(gen: Generation): (ks: seq<Kind>)
    ensures forall k :: k in ks <==> Recognized(gen, k)
    ensures NoDup(ks)
  {
    var four := [Schemas, Parameters, Responses, RequestBodies];
    assert forall k :: k != SecuritySchemes ==> k in four by {
      forall k | k != SecuritySchemes ensures k in four {
        FourKinds(k);
      }
    }
    match gen
    case Legacy => four
    case Current => four + [SecuritySchemes]
  }

  /** Every kind other than security schemes is one of the four Legacy kinds. */
  lemma FourKinds(k: Kind)
    ensures k != SecuritySchemes ==> k in [Schemas, Parameters, Responses, RequestBodies]
  {
    var four := [Schemas, Parameters, Responses, RequestBodies];
    match k
    case Schemas => assert four[0] == k;
    case Parameters => assert four[1] == k;
    case Responses => assert four[2] == k;
    case RequestBodies => assert four[3] == k;
    case SecuritySchemes =>
  }

  datatype Ref = Ref(kind: Kind, name: string)

  /** The string key `${type}:${name}` the engine deduplicates by. */
  function RefKey(r: Ref): string
  {
    KindName(r.kind) + ":" + r.name
  }

  /** Kind names have distinct lengths and contain no colon. */
  lemma KindNameShape(a: Kind, b: Kind)
    ensures a != b ==> |KindName(a)| != |KindName(b)|
    ensures forall i :: 0 <= i < |KindName(a)| ==> KindName(a)[i] != ':'
  {
  }

  /** References of different kinds never share a key: the kind names differ in
      length and contain no colon, so the separator lands in different places. */
  lemma DistinctKindsDistinctKeys(a: Ref, b: Ref)
    requires a.kind != b.kind
    ensures RefKey(a) != RefKey(b)
  {
    var ka, kb := KindName(a.kind), KindName(b.kind);
    KindNameShape(a.kind, b.kind);
    KindNameShape(b.kind, a.kind);
    if |ka| < |kb| {
      assert RefKey(a)[|ka|] != RefKey(b)[|ka|];
    } else {
      assert RefKey(a)[|kb|] != RefKey(b)[|kb|];
    }
  }

  /** Deduplicating by the string key is deduplicating by value. */
  lemma RefKeyInjective(a: Ref, b: Ref)
    ensures RefKey(a) == RefKey(b) <==> a == b
  {
    if RefKey(a) == RefKey(b) {
      if a.kind == b.kind {
        var k := KindName(a.kind);
        assert a.name == RefKey(a)[|k| + 1..];
        assert b.name == RefKey(b)[|k| + 1..];
      } else {
        DistinctKindsDistinctKeys(a, b);
        assert false;
      }
    }
  }
}
