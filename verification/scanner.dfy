/** `findReferencesInObject`: the depth-first walk that collects the references a
    JSON fragment contains, appending to a caller-owned, insertion-ordered set.

    The walk is structural recursion over a tree, so every composite node is
    visited exactly once and the identity-keyed `visited` set of the source has
    nothing to cut. */
module Scanner {
  import opened Seqs
  import opened Json
  import opened Refs
  import opened Wrappers
  import opened RefParser

  /** The field that carries a pointer. */
  const PointerKey: string := "$ref"

  /** The field that carries security requirements (Current only). */
  const SecurityKey: string := "security"

  /** The scheme names listed by a `security` array: every key of every object
      element, in order. Non-object elements contribute nothing. */
  function RequirementRefs(items: seq<Json>): seq<Ref>
  {
    if |items| == 0 then []
    else
      var first := match items[0] case Obj(fields) => SchemeRefs(Keys(fields)) case _ => [];
      first + RequirementRefs(items[1..])
  }

  /** Each name as a security-scheme reference. */
  function SchemeRefs(names: seq<string>): (rs: seq<Ref>)
    ensures |rs| == |names|
    ensures forall i :: 0 <= i < |names| ==> rs[i] == Ref(SecuritySchemes, names[i])
  {
    seq(|names|, i requires 0 <= i < |names| => Ref(SecuritySchemes, names[i]))
  }

  // ---------------------------------------------------------------------------
  // The walk as the source performs it: an accumulator threaded depth-first.

  /** `findReferencesInObject(j, acc)`: the collected references after the walk. */
  function Scan(gen: Generation, j: Json, acc: seq<Ref>): (r: seq<Ref>)
    ensures acc <= r
    decreases j
  {
    match j
    case Arr(items) => ScanItems(gen, items, acc)
    case Obj(fields) => ScanFields(gen, fields, acc)
    case _ => acc
  }

  function ScanItems(gen: Generation, items: seq<Json>, acc: seq<Ref>): (r: seq<Ref>)
    ensures acc <= r
    decreases items
  {
    if |items| == 0 then acc
    else ScanItems(gen, items[1..], Scan(gen, items[0], acc))
  }

  function ScanFields(gen: Generation, fields: seq<Field>, acc: seq<Ref>): (r: seq<Ref>)
    ensures acc <= r
    decreases fields
  {
    if |fields| == 0 then acc
    else ScanFields(gen, fields[1..], ScanField(gen, fields[0], acc))
  }

  /** One field of an object. A `$ref` string is parsed and its reference added
      unless one with the same `kind:name` key is present (key equality is value
      equality, see `RefKeyInjective`). A `security` array adds each requirement
      key without looking for duplicates and is not descended into. Anything else
      is walked. */
  function ScanField(gen: Generation, f: Field, acc: seq<Ref>): (r: seq<Ref>)
    ensures acc <= r
    decreases f
  {
    if f.key == PointerKey && f.value.Str? then
      match ParseRef(gen, f.value.s)
      case Some(ref) => if ref in acc then acc else acc + [ref]
      case None => acc
    else if gen == Current && f.key == SecurityKey && f.value.Arr? then
      acc + RequirementRefs(f.value.items)
    else
      Scan(gen, f.value, acc)
  }

  // ---------------------------------------------------------------------------
  // Reference definition: the triggers met, in depth-first field order, and the
  // policy by which each one enters the collected sequence.

  /** A trigger met during the walk. */
  datatype Hit = PointerHit(ref: Ref) | RequirementHit(ref: Ref)

  function Hits(gen: Generation, j: Json): seq<Hit>
    decreases j
  {
    match j
    case Arr(items) => ItemHits(gen, items)
    case Obj(fields) => FieldListHits(gen, fields)
    case _ => []
  }

  function ItemHits(gen: Generation, items: seq<Json>): seq<Hit>
    decreases items
  {
    if |items| == 0 then [] else Hits(gen, items[0]) + ItemHits(gen, items[1..])
  }

  function FieldListHits(gen: Generation, fields: seq<Field>): seq<Hit>
    decreases fields
  {
    if |fields| == 0 then [] else FieldHits(gen, fields[0]) + FieldListHits(gen, fields[1..])
  }

  function FieldHits(gen: Generation, f: Field): seq<Hit>
    decreases f
  {
    if f.key == PointerKey && f.value.Str? then
      match ParseRef(gen, f.value.s)
      case Some(ref) => [PointerHit(ref)]
      case None => []
    else if gen == Current && f.key == SecurityKey && f.value.Arr? then
      AsRequirementHits(RequirementRefs(f.value.items))
    else
      Hits(gen, f.value)
  }

  function AsRequirementHits(rs: seq<Ref>): (hs: seq<Hit>)
    ensures |hs| == |rs|
    ensures forall i :: 0 <= i < |rs| ==> hs[i] == RequirementHit(rs[i])
  {
    seq(|rs|, i requires 0 <= i < |rs| => RequirementHit(rs[i]))
  }

  /** A pointer hit is added when new; a requirement hit is always appended. */
  function AbsorbOne(acc: seq<Ref>, h: Hit): seq<Ref>
  {
    match h
    case PointerHit(r) => if r in acc then acc else acc + [r]
    case RequirementHit(r) => acc + [r]
  }

  function Absorb(acc: seq<Ref>, hs: seq<Hit>): seq<Ref>
    decreases |hs|
  {
    if |hs| == 0 then acc else Absorb(AbsorbOne(acc, hs[0]), hs[1..])
  }

  /** The references named by some hits. */
  function HitRefs(hs: seq<Hit>): set<Ref>
  {
    set h | h in hs :: h.ref
  }

  /** Every reference the walk of `j` meets. */
  function Mentioned(gen: Generation, j: Json): set<Ref>
  {
    HitRefs(Hits(gen, j))
  }

  // ---------------------------------------------------------------------------
  // The walk agrees with the reference definition.

  lemma {:induction false} AbsorbAppend(acc: seq<Ref>, a: seq<Hit>, b: seq<Hit>)
    ensures Absorb(acc, a + b) == Absorb(Absorb(acc, a), b)
    decreases |a|
  {
    if |a| > 0 {
      assert (a + b)[0] == a[0];
      assert (a + b)[1..] == a[1..] + b;
      AbsorbAppend(AbsorbOne(acc, a[0]), a[1..], b);
    } else {
      assert a + b == b;
    }
  }

  lemma {:induction false} AbsorbRequirements(acc: seq<Ref>, rs: seq<Ref>)
    ensures Absorb(acc, AsRequirementHits(rs)) == acc + rs
    decreases |rs|
  {
    if |rs| > 0 {
      var hs := AsRequirementHits(rs);
      assert hs[1..] == AsRequirementHits(rs[1..]);
      AbsorbRequirements(acc + [rs[0]], rs[1..]);
      assert acc + [rs[0]] + rs[1..] == acc + rs;
    }
  }

  /** Walking with an accumulator is absorbing the hits in depth-first order. */
  lemma {:induction false} ScanAbsorbs(gen: Generation, j: Json, acc: seq<Ref>)
    ensures Scan(gen, j, acc) == Absorb(acc, Hits(gen, j))
    decreases j
  {
    match j
    case Arr(items) => ItemsAbsorb(gen, items, acc);
    case Obj(fields) => FieldListAbsorbs(gen, fields, acc);
    case _ =>
  }

  lemma {:induction false} ItemsAbsorb(gen: Generation, items: seq<Json>, acc: seq<Ref>)
    ensures ScanItems(gen, items, acc) == Absorb(acc, ItemHits(gen, items))
    decreases items
  {
    if |items| > 0 {
      ScanAbsorbs(gen, items[0], acc);
      ItemsAbsorb(gen, items[1..], Scan(gen, items[0], acc));
      AbsorbAppend(acc, Hits(gen, items[0]), ItemHits(gen, items[1..]));
    }
  }

  lemma {:induction false} FieldListAbsorbs(gen: Generation, fields: seq<Field>, acc: seq<Ref>)
    ensures ScanFields(gen, fields, acc) == Absorb(acc, FieldListHits(gen, fields))
    decreases fields
  {
    if |fields| > 0 {
      FieldAbsorbs(gen, fields[0], acc);
      FieldListAbsorbs(gen, fields[1..], ScanField(gen, fields[0], acc));
      AbsorbAppend(acc, FieldHits(gen, fields[0]), FieldListHits(gen, fields[1..]));
    }
  }

  lemma {:induction false} FieldAbsorbs(gen: Generation, f: Field, acc: seq<Ref>)
    ensures ScanField(gen, f, acc) == Absorb(acc, FieldHits(gen, f))
    decreases f
  {
    if f.key == PointerKey && f.value.Str? {
    } else if gen == Current && f.key == SecurityKey && f.value.Arr? {
      AbsorbRequirements(acc, RequirementRefs(f.value.items));
    } else {
      ScanAbsorbs(gen, f.value, acc);
    }
  }

  /** Absorbing adds exactly the hit references and keeps what was there. */
  lemma {:induction false} AbsorbElems(acc: seq<Ref>, hs: seq<Hit>)
    ensures Elems(Absorb(acc, hs)) == Elems(acc) + HitRefs(hs)
    decreases |hs|
  {
    if |hs| > 0 {
      var next := AbsorbOne(acc, hs[0]);
      AbsorbElems(next, hs[1..]);
      assert Elems(next) == Elems(acc) + {hs[0].ref};
      assert HitRefs(hs) == {hs[0].ref} + HitRefs(hs[1..]) by {
        assert hs == [hs[0]] + hs[1..];
      }
    }
  }

  /** The scan adds exactly the references the fragment mentions. */
  lemma ScanElems(gen: Generation, j: Json, acc: seq<Ref>)
    ensures Elems(Scan(gen, j, acc)) == Elems(acc) + Mentioned(gen, j)
  {
    ScanAbsorbs(gen, j, acc);
    AbsorbElems(acc, Hits(gen, j));
  }

  /** Pointer hits never duplicate an element. */
  lemma {:induction false} AbsorbPointersNoDup(acc: seq<Ref>, hs: seq<Hit>)
    requires NoDup(acc)
    requires forall h :: h in hs ==> h.PointerHit?
    ensures NoDup(Absorb(acc, hs))
    decreases |hs|
  {
    if |hs| > 0 {
      assert hs[0] in hs;
      AbsorbPointersNoDup(AbsorbOne(acc, hs[0]), hs[1..]);
    }
  }

  /** Legacy meets only pointers. */
  lemma {:induction false} LegacyHitsArePointers(j: Json)
    ensures forall h :: h in Hits(Legacy, j) ==> h.PointerHit?
    decreases j
  {
    match j
    case Arr(items) => LegacyItemHits(items);
    case Obj(fields) => LegacyFieldListHits(fields);
    case _ =>
  }

  lemma {:induction false} LegacyItemHits(items: seq<Json>)
    ensures forall h :: h in ItemHits(Legacy, items) ==> h.PointerHit?
    decreases items
  {
    if |items| > 0 {
      LegacyHitsArePointers(items[0]);
      LegacyItemHits(items[1..]);
    }
  }

  lemma {:induction false} LegacyFieldListHits(fields: seq<Field>)
    ensures forall h :: h in FieldListHits(Legacy, fields) ==> h.PointerHit?
    decreases fields
  {
    if |fields| > 0 {
      LegacyFieldHits(fields[0]);
      LegacyFieldListHits(fields[1..]);
    }
  }

  lemma {:induction false} LegacyFieldHits(f: Field)
    ensures forall h :: h in FieldHits(Legacy, f) ==> h.PointerHit?
    decreases f
  {
    if !(f.key == PointerKey && f.value.Str?) {
      LegacyHitsArePointers(f.value);
    }
  }

  /** The Legacy scan keeps the collected references free of duplicates. */
  lemma LegacyScanNoDup(j: Json, acc: seq<Ref>)
    requires NoDup(acc)
    ensures NoDup(Scan(Legacy, j, acc))
  {
    ScanAbsorbs(Legacy, j, acc);
    LegacyHitsArePointers(j);
    AbsorbPointersNoDup(acc, Hits(Legacy, j));
  }

  /** Every reference a walk meets has a kind the generation recognises. */
  lemma MentionedRecognized(gen: Generation, j: Json)
    ensures forall r :: r in Mentioned(gen, j) ==> Recognized(gen, r.kind)
  {
    HitsRecognized(gen, j);
  }

  lemma {:induction false} HitsRecognized(gen: Generation, j: Json)
    ensures forall h :: h in Hits(gen, j) ==> Recognized(gen, h.ref.kind)
    decreases j
  {
    match j
    case Arr(items) => ItemHitsRecognized(gen, items);
    case Obj(fields) => FieldListHitsRecognized(gen, fields);
    case _ =>
  }

  lemma {:induction false} ItemHitsRecognized(gen: Generation, items: seq<Json>)
    ensures forall h :: h in ItemHits(gen, items) ==> Recognized(gen, h.ref.kind)
    decreases items
  {
    if |items| > 0 {
      HitsRecognized(gen, items[0]);
      ItemHitsRecognized(gen, items[1..]);
    }
  }

  lemma {:induction false} FieldListHitsRecognized(gen: Generation, fields: seq<Field>)
    ensures forall h :: h in FieldListHits(gen, fields) ==> Recognized(gen, h.ref.kind)
    decreases fields
  {
    if |fields| > 0 {
      FieldHitsRecognized(gen, fields[0]);
      FieldListHitsRecognized(gen, fields[1..]);
    }
  }

  lemma {:induction false} FieldHitsRecognized(gen: Generation, f: Field)
    ensures forall h :: h in FieldHits(gen, f) ==> Recognized(gen, h.ref.kind)
    decreases f
  {
    if f.key == PointerKey && f.value.Str? {
      match ParseRef(gen, f.value.s)
      case Some(r) => ParseRefSound(gen, f.value.s, r);
      case None =>
    } else if !(gen == Current && f.key == SecurityKey && f.value.Arr?) {
      HitsRecognized(gen, f.value);
    }
  }
}
