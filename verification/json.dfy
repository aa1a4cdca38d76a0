/** A parsed JSON document as a finite tree. Objects are ordered field lists in the
    order JavaScript enumerates their own keys; a number is an opaque leaf of which
    only "is it zero" is ever observed (for truthiness). */
module Json {
  import opened Wrappers
  import opened Seqs

  datatype Json =
    | Null
    | Bool(b: bool)
    | Num(n: int)
    | Str(s: string)
    | Arr(items: seq<Json>)
    | Obj(fields: seq<Field>)

  datatype Field = Field(key: string, value: Json)

  /** JavaScript truthiness: `null`, `false`, `0` and `""` are falsy; every array
      and object is truthy, even an empty one. */
  predicate Truthy(j: Json)
  {
    match j
    case Null => false
    case Bool(b) => b
    case Num(n) => n != 0
    case Str(s) => s != ""
    case _ => true
  }

  /** Truthiness of a property read that may come back `undefined`. */
  predicate TruthyOpt(o: Option<Json>)
  {
    o.Some? && Truthy(o.value)
  }

  /** The keys of a field list, in order (`Object.keys`). */
  function Keys(fields: seq<Field>): (ks: seq<string>)
    ensures |ks| == |fields|
    ensures forall i :: 0 <= i < |fields| ==> ks[i] == fields[i].key
  {
    if |fields| == 0 then [] else [fields[0].key] + Keys(fields[1..])
  }

  /** Own-property lookup `obj[k]` on a field list. */
  function Get(fields: seq<Field>, k: string): (r: Option<Json>)
    ensures r.Some? <==> k in Keys(fields)
    ensures r.Some? ==> Field(k, r.value) in fields
  {
    if |fields| == 0 then None
    else if fields[0].key == k then Some(fields[0].value)
    else Get(fields[1..], k)
  }

  /** Lookup tries the first field, then the rest. */
  lemma GetFirst(fields: seq<Field>, k: string)
    requires |fields| > 0
    ensures Get(fields, k) == if fields[0].key == k then Some(fields[0].value) else Get(fields[1..], k)
  {
  }

  /** Property read `j[k]` on any value: only objects have named own properties. */
  function Prop(j: Json, k: string): Option<Json>
  {
    match j
    case Obj(fields) => Get(fields, k)
    case _ => None
  }

  /** Optional chaining `o?.[k]`. */
  function PropOpt(o: Option<Json>, k: string): Option<Json>
  {
    match o
    case Some(j) => Prop(j, k)
    case None => None
  }

  /** `Object.entries(j)` for a value that stands where a mapping is expected. */
  function Entries(j: Json): seq<Field>
  {
    match j
    case Obj(fields) => fields
    case _ => []
  }

  /** No key occurs twice: every object a JavaScript program holds has this shape. */
  predicate DistinctKeys(fields: seq<Field>)
  {
    forall i, j :: 0 <= i < j < |fields| ==> fields[i].key != fields[j].key
  }

  /** Assignment `obj[k] = v`: an existing key keeps its position, a new key goes last. */
  function Put(fields: seq<Field>, k: string, v: Json): (r: seq<Field>)
    ensures Get(r, k) == Some(v)
    ensures forall k' :: k' != k ==> Get(r, k') == Get(fields, k')
  {
    if |fields| == 0 then [Field(k, v)]
    else if fields[0].key == k then
      var r := [Field(k, v)] + fields[1..];
      assert r[1..] == fields[1..];
      r
    else
      var rest := Put(fields[1..], k, v);
      var r := [fields[0]] + rest;
      assert r[1..] == rest;
      r
  }

  /** Assignment keeps an existing key in place and appends a new one. */
  lemma {:induction false} PutKeys(fields: seq<Field>, k: string, v: Json)
    ensures k in Keys(fields) ==> Keys(Put(fields, k, v)) == Keys(fields)
    ensures k !in Keys(fields) ==> Keys(Put(fields, k, v)) == Keys(fields) + [k]
    decreases |fields|
  {
    if |fields| > 0 {
      if fields[0].key == k {
        PutKeysHere(fields, k, v);
      } else {
        PutKeys(fields[1..], k, v);
        PutKeysLater(fields, k, v);
      }
    }
  }

  /** Overwriting the first key leaves the key order alone. */
  lemma PutKeysHere(fields: seq<Field>, k: string, v: Json)
    requires |fields| > 0 && fields[0].key == k
    ensures k in Keys(fields) && Keys(Put(fields, k, v)) == Keys(fields)
  {
    var r := Put(fields, k, v);
    assert r[1..] == fields[1..];
    assert Keys(r) == [k] + Keys(r[1..]);
    assert Keys(fields) == [k] + Keys(fields[1..]);
  }

  /** Assignment past the first key keeps the first key in front of what the
      assignment does to the rest. */
  lemma PutKeysLater(fields: seq<Field>, k: string, v: Json)
    requires |fields| > 0 && fields[0].key != k
    requires k in Keys(fields[1..]) ==> Keys(Put(fields[1..], k, v)) == Keys(fields[1..])
    requires k !in Keys(fields[1..]) ==> Keys(Put(fields[1..], k, v)) == Keys(fields[1..]) + [k]
    ensures k in Keys(fields) ==> Keys(Put(fields, k, v)) == Keys(fields)
    ensures k !in Keys(fields) ==> Keys(Put(fields, k, v)) == Keys(fields) + [k]
  {
    var r, head, tail := Put(fields, k, v), [fields[0].key], Keys(fields[1..]);
    assert r[1..] == Put(fields[1..], k, v);
    assert Keys(r) == head + Keys(r[1..]);
    assert Keys(fields) == head + tail;
    if k !in tail {
      SeqAssoc(head, tail, [k]);
    }
  }

  /** Assigning a key the value it already has changes nothing. */
  lemma {:induction false} PutSame(fields: seq<Field>, k: string, v: Json)
    requires Get(fields, k) == Some(v)
    ensures Put(fields, k, v) == fields
    decreases |fields|
  {
    var rest := fields[1..];
    if fields[0].key == k {
      assert fields[0] == Field(k, v);
      assert Put(fields, k, v) == [Field(k, v)] + rest;
      assert fields == [Field(k, v)] + rest;
    } else {
      assert Get(rest, k) == Some(v);
      PutSame(rest, k, v);
      assert Put(fields, k, v) == [fields[0]] + rest;
      assert fields == [fields[0]] + rest;
    }
  }

  /** Reading a property reads the entries. */
  lemma PropEntries(j: Json, k: string)
    ensures Prop(j, k) == Get(Entries(j), k)
  {
  }

  /** `delete obj[k]`: the key disappears, every other field keeps its value and order. */
  function Delete(fields: seq<Field>, k: string): (r: seq<Field>)
    ensures k !in Keys(r)
    ensures forall k' :: k' != k ==> Get(r, k') == Get(fields, k')
    ensures IsSubsequence(r, fields)
  {
    if |fields| == 0 then []
    else if fields[0].key == k then Delete(fields[1..], k)
    else
      var rest := Delete(fields[1..], k);
      var r := [fields[0]] + rest;
      assert r[1..] == rest;
      r
  }

  /** With distinct keys, a field of the list is exactly what lookup returns. */
  lemma {:induction false} GetMember(fields: seq<Field>, k: string, v: Json)
    requires DistinctKeys(fields)
    ensures Field(k, v) in fields <==> Get(fields, k) == Some(v)
    decreases |fields|
  {
    if |fields| > 0 && fields[0].key != k {
      assert DistinctKeys(fields[1..]) by {
        forall i, j | 0 <= i < j < |fields[1..]| ensures fields[1..][i].key != fields[1..][j].key {
          assert fields[1..][i] == fields[i + 1] && fields[1..][j] == fields[j + 1];
        }
      }
      GetMember(fields[1..], k, v);
      if Field(k, v) in fields {
        assert Field(k, v) in fields[1..];
      }
    }
  }

  /** The first key of a list with distinct keys does not occur again. */
  lemma DistinctTail(fields: seq<Field>)
    requires DistinctKeys(fields) && |fields| > 0
    ensures fields[0].key !in Keys(fields[1..]) && DistinctKeys(fields[1..])
  {
    var rest := fields[1..];
    forall i | 0 <= i < |rest|
      ensures Keys(rest)[i] != fields[0].key
    {
      assert rest[i] == fields[i + 1];
    }
    forall i, j | 0 <= i < j < |rest|
      ensures rest[i].key != rest[j].key
    {
      assert rest[i] == fields[i + 1] && rest[j] == fields[j + 1];
    }
  }
}
