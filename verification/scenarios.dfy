/** Concrete documents from the engine's own test fixtures, and the document that
    shows the document-level requirements left unexpanded. */
module Scenarios {
  import opened Wrappers
  import opened Seqs
  import opened Json
  import opened Refs
  import opened RefParser
  import opened Scanner
  import opened Resolver
  import opened Partitioning
  import opened Projector
  import opened TreeShaker

  // ---------------------------------------------------------------------------
  // parseRef fixtures

  /** Strings outside the three pointer shapes parse to `null` in both
      generations. */
  lemma RejectedShapes(gen: Generation)
    ensures ParseRef(gen, "#/invalid/path") == None
    ensures ParseRef(gen, "not-a-ref") == None
  {
    Unprefixed(gen, "#/invalid/path", 2);
    Unprefixed(gen, "not-a-ref", 0);
  }

  /** Components pointers naming an unknown segment parse to `null` in both
      generations. */
  lemma RejectedSegments(gen: Generation)
    ensures ParseRef(gen, "#/components/invalid/User") == None
    ensures ParseRef(gen, "#/components/unknown/test") == None
  {
    InvalidSegment(gen);
    UnknownSegmentFixture(gen);
  }

  /** `#/components/invalid/User`: no kind is spelled `invalid`. */
  lemma InvalidSegment(gen: Generation)
    ensures ParseRef(gen, "#/components/invalid/User") == None
  {
    var segment := "invalid";
    assert ComponentsPrefix + segment + "/" + "User" == "#/components/invalid/User";
    forall k ensures segment != KindName(k) {
      assert segment[0] == 'i';
    }
    UnknownSegment(gen, segment, "User");
  }

  /** `#/components/unknown/test`: no kind is spelled `unknown`. */
  lemma UnknownSegmentFixture(gen: Generation)
    ensures ParseRef(gen, "#/components/unknown/test") == None
  {
    var segment := "unknown";
    assert ComponentsPrefix + segment + "/" + "test" == "#/components/unknown/test";
    forall k ensures segment != KindName(k) {
      assert segment[0] == 'u';
    }
    UnknownSegment(gen, segment, "test");
  }

  /** A string that leaves all three pointer prefixes at the same position
      parses to `null`. */
  lemma Unprefixed(gen: Generation, s: string, i: nat)
    requires i < |s| && i < |ComponentsPrefix|
    requires s[i] != DefinitionsPrefix[i] && s[i] != SecurityDefinitionsPrefix[i] && s[i] != ComponentsPrefix[i]
    ensures ParseRef(gen, s) == None
  {
  }

  /** A components pointer whose segment spells no kind parses to `null`. */
  lemma UnknownSegment(gen: Generation, segment: string, name: string)
    requires |segment| > 0 && forall i :: 0 <= i < |segment| ==> IsWordChar(segment[i])
    requires forall k :: segment != KindName(k)
    ensures ParseRef(gen, ComponentsPrefix + segment + "/" + name) == None
  {
    var s := ComponentsPrefix + segment + "/" + name;
    ComponentsOnly(s);
    ComponentsSplit(s, segment, name);
    assert KindOfName(gen, segment) == None;
  }

  /** Schema and parameter pointers parse alike in both generations. */
  lemma AcceptedPointers(gen: Generation)
    ensures ParseRef(gen, "#/definitions/User") == Some(Ref(Schemas, "User"))
    ensures ParseRef(gen, "#/components/parameters/limit") == Some(Ref(Parameters, "limit"))
  {
    var d := DefinitionsPrefix + "User";
    assert d == "#/definitions/User";
    DefinitionsPointer(gen, "User");
    ParameterPointer(gen);
  }

  /** A Swagger 2.0 security pointer names a security scheme for Current and
      nothing for Legacy. */
  lemma SecurityDefinitionsFixture(gen: Generation)
    ensures ParseRef(gen, "#/securityDefinitions/apiKey")
         == if gen == Current then Some(Ref(SecuritySchemes, "apiKey")) else None
  {
    var d := SecurityDefinitionsPrefix + "apiKey";
    assert d == "#/securityDefinitions/apiKey";
    SecurityDefinitionsPointer(gen, "apiKey");
  }

  /** An OpenAPI 3 `securitySchemes` pointer names a security scheme for Current
      and nothing for Legacy. */
  lemma SecuritySchemesFixture(gen: Generation)
    ensures ParseRef(gen, "#/components/securitySchemes/bearerAuth")
         == if gen == Current then Some(Ref(SecuritySchemes, "bearerAuth")) else None
  {
    var r := Ref(SecuritySchemes, "bearerAuth");
    BearerSpelling();
    ComponentPointerRoundTrip(gen, r);
  }

  /** The fixture pointer is the OpenAPI 3 spelling of `bearerAuth`. */
  lemma BearerSpelling()
    ensures IsCapture("bearerAuth")
    ensures ComponentPointer(Ref(SecuritySchemes, "bearerAuth")) == "#/components/securitySchemes/bearerAuth"
  {
    var segment := ComponentsPrefix + "securitySchemes/";
    assert segment == "#/components/securitySchemes/";
    assert segment + "bearerAuth" == "#/components/securitySchemes/bearerAuth";
  }

  // ---------------------------------------------------------------------------
  // findReferencesInObject fixtures

  /** An object holding one `$ref` field. */
  function PointerObject(pointer: string): Json
  {
    Obj([Field(PointerKey, Str(pointer))])
  }

  /** A schema, a parameter list and a response map, each holding one pointer. */
  function OrderShape(schema: string, parameter: string, response: string): Json
  {
    Obj([
      Field("schema", PointerObject(schema)),
      Field("parameters", Arr([PointerObject(parameter)])),
      Field("responses", Obj([Field("200", PointerObject(response))]))
    ])
  }

  const OrderFixture: Json :=
    OrderShape("#/components/schemas/User", "#/components/parameters/limit", "#/components/responses/Success")

  /** A lone pointer object adds its reference when it parses and is new. */
  lemma ScanPointerObject(gen: Generation, pointer: string, r: Ref, acc: seq<Ref>)
    requires ParseRef(gen, pointer) == Some(r)
    ensures Scan(gen, PointerObject(pointer), acc) == if r in acc then acc else acc + [r]
  {
    var fields := [Field(PointerKey, Str(pointer))];
    assert fields[1..] == [];
    calc {
      Scan(gen, PointerObject(pointer), acc);
      ScanFields(gen, fields, acc);
      ScanFields(gen, [], ScanField(gen, fields[0], acc));
    }
  }

  /** Three distinct pointers in schema, parameter and response position are
      reported in that order. */
  lemma OrderShapeScan(gen: Generation, p: string, q: string, t: string, a: Ref, b: Ref, c: Ref)
    requires ParseRef(gen, p) == Some(a) && ParseRef(gen, q) == Some(b) && ParseRef(gen, t) == Some(c)
    requires a != b && a != c && b != c
    ensures Scan(gen, OrderShape(p, q, t), []) == [a, b, c]
  {
    var f0 := Field("schema", PointerObject(p));
    var f1 := Field("parameters", Arr([PointerObject(q)]));
    var f2 := Field("responses", Obj([Field("200", PointerObject(t))]));
    assert OrderShape(p, q, t) == Obj([f0, f1, f2]);
    SchemaStep(gen, p, a);
    ParameterStep(gen, q, b, [a]);
    assert [a] + [b] == [a, b];
    ResponseStep(gen, t, c, [a, b]);
    assert [a, b] + [c] == [a, b, c];
    ThreeFields(gen, f0, f1, f2, []);
  }

  /** The `schema` field contributes its pointer first. */
  lemma SchemaStep(gen: Generation, p: string, a: Ref)
    requires ParseRef(gen, p) == Some(a)
    ensures ScanField(gen, Field("schema", PointerObject(p)), []) == [a]
  {
    ScanPointerObject(gen, p, a, []);
  }

  /** The `parameters` array appends its pointer when it is new. */
  lemma ParameterStep(gen: Generation, q: string, b: Ref, acc: seq<Ref>)
    requires ParseRef(gen, q) == Some(b) && b !in acc
    ensures ScanField(gen, Field("parameters", Arr([PointerObject(q)])), acc) == acc + [b]
  {
    ScanPointerObject(gen, q, b, acc);
    SingleItem(gen, PointerObject(q), acc);
  }

  /** The `responses` map appends its pointer when it is new. */
  lemma ResponseStep(gen: Generation, t: string, c: Ref, acc: seq<Ref>)
    requires ParseRef(gen, t) == Some(c) && c !in acc
    ensures ScanField(gen, Field("responses", Obj([Field("200", PointerObject(t))])), acc) == acc + [c]
  {
    ScanPointerObject(gen, t, c, acc);
    SingleField(gen, Field("200", PointerObject(t)), acc);
  }

  /** An object of three fields is walked field by field. */
  lemma ThreeFields(gen: Generation, f0: Field, f1: Field, f2: Field, acc: seq<Ref>)
    ensures Scan(gen, Obj([f0, f1, f2]), acc)
         == ScanField(gen, f2, ScanField(gen, f1, ScanField(gen, f0, acc)))
  {
    var fs := [f0, f1, f2];
    assert fs[1..] == [f1, f2] && fs[1..][1..] == [f2] && fs[1..][1..][1..] == [];
    calc {
      Scan(gen, Obj(fs), acc);
      ScanFields(gen, fs, acc);
      ScanFields(gen, fs[1..], ScanField(gen, f0, acc));
      ScanFields(gen, fs[1..][1..], ScanField(gen, f1, ScanField(gen, f0, acc)));
      ScanFields(gen, fs[1..][1..][1..], ScanField(gen, f2, ScanField(gen, f1, ScanField(gen, f0, acc))));
    }
  }

  lemma SingleItem(gen: Generation, item: Json, acc: seq<Ref>)
    ensures Scan(gen, Arr([item]), acc) == Scan(gen, item, acc)
  {
    var items := [item];
    assert items[1..] == [];
    calc {
      Scan(gen, Arr(items), acc);
      ScanItems(gen, items, acc);
      ScanItems(gen, [], Scan(gen, items[0], acc));
    }
  }

  lemma SingleField(gen: Generation, f: Field, acc: seq<Ref>)
    ensures Scan(gen, Obj([f]), acc) == ScanField(gen, f, acc)
  {
    var fields := [f];
    assert fields[1..] == [];
    calc {
      Scan(gen, Obj(fields), acc);
      ScanFields(gen, fields, acc);
      ScanFields(gen, [], ScanField(gen, fields[0], acc));
    }
  }

  /** The walk reports references in depth-first field order. */
  lemma DiscoveryOrder(gen: Generation)
    ensures Scan(gen, OrderFixture, [])
         == [Ref(Schemas, "User"), Ref(Parameters, "limit"), Ref(Responses, "Success")]
  {
    OrderPointers(gen);
    OrderShapeScan(gen, "#/components/schemas/User", "#/components/parameters/limit",
      "#/components/responses/Success", Ref(Schemas, "User"), Ref(Parameters, "limit"), Ref(Responses, "Success"));
  }

  lemma OrderPointers(gen: Generation)
    ensures ParseRef(gen, "#/components/schemas/User") == Some(Ref(Schemas, "User"))
    ensures ParseRef(gen, "#/components/parameters/limit") == Some(Ref(Parameters, "limit"))
    ensures ParseRef(gen, "#/components/responses/Success") == Some(Ref(Responses, "Success"))
  {
    SchemaPointer(gen);
    ParameterPointer(gen);
    ResponsePointer(gen);
  }

  /** Each fixture pointer is the OpenAPI 3 spelling of its reference. */
  lemma SchemaPointer(gen: Generation)
    ensures ParseRef(gen, "#/components/schemas/User") == Some(Ref(Schemas, "User"))
  {
    var r := Ref(Schemas, "User");
    assert IsCapture(r.name);
    assert ComponentPointer(r) == "#/components/schemas/User";
    ParsesTo(gen, r, "#/components/schemas/User");
  }

  lemma ParameterPointer(gen: Generation)
    ensures ParseRef(gen, "#/components/parameters/limit") == Some(Ref(Parameters, "limit"))
  {
    var r := Ref(Parameters, "limit");
    assert IsCapture(r.name);
    assert ComponentPointer(r) == "#/components/parameters/limit";
    ParsesTo(gen, r, "#/components/parameters/limit");
  }

  lemma ResponsePointer(gen: Generation)
    ensures ParseRef(gen, "#/components/responses/Success") == Some(Ref(Responses, "Success"))
  {
    var r := Ref(Responses, "Success");
    assert IsCapture(r.name);
    assert ComponentPointer(r) == "#/components/responses/Success";
    ParsesTo(gen, r, "#/components/responses/Success");
  }

  /** A literal OpenAPI 3 pointer of a kind both generations know. */
  lemma ParsesTo(gen: Generation, r: Ref, s: string)
    requires r.kind != SecuritySchemes && IsCapture(r.name)
    requires s == ComponentPointer(r)
    ensures ParseRef(gen, s) == Some(r)
  {
    ComponentPointerRoundTrip(gen, r);
  }

  /** An operation's `security` array under `paths./test.get`. */
  function OperationSecurity(requirements: seq<Json>): Json
  {
    Obj([Field("paths", Obj([Field("/test", Obj([Field("get", Obj([Field(SecurityKey, Arr(requirements))]))]))]))])
  }

  const RequirementFixture: seq<Json> :=
    [Obj([Field("apiKey", Arr([]))]), Obj([Field("oauth2", Arr([Str("read")]))])]

  /** Current reports requirement keys in array order; Legacy does not look at
      `security` arrays, and these hold no pointer. */
  lemma RequirementOrder(gen: Generation)
    ensures Scan(gen, OperationSecurity(RequirementFixture), [])
         == if gen == Current then [Ref(SecuritySchemes, "apiKey"), Ref(SecuritySchemes, "oauth2")] else []
  {
    OperationSecurityScan(gen, RequirementFixture);
    if gen == Current {
      CurrentRequirements();
    } else {
      LegacyRequirements();
    }
  }

  /** Walking to the operation's `security` array passes through three
      single-field objects. */
  lemma OperationSecurityScan(gen: Generation, items: seq<Json>)
    ensures Scan(gen, OperationSecurity(items), []) == ScanField(gen, Field(SecurityKey, Arr(items)), [])
  {
    var sec := Field(SecurityKey, Arr(items));
    var get := Field("get", Obj([sec]));
    var test := Field("/test", Obj([get]));
    var paths := Field("paths", Obj([test]));
    SingleField(gen, paths, []);
    SingleField(gen, test, []);
    SingleField(gen, get, []);
    SingleField(gen, sec, []);
  }

  /** Current reads each requirement object's keys, in array order. */
  lemma CurrentRequirements()
    ensures RequirementRefs(RequirementFixture) == [Ref(SecuritySchemes, "apiKey"), Ref(SecuritySchemes, "oauth2")]
  {
    var items := RequirementFixture;
    assert items[1..][1..] == [];
    assert RequirementRefs(items[1..][1..]) == [];
  }

  /** Legacy walks the requirement objects and finds no pointer. */
  lemma LegacyRequirements()
    ensures Scan(Legacy, Arr(RequirementFixture), []) == []
  {
    var items := RequirementFixture;
    SingleField(Legacy, Field("apiKey", Arr([])), []);
    SingleField(Legacy, Field("oauth2", Arr([Str("read")])), []);
    SingleItem(Legacy, Str("read"), []);
    assert items[1..][1..] == [];
    calc {
      Scan(Legacy, Arr(items), []);
      ScanItems(Legacy, items, []);
      ScanItems(Legacy, items[1..], []);
      ScanItems(Legacy, items[1..][1..], []);
    }
  }

  // ---------------------------------------------------------------------------
  // Document-level requirements are not expanded by findAllReferences as written

  /** An OpenAPI 3 document with no paths whose only requirement is the
      document-level `a`; scheme `a` is itself a pointer to scheme `b`. */
  const FindingDoc: seq<Field> := [
    Field("openapi", Str("3.0.0")),
    Field("paths", Obj([])),
    Field(SecurityKey, Arr([Obj([Field("a", Arr([]))])])),
    Field("components", Obj([Field("securitySchemes", Obj([
      Field("a", PointerObject("#/components/securitySchemes/b")),
      Field("b", Obj([Field("type", Str("apiKey"))]))]))]))
  ]

  lemma SchemeBPointer()
    ensures ParseRef(Current, "#/components/securitySchemes/b") == Some(Ref(SecuritySchemes, "b"))
  {
    var r := Ref(SecuritySchemes, "b");
    assert IsCapture(r.name);
    assert ComponentPointer(r) == "#/components/securitySchemes/b";
    ComponentPointerRoundTrip(Current, r);
  }

  /** Looking up scheme `a` and scanning its body yields scheme `b`. */
  lemma FindingExpansion()
    ensures Expansion(Current, FindingDoc, Ref(SecuritySchemes, "a")) == {Ref(SecuritySchemes, "b")}
  {
    var p := "#/components/securitySchemes/b";
    FindingLookup();
    SchemeBPointer();
    MentionedPointerObject(Current, p, Ref(SecuritySchemes, "b"));
  }

  lemma FindingLookup()
    ensures Lookup(Current, FindingDoc, Ref(SecuritySchemes, "a"))
         == Some(PointerObject("#/components/securitySchemes/b"))
  {
    var body := PointerObject("#/components/securitySchemes/b");
    var schemes := [Field("a", body), Field("b", Obj([Field("type", Str("apiKey"))]))];
    FindingComponents();
    SchemeLookup(FindingDoc, "a", Obj([Field("securitySchemes", Obj(schemes))]), Obj(schemes));
    assert Get(schemes, "a") == Some(body);
  }

  /** Where the finding document keeps its components, and that it has no
      Swagger 2.0 security definitions. */
  lemma FindingComponents()
    ensures Get(FindingDoc, "securityDefinitions") == None
    ensures Get(FindingDoc, "components") == Some(FindingDoc[3].value)
  {
    var d := FindingDoc;
    assert d == [d[0], d[1], d[2], d[3]];
    GetFour(d[0], d[1], d[2], d[3], "components");
    GetFour(d[0], d[1], d[2], d[3], "securityDefinitions");
  }

  /** A property read on a four-field object tries the fields in order. */
  lemma GetFour(f0: Field, f1: Field, f2: Field, f3: Field, k: string)
    ensures Get([f0, f1, f2, f3], k)
         == if f0.key == k then Some(f0.value)
            else if f1.key == k then Some(f1.value)
            else if f2.key == k then Some(f2.value)
            else if f3.key == k then Some(f3.value)
            else None
  {
    var fs := [f0, f1, f2, f3];
    assert fs[1..] == [f1, f2, f3] && fs[1..][1..] == [f2, f3];
    assert fs[1..][1..][1..] == [f3] && fs[1..][1..][1..][1..] == [];
    GetFirst(fs, k);
    GetFirst(fs[1..], k);
    GetFirst(fs[1..][1..], k);
    GetFirst(fs[1..][1..][1..], k);
  }


  /** Without `securityDefinitions`, a security scheme is looked up under
      `components.securitySchemes`. */
  lemma SchemeLookup(doc: seq<Field>, name: string, components: Json, schemes: Json)
    requires Get(doc, "securityDefinitions") == None
    requires Get(doc, "components") == Some(components)
    requires Prop(components, "securitySchemes") == Some(schemes) && Truthy(schemes)
    ensures Lookup(Current, doc, Ref(SecuritySchemes, name)) == Prop(schemes, name)
  {
  }

  /** A lone pointer object mentions exactly the reference its pointer parses to. */
  lemma MentionedPointerObject(gen: Generation, pointer: string, r: Ref)
    requires ParseRef(gen, pointer) == Some(r)
    ensures Mentioned(gen, PointerObject(pointer)) == {r}
  {
    var fields := [Field(PointerKey, Str(pointer))];
    assert fields[1..] == [];
    calc {
      Hits(gen, PointerObject(pointer));
      FieldListHits(gen, fields);
      FieldHits(gen, fields[0]) + FieldListHits(gen, fields[1..]);
      [PointerHit(r)];
    }
  }

  /** With every path filtered out (here: none to begin with), `findAllReferences`
      as written returns its seeds unchanged, and those seeds are `[a]`. Yet `b`
      is reachable from `a`, so the set is not closed: the rebuild keeps `a`, drops
      `b`, and leaves `a`'s pointer dangling. */
  lemma GlobalSchemeLeftUnexpanded()
    ensures PathRefs(Current, []) == []
    ensures Seeded(Current, FindingDoc, []) == [Ref(SecuritySchemes, "a")]
    ensures Reachable(Current, FindingDoc, {Ref(SecuritySchemes, "a")}, Ref(SecuritySchemes, "b"))
    ensures Ref(SecuritySchemes, "b") !in Seeded(Current, FindingDoc, [])
    ensures !Closed(Current, FindingDoc, Elems(Seeded(Current, FindingDoc, [])))
  {
    NoPaths();
    FindingSeeds();
    FindingExpansion();
    LoneSeedNotClosed(Current, FindingDoc, Seeded(Current, FindingDoc, []),
      Ref(SecuritySchemes, "a"), Ref(SecuritySchemes, "b"));
  }

  /** When the only seed `a` expands to some other `b`, `b` is reachable but the
      seeds alone are not closed. */
  lemma LoneSeedNotClosed(gen: Generation, doc: seq<Field>, seeded: seq<Ref>, a: Ref, b: Ref)
    requires seeded == [a] && b in Expansion(gen, doc, a) && b != a
    ensures Reachable(gen, doc, {a}, b)
    ensures b !in seeded && !Closed(gen, doc, Elems(seeded))
  {
    ExpansionReachable(gen, doc, a, b);
    assert Elems(seeded) == {a};
  }

  /** No kept path contributes a reference. */
  lemma NoPaths()
    ensures PathRefs(Current, []) == []
  {
  }

  /** The document-level requirement array of the finding document. */
  lemma FindingGlobal()
    ensures GlobalSecurity(Current, FindingDoc) == Some([Obj([Field("a", Arr([]))])])
  {
    var d := FindingDoc;
    assert d == [d[0], d[1], d[2], d[3]];
    GetFour(d[0], d[1], d[2], d[3], SecurityKey);
  }

  /** The seeds of the finding document are its one requirement key `a`. */
  lemma FindingSeeds()
    ensures Seeded(Current, FindingDoc, []) == [Ref(SecuritySchemes, "a")]
  {
    var items := [Obj([Field("a", Arr([]))])];
    FindingGlobal();
    SeededShape(Current, FindingDoc, []);
    NoPaths();
    assert RequirementRefs(items[1..]) == [];
    assert Keys([Field("a", Arr([]))]) == ["a"];
    assert RequirementRefs(items) == [Ref(SecuritySchemes, "a")];
  }

  /** What a seed's expansion names is reachable from that seed. */
  lemma ExpansionReachable(gen: Generation, doc: seq<Field>, a: Ref, b: Ref)
    requires b in Expansion(gen, doc, a)
    ensures Reachable(gen, doc, {a}, b)
  {
    forall s: set<Ref> | {a} <= s && Closed(gen, doc, s) ensures b in s {
      assert a in s;
    }
  }

  /** On the finding document the rebuild by what `findAllReferences` returns as
      written (with no path reference, exactly the seeds `[a]`) reports scheme `b`
      as removed although `a` still points at it; the rebuild by the reachable
      references keeps `b`. */
  lemma FindingReportsScheme(patterns: seq<string>, matches: (string, string) -> bool)
    ensures PathEntries(FindingDoc) == []
    ensures Partition(PathEntries(FindingDoc), PathKeep(patterns, matches)) == Split([], [])
    ensures PathRefs(Current, []) == []
    ensures "b" in Removed(Project(Current, FindingDoc, [], [], r => r in Seeded(Current, FindingDoc, [])).summary, SecuritySchemes)
    ensures "b" !in Removed(Shake(Current, FindingDoc, patterns, matches).summary, SecuritySchemes)
  {
    var a, b := Ref(SecuritySchemes, "a"), Ref(SecuritySchemes, "b");
    FindingPaths();
    FindingSchemeNames();
    GlobalSchemeLeftUnexpanded();
    assert Elems([a]) == {a};
    ShakeWithoutPaths(Current, FindingDoc, patterns, matches);
    UnqueuedReported(Current, FindingDoc, Seeded(Current, FindingDoc, []), SecuritySchemes, "b");
  }

  /** With no path entries the shake keeps no path and reports none. */
  lemma ShakeWithoutPaths(gen: Generation, doc: seq<Field>, patterns: seq<string>, matches: (string, string) -> bool)
    requires PathEntries(doc) == []
    ensures Partition(PathEntries(doc), PathKeep(patterns, matches)) == Split([], [])
    ensures Shake(gen, doc, patterns, matches)
         == Project(gen, doc, [], [], ReachableFrom(gen, doc, Elems(Seeded(gen, doc, []))))
  {
  }

  /** A reachable entry that is not among the seeds is reported by the rebuild that
      keeps only the seeds, and kept by the rebuild that keeps what they reach. */
  lemma UnqueuedReported(gen: Generation, doc: seq<Field>, seeded: seq<Ref>, k: Kind, n: string)
    requires n in Keys(ComponentSource(gen, doc, k))
    requires Ref(k, n) !in seeded && Reachable(gen, doc, Elems(seeded), Ref(k, n))
    ensures n in Removed(Project(gen, doc, [], [], r => r in seeded).summary, k)
    ensures n !in Removed(Project(gen, doc, [], [], ReachableFrom(gen, doc, Elems(seeded))).summary, k)
  {
    ReportsUnused(gen, doc, [], [], r => r in seeded, k, n);
    ReportsUnreachable(gen, doc, [], [], Elems(seeded), k, n);
  }

  /** The finding document's `paths` is an empty object. */
  lemma FindingPaths()
    ensures Get(FindingDoc, "paths") == Some(Obj([]))
    ensures PathEntries(FindingDoc) == []
  {
    var d := FindingDoc;
    assert d == [d[0], d[1], d[2], d[3]];
    GetFour(d[0], d[1], d[2], d[3], "paths");
  }

  /** Scheme `b` is an entry of the finding document's processed
      `securitySchemes` container. */
  lemma FindingSchemeNames()
    ensures "b" in Keys(ComponentSource(Current, FindingDoc, SecuritySchemes))
  {
    var schemes := FindingSchemes();
    FindingOpenApi();
    FindingComponents();
    LoneContainer(FindingDoc, SecuritySchemes, schemes);
    assert Keys(schemes)[1] == "b";
  }

  /** The finding document's security schemes `a` and `b`. */
  function FindingSchemes(): (schemes: seq<Field>)
    ensures FindingDoc[3].value == Obj([Field(KindName(SecuritySchemes), Obj(schemes))])
    ensures |schemes| == 2 && schemes[1].key == "b"
  {
    [Field("a", PointerObject("#/components/securitySchemes/b")),
     Field("b", Obj([Field("type", Str("apiKey"))]))]
  }

  /** The finding document is an OpenAPI 3 document. */
  lemma FindingOpenApi()
    ensures "openapi" in Keys(FindingDoc)
  {
    assert Keys(FindingDoc)[0] == "openapi";
  }

  /** A Current OpenAPI 3 document whose `components` holds one container
      processes that container's entries. */
  lemma LoneContainer(doc: seq<Field>, k: Kind, entries: seq<Field>)
    requires "openapi" in Keys(doc)
    requires Get(doc, "components") == Some(Obj([Field(KindName(k), Obj(entries))]))
    ensures ComponentSource(Current, doc, k) == entries
  {
    var c := Obj([Field(KindName(k), Obj(entries))]);
    assert ComponentsApply(Current, doc);
    assert Prop(c, KindName(k)) == Some(Obj(entries)) by {
      GetFirst([Field(KindName(k), Obj(entries))], KindName(k));
    }
    assert KindApplies(Current, doc, k);
  }
}
