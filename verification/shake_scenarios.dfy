/** Whole-document fixtures from the engine's own tests: reference cycles that
    `findAllReferences` closes, the path filter, the removal report of the
    tree-shaker, and nested requirement order. */
module ShakeScenarios {
  import opened Wrappers
  import opened Seqs
  import opened Json
  import opened Refs
  import opened RefParser
  import opened Scanner
  import opened Resolver
  import opened Partitioning
  import opened Projector
  import opened TreeShaker
  import opened Scenarios

  // ---------------------------------------------------------------------------
  // Fixture shapes

  /** `{type: t}`. */
  function Typed(t: string): Json
  {
    Obj([Field("type", Str(t))])
  }

  /** `{type: 'object', properties: {...}}`. */
  function ObjectSchema(properties: seq<Field>): Json
  {
    Obj([Field("type", Str("object")), Field("properties", Obj(properties))])
  }

  /** `{type: 'array', items: {$ref: pointer}}`. */
  function ArrayOf(pointer: string): Json
  {
    Obj([Field("type", Str("array")), Field("items", PointerObject(pointer))])
  }

  /** `{get: {responses: {'200': {$ref: pointer}}}}`: one operation whose success
      response is a pointer. */
  function GetResponse(pointer: string): Json
  {
    Obj([Field("get", Obj([Field("responses", Obj([Field("200", PointerObject(pointer))]))]))])
  }

  /** A document with `paths` and a `components` object holding only `schemas`. */
  function SchemasDoc(paths: seq<Field>, schemas: seq<Field>): seq<Field>
  {
    [Field("paths", Obj(paths)), Field("components", Obj([Field("schemas", Obj(schemas))]))]
  }

  /** `#/components/schemas/<name>`. */
  function SchemaRef(name: string): string
  {
    ComponentPointer(Ref(Schemas, name))
  }

  // ---------------------------------------------------------------------------
  // Walking the shapes

  /** A field under any key but `$ref` and `security` contributes what its
      value does. */
  lemma PlainField(gen: Generation, k: string, v: Json)
    requires k != PointerKey && k != SecurityKey
    ensures FieldHits(gen, Field(k, v)) == Hits(gen, v)
  {
  }

  lemma OneFieldHits(gen: Generation, f: Field)
    ensures Hits(gen, Obj([f])) == FieldHits(gen, f)
  {
    var fs := [f];
    calc {
      Hits(gen, Obj(fs));
      FieldListHits(gen, fs);
      FieldHits(gen, f) + FieldListHits(gen, fs[1..]);
      { assert fs[1..] == []; }
      FieldHits(gen, f) + [];
    }
  }

  lemma TwoFieldHits(gen: Generation, f0: Field, f1: Field)
    ensures Hits(gen, Obj([f0, f1])) == FieldHits(gen, f0) + FieldHits(gen, f1)
  {
    var fs := [f0, f1];
    calc {
      Hits(gen, Obj(fs));
      FieldListHits(gen, fs);
      FieldHits(gen, f0) + FieldListHits(gen, fs[1..]);
      { assert fs[1..] == [f1]; OneFieldHits(gen, f1); }
      FieldHits(gen, f0) + FieldHits(gen, f1);
    }
  }

  lemma ThreeFieldHits(gen: Generation, f0: Field, f1: Field, f2: Field)
    ensures Hits(gen, Obj([f0, f1, f2])) == FieldHits(gen, f0) + FieldHits(gen, f1) + FieldHits(gen, f2)
  {
    var fs := [f0, f1, f2];
    calc {
      Hits(gen, Obj(fs));
      FieldListHits(gen, fs);
      FieldHits(gen, f0) + FieldListHits(gen, fs[1..]);
      { assert fs[1..] == [f1, f2]; TwoFieldHits(gen, f1, f2); }
      FieldHits(gen, f0) + (FieldHits(gen, f1) + FieldHits(gen, f2));
    }
  }

  /** A schema pointer parses to its schema in both generations. */
  lemma SchemaRefParses(gen: Generation, name: string)
    requires IsCapture(name)
    ensures ParseRef(gen, SchemaRef(name)) == Some(Ref(Schemas, name))
  {
    ComponentPointerRoundTrip(gen, Ref(Schemas, name));
  }

  lemma PointerHits(gen: Generation, pointer: string, r: Ref)
    requires ParseRef(gen, pointer) == Some(r)
    ensures Hits(gen, PointerObject(pointer)) == [PointerHit(r)]
  {
    OneFieldHits(gen, Field(PointerKey, Str(pointer)));
  }

  lemma TypedHits(gen: Generation, t: string)
    ensures Hits(gen, Typed(t)) == []
  {
    OneFieldHits(gen, Field("type", Str(t)));
  }

  lemma ObjectSchemaHits(gen: Generation, properties: seq<Field>)
    ensures Hits(gen, ObjectSchema(properties)) == FieldListHits(gen, properties)
  {
    TwoFieldHits(gen, Field("type", Str("object")), Field("properties", Obj(properties)));
  }

  lemma ArrayOfHits(gen: Generation, pointer: string, r: Ref)
    requires ParseRef(gen, pointer) == Some(r)
    ensures Hits(gen, ArrayOf(pointer)) == [PointerHit(r)]
  {
    TwoFieldHits(gen, Field("type", Str("array")), Field("items", PointerObject(pointer)));
    PointerHits(gen, pointer, r);
  }

  /** A path whose operation's success response points at `r` yields `[r]`. */
  lemma GetResponseRefs(gen: Generation, path: string, pointer: string, r: Ref)
    requires ParseRef(gen, pointer) == Some(r)
    ensures PathRefs(gen, [Field(path, GetResponse(pointer))]) == [r]
  {
    var ok := Field("200", PointerObject(pointer));
    var responses := Field("responses", Obj([ok]));
    var get := Field("get", Obj([responses]));
    SingleField(gen, Field(path, GetResponse(pointer)), []);
    SingleField(gen, get, []);
    SingleField(gen, responses, []);
    SingleField(gen, ok, []);
    ScanPointerObject(gen, pointer, r, []);
  }

  lemma HitRefsOne(h: Hit)
    ensures HitRefs([h]) == {h.ref}
  {
    assert h in [h];
  }

  // ---------------------------------------------------------------------------
  // Looking schemas up

  /** The document holds no Swagger 2.0 section and no document-level
      requirement, and its `schemas` container is the one looked up. */
  lemma SchemasDocShape(paths: seq<Field>, schemas: seq<Field>)
    ensures Get(SchemasDoc(paths, schemas), "paths") == Some(Obj(paths))
    ensures Get(SchemasDoc(paths, schemas), "components") == Some(Obj([Field("schemas", Obj(schemas))]))
    ensures Get(SchemasDoc(paths, schemas), "definitions") == None
    ensures Get(SchemasDoc(paths, schemas), SecurityKey) == None
  {
    var d := SchemasDoc(paths, schemas);
    assert d[1..] == [d[1]] && d[1..][1..] == [];
    GetFirst(d, "components");
    GetFirst(d[1..], "components");
  }

  /** A schema is looked up by name in the `schemas` container. */
  lemma SchemaLookup(gen: Generation, paths: seq<Field>, schemas: seq<Field>, n: string)
    ensures Lookup(gen, SchemasDoc(paths, schemas), Ref(Schemas, n)) == Get(schemas, n)
  {
    var components := Obj([Field("schemas", Obj(schemas))]);
    SchemasDocShape(paths, schemas);
    GetFirst([Field("schemas", Obj(schemas))], "schemas");
    assert PropOpt(Some(components), "schemas") == Some(Obj(schemas));
    SchemaRead(gen, SchemasDoc(paths, schemas), components, Obj(schemas), n);
  }

  /** Without `definitions`, a schema is read from a truthy `components.schemas`. */
  lemma SchemaRead(gen: Generation, doc: seq<Field>, components: Json, schemas: Json, n: string)
    requires Get(doc, "definitions") == None && Get(doc, "components") == Some(components)
    requires PropOpt(Some(components), "schemas") == Some(schemas) && Truthy(schemas)
    ensures Lookup(gen, doc, Ref(Schemas, n)) == Prop(schemas, n)
  {
  }

  /** A schema that is an object expands to what its body mentions. */
  lemma SchemaExpansion(gen: Generation, paths: seq<Field>, schemas: seq<Field>, n: string, body: seq<Field>)
    requires Get(schemas, n) == Some(Obj(body))
    ensures Expansion(gen, SchemasDoc(paths, schemas), Ref(Schemas, n)) == Mentioned(gen, Obj(body))
  {
    SchemaLookup(gen, paths, schemas, n);
  }

  /** Without a document-level requirement the seeds are the path references. */
  lemma SchemasDocSeeds(gen: Generation, paths: seq<Field>, schemas: seq<Field>, filtered: seq<Field>)
    ensures Seeded(gen, SchemasDoc(paths, schemas), filtered) == PathRefs(gen, filtered)
  {
    SchemasDocShape(paths, schemas);
  }

  /** A property read on a three-field object tries the fields in order. */
  lemma GetThree(f0: Field, f1: Field, f2: Field, k: string)
    ensures Get([f0, f1, f2], k)
         == if f0.key == k then Some(f0.value)
            else if f1.key == k then Some(f1.value)
            else if f2.key == k then Some(f2.value)
            else None
  {
    var fs := [f0, f1, f2];
    assert fs[1..] == [f1, f2] && fs[1..][1..] == [f2] && fs[1..][1..][1..] == [];
    GetFirst(fs, k);
    GetFirst(fs[1..], k);
    GetFirst(fs[1..][1..], k);
  }

  // ---------------------------------------------------------------------------
  // Reachability in a fixture

  /** A closed set of seeds' descendants is exactly the reachable set. */
  lemma ExactlyReachable(gen: Generation, doc: seq<Field>, seeds: set<Ref>, s: set<Ref>)
    requires seeds <= s && Closed(gen, doc, s)
    requires forall r :: r in s ==> Reachable(gen, doc, seeds, r)
    ensures forall r :: Reachable(gen, doc, seeds, r) <==> r in s
  {
    ClosedHoldsReachable(gen, doc, seeds, s);
  }

  /** What a reachable reference's expansion names is reachable. */
  lemma ReachableThrough(gen: Generation, doc: seq<Field>, seeds: set<Ref>, a: Ref, b: Ref)
    requires Reachable(gen, doc, seeds, a) && b in Expansion(gen, doc, a)
    ensures Reachable(gen, doc, seeds, b)
  {
    forall s: set<Ref> | seeds <= s && Closed(gen, doc, s) ensures b in s {
      assert a in s;
    }
  }

  /** `findAllReferences` as written, on a document without document-level
      requirements whose reachable set is known, returns exactly that set. */
  method FindAllWithoutGlobal(gen: Generation, doc: seq<Field>, filtered: seq<Field>, s: set<Ref>) returns (refs: seq<Ref>)
    requires Seeded(gen, doc, filtered) == PathRefs(gen, filtered)
    requires forall r :: Reachable(gen, doc, Elems(PathRefs(gen, filtered)), r) <==> r in s
    ensures Elems(refs) == s
  {
    refs := FindAllReferences(gen, doc, filtered);
    ClosedHoldsReachable(gen, doc, Elems(PathRefs(gen, filtered)), Elems(refs));
  }

  // ---------------------------------------------------------------------------
  // A schema that refers to itself

  /** `Category` points at itself as its parent and as its subcategories' items. */
  function CategoryProperties(): seq<Field>
  {
    [Field("name", Typed("string")),
     Field("parent", PointerObject(SchemaRef("Category"))),
     Field("subcategories", ArrayOf(SchemaRef("Category")))]
  }

  const SelfPaths: seq<Field> := [Field("/categories", GetResponse(SchemaRef("Category")))]

  function SelfSchemas(): seq<Field>
  {
    [Field("Category", ObjectSchema(CategoryProperties()))]
  }

  const SelfDoc: seq<Field> := SchemasDoc(SelfPaths, SelfSchemas())

  /** The self-referencing schema mentions only itself. */
  lemma CategoryMentions(gen: Generation)
    ensures Mentioned(gen, ObjectSchema(CategoryProperties())) == {Ref(Schemas, "Category")}
  {
    var c := Ref(Schemas, "Category");
    var props := CategoryProperties();
    SchemaRefParses(gen, "Category");
    PlainField(gen, "name", Typed("string"));
    TypedHits(gen, "string");
    PlainField(gen, "parent", PointerObject(SchemaRef("Category")));
    PointerHits(gen, SchemaRef("Category"), c);
    PlainField(gen, "subcategories", ArrayOf(SchemaRef("Category")));
    ArrayOfHits(gen, SchemaRef("Category"), c);
    ThreeProperties(gen, props[0], props[1], props[2], c, c);
  }

  /** `Category` expands to itself. */
  lemma SelfExpands(gen: Generation)
    ensures Expansion(gen, SelfDoc, Ref(Schemas, "Category")) == {Ref(Schemas, "Category")}
  {
    GetFirst(SelfSchemas(), "Category");
    SchemaExpansion(gen, SelfPaths, SelfSchemas(), "Category", ObjectSchema(CategoryProperties()).fields);
    CategoryMentions(gen);
  }

  /** A reference that expands only to itself reaches only itself. */
  lemma SelfLoop(gen: Generation, doc: seq<Field>, a: Ref)
    requires Expansion(gen, doc, a) == {a}
    ensures forall r :: Reachable(gen, doc, {a}, r) <==> r == a
  {
    ExactlyReachable(gen, doc, {a}, {a});
  }

  /** From the `/categories` path only `Category` is reachable, its cycle
      through itself adding nothing. */
  lemma SelfReferenceCloses(gen: Generation)
    ensures PathRefs(gen, SelfPaths) == [Ref(Schemas, "Category")]
    ensures Seeded(gen, SelfDoc, SelfPaths) == PathRefs(gen, SelfPaths)
    ensures forall r :: Reachable(gen, SelfDoc, {Ref(Schemas, "Category")}, r) <==> r == Ref(Schemas, "Category")
  {
    var c := Ref(Schemas, "Category");
    SchemaRefParses(gen, "Category");
    GetResponseRefs(gen, "/categories", SchemaRef("Category"), c);
    SchemasDocSeeds(gen, SelfPaths, SelfSchemas(), SelfPaths);
    SelfExpands(gen);
    SelfLoop(gen, SelfDoc, c);
  }

  /** `findAllReferences(spec, spec.paths)` on the self-referencing fixture
      returns `Category` alone. */
  method SelfReferenceFixture(gen: Generation) returns (refs: seq<Ref>)
    ensures Elems(refs) == {Ref(Schemas, "Category")}
  {
    SelfReferenceCloses(gen);
    assert Elems([Ref(Schemas, "Category")]) == {Ref(Schemas, "Category")};
    refs := FindAllWithoutGlobal(gen, SelfDoc, SelfPaths, {Ref(Schemas, "Category")});
  }

  // ---------------------------------------------------------------------------
  // A cycle through three schemas

  function OrganizationBody(): seq<Field>
  {
    [Field("departments", ArrayOf(SchemaRef("Department")))]
  }

  function DepartmentBody(): seq<Field>
  {
    [Field("employees", ArrayOf(SchemaRef("Employee")))]
  }

  function EmployeeBody(): seq<Field>
  {
    [Field("organization", PointerObject(SchemaRef("Organization")))]
  }

  /** `Organization` lists departments, a department lists employees, and an
      employee points back at its organization. */
  function CycleSchemas(): seq<Field>
  {
    [Field("Organization", ObjectSchema(OrganizationBody())),
     Field("Department", ObjectSchema(DepartmentBody())),
     Field("Employee", ObjectSchema(EmployeeBody()))]
  }

  const CyclePaths: seq<Field> := [Field("/organizations", GetResponse(SchemaRef("Organization")))]

  const CycleDoc: seq<Field> := SchemasDoc(CyclePaths, CycleSchemas())

  /** A one-property object schema whose property holds a pointer, directly or as
      array items, mentions the pointer's target. */
  lemma OnePropertyMentions(gen: Generation, prop: string, value: Json, r: Ref)
    requires prop != PointerKey && prop != SecurityKey
    requires Hits(gen, value) == [PointerHit(r)]
    ensures Mentioned(gen, ObjectSchema([Field(prop, value)])) == {r}
  {
    ObjectSchemaHits(gen, [Field(prop, value)]);
    PlainField(gen, prop, value);
    assert FieldListHits(gen, [Field(prop, value)]) == FieldHits(gen, Field(prop, value)) by {
      OneFieldHits(gen, Field(prop, value));
    }
    HitRefsOne(PointerHit(r));
  }

  /** A schema whose one property leads to `r` expands to `r`. */
  lemma LinkExpansion(gen: Generation, paths: seq<Field>, schemas: seq<Field>, n: string, prop: string, value: Json, r: Ref)
    requires Get(schemas, n) == Some(ObjectSchema([Field(prop, value)]))
    requires prop != PointerKey && prop != SecurityKey
    requires Hits(gen, value) == [PointerHit(r)]
    ensures Expansion(gen, SchemasDoc(paths, schemas), Ref(Schemas, n)) == {r}
  {
    OnePropertyMentions(gen, prop, value, r);
    SchemaExpansion(gen, paths, schemas, n, ObjectSchema([Field(prop, value)]).fields);
  }

  /** Each schema of the cycle expands to the next one. */
  lemma OrganizationExpands(gen: Generation)
    ensures Expansion(gen, CycleDoc, Ref(Schemas, "Organization")) == {Ref(Schemas, "Department")}
  {
    var cs := CycleSchemas();
    SchemaRefParses(gen, "Department");
    ArrayOfHits(gen, SchemaRef("Department"), Ref(Schemas, "Department"));
    GetFirst(cs, "Organization");
    LinkExpansion(gen, CyclePaths, cs, "Organization", "departments", ArrayOf(SchemaRef("Department")), Ref(Schemas, "Department"));
  }

  lemma DepartmentExpands(gen: Generation)
    ensures Expansion(gen, CycleDoc, Ref(Schemas, "Department")) == {Ref(Schemas, "Employee")}
  {
    var cs := CycleSchemas();
    SchemaRefParses(gen, "Employee");
    ArrayOfHits(gen, SchemaRef("Employee"), Ref(Schemas, "Employee"));
    GetThree(cs[0], cs[1], cs[2], "Department");
    LinkExpansion(gen, CyclePaths, cs, "Department", "employees", ArrayOf(SchemaRef("Employee")), Ref(Schemas, "Employee"));
  }

  lemma EmployeeExpands(gen: Generation)
    ensures Expansion(gen, CycleDoc, Ref(Schemas, "Employee")) == {Ref(Schemas, "Organization")}
  {
    var cs := CycleSchemas();
    SchemaRefParses(gen, "Organization");
    PointerHits(gen, SchemaRef("Organization"), Ref(Schemas, "Organization"));
    GetThree(cs[0], cs[1], cs[2], "Employee");
    LinkExpansion(gen, CyclePaths, cs, "Employee", "organization", PointerObject(SchemaRef("Organization")), Ref(Schemas, "Organization"));
  }

  /** From the `/organizations` path exactly the three schemas of the cycle are
      reachable. */
  lemma CycleCloses(gen: Generation)
    ensures PathRefs(gen, CyclePaths) == [Ref(Schemas, "Organization")]
    ensures Seeded(gen, CycleDoc, CyclePaths) == PathRefs(gen, CyclePaths)
    ensures forall r :: Reachable(gen, CycleDoc, {Ref(Schemas, "Organization")}, r) <==>
      r in {Ref(Schemas, "Organization"), Ref(Schemas, "Department"), Ref(Schemas, "Employee")}
  {
    var o, d, e := Ref(Schemas, "Organization"), Ref(Schemas, "Department"), Ref(Schemas, "Employee");
    SchemaRefParses(gen, "Organization");
    GetResponseRefs(gen, "/organizations", SchemaRef("Organization"), o);
    SchemasDocSeeds(gen, CyclePaths, CycleSchemas(), CyclePaths);
    OrganizationExpands(gen);
    DepartmentExpands(gen);
    EmployeeExpands(gen);
    ThreeCycle(gen, CycleDoc, o, d, e);
  }

  /** Three references that expand to one another in a ring reach exactly one
      another from any of them. */
  lemma ThreeCycle(gen: Generation, doc: seq<Field>, a: Ref, b: Ref, c: Ref)
    requires Expansion(gen, doc, a) == {b} && Expansion(gen, doc, b) == {c} && Expansion(gen, doc, c) == {a}
    ensures forall r :: Reachable(gen, doc, {a}, r) <==> r in {a, b, c}
  {
    ReachableThrough(gen, doc, {a}, a, b);
    ReachableThrough(gen, doc, {a}, b, c);
    ExactlyReachable(gen, doc, {a}, {a, b, c});
  }

  /** `findAllReferences(spec, spec.paths)` on the cycle fixture returns
      `Organization`, `Department` and `Employee`. */
  method CycleFixture(gen: Generation) returns (refs: seq<Ref>)
    ensures Elems(refs) == {Ref(Schemas, "Organization"), Ref(Schemas, "Department"), Ref(Schemas, "Employee")}
  {
    CycleCloses(gen);
    assert Elems([Ref(Schemas, "Organization")]) == {Ref(Schemas, "Organization")};
    refs := FindAllWithoutGlobal(gen, CycleDoc, CyclePaths,
      {Ref(Schemas, "Organization"), Ref(Schemas, "Department"), Ref(Schemas, "Employee")});
  }

  // ---------------------------------------------------------------------------
  // The tree-shaker on whole documents

  /** `new RegExp(pattern).test(path)` for a pattern made of `^` and characters
      without regular-expression meaning: the path starts with those characters.
      Any other pattern is taken to match nothing. */
  predicate AnchoredPrefix(pattern: string, path: string)
  {
    |pattern| > 0 && pattern[0] == '^' && pattern[1..] <= path
  }

  /** The shake of a document whose path split is known. */
  lemma ShakeSplit(gen: Generation, doc: seq<Field>, patterns: seq<string>, matches: (string, string) -> bool, kept: seq<Field>, removed: seq<string>)
    requires Partition(PathEntries(doc), PathKeep(patterns, matches)) == Split(kept, removed)
    ensures Shake(gen, doc, patterns, matches)
         == Project(gen, doc, kept, removed, ReachableFrom(gen, doc, Seeds(gen, doc, kept)))
  {
  }

  /** A lone pattern splits two paths when it accepts the first only. */
  lemma TwoPathSplit(f0: Field, f1: Field, pattern: string, matches: (string, string) -> bool)
    requires matches(pattern, f0.key) && !matches(pattern, f1.key)
    ensures Partition([f0, f1], PathKeep([pattern], matches)) == Split([f0], [f1.key])
  {
    var keep := PathKeep([pattern], matches);
    assert keep(f0.key) by {
      assert pattern in [pattern];
    }
    assert !keep(f1.key) by {
      forall p | p in [pattern] ensures !matches(p, f1.key) {
      }
    }
    assert [f1][1..] == [];
    assert Partition([f1], keep) == Split([], [f1.key]);
    assert [f0, f1][1..] == [f1];
  }

  /** A lone pattern keeps a lone path it accepts. */
  lemma OnePathKept(f: Field, pattern: string, matches: (string, string) -> bool)
    requires matches(pattern, f.key)
    ensures Partition([f], PathKeep([pattern], matches)) == Split([f], [])
  {
    var keep := PathKeep([pattern], matches);
    assert keep(f.key) by {
      assert pattern in [pattern];
    }
    assert [f][1..] == [];
  }

  /** `{get: {}}`. */
  const EmptyGet: Json := Obj([Field("get", Obj([]))])

  const UsersPosts: seq<Field> := [Field("paths", Obj([Field("/users", EmptyGet), Field("/posts", EmptyGet)]))]

  /** `^/users` keeps `/users`, not `/posts`. */
  lemma UsersPattern()
    ensures AnchoredPrefix("^/users", "/users")
    ensures !AnchoredPrefix("^/users", "/posts")
  {
    assert "^/users"[1..] == "/users";
    assert "/users"[1] != "/posts"[1];
  }

  /** The paths of the filter fixture. */
  lemma UsersPostsPaths()
    ensures PathEntries(UsersPosts) == [Field("/users", EmptyGet), Field("/posts", EmptyGet)]
  {
    GetFirst(UsersPosts, "paths");
  }

  /** The pattern `^/users` keeps `/users` as the only path and reports
      `/posts`. */
  lemma UsersFilter(gen: Generation)
    ensures Get(Shake(gen, UsersPosts, ["^/users"], AnchoredPrefix).spec, "paths") == Some(Obj([Field("/users", EmptyGet)]))
    ensures Shake(gen, UsersPosts, ["^/users"], AnchoredPrefix).summary.removedPaths == ["/posts"]
  {
    var users, posts := Field("/users", EmptyGet), Field("/posts", EmptyGet);
    UsersPattern();
    UsersPostsPaths();
    TwoPathSplit(users, posts, "^/users", AnchoredPrefix);
    ShakeSplit(gen, UsersPosts, ["^/users"], AnchoredPrefix, [users], ["/posts"]);
    var used := ReachableFrom(gen, UsersPosts, Seeds(gen, UsersPosts, [users]));
    ProjectTopLevel(gen, UsersPosts, [users], ["/posts"], used);
  }

  /** `treeShakeOpenAPI(spec, ['^/users'])` on the filter fixture. */
  method UsersFilterFixture(compiles: string -> bool) returns (result: Result<LegacyShaken, ShakeError>)
    requires compiles("^/users")
    ensures result.Ok?
    ensures Get(result.value.spec, "paths") == Some(Obj([Field("/users", EmptyGet)]))
    ensures result.value.summary.removedPaths == ["/posts"]
  {
    UsersFilter(Legacy);
    GetFirst(UsersPosts, "paths");
    OnePatternCompiles("^/users", compiles);
    result := LegacyTreeShake(UsersPosts, ["^/users"], AnchoredPrefix, compiles);
  }

  /** A lone pattern that compiles raises no pattern error. */
  lemma OnePatternCompiles(pattern: string, compiles: string -> bool)
    requires compiles(pattern)
    ensures !exists i :: 0 <= i < |[pattern]| && !compiles([pattern][i])
    ensures PatternFailure([pattern], compiles).None?
  {
    var ps := [pattern];
    assert forall i :: 0 <= i < |ps| ==> compiles(ps[i]);
  }

  function ShopCategoryProperties(): seq<Field>
  {
    [Field("name", Typed("string")),
     Field("subcategories", ArrayOf(SchemaRef("Category"))),
     Field("products", ArrayOf(SchemaRef("Product")))]
  }

  function ProductProperties(): seq<Field>
  {
    [Field("name", Typed("string")),
     Field("category", PointerObject(SchemaRef("Category")))]
  }

  /** `Category` lists subcategories and products, a product points back at its
      category, and `Unused` is referred to by nothing. */
  function ShopSchemas(): seq<Field>
  {
    [Field("Category", ObjectSchema(ShopCategoryProperties())),
     Field("Product", ObjectSchema(ProductProperties())),
     Field("Unused", ObjectSchema([Field("data", Typed("string"))]))]
  }

  const ShopPaths: seq<Field> := [Field("/categories", GetResponse(SchemaRef("Category")))]

  const ShopDoc: seq<Field> := SchemasDoc(ShopPaths, ShopSchemas())

  lemma HitRefsTwo(h0: Hit, h1: Hit)
    ensures HitRefs([h0, h1]) == {h0.ref, h1.ref}
  {
    assert h0 in [h0, h1] && h1 in [h0, h1];
  }

  /** The shop's `Category` mentions itself and `Product`. */
  lemma ShopCategoryMentions(gen: Generation)
    ensures Mentioned(gen, ObjectSchema(ShopCategoryProperties())) == {Ref(Schemas, "Category"), Ref(Schemas, "Product")}
  {
    var c, p := Ref(Schemas, "Category"), Ref(Schemas, "Product");
    var props := ShopCategoryProperties();
    SchemaRefParses(gen, "Category");
    SchemaRefParses(gen, "Product");
    PlainField(gen, "name", Typed("string"));
    TypedHits(gen, "string");
    PlainField(gen, "subcategories", ArrayOf(SchemaRef("Category")));
    ArrayOfHits(gen, SchemaRef("Category"), c);
    PlainField(gen, "products", ArrayOf(SchemaRef("Product")));
    ArrayOfHits(gen, SchemaRef("Product"), p);
    ThreeProperties(gen, props[0], props[1], props[2], c, p);
  }

  /** An object schema whose first property mentions nothing and whose next two
      mention one reference each. */
  lemma ThreeProperties(gen: Generation, f0: Field, f1: Field, f2: Field, a: Ref, b: Ref)
    requires FieldHits(gen, f0) == [] && FieldHits(gen, f1) == [PointerHit(a)] && FieldHits(gen, f2) == [PointerHit(b)]
    ensures Mentioned(gen, ObjectSchema([f0, f1, f2])) == {a, b}
  {
    ObjectSchemaHits(gen, [f0, f1, f2]);
    ThreeFieldHits(gen, f0, f1, f2);
    assert Hits(gen, ObjectSchema([f0, f1, f2])) == [PointerHit(a), PointerHit(b)];
    HitRefsTwo(PointerHit(a), PointerHit(b));
  }

  /** A product mentions its category only. */
  lemma ProductMentions(gen: Generation)
    ensures Mentioned(gen, ObjectSchema(ProductProperties())) == {Ref(Schemas, "Category")}
  {
    var c := Ref(Schemas, "Category");
    var props := ProductProperties();
    SchemaRefParses(gen, "Category");
    PlainField(gen, "name", Typed("string"));
    TypedHits(gen, "string");
    PlainField(gen, "category", PointerObject(SchemaRef("Category")));
    PointerHits(gen, SchemaRef("Category"), c);
    ObjectSchemaHits(gen, props);
    TwoFieldHits(gen, props[0], props[1]);
    assert Hits(gen, ObjectSchema(props)) == [PointerHit(c)];
    HitRefsOne(PointerHit(c));
  }

  /** `Category` expands to itself and `Product`; `Product` back to `Category`. */
  lemma ShopExpansions(gen: Generation)
    ensures Expansion(gen, ShopDoc, Ref(Schemas, "Category")) == {Ref(Schemas, "Category"), Ref(Schemas, "Product")}
    ensures Expansion(gen, ShopDoc, Ref(Schemas, "Product")) == {Ref(Schemas, "Category")}
  {
    var ss := ShopSchemas();
    ShopCategoryMentions(gen);
    ProductMentions(gen);
    GetThree(ss[0], ss[1], ss[2], "Category");
    GetThree(ss[0], ss[1], ss[2], "Product");
    SchemaExpansion(gen, ShopPaths, ss, "Category", ObjectSchema(ShopCategoryProperties()).fields);
    SchemaExpansion(gen, ShopPaths, ss, "Product", ObjectSchema(ProductProperties()).fields);
  }

  /** A reference that expands to itself and `b`, where `b` leads back, reaches
      exactly the two. */
  lemma TwoCycle(gen: Generation, doc: seq<Field>, a: Ref, b: Ref)
    requires Expansion(gen, doc, a) == {a, b} && Expansion(gen, doc, b) == {a}
    ensures forall r :: Reachable(gen, doc, {a}, r) <==> r in {a, b}
  {
    ReachableThrough(gen, doc, {a}, a, b);
    ExactlyReachable(gen, doc, {a}, {a, b});
  }

  /** From the `/categories` path `Category` and `Product` are reachable, and
      nothing else. */
  lemma ShopCloses(gen: Generation)
    ensures Seeds(gen, ShopDoc, ShopPaths) == {Ref(Schemas, "Category")}
    ensures forall r :: Reachable(gen, ShopDoc, {Ref(Schemas, "Category")}, r) <==>
      r in {Ref(Schemas, "Category"), Ref(Schemas, "Product")}
  {
    var c := Ref(Schemas, "Category");
    SchemaRefParses(gen, "Category");
    GetResponseRefs(gen, "/categories", SchemaRef("Category"), c);
    SchemasDocSeeds(gen, ShopPaths, ShopSchemas(), ShopPaths);
    assert Elems([c]) == {c};
    ShopExpansions(gen);
    TwoCycle(gen, ShopDoc, c, Ref(Schemas, "Product"));
  }

  /** Without `definitions`, only the `schemas` container is a source of schema
      entries, in both generations (a document that names no version is rebuilt
      by Legacy only). */
  lemma SchemasDocSources(gen: Generation, paths: seq<Field>, schemas: seq<Field>)
    ensures FlatSource(gen, SchemasDoc(paths, schemas), Schemas) == []
    ensures PathEntries(SchemasDoc(paths, schemas)) == paths
    ensures gen == Legacy ==> ComponentSource(gen, SchemasDoc(paths, schemas), Schemas) == schemas
  {
    var doc := SchemasDoc(paths, schemas);
    var container := [Field("schemas", Obj(schemas))];
    SchemasDocShape(paths, schemas);
    if gen == Legacy {
      GetFirst(container, "schemas");
      assert KindApplies(gen, doc, Schemas);
    }
  }

  /** A three-entry source whose first two names pass splits off the third. */
  lemma LastDropped(f0: Field, f1: Field, f2: Field, keep: string -> bool)
    requires keep(f0.key) && keep(f1.key) && !keep(f2.key)
    ensures Partition([f0, f1, f2], keep) == Split([f0, f1], [f2.key])
  {
    var fs := [f0, f1, f2];
    assert fs[1..] == [f1, f2] && fs[1..][1..] == [f2] && fs[1..][1..][1..] == [];
    assert Partition([f2], keep) == Split([], [f2.key]);
  }

  /** `^/categories` keeps `/categories`. */
  lemma CategoriesPattern()
    ensures AnchoredPrefix("^/categories", "/categories")
  {
    assert "^/categories"[1..] == "/categories";
  }

  /** Legacy `treeShakeOpenAPI(spec, ['^/categories'])` on the shop fixture keeps
      `Category` and `Product` and reports `Unused` alone. */
  lemma ShopReport()
    ensures var s := Shake(Legacy, ShopDoc, ["^/categories"], AnchoredPrefix);
      var used := ReachableFrom(Legacy, ShopDoc, {Ref(Schemas, "Category")});
      && s == Project(Legacy, ShopDoc, ShopPaths, [], used)
      && Removed(s.summary, Schemas) == ["Unused"]
      && KeptEntries(Legacy, ShopDoc, Schemas, used) == ShopSchemas()[..2]
  {
    var ss := ShopSchemas();
    var used := ReachableFrom(Legacy, ShopDoc, {Ref(Schemas, "Category")});
    CategoriesPattern();
    SchemasDocSources(Legacy, ShopPaths, ss);
    OnePathKept(ShopPaths[0], "^/categories", AnchoredPrefix);
    ShopCloses(Legacy);
    ShakeSplit(Legacy, ShopDoc, ["^/categories"], AnchoredPrefix, ShopPaths, []);
    ProjectSummary(Legacy, ShopDoc, ShopPaths, [], used, Schemas);
    assert Partition([], UsedNames(used, Schemas)) == Split([], []);
    ShopKeeps(used);
  }

  /** The used-names test on the shop's schemas passes `Category` and `Product`
      and fails `Unused`. */
  lemma ShopKeeps(used: Ref -> bool)
    requires forall r :: used(r) <==> r in {Ref(Schemas, "Category"), Ref(Schemas, "Product")}
    ensures Partition(ShopSchemas(), UsedNames(used, Schemas)) == Split(ShopSchemas()[..2], ["Unused"])
  {
    var ss := ShopSchemas();
    assert ss == [ss[0], ss[1], ss[2]] && ss[..2] == [ss[0], ss[1]];
    assert Ref(Schemas, "Unused") !in {Ref(Schemas, "Category"), Ref(Schemas, "Product")};
    LastDropped(ss[0], ss[1], ss[2], UsedNames(used, Schemas));
  }

  /** `treeShakeOpenAPI(spec, ['^/categories'])` on the shop fixture. */
  method ShopFixture(compiles: string -> bool) returns (result: Result<LegacyShaken, ShakeError>)
    requires compiles("^/categories")
    ensures result.Ok?
    ensures result.value.summary.removedSchemas == ["Unused"]
  {
    ShopRemovedSchemas();
    OnePatternCompiles("^/categories", compiles);
    result := LegacyTreeShake(ShopDoc, ["^/categories"], AnchoredPrefix, compiles);
  }

  /** The shop fixture has paths, and its shake reports `Unused` alone. */
  lemma ShopRemovedSchemas()
    ensures !PathsMissing(ShopDoc)
    ensures Shake(Legacy, ShopDoc, ["^/categories"], AnchoredPrefix).summary.removedSchemas == ["Unused"]
  {
    ShopReport();
    SchemasDocShape(ShopPaths, ShopSchemas());
  }

  // ---------------------------------------------------------------------------
  // Requirements at two depths

  /** `{name: []}`: a requirement naming one scheme. */
  function Requirement(name: string): Json
  {
    Obj([Field(name, Arr([]))])
  }

  /** `security: [{name: []}]`. */
  function SecurityField(name: string): Field
  {
    Field(SecurityKey, Arr([Requirement(name)]))
  }

  /** A response whose schema has a property carrying its own requirement. */
  function InnerResponse(): Json
  {
    var schema := ObjectSchema([Field("inner", Obj([SecurityField("inner")]))]);
    Obj([Field("content", Obj([Field("application/json", Obj([Field("schema", schema)]))]))])
  }

  /** An operation with requirement `outer`, whose response nests requirement
      `inner`. */
  function NestedRequirements(): Json
  {
    var get := Obj([SecurityField("outer"), Field("responses", Obj([Field("200", InnerResponse())]))]);
    Obj([Field("paths", Obj([Field("/test", Obj([Field("get", get)]))]))])
  }

  /** Current reads a requirement's one key. */
  lemma SecurityFieldHits(name: string)
    ensures FieldHits(Current, SecurityField(name)) == [RequirementHit(Ref(SecuritySchemes, name))]
  {
    var items := [Requirement(name)];
    assert items[1..] == [];
    assert Keys([Field(name, Arr([]))]) == [name];
    assert RequirementRefs(items) == [Ref(SecuritySchemes, name)];
  }

  /** A chain of single-field objects under plain keys passes its leaf's hits up. */
  lemma PlainChain(gen: Generation, k: string, v: Json)
    requires k != PointerKey && k != SecurityKey
    ensures Hits(gen, Obj([Field(k, v)])) == Hits(gen, v)
  {
    OneFieldHits(gen, Field(k, v));
    PlainField(gen, k, v);
  }

  lemma InnerResponseHits()
    ensures Hits(Current, InnerResponse()) == [RequirementHit(Ref(SecuritySchemes, "inner"))]
  {
    var inner := Obj([SecurityField("inner")]);
    var schema := ObjectSchema([Field("inner", inner)]);
    OneFieldHits(Current, SecurityField("inner"));
    SecurityFieldHits("inner");
    PlainChain(Current, "inner", inner);
    ObjectSchemaHits(Current, [Field("inner", inner)]);
    PlainChain(Current, "schema", schema);
    PlainChain(Current, "application/json", Obj([Field("schema", schema)]));
    PlainChain(Current, "content", Obj([Field("application/json", Obj([Field("schema", schema)]))]));
  }

  /** The walk reports the operation's requirement before the one nested in its
      response, each once. */
  lemma NestedRequirementOrder()
    ensures Scan(Current, NestedRequirements(), []) == [Ref(SecuritySchemes, "outer"), Ref(SecuritySchemes, "inner")]
  {
    var outer, inner := Ref(SecuritySchemes, "outer"), Ref(SecuritySchemes, "inner");
    var responses := Obj([Field("200", InnerResponse())]);
    var get := Obj([SecurityField("outer"), Field("responses", responses)]);
    InnerResponseHits();
    PlainChain(Current, "200", InnerResponse());
    SecurityFieldHits("outer");
    PlainField(Current, "responses", responses);
    TwoFieldHits(Current, SecurityField("outer"), Field("responses", responses));
    PlainChain(Current, "get", get);
    PlainChain(Current, "/test", Obj([Field("get", get)]));
    PlainChain(Current, "paths", Obj([Field("/test", Obj([Field("get", get)]))]));
    assert Hits(Current, NestedRequirements()) == [RequirementHit(outer), RequirementHit(inner)];
    ScanAbsorbs(Current, NestedRequirements(), []);
    TwoRequirements(outer, inner);
  }

  /** Two requirement hits are appended in order. */
  lemma TwoRequirements(a: Ref, b: Ref)
    ensures Absorb([], [RequirementHit(a), RequirementHit(b)]) == [a, b]
  {
    var hs := [RequirementHit(a), RequirementHit(b)];
    calc {
      Absorb([], hs);
      Absorb(AbsorbOne([], hs[0]), hs[1..]);
      { assert AbsorbOne([], hs[0]) == [] + [a] == [a]; }
      Absorb([a], hs[1..]);
      { assert hs[1..] == [RequirementHit(b)]; }
      Absorb([a], [RequirementHit(b)]);
      { assert [RequirementHit(b)][1..] == []; }
      Absorb(AbsorbOne([a], RequirementHit(b)), []);
      Absorb([a] + [b], []);
    }
  }
}
