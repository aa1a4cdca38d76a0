# OpenAPI tree-shaker: reference reachability

A Dafny model of the core of an OpenAPI tree-shaker. The tool keeps the paths
that match a list of regular expressions. It finds every component those paths
reach through `$ref` pointers and security requirements, and rebuilds the
document with only those components. It also reports what it removed.

Two generations of the engine live side by side, and the model covers both:

- **Legacy** (`src/`) knows four component kinds and reads only `$ref`.
- **Current** (`project/src/`) adds security schemes. It parses
  `#/securityDefinitions/N` and `#/components/securitySchemes/N`, treats every
  key of a `security` requirement object as a scheme reference, and seeds the
  search with the document-level `security` array.

Modules, in dependency order:

| file | module | models |
|---|---|---|
| `wrappers.dfy` | `Wrappers` | `Option`, `Result` |
| `seqs.dfy` | `Seqs` | duplicate-freedom, subsequences |
| `json.dfy` | `Json` | parsed JSON as a tree with ordered fields, JavaScript truthiness, property read, `obj[k] = v`, `delete` |
| `refs.dfy` | `Refs` | the generations, the five component kinds, `{type, name}` references and their `kind:name` key |
| `ref_parser.dfy` | `RefParser` | `parseRef` |
| `scanner.dfy` | `Scanner` | `findReferencesInObject`: the accumulator walk, and a reference definition of the same walk as a list of hits |
| `resolver.dfy` | `Resolver` | `findAllReferences`: component lookup, the worklist, and reachability as a least fixed point |
| `partition.dfy` | `Partitioning` | splitting an object's entries into kept entries and removed names |
| `projector.dfy` | `Projector` | rebuilding the document and the removal report from a set of used references |
| `tree_shaker.dfy` | `TreeShaker` | `treeShakeOpenAPI` for both generations |
| `idempotence.dfy` | `Idempotence` | shaking a shaken document again |
| `scenarios.dfy` | `Scenarios` | the engine's own test fixtures, and the counterexample under Findings |
| `shake_scenarios.dfy` | `ShakeScenarios` | the engine's whole-document fixtures: reference cycles, the path filter, the removal report, nested requirements |

The central statements:

- `TreeShaker.TreeShake` and `TreeShaker.LegacyTreeShake` say that a pattern
  that does not compile is an error. Otherwise the rebuilt document and report
  are `Projector.Project`, applied to exactly the set of references reachable
  from the seeds. Reachability is `Resolver.Reachable`: membership in every set
  that holds the seeds and holds the expansion of each of its members.
- The worklist (`Resolver.Drain`) computes that set when its queue starts with
  every seed. That holds in `Resolver.FindAllReferencesFixed`, and in the Legacy
  `Resolver.FindAllReferences`, whose only seeds are the path references. The
  Current `Resolver.FindAllReferences` queues the path references alone, so its
  result can fall short of that set (see Findings). The worklist terminates
  because every reference it can meet is mentioned somewhere in the document.
- `Idempotence.ShakeIdempotent` says that shaking the output again with the same
  patterns changes nothing and reports nothing.
- Every other row below describes one piece of that pipeline.

## Model

| member | source | states |
|---|---|---|
| Refs.KindOfName | project/src/utils/references.ts:20-28 | a kind name is accepted exactly when it spells a kind the generation recognises (Legacy rejects `securitySchemes`) |
| Refs.ComponentKinds | project/src/lib/tree-shaker.ts:114-118 | the kinds rebuilt under `components` are exactly the recognised ones, each once |
| Refs.RefKeyInjective | project/src/utils/references.ts:53-56 | two references share the `${type}:${name}` key exactly when they are equal, so deduplication by key is deduplication by value |
| RefParser.ParseRefExact | project/src/utils/references.ts:4-32 | `parseRef` returns a reference exactly for the strings that spell it (`#/definitions/N`, Current `#/securityDefinitions/N`, `#/components/<kind>/N`) with a non-empty name free of line terminators; every other string gives `null` |
| RefParser.ParseRefSound | src/utils/references.ts:4-21 | whatever `parseRef` returns names a valid capture and is spelled by the input |
| RefParser.ComponentPointerRoundTrip | src/utils/references.ts:11-18 | parsing the `#/components/<kind>/<name>` spelling of a reference gives it back when the generation recognises the kind, and `null` otherwise |
| RefParser.SecurityDefinitionsPointer | project/src/utils/references.ts:11-14 | `#/securityDefinitions/N` names security scheme N in Current and nothing in Legacy |
| RefParser.DefinitionsPointer | src/utils/references.ts:6-9 | `#/definitions/N` names schema N in both generations |
| Scanner.ScanAbsorbs | project/src/utils/references.ts:34-72 | the accumulator walk equals absorbing the walk's hits in depth-first field order: a pointer is added when new, a requirement key is always appended |
| Scanner.AbsorbRequirements | project/src/utils/references.ts:59-67 | the keys of a `security` array are appended in order with no duplicate check |
| Scanner.ScanElems | project/src/utils/references.ts:34-72 | the walk adds exactly the references the fragment mentions, to whatever was there before |
| Scanner.LegacyScanNoDup | src/utils/references.ts:34-43 | the Legacy walk never creates a duplicate, since only pointers add and each is added once |
| Resolver.LookupInDeep | project/src/utils/references.ts:106-131 | whatever a lookup returns lies inside the document, so the expansion of any reference is drawn from a finite set fixed by the document |
| Resolver.EnqueueNew | project/src/utils/references.ts:137-146 | re-queueing appends exactly the unprocessed, not-yet-queued references, each once, keeping the old queue as a prefix |
| Resolver.Drain | project/src/utils/references.ts:99-149 | the loop keeps the seeds as a prefix and adds only reachable references. On exit every processed reference has its expansion in the result; with an empty queue nothing is added; Legacy adds no duplicate |
| Resolver.SeededShape | project/src/utils/references.ts:94-97 | the document-level `security` array appends exactly its requirement keys after the path references; Legacy and documents without the array add nothing |
| Resolver.FindAllReferences | project/src/utils/references.ts:74-152 | as written: the result holds only references reachable from the seeds. It is closed except at document-level requirements that the paths do not mention. With no path references it is the seed list itself. In Legacy it is exactly the references reachable from the paths, without duplicates |
| Resolver.FindAllReferencesFixed | project/src/utils/references.ts:74-152 | with every seed queued, the result is exactly the reachable set and is closed under expansion |
| Partitioning.PartitionSpec | project/src/lib/tree-shaker.ts:31-37 | the kept entries are exactly those whose name passes, and the removed names exactly those that fail. Both are in source order, and together they account for every entry |
| Partitioning.PartitionUnique | src/lib/tree-shaker.ts:20-28 | any split meeting that description is the one the pass produces |
| Projector.AddRemoved | project/src/lib/tree-shaker.ts:103-107 | pushing to `removed<Kind>` extends that kind's list and leaves every other list and the path report alone |
| Projector.DropEmpty | project/src/lib/tree-shaker.ts:120-129 | the containers left are exactly those with an own key, in their original order |
| Projector.ContainersGet | project/src/lib/tree-shaker.ts:90-111 | each processed kind gets a container holding its used entries. A kind that is not processed gets none |
| Projector.RecordRemovalsSpec | src/lib/tree-shaker.ts:56-79 | each processed kind's unused names are appended to its own list, in source order |
| Projector.ProjectTopLevel | project/src/lib/tree-shaker.ts:43 | `paths` becomes the kept paths, the path report is kept, and every key other than the rebuilt sections is carried over unchanged |
| Projector.ProjectFlat | project/src/lib/tree-shaker.ts:47-81 | a Swagger 2.0 section (`definitions`; Current also `securityDefinitions`, only under `swagger`) is replaced by its used entries. A section that is absent, falsy or not processed is untouched |
| Projector.ComponentsObjectShape | project/src/lib/tree-shaker.ts:85-135 | the rebuilt `components` names only recognised kinds. A kind's container survives exactly when the kind is processed and keeps an entry. The object is empty exactly when no processed kind keeps anything |
| Projector.ProjectComponents | src/lib/tree-shaker.ts:52-94 | `components` is replaced by the surviving containers, or deleted when none survives. A document the rebuild does not apply to keeps its `components` |
| Projector.ProjectSummary | project/src/lib/tree-shaker.ts:18-25 | each kind's report lists the unused names of its Swagger 2.0 section, then those of its `components` container |
| Projector.ProjectCongruent | project/src/lib/tree-shaker.ts:96-100 | the rebuild depends on the used set only through membership |
| TreeShaker.FirstInvalid | project/src/lib/tree-shaker.ts:15 | the patterns are compiled in order: the position found is that of the first pattern that does not compile, and none is found exactly when all compile |
| TreeShaker.TreeShake | project/src/lib/tree-shaker.ts:10-138 | it fails exactly when some pattern does not compile, naming the first such pattern. Otherwise the result is the rebuild by the references reachable from the kept paths and the document-level requirements, with `paths` (an empty object when it is falsy) split by the patterns |
| TreeShaker.TreeShakeAsWritten | project/src/lib/tree-shaker.ts:10-138 | the same pattern error. Otherwise the result is the rebuild by what `findAllReferences` returns as written: a list holding the seeds, within the reachable set, closed except at document-level requirements the paths do not mention |
| TreeShaker.LegacyTreeShake | src/lib/tree-shaker.ts:4-97 | a pattern that does not compile throws first. Then a missing or `null` `paths` throws. Otherwise the result is the rebuild by the references reachable from the kept paths, reported without a security-scheme list |
| TreeShaker.DefaultPatternsKeepAll | src/lib/tree-shaker.ts:6 | with the default `['.*']`, every path is kept and none is reported |
| TreeShaker.PathsSplit | src/lib/tree-shaker.ts:20-28 | a path is kept exactly when some pattern accepts it. The others are reported, both in source order |
| TreeShaker.FlatKeepsReachable | src/lib/tree-shaker.ts:40-49 | a rebuilt `definitions` entry survives exactly when its schema is reachable |
| TreeShaker.ComponentKeepsReachable | project/src/lib/tree-shaker.ts:95-101 | a container entry survives exactly when its reference is reachable and its kind is processed |
| TreeShaker.ReportsUnreachable | project/src/lib/tree-shaker.ts:53-62 | a name is reported for a kind exactly when it is an entry of a rebuilt section of that kind and its reference is unreachable |
| TreeShaker.LegacyReportsNoSchemes | src/lib/tree-shaker.ts:12-18 | Legacy never reports a security scheme, so the five-list report loses nothing |
| Idempotence.ShakeIdempotent | project/src/lib/tree-shaker.ts:27-138 | shaking the output again with the same patterns gives the same document back, with every removal list empty |
| Idempotence.ProjectStable | project/src/lib/tree-shaker.ts:43-135 | rebuilding a rebuilt document, with its kept paths and any used set that contains the first one, changes nothing and reports nothing |
| Idempotence.LookupKept | project/src/utils/references.ts:106-131 | a used reference of a recognised kind looks up the same component body in the rebuilt document as in the source |
| Idempotence.KeptStillReachable | project/src/utils/references.ts:74-152 | every reference reachable in the source is still reachable in the rebuilt document, from the same seeds |
| Scenarios.RejectedShapes | project/src/utils/__tests__/references.test.ts:27-31 | `#/invalid/path` and `not-a-ref` parse to `null` in both generations |
| Scenarios.RejectedSegments | src/utils/__tests__/references.test.ts:35-39 | `#/components/invalid/User` and `#/components/unknown/test` parse to `null` |
| Scenarios.UnknownSegmentFixture | project/src/utils/__tests__/references.test.ts:30 | `#/components/unknown/test` parses to `null` in both generations |
| Scenarios.AcceptedPointers | src/utils/__tests__/references.test.ts:6-27 | `#/definitions/User` and `#/components/parameters/limit` parse alike in both generations |
| Scenarios.SecurityDefinitionsFixture | project/src/utils/__tests__/references.test.ts:12-15 | `#/securityDefinitions/apiKey` names a security scheme in Current only |
| Scenarios.SecuritySchemesFixture | project/src/utils/__tests__/references.test.ts:22-25 | `#/components/securitySchemes/bearerAuth` names a security scheme in Current only |
| Scenarios.DiscoveryOrder | src/utils/__tests__/references.test.ts:43-66 | references are reported in depth-first order: User, limit, Success |
| Scenarios.RequirementOrder | project/src/utils/__tests__/references.test.ts:35-53 | Current reports requirement keys in array order (apiKey, oauth2); Legacy reports none |
| Scenarios.GlobalSchemeLeftUnexpanded | project/src/utils/references.ts:84-97 | on a concrete document the as-written seeds are `[a]` and are returned unchanged, yet `b` is reachable from `a`: the result is not closed |
| Scenarios.FindingReportsScheme | project/src/lib/tree-shaker.ts:95-107 | on that document the rebuild by the as-written result reports scheme `b` as removed, and the rebuild by the reachable set does not |
| ShakeScenarios.SelfReferenceFixture | src/utils/__tests__/references.test.ts:176-211 | `findAllReferences` on a `Category` schema that points at itself returns `Category` alone |
| ShakeScenarios.CycleFixture | src/utils/__tests__/references.test.ts:213-261 | `findAllReferences` on the cycle Organization, Department, Employee returns exactly those three |
| ShakeScenarios.UsersFilter | src/lib/__tests__/tree-shaker.test.ts:19-30 | the pattern `^/users` over `/users` and `/posts` keeps `/users` as the only path and reports `/posts` |
| ShakeScenarios.ShopReport | src/lib/__tests__/tree-shaker.test.ts:80-151 | from `/categories`, `Category` and `Product` are kept and `Unused` is the only removed schema |
| ShakeScenarios.ShopFixture | src/lib/tree-shaker.ts:52-79 | Legacy `treeShakeOpenAPI(spec, ['^/categories'])` succeeds and reports `removedSchemas` as `['Unused']` |
| ShakeScenarios.NestedRequirementOrder | project/src/utils/__tests__/references.test.ts:100-134 | the operation's requirement `outer` is reported before `inner`, which is nested in its response schema |

## Left out

- The identity-keyed `visited` set. On a tree every composite node is visited once anyway, so it cuts nothing. Aliased or cyclic object graphs cannot be written as JSON, so the circular-object tests are outside the model.
- Regular-expression semantics. `new RegExp(p).test(path)` is the parameter `matches`, and whether `new RegExp(p)` compiles is the parameter `compiles`. A pattern error carries the offending pattern, not the JavaScript message. `TreeShaker.DefaultPatternsKeepAll` assumes `.*` accepts every path name. `ShakeScenarios.AnchoredPrefix` models only `^` followed by plain characters.
- Entries of non-objects, and reads by name on them. `Object.entries` and `Object.keys` of an array or a string yield index keys. A read by name such as `spec2.definitions[ref.name]` (project/src/utils/references.ts:112-113) on an array or a string yields the element at that index, or the `length`. The model gives every non-object no entries, and its property read returns nothing on a non-object.
- Numbers. A number is an opaque leaf, and only its zero-ness is observed, for truthiness.
- Duplicate keys. A property read returns the first field with that key. A parsed JSON object holds one value per key.
- Type checks. The TypeScript type annotations and `as` casts have no run-time effect and are not modelled.
- Outside the engine: the command-line interface, file I/O, YAML/JSON parsing and the output validator are not part of this model.
- TreeShaker.TreeShake: its result is the rebuild by the reachable set. This deliberately differs from the source. As written, `findAllReferences` leaves the document-level requirements unexpanded (see Findings). The as-written pipeline is `TreeShaker.TreeShakeAsWritten`.
- Idempotence.ShakeIdempotent: proved for the shake by the reachable set. It is not stated for the as-written Current pipeline, because that pipeline's contract bounds the used list rather than fixing it, so the model has no single second-pass result to compare against.
- Scanner.AbsorbRequirements: requirement keys are appended without a duplicate check. The code adds a fresh object to a JavaScript `Set`, so a scheme named twice appears twice. The output report is unaffected, because rebuilding only tests membership.

## Findings

| source | as written | input that shows it | evidently intended | confidence | as-written member | corrected member |
|---|---|---|---|---|---|---|
| project/src/utils/references.ts:84-97 | the queue is filled from the path references before the document-level `security` keys are added, so those schemes are never looked up unless a later scan grows the set | `openapi` document with `paths: {}`, `security: [{a: []}]` and `components.securitySchemes` = `{a: {$ref: '#/components/securitySchemes/b'}, b: {type: 'apiKey'}}`: the result is `[a]`, so `b` is removed and `a`'s pointer dangles | every seed, including document-level requirements, is expanded, so the kept components are closed under reference | medium, not executed | Resolver.FindAllReferences, TreeShaker.TreeShakeAsWritten, Scenarios.GlobalSchemeLeftUnexpanded, Scenarios.FindingReportsScheme | Resolver.FindAllReferencesFixed, TreeShaker.TreeShake |

The model's Current `TreeShaker.TreeShake` uses the corrected resolver. The
Legacy generation has no document-level seeds, and its `FindAllReferences` is
proved exact.
