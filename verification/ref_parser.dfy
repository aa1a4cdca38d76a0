/** `parseRef`: classifies a `$ref` pointer string as a typed component reference.
    Both generations match the same anchored regular expressions; the Current one
    also accepts `#/securityDefinitions/N` and the `securitySchemes` segment. */
module RefParser {
  import opened Wrappers
  import opened Refs

  const DefinitionsPrefix: string := "#/definitions/"
  const SecurityDefinitionsPrefix: string := "#/securityDefinitions/"
  const ComponentsPrefix: string := "#/components/"

  /** The characters a regular-expression `.` does not match (no `s` flag). */
  predicate IsLineTerminator(c: char)
  {
    c == '\n' || c == '\r' || c == '\U{2028}' || c == '\U{2029}'
  }

  /** `\w`: ASCII letters, digits and the underscore. */
  predicate IsWordChar(c: char)
  {
    ('a' <= c <= 'z') || ('A' <= c <= 'Z') || ('0' <= c <= '9') || c == '_'
  }

  /** What `(.+)$` captures: a non-empty remainder free of line terminators. */
  predicate IsCapture(s: string)
  {
    |s| > 0 && forall i :: 0 <= i < |s| ==> !IsLineTerminator(s[i])
  }

  /** Length of the greedy `\w+` run at the start of `s`. */
  function WordRun(s: string): (n: nat)
    ensures n <= |s|
    ensures forall i :: 0 <= i < n ==> IsWordChar(s[i])
    ensures n < |s| ==> !IsWordChar(s[n])
  {
    if |s| == 0 || !IsWordChar(s[0]) then 0 else 1 + WordRun(s[1..])
  }

  /** `parseRef(ref)`. Since `\w` excludes `/`, the kind segment of a components
      pointer is the word run up to the first slash; the name is everything after. */
  function ParseRef(gen: Generation, s: string): Option<Ref>
  {
    if DefinitionsPrefix <= s && IsCapture(s[|DefinitionsPrefix|..]) then
      Some(Ref(Schemas, s[|DefinitionsPrefix|..]))
    else if gen == Current && SecurityDefinitionsPrefix <= s
      && IsCapture(s[|SecurityDefinitionsPrefix|..]) then
      Some(Ref(SecuritySchemes, s[|SecurityDefinitionsPrefix|..]))
    else if ComponentsPrefix <= s then
      var rest := s[|ComponentsPrefix|..];
      var n := WordRun(rest);
      if 0 < n < |rest| && rest[n] == '/' && IsCapture(rest[n + 1..]) then
        match KindOfName(gen, rest[..n])
        case Some(k) => Some(Ref(k, rest[n + 1..]))
        case None => None
      else None
    else None
  }

  /** The OpenAPI 3 spelling of a reference. */
  function ComponentPointer(r: Ref): string
  {
    ComponentsPrefix + KindName(r.kind) + "/" + r.name
  }

  /** The pointer spellings a generation resolves to `r`. */
  predicate Spells(gen: Generation, s: string, r: Ref)
  {
    || (r.kind == Schemas && s == DefinitionsPrefix + r.name)
    || (gen == Current && r.kind == SecuritySchemes && s == SecurityDefinitionsPrefix + r.name)
    || (Recognized(gen, r.kind) && s == ComponentPointer(r))
  }

  lemma KindNameIsWord(k: Kind)
    ensures |KindName(k)| > 0
    ensures forall i :: 0 <= i < |KindName(k)| ==> IsWordChar(KindName(k)[i])
  {
  }

  /** The word run of `w + "/" + x` is `w` when `w` is a non-empty word. */
  lemma WordRunBeforeSlash(w: string, x: string)
    requires forall i :: 0 <= i < |w| ==> IsWordChar(w[i])
    ensures WordRun(w + "/" + x) == |w|
  {
    var s := w + "/" + x;
    assert s[|w|] == '/';
    assert forall i :: 0 <= i < |w| ==> s[i] == w[i];
  }

  /** Only the spellings of a reference parse to it. */
  lemma ParseRefSound(gen: Generation, s: string, r: Ref)
    requires ParseRef(gen, s) == Some(r)
    ensures IsCapture(r.name) && Spells(gen, s, r)
  {
    var dp, sp, cp := DefinitionsPrefix, SecurityDefinitionsPrefix, ComponentsPrefix;
    if dp <= s && IsCapture(s[|dp|..]) {
      assert s == dp + s[|dp|..];
    } else if gen == Current && sp <= s && IsCapture(s[|sp|..]) {
      assert s == sp + s[|sp|..];
    } else {
      var rest := s[|cp|..];
      ComponentsBranchSound(gen, s, rest, WordRun(rest), r);
    }
  }

  /** The components branch of `parseRef` only accepts the OpenAPI 3 spelling. */
  lemma ComponentsBranchSound(gen: Generation, s: string, rest: string, n: nat, r: Ref)
    requires ComponentsPrefix <= s && rest == s[|ComponentsPrefix|..]
    requires 0 < n < |rest| && rest[n] == '/'
    requires KindOfName(gen, rest[..n]) == Some(r.kind) && r.name == rest[n + 1..]
    ensures Recognized(gen, r.kind) && s == ComponentPointer(r)
  {
    assert s == ComponentsPrefix + rest;
    assert rest == rest[..n] + "/" + rest[n + 1..];
  }

  /** A `#/definitions/` pointer with a valid name parses to a schema. */
  lemma DefinitionsPointer(gen: Generation, name: string)
    requires IsCapture(name)
    ensures ParseRef(gen, DefinitionsPrefix + name) == Some(Ref(Schemas, name))
  {
    var s := DefinitionsPrefix + name;
    assert s[|DefinitionsPrefix|..] == name;
  }

  /** A `#/securityDefinitions/` pointer names a security scheme for Current and
      nothing for Legacy. */
  lemma SecurityDefinitionsPointer(gen: Generation, name: string)
    requires IsCapture(name)
    ensures ParseRef(gen, SecurityDefinitionsPrefix + name)
         == if gen == Current then Some(Ref(SecuritySchemes, name)) else None
  {
    var s := SecurityDefinitionsPrefix + name;
    assert s[2] == 's' != DefinitionsPrefix[2];
    assert s[2] != ComponentsPrefix[2];
    assert s[|SecurityDefinitionsPrefix|..] == name;
  }

  /** Parsing the OpenAPI 3 spelling of a reference gives the reference back when
      the generation recognises its kind, and `null` otherwise. */
  lemma ComponentPointerRoundTrip(gen: Generation, r: Ref)
    requires IsCapture(r.name)
    ensures ParseRef(gen, ComponentPointer(r)) == if Recognized(gen, r.kind) then Some(r) else None
  {
    var s, k := ComponentPointer(r), KindName(r.kind);
    KindNameIsWord(r.kind);
    ComponentsOnly(s);
    ComponentsSplit(s, k, r.name);
  }

  /** A `#/components/` pointer takes neither of the first two branches. */
  lemma ComponentsOnly(s: string)
    requires ComponentsPrefix <= s
    ensures !(DefinitionsPrefix <= s) && !(SecurityDefinitionsPrefix <= s)
  {
    assert s[2] == 'c' != DefinitionsPrefix[2] && s[2] != SecurityDefinitionsPrefix[2];
  }

  /** How the components branch takes `#/components/w/x` apart when `w` is a word. */
  lemma ComponentsSplit(s: string, w: string, x: string)
    requires s == ComponentsPrefix + w + "/" + x
    requires |w| > 0 && forall i :: 0 <= i < |w| ==> IsWordChar(w[i])
    ensures ComponentsPrefix <= s
    ensures var rest := s[|ComponentsPrefix|..];
      && WordRun(rest) == |w| < |rest| && rest[|w|] == '/'
      && rest[..|w|] == w && rest[|w| + 1..] == x
  {
    var rest := s[|ComponentsPrefix|..];
    assert s == ComponentsPrefix + (w + "/" + x);
    assert rest == w + "/" + x;
    WordRunBeforeSlash(w, x);
    assert rest[..|w|] == w;
  }

  /** `parseRef` returns `r` exactly for the spellings of `r` whose name is a valid
      capture; every other string yields `null`. */
  lemma ParseRefExact(gen: Generation, s: string, r: Ref)
    ensures ParseRef(gen, s) == Some(r) <==> IsCapture(r.name) && Spells(gen, s, r)
  {
    if ParseRef(gen, s) == Some(r) {
      ParseRefSound(gen, s, r);
    }
    if IsCapture(r.name) && Spells(gen, s, r) {
      if r.kind == Schemas && s == DefinitionsPrefix + r.name {
        DefinitionsPointer(gen, r.name);
      } else if gen == Current && r.kind == SecuritySchemes && s == SecurityDefinitionsPrefix + r.name {
        SecurityDefinitionsPointer(gen, r.name);
      } else {
        ComponentPointerRoundTrip(gen, r);
      }
    }
  }
}
