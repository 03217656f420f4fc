/**
  `clean_pattern` (src/render.rs:290-342): the rewrite that removes every
  `ref` and `mut` from a `syn::Pat` so that the pattern can be matched against
  an owned value of the output enum.

  The pattern tree has the sixteen variants of syn 1's `Pat`.  Payloads the
  rewrite never looks at (literals, paths, macros, ranges, verbatim tokens,
  types, identifiers and field names) are opaque numbers.
*/
module CleanPattern {
  import opened Wrappers

  /** An opaque piece of syntax the rewrite never inspects. */
  type Syntax = nat

  datatype Pat =
    | Box(inner: Pat)
    | Lit(lit: Syntax)
    | Macro(mac: Syntax)
    | Path(path: Syntax)
    | Range(range: Syntax)
    | Rest
    | Verbatim(tokens: Syntax)
    | Wild
      /** `ref mut name @ subpat` */
    | Ident(byRef: bool, mutable: bool, name: Syntax, subpat: Option<Pat>)
    | Or(cases: seq<Pat>)
    | Slice(elems: seq<Pat>)
    | Struct(path: Syntax, fields: seq<FieldPat>)
    | Tuple(elems: seq<Pat>)
    | TupleStruct(path: Syntax, elems: seq<Pat>)
      /** `&mut pat` */
    | Reference(mutable: bool, pat: Pat)
      /** `pat: ty` */
    | Type(pat: Pat, ty: Syntax)

  /** `member: pat` inside a struct pattern. */
  datatype FieldPat = FieldPat(member: Syntax, pat: Pat)

  // ---------------------------------------------------------------------------
  // Two independent descriptions of a cleaned pattern
  // ---------------------------------------------------------------------------

  /** No `ref` and no `mut` anywhere the rewrite reaches: every node except the
      inside of a `box` pattern. */
  predicate RefMutFree(p: Pat)
  {
    match p
    case Ident(byRef, mutable, _, subpat) =>
      !byRef && !mutable && (subpat.Some? ==> RefMutFree(subpat.value))
    case Or(cases) => forall i :: 0 <= i < |cases| ==> RefMutFree(cases[i])
    case Slice(elems) => forall i :: 0 <= i < |elems| ==> RefMutFree(elems[i])
    case Struct(_, fields) => forall i :: 0 <= i < |fields| ==> RefMutFree(fields[i].pat)
    case Tuple(elems) => forall i :: 0 <= i < |elems| ==> RefMutFree(elems[i])
    case TupleStruct(_, elems) => forall i :: 0 <= i < |elems| ==> RefMutFree(elems[i])
    case Reference(mutable, pat) => !mutable && RefMutFree(pat)
    case Type(pat, _) => RefMutFree(pat)
    case _ => true
  }

  /** `p` and `q` are the same pattern up to the `ref`/`mut` flags: same
      variants, same payloads, same number of children, and the inside of a
      `box` pattern identical. */
  predicate SameShape(p: Pat, q: Pat)
  {
    match p
    case Ident(_, _, name, subpat) =>
      q.Ident? && q.name == name && q.subpat.Some? == subpat.Some?
      && (subpat.Some? ==> SameShape(subpat.value, q.subpat.value))
    case Or(cases) =>
      q.Or? && |q.cases| == |cases| && forall i :: 0 <= i < |cases| ==> SameShape(cases[i], q.cases[i])
    case Slice(elems) =>
      q.Slice? && |q.elems| == |elems| && forall i :: 0 <= i < |elems| ==> SameShape(elems[i], q.elems[i])
    case Struct(path, fields) =>
      q.Struct? && q.path == path && |q.fields| == |fields|
      && forall i :: 0 <= i < |fields| ==>
           q.fields[i].member == fields[i].member && SameShape(fields[i].pat, q.fields[i].pat)
    case Tuple(elems) =>
      q.Tuple? && |q.elems| == |elems| && forall i :: 0 <= i < |elems| ==> SameShape(elems[i], q.elems[i])
    case TupleStruct(path, elems) =>
      q.TupleStruct? && q.path == path && |q.elems| == |elems|
      && forall i :: 0 <= i < |elems| ==> SameShape(elems[i], q.elems[i])
    case Reference(_, pat) => q.Reference? && SameShape(pat, q.pat)
    case Type(pat, ty) => q.Type? && q.ty == ty && SameShape(pat, q.pat)
    case _ => q == p
  }

  // ---------------------------------------------------------------------------
  // The rewrite
  // ---------------------------------------------------------------------------

  /** The pattern `clean_pattern` leaves behind: the only pattern of the same
      shape without `ref` or `mut` (see `CleanIsUnique`). */
  function Clean(p: Pat): (r: Pat)
    ensures SameShape(p, r) && RefMutFree(r)
  {
    match p
    case Ident(_, _, name, subpat) =>
      Ident(false, false, name, if subpat.Some? then Some(Clean(subpat.value)) else None)
    case Or(cases) => Or(CleanAll(cases))
    case Slice(elems) => Slice(CleanAll(elems))
    case Struct(path, fields) => Struct(path, CleanFields(fields))
    case Tuple(elems) => Tuple(CleanAll(elems))
    case TupleStruct(path, elems) => TupleStruct(path, CleanAll(elems))
    case Reference(_, pat) => Reference(false, Clean(pat))
    case Type(pat, ty) => Type(Clean(pat), ty)
    case _ => p
  }

  /** The elements of an `Or`, `Slice`, `Tuple` or `TupleStruct` pattern,
      each cleaned (the `iter_mut` loop of src/render.rs:308-331). */
  function CleanAll(ps: seq<Pat>): (rs: seq<Pat>)
    ensures |rs| == |ps|
    ensures forall i :: 0 <= i < |ps| ==> SameShape(ps[i], rs[i]) && RefMutFree(rs[i])
  {
    seq(|ps|, i requires 0 <= i < |ps| => Clean(ps[i]))
  }

  function CleanField(f: FieldPat): (r: FieldPat)
    ensures r.member == f.member && SameShape(f.pat, r.pat) && RefMutFree(r.pat)
  {
    FieldPat(f.member, Clean(f.pat))
  }

  /** The fields of a struct pattern, each with its pattern cleaned. */
  function CleanFields(fs: seq<FieldPat>): (rs: seq<FieldPat>)
    ensures |rs| == |fs|
    ensures forall i :: 0 <= i < |fs| ==>
      rs[i].member == fs[i].member && SameShape(fs[i].pat, rs[i].pat) && RefMutFree(rs[i].pat)
  {
    seq(|fs|, i requires 0 <= i < |fs| => CleanField(fs[i]))
  }

  /** Cleaning a cleaned pattern changes nothing. */
  lemma {:induction false} CleanIdempotent(p: Pat)
    ensures Clean(Clean(p)) == Clean(p)
  {
    CleanFixesRefMutFree(Clean(p));
  }

  /** A pattern is left as it is exactly when it has no `ref`/`mut` the
      rewrite reaches. */
  lemma {:induction false} CleanFixesIff(p: Pat)
    ensures Clean(p) == p <==> RefMutFree(p)
  {
    if RefMutFree(p) {
      CleanFixesRefMutFree(p);
    }
  }

  lemma {:induction false} CleanFixesRefMutFree(p: Pat)
    requires RefMutFree(p)
    ensures Clean(p) == p
    decreases p
  {
    match p
    case Ident(_, _, _, subpat) =>
      if subpat.Some? {
        CleanFixesRefMutFree(subpat.value);
      }
    case Or(cases) => CleanAllFixes(p, cases);
    case Slice(elems) => CleanAllFixes(p, elems);
    case Struct(_, fields) =>
      forall i | 0 <= i < |fields|
        ensures Clean(fields[i].pat) == fields[i].pat
      {
        assert fields[i] in fields;
        CleanFixesRefMutFree(fields[i].pat);
      }
      assert CleanFields(fields) == fields;
    case Tuple(elems) => CleanAllFixes(p, elems);
    case TupleStruct(_, elems) => CleanAllFixes(p, elems);
    case Reference(_, pat) => CleanFixesRefMutFree(pat);
    case Type(pat, _) => CleanFixesRefMutFree(pat);
    case _ =>
  }

  lemma {:induction false} CleanAllFixes(p: Pat, ps: seq<Pat>)
    requires forall i :: 0 <= i < |ps| ==> ps[i] < p && RefMutFree(ps[i])
    ensures CleanAll(ps) == ps
    decreases p, 0
  {
    forall i | 0 <= i < |ps|
      ensures Clean(ps[i]) == ps[i]
    {
      CleanFixesRefMutFree(ps[i]);
    }
  }

  /** The cleaned pattern is determined by its two properties: any pattern of
      the same shape without `ref`/`mut` is `Clean(p)`. */
  lemma {:induction false} CleanIsUnique(p: Pat, q: Pat)
    requires SameShape(p, q) && RefMutFree(q)
    ensures q == Clean(p)
    decreases p
  {
    match p
    case Ident(_, _, _, subpat) =>
      if subpat.Some? {
        CleanIsUnique(subpat.value, q.subpat.value);
      }
    case Or(cases) => CleanAllUnique(p, cases, q.cases);
    case Slice(elems) => CleanAllUnique(p, elems, q.elems);
    case Struct(_, fields) =>
      forall i | 0 <= i < |fields|
        ensures q.fields[i] == CleanField(fields[i])
      {
        assert fields[i] in fields;
        CleanIsUnique(fields[i].pat, q.fields[i].pat);
      }
      assert q.fields == CleanFields(fields);
    case Tuple(elems) => CleanAllUnique(p, elems, q.elems);
    case TupleStruct(_, elems) => CleanAllUnique(p, elems, q.elems);
    case Reference(_, pat) => CleanIsUnique(pat, q.pat);
    case Type(pat, _) => CleanIsUnique(pat, q.pat);
    case _ =>
  }

  lemma {:induction false} CleanAllUnique(p: Pat, ps: seq<Pat>, qs: seq<Pat>)
    requires |ps| == |qs|
    requires forall i :: 0 <= i < |ps| ==> ps[i] < p && SameShape(ps[i], qs[i]) && RefMutFree(qs[i])
    ensures qs == CleanAll(ps)
    decreases p, 0
  {
    forall i | 0 <= i < |ps|
      ensures qs[i] == Clean(ps[i])
    {
      CleanIsUnique(ps[i], qs[i]);
    }
  }

  /** `clean_pattern`, step by step as the source runs it: clears the flags of
      the node in hand and walks its children with `iter_mut`, rewriting each
      in turn.  The `&mut` update is modelled by returning the rewritten
      pattern. */
  method CleanPatternRewrite(p: Pat) returns (r: Pat)
    ensures r == Clean(p)
    decreases p
  {
    match p
    case Ident(_, _, name, subpat) =>
      var sub := subpat;
      if sub.Some? {
        var c := CleanPatternRewrite(sub.value);
        sub := Some(c);
      }
      r := Ident(false, false, name, sub);
    case Or(cases) =>
      var cs := CleanEach(p, cases);
      r := Or(cs);
    case Slice(elems) =>
      var es := CleanEach(p, elems);
      r := Slice(es);
    case Struct(path, fields) =>
      var fs := CleanEachField(p, fields);
      r := Struct(path, fs);
    case Tuple(elems) =>
      var es := CleanEach(p, elems);
      r := Tuple(es);
    case TupleStruct(path, elems) =>
      var es := CleanEach(p, elems);
      r := TupleStruct(path, es);
    case Reference(_, pat) =>
      var c := CleanPatternRewrite(pat);
      r := Reference(false, c);
    case Type(pat, ty) =>
      var c := CleanPatternRewrite(pat);
      r := Type(c, ty);
    case _ =>
      r := p;
  }

  /** The `for elem in elems.iter_mut() { clean_pattern(elem) }` loop. */
  method CleanEach(ghost p: Pat, ps: seq<Pat>) returns (rs: seq<Pat>)
    requires forall i :: 0 <= i < |ps| ==> ps[i] < p
    ensures rs == CleanAll(ps)
    decreases p, 0
  {
    rs := ps;
    for i := 0 to |rs|
      invariant |rs| == |ps|
      invariant forall j :: 0 <= j < i ==> rs[j] == Clean(ps[j])
      invariant forall j :: i <= j < |rs| ==> rs[j] == ps[j]
    {
      var c := CleanPatternRewrite(rs[i]);
      rs := rs[i := c];
    }
  }

  /** The `for field in fields.iter_mut() { clean_pattern(&mut field.pat) }`
      loop. */
  method CleanEachField(ghost p: Pat, fields: seq<FieldPat>) returns (fs: seq<FieldPat>)
    requires forall i :: 0 <= i < |fields| ==> fields[i].pat < p
    ensures fs == CleanFields(fields)
    decreases p, 0
  {
    fs := fields;
    for i := 0 to |fs|
      invariant |fs| == |fields|
      invariant forall j :: 0 <= j < i ==> fs[j] == CleanField(fields[j])
      invariant forall j :: i <= j < |fs| ==> fs[j] == fields[j]
    {
      var c := CleanPatternRewrite(fs[i].pat);
      fs := fs[i := fs[i].(pat := c)];
    }
  }

  /** What `clean_pattern_macro` was given: tokens that parse as a pattern, or
      tokens that do not. */
  datatype MacroInput = Pattern(pat: Pat) | NotAPattern(tokens: Syntax)

  /** `clean_pattern_macro` (src/render.rs:277-288): a pattern comes back
      cleaned; anything else comes back unchanged, for the compiler to report
      where the pattern is used. */
  function CleanPatternMacro(input: MacroInput): (output: MacroInput)
    ensures input.NotAPattern? ==> output == input
    ensures input.Pattern? ==>
      output.Pattern? && SameShape(input.pat, output.pat) && RefMutFree(output.pat)
  {
    match input
    case Pattern(pat) => Pattern(Clean(pat))
    case NotAPattern(_) => input
  }
}
