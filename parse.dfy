/**
  `Select::parse` (src/parse.rs:42-158): reads the body of a `select!`
  invocation, case by case, into a `Select` record.

  The input is a sequence of abstract tokens.  syn's sub-parsers for
  expressions, patterns, `.await` expressions and match arms are not
  modelled: each thing one of them would read is a single opaque token here
  (`ExprTok`, `PatTok`, `AwaitTok`, one `ArmTree` of a brace group).

  The parser is given twice: as recursive functions over the tokens not yet
  read (`ParseSelect` and its helpers), and as the imperative loop of the
  source (`Parse`), proved to compute the same outcome.  Both take a
  `Reading`: `AsWritten` follows src/parse.rs line by line; `Intended`
  corrects the defects listed under "Findings" in README.md, and all
  correctness lemmas are about it.
*/
module SelectParse {
  import opened Wrappers

  /** An opaque piece of syntax read by one of syn's sub-parsers. */
  type Syntax = nat

  /** An expression; the parser only asks whether it is a block. */
  datatype Expr = Expr(id: Syntax, isBlock: bool)

  /** A match arm `pat [if guard] => body`. */
  datatype Arm = Arm(pat: Syntax, guard: Option<Expr>, body: Expr)

  /** What the `Arm` sub-parser finds at one place in a brace group. */
  datatype ArmTree = ArmItem(arm: Arm) | BadArm

  datatype Token =
    | BiasedKw
    | Semi
    | DefaultKw
    | Eq
    | FatArrow
    | Comma
    | IfKw
    | PatTok(pat: Syntax)
    | AwaitTok(fut: Syntax)
    | ExprTok(expr: Expr)
    | Brace(trees: seq<ArmTree>)

  /** `AsWritten` is the code as it stands; `Intended` fixes the findings. */
  datatype Reading = AsWritten | Intended

  // ---------------------------------------------------------------------------
  // The record being built (src/parse.rs:10-28)
  // ---------------------------------------------------------------------------

  /** A future of some case, with its `if` condition and the range
      `lo..hi` of `arms` that handle its output. */
  datatype FutEntry = FutEntry(fut: Syntax, cond: Option<Expr>, lo: nat, hi: nat)

  /** A handler: pattern and body (the source keeps no guard). */
  datatype ArmEntry = ArmEntry(pat: Syntax, guard: Option<Expr>, body: Expr)

  datatype Select = Select(default: Option<Expr>, random: bool, futs: seq<FutEntry>, arms: seq<ArmEntry>)

  /** `fut_count` */
  function FutCount(s: Select): nat
  {
    |s.futs|
  }

  /** `case_count`: one more than the number of futures exactly when there is
      a default case. */
  function CaseCount(s: Select): (r: nat)
    ensures r == FutCount(s) + 1 <==> s.default.Some?
    ensures r == FutCount(s) <==> s.default.None?
  {
    if s.default.Some? then |s.futs| + 1 else |s.futs|
  }

  // ---------------------------------------------------------------------------
  // Parsing results
  // ---------------------------------------------------------------------------

  /** `MultipleDefaults` and `SyntaxError` are `Err` results of `parse`; the
      other three are panics. */
  datatype Failure = MultipleDefaults | SyntaxError | PanicUnreachable | PanicBothForms | PanicInvalidSyntax

  /** A sub-parser's result: a value and the tokens left, or a failure. */
  datatype Res<T> = Ok(value: T, rest: seq<Token>) | Fail(failure: Failure)

  datatype Outcome = Parsed(select: Select) | Failed(failure: Failure)

  /** A sub-parser read at least one token. */
  predicate Advances<T>(r: Res<T>, input: seq<Token>)
  {
    r.Ok? ==> |r.rest| < |input|
  }

  /** A sub-parser did not grow its input: it read some tokens, possibly none. */
  predicate Shrinks<T>(r: Res<T>, input: seq<Token>)
  {
    r.Ok? ==> |r.rest| <= |input|
  }

  // ---------------------------------------------------------------------------
  // Single-token sub-parsers
  // ---------------------------------------------------------------------------

  predicate Peek(input: seq<Token>, t: Token)
  {
    input != [] && input[0] == t
  }

  function ParseExpr(input: seq<Token>): (r: Res<Expr>)
    ensures Advances(r, input)
  {
    if input != [] && input[0].ExprTok? then Ok(input[0].expr, input[1..]) else Fail(SyntaxError)
  }

  function ParseAwait(input: seq<Token>): (r: Res<Syntax>)
    ensures Advances(r, input)
  {
    if input != [] && input[0].AwaitTok? then Ok(input[0].fut, input[1..]) else Fail(SyntaxError)
  }

  function ParsePat(input: seq<Token>): (r: Res<Syntax>)
    ensures Advances(r, input)
  {
    if input != [] && input[0].PatTok? then Ok(input[0].pat, input[1..]) else Fail(SyntaxError)
  }

  // ---------------------------------------------------------------------------
  // The case parser (src/parse.rs:55-154)
  // ---------------------------------------------------------------------------

  /** A future of a case, with its optional `if` condition. */
  datatype Branch = Branch(fut: Syntax, cond: Option<Expr>)

  /** `<fut>.await [if <cond>]` (src/parse.rs:75-81 and 85-91) */
  function ParseBranch(input: seq<Token>): (r: Res<Branch>)
    ensures Advances(r, input)
  {
    match ParseAwait(input)
    case Fail(f) => Fail(f)
    case Ok(fut, r1) =>
      if Peek(r1, IfKw) then
        match ParseExpr(r1[1..])
        case Fail(f) => Fail(f)
        case Ok(cond, r2) => Ok(Branch(fut, Some(cond)), r2)
      else
        Ok(Branch(fut, None), r1)
  }

  /** `while input.peek(Token![,]) { ... futs.push(...) }` */
  function ParseMoreBranches(input: seq<Token>, futs: seq<Branch>): (r: Res<seq<Branch>>)
    ensures Shrinks(r, input)
    ensures r.Ok? ==> |r.value| >= |futs| && r.value[..|futs|] == futs
    decreases |input|
  {
    if Peek(input, Comma) then
      match ParseBranch(input[1..])
      case Fail(f) => Fail(f)
      case Ok(b, r1) => ParseMoreBranches(r1, futs + [b])
    else
      Ok(futs, input)
  }

  /** The contents of a brace group: one arm, then arms until the group is
      empty (src/parse.rs:134-138). */
  function ParseArms(trees: seq<ArmTree>): (r: Option<seq<Arm>>)
    ensures r.Some? <==> trees != [] && forall k :: 0 <= k < |trees| ==> trees[k].ArmItem?
    ensures r.Some? ==> |r.value| == |trees| && forall k :: 0 <= k < |trees| ==> r.value[k] == trees[k].arm
  {
    if trees == [] || trees[0].BadArm? then None else ParseMoreArms(trees[1..], [trees[0].arm])
  }

  function ParseMoreArms(trees: seq<ArmTree>, arms: seq<Arm>): (r: Option<seq<Arm>>)
    ensures r.Some? <==> forall k :: 0 <= k < |trees| ==> trees[k].ArmItem?
    ensures r.Some? ==>
      |r.value| == |arms| + |trees| && r.value[..|arms|] == arms
      && forall k :: 0 <= k < |trees| ==> r.value[|arms| + k] == trees[k].arm
  {
    if trees == [] then Some(arms)
    else if trees[0].BadArm? then None
    else
      ParseMoreArms(trees[1..], arms + [trees[0].arm])
  }

  /** `Partial`: what was read before the `=>` or the brace group. */
  datatype Partial = DefaultHead(expr: Option<Expr>) | NormalHead(futs: seq<Branch>, pat: Option<Syntax>)

  /** `<pat> =`, when the second token is `=` (src/parse.rs:66-74). */
  function ParsePatPrefix(input: seq<Token>): (r: Res<Option<Syntax>>)
    ensures Shrinks(r, input)
    ensures r.Ok? ==> (r.value.Some? <==> |input| >= 2 && input[1] == Eq)
    ensures r.Ok? && r.value.None? ==> r.rest == input
    ensures r.Fail? ==> |input| >= 2 && input[1] == Eq
  {
    if |input| >= 2 && input[1] == Eq then
      match ParsePat(input)
      case Fail(f) => Fail(f)
      case Ok(pat, r1) =>
        if Peek(r1, Eq) then Ok(Some(pat), r1[1..]) else Fail(SyntaxError)
    else
      Ok(None, input)
  }

  /** The part of a case before `=>` or the brace group (src/parse.rs:56-95).
      As written, a `default` case reads `=> <expr>` here already. */
  function ParseHead(input: seq<Token>, select: Select, reading: Reading): (r: Res<Partial>)
    ensures Advances(r, input)
    ensures r.Ok? && r.value.NormalHead? ==> |r.value.futs| >= 1
    ensures r.Ok? && r.value.DefaultHead? ==> select.default.None?
  {
    if Peek(input, DefaultKw) then
      if select.default.Some? then Fail(MultipleDefaults)
      else if reading == AsWritten then
        if !Peek(input[1..], FatArrow) then Fail(SyntaxError)
        else
          match ParseExpr(input[2..])
          case Fail(f) => Fail(f)
          case Ok(e, r2) => Ok(DefaultHead(Some(e)), r2)
      else
        Ok(DefaultHead(None), input[1..])
    else
      match ParsePatPrefix(input)
      case Fail(f) => Fail(f)
      case Ok(pat, r1) =>
        match ParseBranch(r1)
        case Fail(f) => Fail(f)
        case Ok(b, r2) =>
          match ParseMoreBranches(r2, [b])
          case Fail(f) => Fail(f)
          case Ok(futs, r3) => Ok(NormalHead(futs, pat), r3)
  }

  /** The futures of a case, each handled by the arms `lo..hi`. */
  function Entries(futs: seq<Branch>, lo: nat, hi: nat): seq<FutEntry>
  {
    seq(|futs|, k requires 0 <= k < |futs| => FutEntry(futs[k].fut, futs[k].cond, lo, hi))
  }

  /** The handlers of a match block; as written, the guards are dropped. */
  function ArmEntries(arms: seq<Arm>, reading: Reading): seq<ArmEntry>
  {
    seq(|arms|, k requires 0 <= k < |arms| =>
      ArmEntry(arms[k].pat, if reading == AsWritten then None else arms[k].guard, arms[k].body))
  }

  /** A case changes the record only by appending to `arms` and `futs`, or
      by filling the default; `random` is never touched. */
  predicate Extends(s: Select, t: Select)
  {
    t.random == s.random && s.arms <= t.arms && s.futs <= t.futs
  }

  /** Appends a case's arms, and its futures each with the range of exactly
      those arms. */
  function AppendArms(select: Select, futs: seq<Branch>, arms: seq<ArmEntry>): (r: Select)
    ensures CaseAppended(select, r) && r.default == select.default
    ensures r.arms[|select.arms|..] == arms && |r.futs| == |select.futs| + |futs|
    ensures forall k :: 0 <= k < |futs| ==>
      r.futs[|select.futs| + k].fut == futs[k].fut && r.futs[|select.futs| + k].cond == futs[k].cond
  {
    var i := |select.arms|;
    select.(arms := select.arms + arms, futs := select.futs + Entries(futs, i, i + |arms|))
  }

  /** Entries appended after `xs` carry the range `lo..hi` and leave `xs` in front. */
  lemma EntriesAppended(xs: seq<FutEntry>, futs: seq<Branch>, lo: nat, hi: nat)
    ensures |xs + Entries(futs, lo, hi)| == |xs| + |futs| && (xs + Entries(futs, lo, hi))[..|xs|] == xs
    ensures forall k :: |xs| <= k < |xs| + |futs| ==> (xs + Entries(futs, lo, hi))[k].lo == lo && (xs + Entries(futs, lo, hi))[k].hi == hi
  {
    var es := Entries(futs, lo, hi);
    assert forall k :: |xs| <= k < |xs| + |futs| ==> (xs + es)[k] == es[k - |xs|];
  }

  /** The index of the arm pushed by a `pat = ... => expr` case onto
      `armsBefore` arms.  As written it is taken after the push
      (src/parse.rs:121-123). */
  function SingleArmStart(armsBefore: nat, reading: Reading): nat
  {
    if reading == AsWritten then armsBefore + 1 else armsBefore
  }

  /** src/parse.rs:121-124 */
  function PushSingleArm(select: Select, futs: seq<Branch>, arm: ArmEntry, reading: Reading): (r: Select)
    ensures r.arms == select.arms + [arm] && r.default == select.default && r.random == select.random
    ensures |r.futs| == |select.futs| + |futs| && r.futs[..|select.futs|] == select.futs
    ensures forall k :: |select.futs| <= k < |r.futs| ==>
      r.futs[k].hi == r.futs[k].lo + 1
      && r.futs[k].lo == (if reading == AsWritten then |r.arms| else |select.arms|)
    ensures reading == Intended ==> r == AppendArms(select, futs, [arm])
  {
    var i := SingleArmStart(|select.arms|, reading);
    EntriesAppended(select.futs, futs, i, i + 1);
    select.(arms := select.arms + [arm], futs := select.futs + Entries(futs, i, i + 1))
  }

  /** `=> <expr> [,]` and the record update it leads to (src/parse.rs:96-129);
      `input` starts after the `=>`. */
  function ParseArrow(partial: Partial, input: seq<Token>, select: Select, reading: Reading): (r: Res<Select>)
    ensures Shrinks(r, input)
    ensures r.Ok? ==> Extends(select, r.value)
  {
    match ParseExpr(input)
    case Fail(f) => Fail(f)
    case Ok(e, r1) =>
      // a comma is optional only after a block or at the end of the input
      if !(e.isBlock || r1 == [] || Peek(r1, Comma)) then Fail(SyntaxError)
      else
        var r2 := if Peek(r1, Comma) then r1[1..] else r1;
        match partial
        case NormalHead(futs, Some(pat)) =>
          Ok(PushSingleArm(select, futs, ArmEntry(pat, None, e), reading), r2)
        case DefaultHead(d) =>
          Ok(select.(default := if reading == AsWritten then d else Some(e)), r2)
        case NormalHead(_, None) =>
          Fail(PanicUnreachable)
  }

  /** A brace group of match arms and an optional comma
      (src/parse.rs:130-151); `input` starts after the group. */
  function ParseBrace(partial: Partial, trees: seq<ArmTree>, input: seq<Token>, select: Select, reading: Reading): (r: Res<Select>)
    ensures Shrinks(r, input)
    ensures r.Ok? ==> Extends(select, r.value) && r.value.default == select.default
    ensures r.Fail? && partial.NormalHead? && partial.pat.None? ==> r.failure == SyntaxError
    ensures r.Fail? && !(partial.NormalHead? && partial.pat.None?) ==> r.failure == PanicBothForms
  {
    if partial.NormalHead? && partial.pat.None? then
      var arms := ParseArms(trees);
      if arms.None? then Fail(SyntaxError)
      else
        var r1 := if Peek(input, Comma) then input[1..] else input;
        Ok(AppendArms(select, partial.futs, ArmEntries(arms.value, reading)), r1)
    else
      Fail(PanicBothForms)
  }

  /** The rest of a case: `=> <expr> [,]` or a brace group of arms
      (src/parse.rs:96-154). */
  function ParseTail(partial: Partial, input: seq<Token>, select: Select, reading: Reading): (r: Res<Select>)
    ensures Shrinks(r, input)
    ensures r.Ok? ==> Extends(select, r.value)
    ensures r.Ok? && partial.NormalHead? ==> r.value.default == select.default
  {
    if Peek(input, FatArrow) then ParseArrow(partial, input[1..], select, reading)
    else if input != [] && input[0].Brace? then ParseBrace(partial, input[0].trees, input[1..], select, reading)
    else Fail(PanicInvalidSyntax)
  }

  /** One iteration of the `while !input.is_empty()` loop. */
  function ParseCase(input: seq<Token>, select: Select, reading: Reading): (r: Res<Select>)
    ensures Advances(r, input)
    ensures r.Ok? ==> Extends(select, r.value)
    ensures r.Ok? && select.default.Some? ==> r.value.default == select.default
  {
    match ParseHead(input, select, reading)
    case Fail(f) => Fail(f)
    case Ok(partial, r1) => ParseTail(partial, r1, select, reading)
  }

  /** The loop over cases, from the tokens not yet read. */
  function ParseCases(input: seq<Token>, select: Select, reading: Reading): (r: Outcome)
    ensures r.Parsed? ==> Extends(select, r.select)
    ensures r.Parsed? && select.default.Some? ==> r.select.default == select.default
    decreases |input|
  {
    if input == [] then Parsed(select)
    else
      match ParseCase(input, select, reading)
      case Fail(f) => Failed(f)
      case Ok(next, rest) => ParseCases(rest, next, reading)
  }

  /** The record `parse` starts from; as written, `random` stays `true` even
      after `biased;`. */
  function Initial(biased: bool, reading: Reading): (r: Select)
    ensures r.default.None? && r.futs == [] && r.arms == [] && WellFormedSelect(r)
    ensures r.random <==> reading == AsWritten || !biased
  {
    Select(None, reading == AsWritten || !biased, [], [])
  }

  /** `Select::parse` */
  function ParseSelect(tokens: seq<Token>, reading: Reading): (r: Outcome)
    ensures r.Parsed? ==> (r.select.random <==> reading == AsWritten || !Peek(tokens, BiasedKw))
  {
    if Peek(tokens, BiasedKw) then
      if Peek(tokens[1..], Semi) then ParseCases(tokens[2..], Initial(true, reading), reading)
      else Failed(SyntaxError)
    else
      ParseCases(tokens, Initial(false, reading), reading)
  }

  // ---------------------------------------------------------------------------
  // The same parser as the loop of src/parse.rs:42-158
  // ---------------------------------------------------------------------------

  /** `<fut>.await [if <cond>]` (src/parse.rs:75-81, repeated at 85-91). */
  method ReadBranch(input: seq<Token>) returns (r: Res<Branch>)
    ensures r == ParseBranch(input)
  {
    if !(input != [] && input[0].AwaitTok?) {
      return Fail(SyntaxError);
    }
    var fut := input[0].fut;
    var rest := input[1..];
    var cond: Option<Expr> := None;
    if Peek(rest, IfKw) {
      rest := rest[1..];
      if !(rest != [] && rest[0].ExprTok?) {
        return Fail(SyntaxError);
      }
      cond := Some(rest[0].expr);
      rest := rest[1..];
    }
    return Ok(Branch(fut, cond), rest);
  }

  /** The head of a case: `default`, or `[<pat> =]` and the futures
      separated by commas (src/parse.rs:56-95). */
  method ReadHead(input: seq<Token>, select: Select, reading: Reading) returns (r: Res<Partial>)
    ensures r == ParseHead(input, select, reading)
  {
    if Peek(input, DefaultKw) {
      if select.default.Some? {
        return Fail(MultipleDefaults);
      }
      var rest := input[1..];
      if reading == Intended {
        return Ok(DefaultHead(None), rest);
      }
      if !Peek(rest, FatArrow) {
        return Fail(SyntaxError);
      }
      rest := rest[1..];
      if !(rest != [] && rest[0].ExprTok?) {
        return Fail(SyntaxError);
      }
      return Ok(DefaultHead(Some(rest[0].expr)), rest[1..]);
    }
    var rest := input;
    var pat: Option<Syntax> := None;
    if |rest| >= 2 && rest[1] == Eq {
      if !rest[0].PatTok? {
        return Fail(SyntaxError);
      }
      pat := Some(rest[0].pat);
      rest := rest[2..];
    }
    assert ParsePatPrefix(input) == Ok(pat, rest);
    var first := ReadBranch(rest);
    if first.Fail? {
      return Fail(first.failure);
    }
    var futs := [first.value];
    rest := first.rest;
    while Peek(rest, Comma)
      invariant ParseMoreBranches(rest, futs) == ParseMoreBranches(first.rest, [first.value])
      decreases |rest|
    {
      var next := ReadBranch(rest[1..]);
      if next.Fail? {
        return Fail(next.failure);
      }
      futs := futs + [next.value];
      rest := next.rest;
    }
    return Ok(NormalHead(futs, pat), rest);
  }

  /** The tail of a case and the update of the record
      (src/parse.rs:96-154). */
  method ReadTail(partial: Partial, input: seq<Token>, select: Select, reading: Reading) returns (r: Res<Select>)
    ensures r == ParseTail(partial, input, select, reading)
  {
    if Peek(input, FatArrow) {
      r := ReadArrow(partial, input[1..], select, reading);
    } else if input != [] && input[0].Brace? {
      r := ReadBrace(partial, input[0].trees, input[1..], select, reading);
    } else {
      return Fail(PanicInvalidSyntax);
    }
  }

  /** `=> <expr> [,]` read step by step, with the record update
      (src/parse.rs:96-129); `input` starts after the `=>`. */
  method ReadArrow(partial: Partial, input: seq<Token>, select: Select, reading: Reading) returns (r: Res<Select>)
    ensures r == ParseArrow(partial, input, select, reading)
  {
    if !(input != [] && input[0].ExprTok?) {
      return Fail(SyntaxError);
    }
    var e := input[0].expr;
    var rest := input[1..];
    if e.isBlock || rest == [] {
      if Peek(rest, Comma) {
        rest := rest[1..];
      }
    } else {
      if !Peek(rest, Comma) {
        return Fail(SyntaxError);
      }
      rest := rest[1..];
    }
    match partial
    case NormalHead(futs, Some(pat)) =>
      var arms := select.arms + [ArmEntry(pat, None, e)];
      var i := if reading == AsWritten then |arms| else |select.arms|;
      return Ok(select.(arms := arms, futs := select.futs + Entries(futs, i, i + 1)), rest);
    case DefaultHead(d) =>
      var default := if reading == AsWritten then d else Some(e);
      return Ok(select.(default := default), rest);
    case NormalHead(_, None) =>
      return Fail(PanicUnreachable);
  }

  /** A brace group read with the arm loop, then the optional comma and the
      record update (src/parse.rs:130-151); `input` starts after the group. */
  method ReadBrace(partial: Partial, trees: seq<ArmTree>, input: seq<Token>, select: Select, reading: Reading) returns (r: Res<Select>)
    ensures r == ParseBrace(partial, trees, input, select, reading)
  {
    if !(partial.NormalHead? && partial.pat.None?) {
      return Fail(PanicBothForms);
    }
    if trees == [] || trees[0].BadArm? {
      return Fail(SyntaxError);
    }
    var arms := [trees[0].arm];
    var k := 1;
    while k < |trees|
      invariant 1 <= k <= |trees|
      invariant ParseMoreArms(trees[k..], arms) == ParseMoreArms(trees[1..], [trees[0].arm])
    {
      assert trees[k..][1..] == trees[k + 1..];
      if trees[k].BadArm? {
        return Fail(SyntaxError);
      }
      arms := arms + [trees[k].arm];
      k := k + 1;
    }
    assert ParseArms(trees) == Some(arms);
    var rest := input;
    if Peek(rest, Comma) {
      rest := rest[1..];
    }
    var i := |select.arms|;
    var all := select.arms + ArmEntries(arms, reading);
    var j := |all|;
    return Ok(select.(arms := all, futs := select.futs + Entries(partial.futs, i, j)), rest);
  }

  /** `Select::parse`: the optional `biased ;`, then one case per iteration
      of the `while !input.is_empty()` loop, each folded into the record. */
  method Parse(tokens: seq<Token>, reading: Reading) returns (r: Outcome)
    ensures r == ParseSelect(tokens, reading)
  {
    var select := Select(None, true, [], []);
    var input := tokens;
    if Peek(input, BiasedKw) {
      if !Peek(input[1..], Semi) {
        return Failed(SyntaxError);
      }
      input := input[2..];
      if reading == Intended {
        select := select.(random := false);
      }
    }
    while input != []
      invariant ParseCases(input, select, reading) == ParseSelect(tokens, reading)
      decreases |input|
    {
      var head := ReadHead(input, select, reading);
      if head.Fail? {
        return Failed(head.failure);
      }
      var tail := ReadTail(head.value, head.rest, select, reading);
      if tail.Fail? {
        return Failed(tail.failure);
      }
      input, select := tail.rest, tail.value;
    }
    return Parsed(select);
  }

  // ---------------------------------------------------------------------------
  // Abstract syntax of a `select!` body, its printing, and its meaning
  // ---------------------------------------------------------------------------

  /** A case of `select!`:
      `default => <body> [,]`,
      `<pat> = <fut>.await [if <cond>], ... => <body> [,]`, or
      `<fut>.await [if <cond>], ... { <arms> } [,]`. */
  datatype Case =
    | DefaultCase(body: Expr, comma: bool)
    | PatCase(pat: Syntax, futs: seq<Branch>, body: Expr, comma: bool)
    | MatchCase(futs: seq<Branch>, arms: seq<Arm>, comma: bool)

  /** At least one future per case and one arm per match block. */
  predicate CaseShape(c: Case)
  {
    match c
    case DefaultCase(_, _) => true
    case PatCase(_, futs, _, _) => futs != []
    case MatchCase(futs, arms, _) => futs != [] && arms != []
  }

  /** After `=> <expr>` a comma may be left out only after a block or at the
      end of the input (src/parse.rs:104-114). */
  predicate CommaOk(c: Case, last: bool)
  {
    c.MatchCase? || c.comma || c.body.isBlock || last
  }

  predicate WellFormedCases(cases: seq<Case>)
  {
    forall k :: 0 <= k < |cases| ==> CaseShape(cases[k]) && CommaOk(cases[k], k == |cases| - 1)
  }

  function CommaTokens(comma: bool): seq<Token>
  {
    if comma then [Comma] else []
  }

  function BranchTokens(b: Branch): seq<Token>
  {
    [AwaitTok(b.fut)] + (if b.cond.Some? then [IfKw, ExprTok(b.cond.value)] else [])
  }

  function MoreBranchTokens(bs: seq<Branch>): seq<Token>
  {
    if bs == [] then [] else [Comma] + BranchTokens(bs[0]) + MoreBranchTokens(bs[1..])
  }

  function BranchListTokens(bs: seq<Branch>): seq<Token>
    requires bs != []
  {
    BranchTokens(bs[0]) + MoreBranchTokens(bs[1..])
  }

  function ArmTrees(arms: seq<Arm>): (trees: seq<ArmTree>)
    ensures |trees| == |arms| && forall k :: 0 <= k < |arms| ==> trees[k] == ArmItem(arms[k])
  {
    seq(|arms|, k requires 0 <= k < |arms| => ArmItem(arms[k]))
  }

  function CaseTokens(c: Case): seq<Token>
    requires CaseShape(c)
  {
    match c
    case DefaultCase(e, comma) => [DefaultKw, FatArrow, ExprTok(e)] + CommaTokens(comma)
    case PatCase(p, futs, e, comma) =>
      [PatTok(p), Eq] + BranchListTokens(futs) + [FatArrow, ExprTok(e)] + CommaTokens(comma)
    case MatchCase(futs, arms, comma) => BranchListTokens(futs) + [Brace(ArmTrees(arms))] + CommaTokens(comma)
  }

  function CasesTokens(cases: seq<Case>): seq<Token>
    requires forall k :: 0 <= k < |cases| ==> CaseShape(cases[k])
  {
    if cases == [] then [] else CaseTokens(cases[0]) + CasesTokens(cases[1..])
  }

  /** The token form of a `select!` body. */
  function Print(biased: bool, cases: seq<Case>): seq<Token>
    requires forall k :: 0 <= k < |cases| ==> CaseShape(cases[k])
  {
    (if biased then [BiasedKw, Semi] else []) + CasesTokens(cases)
  }

  /** What a case adds to the record: its arm or arms appended in source
      order, and its futures appended in source order, each with its `if`
      condition and the range of exactly those arms. */
  function AddCase(select: Select, c: Case): Select
  {
    match c
    case DefaultCase(e, _) => select.(default := Some(e))
    case PatCase(p, futs, e, _) => AppendArms(select, futs, [ArmEntry(p, None, e)])
    case MatchCase(futs, arms, _) => AppendArms(select, futs, ArmEntries(arms, Intended))
  }

  /** The record a case list denotes, or the error for a second default. */
  function BuildFrom(select: Select, cases: seq<Case>): Outcome
    decreases |cases|
  {
    if cases == [] then Parsed(select)
    else if cases[0].DefaultCase? && select.default.Some? then Failed(MultipleDefaults)
    else BuildFrom(AddCase(select, cases[0]), cases[1..])
  }

  function Build(biased: bool, cases: seq<Case>): Outcome
  {
    BuildFrom(Initial(biased, Intended), cases)
  }

  function DefaultCount(cases: seq<Case>): nat
  {
    if cases == [] then 0 else (if cases[0].DefaultCase? then 1 else 0) + DefaultCount(cases[1..])
  }

  /** Number of futures over the non-default cases. */
  function FutTotal(cases: seq<Case>): nat
  {
    if cases == [] then 0
    else (if cases[0].DefaultCase? then 0 else |cases[0].futs|) + FutTotal(cases[1..])
  }

  // ---------------------------------------------------------------------------
  // Round trip: parsing the printed form gives the record the cases denote
  // ---------------------------------------------------------------------------

  lemma ConcatAssoc(a: seq<Token>, b: seq<Token>, c: seq<Token>)
    ensures (a + b) + c == a + (b + c)
  {
  }

  lemma AppendFirst(futs: seq<Branch>, bs: seq<Branch>)
    requires bs != []
    ensures futs + [bs[0]] + bs[1..] == futs + bs
  {
    assert [bs[0]] + bs[1..] == bs;
  }

  lemma ParseBranchTokens(b: Branch, rest: seq<Token>)
    requires !Peek(rest, IfKw)
    ensures ParseBranch(BranchTokens(b) + rest) == Ok(b, rest)
  {
    var input := BranchTokens(b) + rest;
    assert input[1..] == (if b.cond.Some? then [IfKw, ExprTok(b.cond.value)] else []) + rest;
    if b.cond.Some? {
      assert input[1..][1..] == [ExprTok(b.cond.value)] + rest;
      assert input[1..][1..][1..] == rest;
    }
  }

  lemma {:induction false} ParseMoreBranchesTokens(bs: seq<Branch>, futs: seq<Branch>, rest: seq<Token>)
    requires !Peek(rest, Comma) && !Peek(rest, IfKw)
    ensures ParseMoreBranches(MoreBranchTokens(bs) + rest, futs) == Ok(futs + bs, rest)
  {
    if bs == [] {
      assert MoreBranchTokens(bs) + rest == rest;
      assert futs + bs == futs;
    } else {
      var input := MoreBranchTokens(bs) + rest;
      var tail := MoreBranchTokens(bs[1..]) + rest;
      assert Peek(input, Comma) && input[1..] == BranchTokens(bs[0]) + tail by {
        assert input == [Comma] + (BranchTokens(bs[0]) + tail);
      }
      assert ParseBranch(input[1..]) == Ok(bs[0], tail) by {
        assert !Peek(tail, IfKw) by {
          if bs[1..] == [] {
            assert tail == rest;
          }
        }
        ParseBranchTokens(bs[0], tail);
      }
      assert ParseMoreBranches(tail, futs + [bs[0]]) == Ok(futs + bs, rest) by {
        ParseMoreBranchesTokens(bs[1..], futs + [bs[0]], rest);
        AppendFirst(futs, bs);
      }
    }
  }

  lemma ParseBranchListTokens(bs: seq<Branch>, futs: seq<Branch>, rest: seq<Token>)
    requires bs != [] && !Peek(rest, Comma) && !Peek(rest, IfKw)
    ensures var r := ParseBranch(BranchListTokens(bs) + rest);
      r.Ok? && ParseMoreBranches(r.rest, [r.value]) == Ok(bs, rest)
  {
    var tail := MoreBranchTokens(bs[1..]) + rest;
    assert BranchListTokens(bs) + rest == BranchTokens(bs[0]) + tail;
    ParseBranchTokens(bs[0], tail);
    ParseMoreBranchesTokens(bs[1..], [bs[0]], rest);
    assert [bs[0]] + bs[1..] == bs;
  }

  /** The second token of a branch list is never `=`. */
  lemma BranchListSecond(bs: seq<Branch>, rest: seq<Token>)
    requires bs != [] && !Peek(rest, Eq)
    ensures var input := BranchListTokens(bs) + rest;
      input[0] == AwaitTok(bs[0].fut) && !(|input| >= 2 && input[1] == Eq)
  {
    var input := BranchListTokens(bs) + rest;
    if bs[0].cond.None? && bs[1..] == [] {
      assert input == [AwaitTok(bs[0].fut)] + rest;
    }
  }

  /** The case tokens start with `default`, a pattern or a future. */
  lemma CaseTokensStart(c: Case, rest: seq<Token>)
    requires CaseShape(c)
    ensures var input := CaseTokens(c) + rest;
      input != [] && (input[0] == DefaultKw || input[0].PatTok? || input[0].AwaitTok?)
  {
  }

  lemma ParseDefaultCaseTokens(c: Case, select: Select, rest: seq<Token>)
    requires c.DefaultCase? && CommaOk(c, rest == []) && !Peek(rest, Comma)
    ensures ParseCase(CaseTokens(c) + rest, select, Intended) ==
      if select.default.Some? then Fail(MultipleDefaults) else Ok(AddCase(select, c), rest)
  {
    var input := CaseTokens(c) + rest;
    var after := [FatArrow, ExprTok(c.body)] + CommaTokens(c.comma) + rest;
    assert input == [DefaultKw] + after;
    if select.default.None? {
      assert input[1..] == after;
      assert ParseHead(input, select, Intended) == Ok(DefaultHead(None), after);
      ParseArrowTail(DefaultHead(None), c.body, c.comma, rest, select, Intended);
      assert ParseCase(input, select, Intended) == ParseTail(DefaultHead(None), after, select, Intended);
    }
  }

  function PatPrefixTokens(pat: Option<Syntax>): seq<Token>
  {
    if pat.Some? then [PatTok(pat.value), Eq] else []
  }

  /** The optional `<pat> =` in front of a list whose second token is not `=`. */
  lemma PatPrefixRead(pat: Option<Syntax>, list: seq<Token>)
    requires !(|list| >= 2 && list[1] == Eq)
    ensures ParsePatPrefix(PatPrefixTokens(pat) + list) == Ok(pat, list)
  {
    var input := PatPrefixTokens(pat) + list;
    if pat.Some? {
      assert input == [PatTok(pat.value), Eq] + list;
      assert input[1..][1..] == list;
      assert ParsePat(input) == Ok(pat.value, input[1..]);
    } else {
      assert input == list;
    }
  }

  /** Reading `[<pat> =] <futures>` up to what follows them. */
  lemma ParseHeadTokens(pat: Option<Syntax>, futs: seq<Branch>, after: seq<Token>, select: Select, reading: Reading)
    requires futs != [] && !Peek(after, Comma) && !Peek(after, IfKw) && !Peek(after, Eq)
    ensures ParseHead(PatPrefixTokens(pat) + BranchListTokens(futs) + after, select, reading) == Ok(NormalHead(futs, pat), after)
  {
    var list := BranchListTokens(futs) + after;
    var input := PatPrefixTokens(pat) + list;
    assert PatPrefixTokens(pat) + BranchListTokens(futs) + after == input;
    BranchListSecond(futs, after);
    assert input[0] != DefaultKw by {
      if pat.Some? {
        assert input[0] == PatTok(pat.value);
      } else {
        assert input == list;
      }
    }
    PatPrefixRead(pat, list);
    ParseBranchListTokens(futs, [], after);
  }

  lemma ParseArrowTail(partial: Partial, e: Expr, comma: bool, rest: seq<Token>, select: Select, reading: Reading)
    requires comma || e.isBlock || rest == []
    requires !Peek(rest, Comma)
    ensures var r2 := ParseTail(partial, [FatArrow, ExprTok(e)] + CommaTokens(comma) + rest, select, reading);
      match partial
      case NormalHead(futs, Some(pat)) =>
        r2 == Ok(PushSingleArm(select, futs, ArmEntry(pat, None, e), reading), rest)
      case DefaultHead(d) =>
        r2 == Ok(select.(default := if reading == AsWritten then d else Some(e)), rest)
      case NormalHead(_, None) =>
        r2 == Fail(PanicUnreachable)
  {
    var input := [FatArrow, ExprTok(e)] + CommaTokens(comma) + rest;
    assert input[1..] == [ExprTok(e)] + CommaTokens(comma) + rest;
    ParseArrowTokens(partial, e, comma, rest, select, reading);
  }

  /** The part of `ParseArrowTail` after the `=>`: the expression, the comma rule and the record update. */
  lemma ParseArrowTokens(partial: Partial, e: Expr, comma: bool, rest: seq<Token>, select: Select, reading: Reading)
    requires comma || e.isBlock || rest == []
    requires !Peek(rest, Comma)
    ensures var r2 := ParseArrow(partial, [ExprTok(e)] + CommaTokens(comma) + rest, select, reading);
      match partial
      case NormalHead(futs, Some(pat)) =>
        r2 == Ok(PushSingleArm(select, futs, ArmEntry(pat, None, e), reading), rest)
      case DefaultHead(d) =>
        r2 == Ok(select.(default := if reading == AsWritten then d else Some(e)), rest)
      case NormalHead(_, None) =>
        r2 == Fail(PanicUnreachable)
  {
    var tail := CommaTokens(comma) + rest;
    assert ([ExprTok(e)] + tail)[1..] == tail;
    assert ParseExpr([ExprTok(e)] + tail) == Ok(e, tail);
    if comma {
      assert tail[1..] == rest;
    }
  }

  /** A printed `<pat> = <futures> => <expr> [,]` case is its head followed
      by the arrow part. */
  lemma PatCaseSplit(pat: Syntax, futs: seq<Branch>, body: Expr, comma: bool, rest: seq<Token>)
    requires futs != []
    ensures CaseTokens(PatCase(pat, futs, body, comma)) + rest
      == ([PatTok(pat), Eq] + BranchListTokens(futs)) + ([FatArrow, ExprTok(body)] + CommaTokens(comma) + rest)
  {
    var head := [PatTok(pat), Eq] + BranchListTokens(futs);
    var arrow, commas := [FatArrow, ExprTok(body)], CommaTokens(comma);
    ConcatAssoc(head + arrow, commas, rest);
    ConcatAssoc(head, arrow, commas + rest);
    ConcatAssoc(arrow, commas, rest);
  }

  lemma ParsePatCaseTokens(pat: Syntax, futs: seq<Branch>, body: Expr, comma: bool, select: Select, rest: seq<Token>)
    requires futs != [] && (comma || body.isBlock || rest == []) && !Peek(rest, Comma)
    ensures ParseCase(CaseTokens(PatCase(pat, futs, body, comma)) + rest, select, Intended)
      == Ok(AppendArms(select, futs, [ArmEntry(pat, None, body)]), rest)
  {
    var head := [PatTok(pat), Eq] + BranchListTokens(futs);
    var after := [FatArrow, ExprTok(body)] + CommaTokens(comma) + rest;
    PatCaseSplit(pat, futs, body, comma, rest);
    ParseHeadTokens(Some(pat), futs, after, select, Intended);
    assert ParseHead(head + after, select, Intended) == Ok(NormalHead(futs, Some(pat)), after);
    ParseArrowTail(NormalHead(futs, Some(pat)), body, comma, rest, select, Intended);
    var arm := ArmEntry(pat, None, body);
    assert PushSingleArm(select, futs, arm, Intended) == AppendArms(select, futs, [arm]);
  }

  lemma ParseBraceTail(futs: seq<Branch>, arms: seq<Arm>, comma: bool, rest: seq<Token>, select: Select, reading: Reading)
    requires arms != [] && !Peek(rest, Comma)
    ensures ParseTail(NormalHead(futs, None), [Brace(ArmTrees(arms))] + CommaTokens(comma) + rest, select, reading)
      == Ok(AppendArms(select, futs, ArmEntries(arms, reading)), rest)
  {
    var input := [Brace(ArmTrees(arms))] + CommaTokens(comma) + rest;
    assert input[1..] == CommaTokens(comma) + rest;
    assert ParseTail(NormalHead(futs, None), input, select, reading)
      == ParseBrace(NormalHead(futs, None), ArmTrees(arms), CommaTokens(comma) + rest, select, reading);
    var r := ParseArms(ArmTrees(arms));
    assert r.Some?;
    assert r.value == arms;
  }

  /** A printed `<futures> { <arms> } [,]` case is its head followed by the
      brace part. */
  lemma MatchCaseSplit(futs: seq<Branch>, arms: seq<Arm>, comma: bool, rest: seq<Token>)
    requires futs != [] && arms != []
    ensures CaseTokens(MatchCase(futs, arms, comma)) + rest
      == PatPrefixTokens(None) + BranchListTokens(futs) + ([Brace(ArmTrees(arms))] + CommaTokens(comma) + rest)
  {
    var list, brace, commas := BranchListTokens(futs), [Brace(ArmTrees(arms))], CommaTokens(comma);
    ConcatAssoc(list + brace, commas, rest);
    ConcatAssoc(list, brace, commas + rest);
    ConcatAssoc(brace, commas, rest);
    assert PatPrefixTokens(None) + list == list;
  }

  lemma ParseMatchCaseTokens(futs: seq<Branch>, arms: seq<Arm>, comma: bool, select: Select, rest: seq<Token>, reading: Reading)
    requires futs != [] && arms != [] && !Peek(rest, Comma)
    ensures ParseCase(CaseTokens(MatchCase(futs, arms, comma)) + rest, select, reading)
      == Ok(AppendArms(select, futs, ArmEntries(arms, reading)), rest)
  {
    var after := [Brace(ArmTrees(arms))] + CommaTokens(comma) + rest;
    MatchCaseSplit(futs, arms, comma, rest);
    ParseHeadTokens(None, futs, after, select, reading);
    ParseBraceTail(futs, arms, comma, rest, select, reading);
  }

  lemma ParseCaseTokens(c: Case, select: Select, rest: seq<Token>)
    requires CaseShape(c) && CommaOk(c, rest == [])
    requires rest == [] || rest[0] == DefaultKw || rest[0].PatTok? || rest[0].AwaitTok?
    ensures ParseCase(CaseTokens(c) + rest, select, Intended) ==
      if c.DefaultCase? && select.default.Some? then Fail(MultipleDefaults) else Ok(AddCase(select, c), rest)
  {
    match c
    case DefaultCase(_, _) => ParseDefaultCaseTokens(c, select, rest);
    case PatCase(pat, futs, body, comma) => ParsePatCaseTokens(pat, futs, body, comma, select, rest);
    case MatchCase(futs, arms, comma) => ParseMatchCaseTokens(futs, arms, comma, select, rest, Intended);
  }

  lemma {:induction false} ParseCasesTokens(cases: seq<Case>, select: Select)
    requires WellFormedCases(cases)
    ensures ParseCases(CasesTokens(cases), select, Intended) == BuildFrom(select, cases)
  {
    if cases != [] {
      var rest := CasesTokens(cases[1..]);
      if cases[1..] != [] {
        CaseTokensStart(cases[1..][0], CasesTokens(cases[1..][1..]));
      }
      ParseCaseTokens(cases[0], select, rest);
      CaseTokensStart(cases[0], rest);
      assert WellFormedCases(cases[1..]) by {
        forall k | 0 <= k < |cases[1..]|
          ensures CaseShape(cases[1..][k]) && CommaOk(cases[1..][k], k == |cases[1..]| - 1)
        {
          assert cases[1..][k] == cases[k + 1];
        }
      }
      if !(cases[0].DefaultCase? && select.default.Some?) {
        ParseCasesTokens(cases[1..], AddCase(select, cases[0]));
      }
    }
  }

  /** With the optional `biased ;` in front of a case list that does not
      itself start with `biased`, the parser runs the case loop on that list
      from the initial record. */
  lemma ParseSelectPrefix(biased: bool, body: seq<Token>, reading: Reading)
    requires !Peek(body, BiasedKw)
    ensures ParseSelect((if biased then [BiasedKw, Semi] else []) + body, reading)
      == ParseCases(body, Initial(biased, reading), reading)
  {
    var tokens := (if biased then [BiasedKw, Semi] else []) + body;
    if biased {
      assert tokens[1..][0] == Semi && tokens[2..] == body;
    } else {
      assert tokens == body;
    }
  }

  /** Parsing the token form of a well-formed case list gives exactly what
      the cases denote: the record built case by case, or the error for a
      second default. */
  lemma ParseSelectRoundTrip(biased: bool, cases: seq<Case>)
    requires WellFormedCases(cases)
    ensures ParseSelect(Print(biased, cases), Intended) == Build(biased, cases)
  {
    if cases != [] {
      CaseTokensStart(cases[0], CasesTokens(cases[1..]));
    }
    ParseSelectPrefix(biased, CasesTokens(cases), Intended);
    ParseCasesTokens(cases, Initial(biased, Intended));
  }

  // ---------------------------------------------------------------------------
  // The error paths, in either reading
  // ---------------------------------------------------------------------------

  /** `<pat> = <futures> { <arms> }` panics: a case may not have both forms
      (src/parse.rs:130-151). */
  lemma BothFormsPanics(pat: Syntax, futs: seq<Branch>, trees: seq<ArmTree>, rest: seq<Token>, select: Select, reading: Reading)
    requires futs != []
    ensures ParseCase([PatTok(pat), Eq] + BranchListTokens(futs) + [Brace(trees)] + rest, select, reading) == Fail(PanicBothForms)
  {
    var after := [Brace(trees)] + rest;
    ConcatAssoc([PatTok(pat), Eq] + BranchListTokens(futs), [Brace(trees)], rest);
    ParseHeadTokens(Some(pat), futs, after, select, reading);
    assert after[1..] == rest;
  }

  /** Futures followed by neither `=>` nor a brace group panic
      (src/parse.rs:152-154). */
  lemma NeitherFormPanics(pat: Option<Syntax>, futs: seq<Branch>, rest: seq<Token>, select: Select, reading: Reading)
    requires futs != []
    requires rest == [] || !(rest[0] in {FatArrow, Comma, IfKw, Eq} || rest[0].Brace?)
    ensures ParseCase(PatPrefixTokens(pat) + BranchListTokens(futs) + rest, select, reading) == Fail(PanicInvalidSyntax)
  {
    ParseHeadTokens(pat, futs, rest, select, reading);
  }

  /** `<futures> => <expr>` with no pattern reaches the `unreachable` panic
      (src/parse.rs:116-129). */
  lemma ArrowWithoutPatternPanics(futs: seq<Branch>, e: Expr, comma: bool, rest: seq<Token>, select: Select, reading: Reading)
    requires futs != [] && (comma || e.isBlock || rest == []) && !Peek(rest, Comma)
    ensures ParseCase(BranchListTokens(futs) + [FatArrow, ExprTok(e)] + CommaTokens(comma) + rest, select, reading)
      == Fail(PanicUnreachable)
  {
    var list, arrow, commas := BranchListTokens(futs), [FatArrow, ExprTok(e)], CommaTokens(comma);
    var after := arrow + commas + rest;
    assert list + arrow + commas + rest == PatPrefixTokens(None) + list + after by {
      ConcatAssoc(list + arrow, commas, rest);
      ConcatAssoc(list, arrow, commas + rest);
      ConcatAssoc(arrow, commas, rest);
      assert PatPrefixTokens(None) + list == list;
    }
    ParseHeadTokens(None, futs, after, select, reading);
    ParseArrowTail(NormalHead(futs, None), e, comma, rest, select, reading);
  }

  /** After `=> <expr>` that is not a block, with more input to come, the
      comma is required (src/parse.rs:104-114). */
  lemma MissingCommaFails(pat: Syntax, futs: seq<Branch>, e: Expr, rest: seq<Token>, select: Select, reading: Reading)
    requires futs != [] && !e.isBlock && rest != [] && rest[0] != Comma
    ensures ParseCase(CaseTokens(PatCase(pat, futs, e, false)) + rest, select, reading) == Fail(SyntaxError)
  {
    var head, arrow := [PatTok(pat), Eq] + BranchListTokens(futs), [FatArrow, ExprTok(e)];
    var after := arrow + rest;
    assert CaseTokens(PatCase(pat, futs, e, false)) + rest == head + after by {
      assert CaseTokens(PatCase(pat, futs, e, false)) == head + arrow;
      ConcatAssoc(head, arrow, rest);
    }
    ParseHeadTokens(Some(pat), futs, after, select, reading);
    assert after[1..][1..] == rest;
    assert ParseExpr(after[1..]) == Ok(e, rest);
  }

  // ---------------------------------------------------------------------------
  // The findings: the code as written against the corrected reading
  // ---------------------------------------------------------------------------

  /** `x = f.await => e,` alone, in either reading. */
  lemma SingleArmSelect(x: Syntax, f: Syntax, e: Expr, reading: Reading)
    ensures ParseSelect([PatTok(x), Eq, AwaitTok(f), FatArrow, ExprTok(e), Comma], reading)
      == Parsed(PushSingleArm(Initial(false, reading), [Branch(f, None)], ArmEntry(x, None, e), reading))
  {
    var tokens := [PatTok(x), Eq, AwaitTok(f), FatArrow, ExprTok(e), Comma];
    var s0 := Initial(false, reading);
    var futs := [Branch(f, None)];
    var after := [FatArrow, ExprTok(e)] + CommaTokens(true) + [];
    assert tokens == PatPrefixTokens(Some(x)) + BranchListTokens(futs) + after;
    ParseHeadTokens(Some(x), futs, after, s0, reading);
    ParseArrowTail(NormalHead(futs, Some(x)), e, true, [], s0, reading);
    var s1 := PushSingleArm(s0, futs, ArmEntry(x, None, e), reading);
    assert ParseCase(tokens, s0, reading) == Ok(s1, []);
    assert ParseCases(tokens, s0, reading) == ParseCases([], s1, reading);
    assert ParseSelect(tokens, reading) == ParseCases(tokens, s0, reading);
  }

  /** As written, `x = f.await => e,` gives its future the range `1..2` over
      a single arm: the index is taken after the push (src/parse.rs:121-123).
      Corrected, the range is `0..1`. */
  lemma SingleArmRangeOffByOne(x: Syntax, f: Syntax, e: Expr)
    ensures var tokens := [PatTok(x), Eq, AwaitTok(f), FatArrow, ExprTok(e), Comma];
      var w := ParseSelect(tokens, AsWritten);
      var c := ParseSelect(tokens, Intended);
      && w.Parsed? && |w.select.arms| == 1 && w.select.futs == [FutEntry(f, None, 1, 2)]
      && !RangesInBounds(w.select)
      && c.Parsed? && c.select.futs == [FutEntry(f, None, 0, 1)] && WellFormedSelect(c.select)
  {
    SingleArmSelect(x, f, e, AsWritten);
    SingleArmSelect(x, f, e, Intended);
    var w := PushSingleArm(Initial(false, AsWritten), [Branch(f, None)], ArmEntry(x, None, e), AsWritten);
    assert w.futs == Entries([Branch(f, None)], 1, 2) == [FutEntry(f, None, 1, 2)];
    assert !RangesInBounds(w) by {
      assert w.futs[0].hi > |w.arms|;
    }
    var c := PushSingleArm(Initial(false, Intended), [Branch(f, None)], ArmEntry(x, None, e), Intended);
    assert c.futs == Entries([Branch(f, None)], 0, 1) == [FutEntry(f, None, 0, 1)];
    ParsedIsWellFormed([PatTok(x), Eq, AwaitTok(f), FatArrow, ExprTok(e), Comma]);
  }

  /** As written, the `default` branch reads `=> <expr>` itself and the
      shared code then wants another `=>` (src/parse.rs:56-64, 96-129):
      `default => e,` panics, and `default => a => b` keeps `a` and drops `b`.
      Corrected, `default => e,` gives the default `e`. */
  lemma DefaultCaseArrowTwice(a: Expr, b: Expr)
    ensures ParseSelect([DefaultKw, FatArrow, ExprTok(a), Comma], AsWritten) == Failed(PanicInvalidSyntax)
    ensures ParseSelect([DefaultKw, FatArrow, ExprTok(a), FatArrow, ExprTok(b)], AsWritten) == Parsed(Select(Some(a), true, [], []))
    ensures ParseSelect([DefaultKw, FatArrow, ExprTok(a), Comma], Intended) == Parsed(Select(Some(a), true, [], []))
  {
    var s0 := Initial(false, AsWritten);
    var one := [DefaultKw, FatArrow, ExprTok(a), Comma];
    assert one[1..] == [FatArrow, ExprTok(a), Comma];
    assert one[1..][1..] == [ExprTok(a), Comma];
    assert ParseHead(one, s0, AsWritten) == Ok(DefaultHead(Some(a)), [Comma]);
    assert ParseCase(one, s0, AsWritten) == Fail(PanicInvalidSyntax);

    var two := [DefaultKw, FatArrow, ExprTok(a), FatArrow, ExprTok(b)];
    assert two[1..][1..] == [ExprTok(a), FatArrow, ExprTok(b)];
    assert ParseHead(two, s0, AsWritten) == Ok(DefaultHead(Some(a)), [FatArrow, ExprTok(b)]);
    assert [FatArrow, ExprTok(b)][1..] == [ExprTok(b)];
    assert ParseCase(two, s0, AsWritten) == Ok(Select(Some(a), true, [], []), []);
    assert ParseCases(two, s0, AsWritten) == ParseCases([], Select(Some(a), true, [], []), AsWritten);

    assert ParseHead(one, s0, Intended) == Ok(DefaultHead(None), one[1..]);
    ParseArrowTail(DefaultHead(None), a, true, [], s0, Intended);
    assert [FatArrow, ExprTok(a)] + CommaTokens(true) + [] == one[1..];
    assert ParseCase(one, s0, Intended) == Ok(Select(Some(a), true, [], []), []);
    assert ParseCases(one, s0, Intended) == ParseCases([], Select(Some(a), true, [], []), Intended);
  }

  /** An input that is one case, not starting with `biased`, parses to what
      that case makes of the initial record. */
  lemma OneCaseSelect(tokens: seq<Token>, s1: Select, reading: Reading)
    requires !Peek(tokens, BiasedKw) && ParseCase(tokens, Initial(false, reading), reading) == Ok(s1, [])
    ensures ParseSelect(tokens, reading) == Parsed(s1)
  {
    assert tokens != [];
    assert ParseCases(tokens, Initial(false, reading), reading) == ParseCases([], s1, reading);
  }

  /** `f.await { arm }` alone, in either reading. */
  lemma MatchArmSelect(f: Syntax, arm: Arm, reading: Reading)
    ensures ParseSelect([AwaitTok(f), Brace([ArmItem(arm)])], reading)
      == Parsed(Select(None, true, [FutEntry(f, None, 0, 1)],
                       [ArmEntry(arm.pat, if reading == AsWritten then None else arm.guard, arm.body)]))
  {
    MatchArmCase(f, arm, reading);
    OneCaseSelect([AwaitTok(f), Brace([ArmItem(arm)])],
      Select(None, true, [FutEntry(f, None, 0, 1)], [ArmEntry(arm.pat, if reading == AsWritten then None else arm.guard, arm.body)]),
      reading);
  }

  /** The one case of `f.await { arm }`: one future ranging over the one
      handler, whose guard only the corrected reading keeps. */
  lemma MatchArmCase(f: Syntax, arm: Arm, reading: Reading)
    ensures ParseCase([AwaitTok(f), Brace([ArmItem(arm)])], Initial(false, reading), reading)
      == Ok(Select(None, true, [FutEntry(f, None, 0, 1)],
                   [ArmEntry(arm.pat, if reading == AsWritten then None else arm.guard, arm.body)]), [])
  {
    var s0 := Initial(false, reading);
    assert ArmTrees([arm]) == [ArmItem(arm)];
    assert CaseTokens(MatchCase([Branch(f, None)], [arm], false)) + [] == [AwaitTok(f), Brace([ArmItem(arm)])];
    ParseMatchCaseTokens([Branch(f, None)], [arm], false, s0, [], reading);
    var entry := ArmEntry(arm.pat, if reading == AsWritten then None else arm.guard, arm.body);
    assert ArmEntries([arm], reading) == [entry];
    assert Entries([Branch(f, None)], 0, 1) == [FutEntry(f, None, 0, 1)];
  }

  /** As written, the arms of a match block lose their `if` guard
      (src/parse.rs:142); corrected, the guard is kept. */
  lemma MatchGuardDropped(f: Syntax, arm: Arm)
    requires arm.guard.Some?
    ensures var tokens := [AwaitTok(f), Brace([ArmItem(arm)])];
      && ParseSelect(tokens, AsWritten) == Parsed(Select(None, true, [FutEntry(f, None, 0, 1)], [ArmEntry(arm.pat, None, arm.body)]))
      && ParseSelect(tokens, Intended) == Parsed(Select(None, true, [FutEntry(f, None, 0, 1)], [ArmEntry(arm.pat, arm.guard, arm.body)]))
  {
    MatchArmSelect(f, arm, AsWritten);
    MatchArmSelect(f, arm, Intended);
  }

  /** As written, a leading `biased ;` is consumed but `random` stays true
      (src/parse.rs:43-53); corrected, `biased` turns it off. */
  lemma BiasedIgnored()
    ensures ParseSelect([BiasedKw, Semi], AsWritten) == Parsed(Select(None, true, [], []))
    ensures ParseSelect([BiasedKw, Semi], Intended) == Parsed(Select(None, false, [], []))
  {
  }

  // ---------------------------------------------------------------------------
  // What the cases denote
  // ---------------------------------------------------------------------------

  /** Building fails exactly when there are two defaults, counting one
      already in the record, and then with the multiple-defaults error. */
  lemma {:induction false} BuildFromFailsIff(select: Select, cases: seq<Case>)
    ensures BuildFrom(select, cases).Failed? <==> DefaultCount(cases) + (if select.default.Some? then 1 else 0) >= 2
    ensures BuildFrom(select, cases).Failed? ==> BuildFrom(select, cases).failure == MultipleDefaults
    decreases |cases|
  {
    if cases != [] && !(cases[0].DefaultCase? && select.default.Some?) {
      BuildFromFailsIff(AddCase(select, cases[0]), cases[1..]);
    }
  }

  /** Every future of every non-default case becomes one entry, and the
      record has a default exactly when some case is one. */
  lemma {:induction false} BuildFromCounts(select: Select, cases: seq<Case>)
    ensures var r := BuildFrom(select, cases);
      r.Parsed? ==>
        |r.select.futs| == |select.futs| + FutTotal(cases)
        && (r.select.default.Some? <==> select.default.Some? || DefaultCount(cases) > 0)
    decreases |cases|
  {
    if cases != [] && !(cases[0].DefaultCase? && select.default.Some?) {
      BuildFromCounts(AddCase(select, cases[0]), cases[1..]);
    }
  }

  /** A second `default` case is rejected with an error, and otherwise
      `case_count` is the number of futures plus one for a default. */
  lemma ParseSelectDefaults(biased: bool, cases: seq<Case>)
    requires WellFormedCases(cases)
    ensures var r := ParseSelect(Print(biased, cases), Intended);
      (r == Failed(MultipleDefaults) <==> DefaultCount(cases) >= 2)
      && (r.Parsed? <==> DefaultCount(cases) <= 1)
      && (r.Parsed? ==>
            FutCount(r.select) == FutTotal(cases)
            && CaseCount(r.select) == FutTotal(cases) + DefaultCount(cases))
  {
    ParseSelectRoundTrip(biased, cases);
    BuildFromFailsIff(Initial(biased, Intended), cases);
    BuildFromCounts(Initial(biased, Intended), cases);
  }

  // ---------------------------------------------------------------------------
  // The record's invariant, for every input
  // ---------------------------------------------------------------------------

  /** Every future's range is non-empty and lies within `arms`. */
  predicate RangesInBounds(s: Select)
  {
    forall k :: 0 <= k < |s.futs| ==> s.futs[k].lo < s.futs[k].hi <= |s.arms|
  }

  /** Arm `a` handles the output of some future. */
  predicate Covered(s: Select, a: nat)
  {
    exists k :: 0 <= k < |s.futs| && s.futs[k].lo <= a < s.futs[k].hi
  }

  /** Every arm handles the output of some future. */
  predicate ArmsCovered(s: Select)
  {
    forall a: nat :: a < |s.arms| ==> Covered(s, a)
  }

  predicate WellFormedSelect(s: Select)
  {
    RangesInBounds(s) && ArmsCovered(s)
  }

  lemma AppendKeepsWellFormed(s: Select, futs: seq<Branch>, arms: seq<ArmEntry>)
    requires WellFormedSelect(s) && futs != [] && arms != []
    ensures WellFormedSelect(AppendArms(s, futs, arms))
  {
    var t := AppendArms(s, futs, arms);
    forall a: nat | a < |t.arms|
      ensures Covered(t, a)
    {
      if a < |s.arms| {
        assert Covered(s, a);
        var k :| 0 <= k < |s.futs| && s.futs[k].lo <= a < s.futs[k].hi;
        assert t.futs[k] == s.futs[k];
      } else {
        assert t.futs[|s.futs|].lo <= a < t.futs[|s.futs|].hi;
      }
    }
  }

  lemma ParseArrowKeepsWellFormed(partial: Partial, input: seq<Token>, select: Select)
    requires WellFormedSelect(select) && (partial.NormalHead? ==> partial.futs != [])
    ensures var r := ParseArrow(partial, input, select, Intended);
      r.Ok? ==> WellFormedSelect(r.value) && r.value.random == select.random
  {
    match ParseExpr(input)
    case Fail(_) =>
    case Ok(e, _) =>
      if partial.NormalHead? && partial.pat.Some? {
        var arm := ArmEntry(partial.pat.value, None, e);
        assert PushSingleArm(select, partial.futs, arm, Intended) == AppendArms(select, partial.futs, [arm]);
        AppendKeepsWellFormed(select, partial.futs, [arm]);
      } else if partial.DefaultHead? {
        var t := select.(default := Some(e));
        assert forall a: nat :: a < |t.arms| ==> Covered(select, a) ==> Covered(t, a);
      }
  }

  lemma ParseBraceKeepsWellFormed(partial: Partial, trees: seq<ArmTree>, input: seq<Token>, select: Select)
    requires WellFormedSelect(select) && (partial.NormalHead? ==> partial.futs != [])
    ensures var r := ParseBrace(partial, trees, input, select, Intended);
      r.Ok? ==> WellFormedSelect(r.value) && r.value.random == select.random
  {
    var arms := ParseArms(trees);
    if partial.NormalHead? && arms.Some? {
      AppendKeepsWellFormed(select, partial.futs, ArmEntries(arms.value, Intended));
    }
  }

  lemma ParseCaseKeepsWellFormed(input: seq<Token>, select: Select)
    requires WellFormedSelect(select)
    ensures var r := ParseCase(input, select, Intended);
      r.Ok? ==> WellFormedSelect(r.value) && r.value.random == select.random
  {
    match ParseHead(input, select, Intended)
    case Fail(_) =>
    case Ok(partial, r1) =>
      if Peek(r1, FatArrow) {
        ParseArrowKeepsWellFormed(partial, r1[1..], select);
      } else if r1 != [] && r1[0].Brace? {
        ParseBraceKeepsWellFormed(partial, r1[0].trees, r1[1..], select);
      }
  }

  /** What one case does to the record: it only appends, every future it
      appends gets the range of exactly the arms it appends, and a default
      is filled only if there was none, with nothing else changed. */
  predicate CaseAppended(s: Select, t: Select)
  {
    && t.random == s.random
    && |s.arms| <= |t.arms| && t.arms[..|s.arms|] == s.arms
    && |s.futs| <= |t.futs| && t.futs[..|s.futs|] == s.futs
    && (forall k :: |s.futs| <= k < |t.futs| ==> t.futs[k].lo == |s.arms| && t.futs[k].hi == |t.arms|)
    && (t.default == s.default || (s.default.None? && t.arms == s.arms && t.futs == s.futs))
  }

  lemma ParseArrowAppends(partial: Partial, input: seq<Token>, select: Select)
    requires partial.DefaultHead? ==> select.default.None?
    ensures var r := ParseArrow(partial, input, select, Intended);
      r.Ok? ==> CaseAppended(select, r.value)
  {
    match ParseExpr(input)
    case Fail(_) =>
    case Ok(e, _) =>
      if partial.NormalHead? && partial.pat.Some? {
        var t := PushSingleArm(select, partial.futs, ArmEntry(partial.pat.value, None, e), Intended);
        assert t.arms[..|select.arms|] == select.arms;
        assert t.futs[..|select.futs|] == select.futs;
      }
  }

  lemma ParseCaseAppends(input: seq<Token>, select: Select)
    ensures var r := ParseCase(input, select, Intended);
      r.Ok? ==> CaseAppended(select, r.value)
  {
    match ParseHead(input, select, Intended)
    case Fail(_) =>
    case Ok(partial, r1) =>
      if Peek(r1, FatArrow) {
        ParseArrowAppends(partial, r1[1..], select);
      } else if r1 != [] && r1[0].Brace? && partial.NormalHead? {
        var arms := ParseArms(r1[0].trees);
        if arms.Some? {
          var t := AppendArms(select, partial.futs, ArmEntries(arms.value, Intended));
          assert t.arms[..|select.arms|] == select.arms;
          assert t.futs[..|select.futs|] == select.futs;
        }
      }
  }

  lemma {:induction false} ParseCasesKeepsWellFormed(input: seq<Token>, select: Select)
    requires WellFormedSelect(select)
    ensures var r := ParseCases(input, select, Intended);
      r.Parsed? ==> WellFormedSelect(r.select) && r.select.random == select.random
    decreases |input|
  {
    if input != [] {
      var c := ParseCase(input, select, Intended);
      ParseCaseKeepsWellFormed(input, select);
      if c.Ok? {
        ParseCasesKeepsWellFormed(c.rest, c.value);
      }
    }
  }

  /** Whatever the input, a parsed record has every future's arm range
      non-empty and inside `arms`, every arm belongs to some future, and
      `random` is off exactly when the input starts with `biased`. */
  lemma ParsedIsWellFormed(tokens: seq<Token>)
    ensures var r := ParseSelect(tokens, Intended);
      r.Parsed? ==> WellFormedSelect(r.select) && (r.select.random <==> !Peek(tokens, BiasedKw))
  {
    if Peek(tokens, BiasedKw) {
      if Peek(tokens[1..], Semi) {
        ParseCasesKeepsWellFormed(tokens[2..], Initial(true, Intended));
      }
    } else {
      ParseCasesKeepsWellFormed(tokens, Initial(false, Intended));
    }
  }
}
