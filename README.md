# A verified model of the `select!` macro core

`select!` waits on several futures at once and runs the handler of the first
one whose output matches that branch's pattern. The macro has two halves, and
this project models both.

- **The parser** reads the macro body into a `Select` record. The record holds:
  - the futures, each with its optional `if` condition and the range of arms
    that handle its output;
  - the arms;
  - an optional `default` expression;
  - a `random` flag.
- **The renderer** emits:
  - the output enum, one variant per branch plus `Disabled`;
  - a `Mask` type;
  - a poll function. Each call of that function makes one *sweep* over the
    branches.

The renderer also holds `clean_pattern`. It strips `ref` and `mut` from a
pattern so that the pattern can be matched against an owned value.

The project has five files:

- `sweep.dfy`: the sweep and the guard loop that initialises `disabled`.
  - `Activation` is a class holding the futures array and the `disabled`
    bit mask (a `bv64`).
  - Its `Poll` method picks the start index and calls `Scan`, which runs
    the `for i in 0..FUTURES` loop. `Poll` is proved equal to the
    specification function `Sweep`, which works on an abstract `State` (the
    futures, and the set of disabled branches).
  - Lemmas about `Sweep` state what a sweep guarantees:
    - the first accepted branch in scan order is selected;
    - disabled branches are skipped and never re-enabled;
    - a rejected value disables its branch;
    - `Pending` and `Exhausted` hold exactly when they should.
  - `Resolve` routes the outcome to a handler, `complete`, `default`, a
    suspension or the panic.
- `output_enum.dfy`: `declare_output_enum`. It covers the mask width chosen
  by branch count, and the variant names `_0 .. _{n-1}`, which read back to
  their branch numbers.
- `clean_pattern.dfy`: the pattern tree with syn 1's sixteen `Pat` variants.
  - `Clean` is the specification. It is the unique pattern of the same shape
    without `ref`/`mut`, and it is idempotent.
  - `CleanPatternRewrite` is the recursive rewrite with its `iter_mut` loops.
  - Like the source, the rewrite does not enter a `box` pattern.
- `parse.dfy`: `Select::parse` over abstract tokens.
  - syn's sub-parsers for expressions, patterns, `.await` expressions and
    match arms are opaque: each thing one of them reads is one token.
  - The parser appears twice, as recursive functions (`ParseSelect`) and as
    the imperative loop (`Parse`), and the two are proved equal.
  - Both take a `Reading`. `AsWritten` follows the code line by line.
    `Intended` corrects the defects listed under "Findings", and the
    correctness lemmas are about it:
    - the round trip from an abstract case list (`Print`/`Build`);
    - the error and panic paths;
    - the arm-range invariant of the record;
    - `case_count`.
- `wrappers.dfy`: the `Option` type.

## Model

| member | source | states |
|---|---|---|
| Sweep.BitsWithBit | src/render.rs:217-218 | ORing `1 << b` into `disabled` adds branch `b` to the disabled set and changes no other bit |
| Sweep.InBits | src/render.rs:191-193 | `disabled & mask == mask` holds exactly when branch `b` is in the disabled set |
| Sweep.GuardMask | src/render.rs:152-160 | the guard loop's mask as its comment describes it: bit `b` is set exactly when `b` is a branch whose pre-condition returned true |
| Sweep.GuardMaskStep | src/render.rs:156-160 | corrected reading: one turn of the guard loop ORs in `1 << i` when pre-condition `i` holds, and leaves the mask alone otherwise |
| Sweep.GuardMaskBits | src/render.rs:152-160 | corrected reading: the disabled set after the guard loop is exactly the set of branches whose pre-condition holds |
| Sweep.GuardMaskAsWritten | src/render.rs:156-160 | the guard loop as written sets bit `b` for every branch `b`, whatever its pre-condition returned |
| Sweep.GuardLoopDisablesEnabledBranch | src/render.rs:154-160 | with one branch whose pre-condition is false, the loop as written disables it, while the intended loop leaves it enabled |
| Sweep.ScanIndexIsMod | src/render.rs:177-182 | the branch visited at step `i` is `(start + i) % FUTURES` |
| Sweep.ScanIsBijection | src/render.rs:171-182 | for any `start` in `0..FUTURES`, one sweep visits every branch exactly once: the step-to-branch and branch-to-step maps are inverse bijections of `0..FUTURES` |
| Sweep.Take | src/render.rs:207-218 | taking a ready future consumes it and adds its branch to the disabled set; the activation invariant (taken futures are disabled, no bit beyond the branch count) is kept |
| Sweep.SweepFrom | src/render.rs:165-235 | the rest of a sweep keeps the activation invariant and the number of futures |
| Sweep.SweepFromStep | src/render.rs:183-231 | step `i` of a sweep is the match arm of branch `(start + i) % FUTURES`: return on an accepted value, set `is_pending` on a pending future, and otherwise continue with the state the arm leaves |
| Sweep.SweepFromSelectsAccepted | src/render.rs:191-230 | a branch selected from step `i` on is reached at or after step `i`, was enabled, and held exactly the returned value, which its pattern accepts |
| Sweep.SweepFromSelectsBefore | src/render.rs:191-230 | if an accepted branch is reached from step `i` on, the sweep selects, and selects a branch no later in scan order |
| Sweep.SweepFromSelectsFirst | src/render.rs:191-230 | the branch selected from step `i` on comes no later in scan order than any accepted branch the sweep reaches |
| Sweep.SweepFromEffects | src/render.rs:191-227 | from step `i` on, a sweep consumes exactly the ready futures of the enabled branches it reaches, disables exactly those branches, and changes nothing else |
| Sweep.SweepFromEffectsAfterReject | src/render.rs:217-227 | the same, when the branch at step `i` yields a value its pattern rejects |
| Sweep.SweepFromPending | src/render.rs:165-235 | the outcome is `Pending` exactly when nothing is selected and some enabled future reached was not ready (or `is_pending` was already set) |
| Sweep.StepBranch | src/render.rs:183-231 | the match arm of one branch: it skips exactly a disabled branch and reports pending exactly for an enabled waiting future, both without changing anything; otherwise it consumes the future and disables the branch, and returns exactly when the pattern accepts the value the future produced |
| Sweep.Sweep | src/render.rs:164-235 | one sweep keeps the activation invariant and the number of futures, never re-enables a branch, and returns only a branch that was enabled and holds a value its pattern accepts |
| Sweep.SweepSelectsFirstAccepted | src/render.rs:224-230 | a sweep returns a value exactly when some enabled branch holds a value its pattern accepts; it then returns the first such branch in scan order, tagged with its index, with the value that future produced |
| Sweep.BiasedSelectsLowest | src/render.rs:171-175 | with `start` 0 (`biased;`), the selected branch is the lowest-numbered one holding an accepted value |
| Sweep.SweepNeverReenables | src/render.rs:217-218 | a sweep never clears a bit of `disabled` |
| Sweep.SweepSkipsDisabled | src/render.rs:191-196 | a disabled branch's future is not polled (left unchanged) and that branch is not selected |
| Sweep.SweepKeepsWaitingEnabled | src/render.rs:207-214 | a pending future stays untouched and enabled, and the sweep does not report exhaustion |
| Sweep.SweepDisablesRejected | src/render.rs:217-227 | a ready value the pattern rejects is consumed, its branch disabled for good, and the sweep continues past it |
| Sweep.SweepStopsAtSelected | src/render.rs:224-230 | on a selection: the selected future is consumed and disabled; no branch after it in scan order is polled or disabled; every other future the sweep consumed held a value its pattern rejected, so at most one result is produced |
| Sweep.SweepPendingIff | src/render.rs:207-214 | the sweep reports `Pending` exactly when no enabled branch holds an accepted value and some enabled future is not ready |
| Sweep.SweepExhaustedIff | src/render.rs:177-235 | the sweep reports exhaustion exactly when no enabled branch holds an accepted value and every branch is disabled afterwards |
| Sweep.NonePolled | src/render.rs:88-97 | `none_polled` runs the `complete` handler exactly when there is one, and panics ("all futures in select! were completed, but no `complete =>` handler was provided") exactly when there is none |
| Sweep.Resolve | src/render.rs:88-139 | a branch handler runs exactly on a selection, with that branch and value; `default` runs exactly on `Pending` with a default; suspension exactly on `Pending` without one; `complete` or the panic exactly on exhaustion, according to whether there is a `complete` handler |
| Sweep.ResolveSweep | src/render.rs:88-139 | the expansion panics exactly when there is no `complete` handler, nothing is accepted and all branches end disabled; it runs `complete` in the same situation with a handler; it runs `default` exactly when there is one, nothing is accepted and some enabled future is pending; a branch handler runs only on a value its branch accepted |
| Sweep.Activation.constructor | src/render.rs:150-163 | corrected reading: the futures are moved in unchanged, and after the guard loop `disabled` holds exactly the bits of the branches whose pre-condition holds |
| Sweep.Activation.PollBranch | src/render.rs:183-231 | one match arm: skip a disabled branch; report a pending future; otherwise disable the branch and consume its future before testing the value, then continue or return it. The new futures array and mask are exactly what `StepBranch` gives |
| Sweep.Activation.Poll | src/render.rs:164-235 | one call of the poll closure returns the outcome and leaves the futures array and mask that `Sweep` gives from `start` (0 when biased, the random index otherwise), keeping the activation invariant |
| Sweep.Activation.Scan | src/render.rs:177-235 | the `for` loop over the branches, one match arm per step, returns the outcome and leaves the futures array and mask that the specification `SweepFrom` gives from step 0, keeping the activation invariant |
| OutputEnum.MaskFor | src/render.rs:247-261 | a mask type is chosen exactly when there are at most 64 branches; it has a bit per branch and is the smallest of u8/u16/u32/u64 that does |
| OutputEnum.DecimalDigits | src/render.rs:243-245 | the decimal numeral of a number is a non-empty string of digits |
| OutputEnum.DecimalRoundTrip | src/render.rs:243-245 | reading the decimal numeral of `n` back gives `n` |
| OutputEnum.VariantNameRoundTrip | src/render.rs:243-245 | the variant name `_num` reads back to `num`, so distinct branches get distinct variants |
| OutputEnum.DeclareOutputEnum | src/render.rs:242-275 | the module is declared exactly when there are at most 64 branches (otherwise the panic) |
| OutputEnum.DeclaredLayout | src/render.rs:242-275 | the declared enum has one variant `_num` per branch in order, then `Disabled`; all variant names are distinct; the mask is the smallest type with a bit per branch |
| CleanPattern.Clean | src/render.rs:290-342 | the cleaned pattern has the same shape as the input (same variants, payloads, children; `box` contents identical) and has no `ref`/`mut` anywhere the rewrite reaches |
| CleanPattern.CleanAll | src/render.rs:308-331 | the elements of an `Or`/`Slice`/`Tuple`/`TupleStruct` pattern come back as many and in order, each with its shape kept and without `ref`/`mut` |
| CleanPattern.CleanField | src/render.rs:318-322 | a struct field keeps its member name and gets its pattern cleaned |
| CleanPattern.CleanFields | src/render.rs:318-322 | every field of a struct pattern keeps its member name, and its pattern keeps its shape and loses every `ref`/`mut` |
| CleanPattern.CleanIdempotent | src/render.rs:290-342 | cleaning twice is cleaning once |
| CleanPattern.CleanFixesIff | src/render.rs:290-342 | the rewrite leaves a pattern unchanged exactly when it has no `ref`/`mut` the rewrite reaches |
| CleanPattern.CleanFixesRefMutFree | src/render.rs:290-342 | a pattern without `ref`/`mut` is left unchanged |
| CleanPattern.CleanIsUnique | src/render.rs:290-342 | any pattern of the same shape without `ref`/`mut` is the cleaned pattern |
| CleanPattern.CleanPatternRewrite | src/render.rs:291-342 | the in-place rewrite produces `Clean(p)` |
| CleanPattern.CleanEach | src/render.rs:308-331 | the `iter_mut` loop over sub-patterns cleans each one |
| CleanPattern.CleanEachField | src/render.rs:318-322 | the `iter_mut` loop over struct fields cleans each field's pattern and keeps its member |
| CleanPattern.CleanPatternMacro | src/render.rs:277-288 | input that is not a pattern comes back unchanged; a pattern comes back with the same shape and without `ref`/`mut` |
| SelectParse.CaseCount | src/parse.rs:22-28 | `case_count` is `fut_count + 1` exactly when a default is present, and `fut_count` exactly when none is |
| SelectParse.Initial | src/parse.rs:43-48 | the parser starts with no futures, arms or default, a well-formed record, and `random` off exactly when `biased` was read and the reading is corrected |
| SelectParse.ParsePatPrefix | src/parse.rs:66-74 | a pattern is read exactly when the second token is `=`, and reading can fail only then; without the `=` nothing is consumed |
| SelectParse.ParseBranch | src/parse.rs:75-81 | reading `<fut>.await [if <cond>]` consumes at least one token |
| SelectParse.ParseMoreBranches | src/parse.rs:83-93 | the comma loop does not grow its input and keeps the futures already read as a prefix of its result |
| SelectParse.ParseArms | src/parse.rs:134-138 | a brace group parses exactly when it holds at least one arm and every item is an arm; the arms come out in source order |
| SelectParse.ParseMoreArms | src/parse.rs:136-138 | the arm loop succeeds exactly when every remaining item is an arm, and appends them in order |
| SelectParse.ParseHead | src/parse.rs:56-95 | the head of a case consumes at least one token; a normal head has at least one future; a default head only arises when no default was recorded yet |
| SelectParse.PushSingleArm | src/parse.rs:121-124 | the arm is pushed after the existing ones, the default and `random` are kept, and each future of the case gets a one-arm range starting at the arm count after the push as written and before it when corrected; corrected, this is `AppendArms` with the one arm |
| SelectParse.AppendArms | src/parse.rs:143-148 | the arms come after the existing ones in order, the existing futures and default are kept, and every appended future keeps its expression and condition |
| SelectParse.ParseArrow | src/parse.rs:96-129 | an `=>` tail does not grow its input and only appends arms and futures, keeping `random` |
| SelectParse.ParseBrace | src/parse.rs:130-151 | a brace tail only appends arms and futures and keeps the default; when it fails after a head without a pattern the failure is a syntax error from the arms, and after a pattern or a `default` head it is the both-forms panic |
| SelectParse.ParseTail | src/parse.rs:96-154 | the tail of a case does not grow its input and only appends arms and futures, keeping `random`; after a head that is not `default` the default is unchanged |
| SelectParse.ParseCases | src/parse.rs:55-155 | the case loop only appends arms and futures, keeps `random`, and keeps a default recorded before it |
| SelectParse.ParseCase | src/parse.rs:55-154 | one loop iteration consumes at least one token, so the case loop terminates; a parsed case only appends arms and futures, never changes `random`, and leaves an already recorded default alone |
| SelectParse.ReadBranch | src/parse.rs:75-81 | the imperative reading of a future and its condition gives what `ParseBranch` gives |
| SelectParse.ReadHead | src/parse.rs:56-95 | the imperative head, with its comma loop, gives what `ParseHead` gives |
| SelectParse.ReadTail | src/parse.rs:96-154 | the imperative tail dispatches on `=>`, a brace group or neither (the invalid-syntax panic) and gives what `ParseTail` gives |
| SelectParse.ReadArrow | src/parse.rs:96-129 | the imperative `=>` tail, with its comma rule and the record update, gives what `ParseArrow` gives |
| SelectParse.ReadBrace | src/parse.rs:130-151 | the imperative brace tail, with its arm loop, optional comma and record update, gives what `ParseBrace` gives |
| SelectParse.Parse | src/parse.rs:42-158 | the `while !input.is_empty()` loop, starting with the optional `biased ;`, gives exactly `ParseSelect`, outcome and error alike |
| SelectParse.ParseSelect | src/parse.rs:42-158 | a parsed record has `random` off exactly when the input starts with `biased` and the reading is corrected |
| SelectParse.ParseSelectPrefix | src/parse.rs:49-54 | after an optional `biased ;` in front of cases that do not start with `biased`, the parser runs the case loop on those cases from the initial record |
| SelectParse.ParseBranchTokens | src/parse.rs:75-81 | a printed future with its condition reads back as itself |
| SelectParse.ParseMoreBranchesTokens | src/parse.rs:83-93 | printed `, <fut> ...` futures read back, appended in order |
| SelectParse.ParseDefaultCaseTokens | src/parse.rs:56-64 | corrected reading: a printed `default => e [,]` case sets the default to `e` |
| SelectParse.ParseHeadTokens | src/parse.rs:66-95 | a printed `[<pat> =] <futures>` reads back as that pattern and those futures |
| SelectParse.ParseArrowTail | src/parse.rs:96-114 | `=> e [,]` with an allowed comma reads `e` and the comma and continues after them |
| SelectParse.ParseArrowTokens | src/parse.rs:99-129 | after the `=>`, an expression with an allowed comma is read with its comma, and the record update follows the head: one arm for a pattern head, the default for a `default` head, the `unreachable` panic otherwise |
| SelectParse.ParsePatCaseTokens | src/parse.rs:116-124 | corrected reading: a printed `<pat> = <futures> => e` case pushes one arm and gives each future the range of exactly that arm |
| SelectParse.ParseBraceTail | src/parse.rs:130-148 | a printed brace group of arms appends those arms in order and gives each future of the case the range of exactly those arms |
| SelectParse.ParseMatchCaseTokens | src/parse.rs:130-148 | a printed `<futures> { <arms> }` case appends its arms and its futures with range `i..j` over exactly those arms |
| SelectParse.ParseCaseTokens | src/parse.rs:55-154 | corrected reading: any printed case reads back as what it adds to the record |
| SelectParse.ParseCasesTokens | src/parse.rs:55-155 | corrected reading: a printed, well-formed case list is parsed to the record it denotes |
| SelectParse.ParseSelectRoundTrip | src/parse.rs:42-158 | corrected reading: parsing the printed form of any well-formed case list, with or without `biased ;`, gives exactly the record the cases denote (or the multiple-defaults error) |
| SelectParse.BuildFromFailsIff | src/parse.rs:58-60 | the record is refused exactly when there are two defaults, and then with the multiple-defaults error |
| SelectParse.BuildFromCounts | src/parse.rs:75-148 | every future of every non-default case becomes one entry, and a default is recorded exactly when some case is one |
| SelectParse.ParseSelectDefaults | src/parse.rs:19-60 | corrected reading: a second `default` yields the multiple-defaults error, and only then; otherwise `fut_count` is the number of futures and `case_count` adds one for a default |
| SelectParse.BothFormsPanics | src/parse.rs:130-151 | `<pat> = <futures> { ... }` panics with "may not have both a singular pattern and a match block" |
| SelectParse.NeitherFormPanics | src/parse.rs:152-154 | futures followed by neither `=>` nor a brace group panic with "Invalid syntax" |
| SelectParse.ArrowWithoutPatternPanics | src/parse.rs:116-129 | `<futures> => e` without a pattern reaches the `unreachable` panic |
| SelectParse.MissingCommaFails | src/parse.rs:104-114 | after a non-block `=> e` with more input, a missing comma is a syntax error |
| SelectParse.SingleArmSelect | src/parse.rs:116-124 | `x = f.await => e,` alone parses to one arm and one future whose range starts where the reading puts it |
| SelectParse.SingleArmRangeOffByOne | src/parse.rs:121-123 | as written, that future gets range `1..2` over a single arm, out of bounds; corrected it gets `0..1` and the record is well formed |
| SelectParse.DefaultCaseArrowTwice | src/parse.rs:56-129 | as written, `default => a,` panics and `default => a => b` keeps `a`; corrected, `default => a,` sets the default to `a` |
| SelectParse.OneCaseSelect | src/parse.rs:55-157 | an input of a single case without `biased` parses to what that case makes of the initial record |
| SelectParse.MatchArmCase | src/parse.rs:130-148 | `f.await { arm }` as one case appends that arm and the future with the range over it |
| SelectParse.MatchArmSelect | src/parse.rs:130-148 | `f.await { arm }` alone parses to one future with range `0..1` and one handler, whose guard only the corrected reading keeps |
| SelectParse.MatchGuardDropped | src/parse.rs:142 | as written a match arm's `if` guard is lost; corrected it is kept |
| SelectParse.BiasedIgnored | src/parse.rs:43-53 | as written `biased ;` is consumed and leaves `random` true; corrected it makes `random` false |
| SelectParse.AppendKeepsWellFormed | src/parse.rs:143-148 | appending a case's arms and futures, each with the range of those arms, keeps every range non-empty and in bounds and every arm owned by a future |
| SelectParse.ParseArrowKeepsWellFormed | src/parse.rs:116-126 | corrected reading: an `=>` case keeps the record well formed and `random` unchanged |
| SelectParse.ParseBraceKeepsWellFormed | src/parse.rs:130-151 | corrected reading: a match-block case keeps the record well formed and `random` unchanged |
| SelectParse.ParseCaseKeepsWellFormed | src/parse.rs:55-154 | corrected reading: any case keeps the record well formed and `random` unchanged |
| SelectParse.ParseArrowAppends | src/parse.rs:116-126 | corrected reading: an `=>` case only appends, gives its futures the range of exactly its arm, and fills the default only when there was none |
| SelectParse.ParseCaseAppends | src/parse.rs:116-148 | corrected reading: any case only appends; every future it appends gets the range `i..j` of exactly the arms it appends; the default is filled only when there was none |
| SelectParse.ParseCasesKeepsWellFormed | src/parse.rs:55-155 | corrected reading: the case loop keeps the record well formed and `random` unchanged |
| SelectParse.ParsedIsWellFormed | src/parse.rs:42-158 | corrected reading: for every input, a parsed record has non-empty in-bounds arm ranges, every arm belongs to some future, and `random` is off exactly after `biased` |

## Left out

- Token-stream construction is not modelled, and neither is the rest of
  code generation: `proc_macro`, `proc_macro2`, `quote!`, `syn::parse`,
  `Span` and `Ident` hygiene (src/render.rs:1-53, 99-148, 263-274). The
  model keeps what the generated code computes.
- syn's sub-parsers for expressions, patterns, `.await` expressions and match
  arms are opaque. Each thing one of them reads is one token.
  - `input.peek2(Token![=])` is therefore "the second token is `=`". A
    pattern that syn reads as several token trees, such as `ref x`, is not
    modelled.
  - Error messages and spans are reduced to the `Failure` kinds.
- The template leaves several identifiers undefined: `variant_names`,
  `enum_ident`, `parsed.conds`, `parsed.biased`, `select.branches`,
  `parsed.complete` (src/render.rs:88), `parsed.normal_fut_exprs`
  (src/render.rs:16) and `parsed.normal_fut_handlers` (src/render.rs:100).
  The model follows the algorithm the template describes, with `FUTURES` the
  number of futures.
- The parser records no `complete` case: `Select` has no such field and
  src/parse.rs:55-155 never reads `complete =>`. Whether a `complete`
  handler exists is therefore the free parameter `hasComplete` of
  `NonePolled` and `Resolve`; no lemma ties it to a parsed record.
- Which way a branch's `if c` maps onto its pre-condition is not fixed by the
  source. The comment at src/render.rs:154-155 says a pre-condition that
  returns true disables its branch, while the usual reading of
  `<fut>.await if c` (src/parse.rs:76-81) is that the branch is polled only
  while `c` holds, which would pass `!c`. The model takes the comment's
  polarity: `preconditions[i]` true means branch `i` starts disabled. It
  leaves the negation, if any, to whoever builds `preconditions`, since the
  loop as written never reads the value anyway.
- CleanPattern.CleanPatternRewrite: `clean_pattern` updates the pattern in
  place through `&mut`; the model returns the rewritten pattern instead and
  proves it equal to `Clean(p)`. Aliasing of the pattern is not modelled.
- The sweep loop (src/render.rs:177-234) has no code after it. The model ends
  the sweep as `is_pending ? Pending : none_polled`. `Resolve` then routes
  the outcome as src/render.rs:88-139 does:
  - `none_polled` covers exhaustion: `complete`, or the panic;
  - `Pending` runs `default` when there is one, and suspends otherwise.
- The routing follows the code (src/render.rs:88-97): exhaustion goes to
  `none_polled`, not to `default`.
- `none_polled` returns `Out::Complete`, but the enum declares `Disabled`
  (src/render.rs:88-97, 267-269). The model treats both as the action
  "run the `complete` handler".
- In the biased arm of `start` (src/render.rs:171-172), the trailing `;` in
  `0;` would make that block `()`. The model takes 0.
- `thread_rng_n(FUTURES)` is the parameter `rng` of `Poll`. The code draws it
  on every call of the poll closure, so the model takes a new one per sweep.
- The branch index in `Scan` is computed without `%` (as `ScanIndex`). `ScanIndexIsMod` proves it equal to `(start + i) % FUTURES`.
- The `disabled` mask is a `bv64` for every declared width. The bits at or
  above the branch count are never set (`Consistent`), so the narrower
  `Mask` types hold the same values.
- Futures are reduced to their state in one sweep: waiting, completed with a
  value, or already consumed. Several things are left out because they are
  runtime concerns of the host rather than the selection logic:
  - polling, wakers and `Context`;
  - `poll_fn`, `.await` suspension and the no-op waker used with `default`;
  - `Pin::new_unchecked` and stack pinning;
  - the `assert_unpin`/`assert_fused_future` checks (src/render.rs:13-86,
    110-121, 164, 198-204).
- The per-branch pattern test `match &out { <pattern> => {}, _ => continue }`
  is the function `accepts` given to the activation. Branch handlers and the
  `default`/`complete` bodies are not evaluated. Only the choice among them
  is modelled.
- `Partial::Match` (src/parse.rs:36-38) is declared but never built by the
  parser, so it is not modelled.
- The inside of a `box` pattern is left alone by `clean_pattern`
  (src/render.rs:293), and the model does the same (`RefMutFree` and
  `SameShape` treat it as opaque). syn's non-exhaustive catch-all `_ => {}`
  has no counterpart, because the datatype lists all sixteen variants.

## Findings

| source | as written | input that shows it | evidently intended | confidence | as-written member | corrected member |
|---|---|---|---|---|---|---|
| src/parse.rs:121-123 | a `pat = futs => e` case takes `i = arms.len()` after pushing its arm, so its futures get `i..i+1`, one past the arm | `x = f.await => e,` gives range `1..2` over a single arm | `i` taken before the push, range `0..1` | high, not executed | SelectParse.SingleArmRangeOffByOne | SelectParse.ParsedIsWellFormed |
| src/parse.rs:56-129 | the `default` branch reads `=> <expr>` itself, then the shared code looks for another `=>` or a brace group | `default => a,` panics "Invalid syntax"; `default => a => b` keeps `a` and drops `b` | the head reads only `default` and the shared `=>` code fills the default | high, not executed | SelectParse.DefaultCaseArrowTwice | SelectParse.ParseSelectRoundTrip |
| src/parse.rs:142 | each arm of a match block is kept as `(pat, body)` only, so its `if` guard is dropped | `f.await { Ok(y) if y > 2 => y }` keeps no guard | the guard is kept with the arm | medium, not executed | SelectParse.MatchGuardDropped | SelectParse.ParseMatchCaseTokens |
| src/parse.rs:43-53 | `biased ;` is consumed but `random` stays `true` | `biased;` alone parses with `random == true` | `biased` sets `random` to false | medium, not executed | SelectParse.BiasedIgnored | SelectParse.ParsedIsWellFormed |
| src/render.rs:156-160 | the guard loop ORs `1 << i` into `disabled` for every pre-condition and never looks at its value `c` | one branch whose pre-condition is false is disabled anyway and can never be selected | set the bit only when the pre-condition returns true, as the comment at src/render.rs:154-155 says | high, not executed | Sweep.GuardLoopDisablesEnabledBranch | Sweep.GuardMask |
