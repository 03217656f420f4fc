/** The selection sweep of the `select!` expansion (src/render.rs:150-235) and
    the routing of its result (src/render.rs:88-139).

    One activation owns N branch futures and a `disabled` bit mask. Each call of
    the generated poll closure makes one sweep: it visits the branches in the
    order `(start + i) % N`, skips the disabled ones, polls the others once,
    disables a branch as soon as its future yields a value, and returns the
    first value that the branch's pattern accepts. */
module Sweep {

  // ---------------------------------------------------------------------------
  // The `disabled` mask. Every mask width the expansion can declare (u8 to u64)
  // fits in 64 bits; bits at or above the branch count are never set.
  // ---------------------------------------------------------------------------

  /** `1 << x` in the mask type. */
  function Shl(x: bv7): bv64
    requires x < 64
  {
    (1 as bv64) << x
  }

  /** A branch index as a shift amount. */
  function Index(b: nat): (x: bv7)
    requires b < 64
    ensures x < 64 && x as int == b
  {
    b as bv7
  }

  /** The mask of branch `b`: `1 << b`. */
  function Bit(b: nat): bv64
    requires b < 64
  {
    Shl(Index(b))
  }

  /** `disabled |= mask` with `mask = 1 << b` (src/render.rs:158-159, 218). */
  function WithBit(d: bv64, b: nat): bv64
    requires b < 64
  {
    d | Bit(b)
  }

  /** `disabled & mask == mask` (src/render.rs:191-193). */
  predicate IsSet(d: bv64, b: nat)
    requires b < 64
  {
    d & Bit(b) == Bit(b)
  }

  lemma OrSameShift(d: bv64, x: bv7)
    requires x < 64
    ensures (d | Shl(x)) & Shl(x) == Shl(x)
  {
  }

  lemma OrOtherShift(d: bv64, x: bv7, y: bv7)
    requires x < 64 && y < 64 && x != y
    ensures (d | Shl(x)) & Shl(y) == d & Shl(y)
  {
  }

  /** `d |= 1 << b` sets bit `b`. */
  lemma SetBitSame(d: bv64, b: nat)
    requires b < 64
    ensures IsSet(WithBit(d, b), b)
  {
    OrSameShift(d, Index(b));
  }

  /** `d |= 1 << b` leaves every other bit as it was. */
  lemma SetBitOther(d: bv64, b: nat, c: nat)
    requires b < 64 && c < 64 && b != c
    ensures IsSet(WithBit(d, b), c) == IsSet(d, c)
  {
    OrOtherShift(d, Index(b), Index(c));
  }

  /** `d |= 1 << b`, bit by bit. */
  lemma SetBit(d: bv64, b: nat)
    requires b < 64
    ensures IsSet(WithBit(d, b), b)
    ensures forall c :: 0 <= c < 64 && c != b ==> IsSet(WithBit(d, b), c) == IsSet(d, c)
  {
    SetBitSame(d, b);
    forall c | 0 <= c < 64 && c != b
      ensures IsSet(WithBit(d, b), c) == IsSet(d, c)
    {
      SetBitOther(d, b, c);
    }
  }

  /** The branches a mask disables. */
  function Bits(d: bv64): set<nat>
  {
    set b: nat | b < 64 && IsSet(d, b)
  }

  /** `disabled & (1 << b) == 1 << b` tests membership in the set. */
  lemma InBits(d: bv64, b: nat)
    requires b < 64
    ensures b in Bits(d) <==> IsSet(d, b)
  {
  }

  /** `disabled |= 1 << b` adds `b` to the disabled branches and nothing else. */
  lemma BitsWithBit(d: bv64, b: nat)
    requires b < 64
    ensures Bits(WithBit(d, b)) == Bits(d) + {b}
  {
    SetBit(d, b);
  }

  /** `Default::default()` for the mask: no bit set. */
  lemma NoBitInZero(c: nat)
    requires c < 64
    ensures !IsSet(0, c)
  {
  }

  // ---------------------------------------------------------------------------
  // Disabling branches by their pre-conditions (src/render.rs:152-160)
  // ---------------------------------------------------------------------------

  /** The mask the guard loop builds when, as its comment says, only the
      branches whose pre-condition holds get their bit: `preconditions[i]` is
      true when branch `i` must not be polled in this activation. */
  function GuardMask(preconditions: seq<bool>): (d: bv64)
    requires |preconditions| <= 64
    ensures forall b :: 0 <= b < 64 ==> (IsSet(d, b) <==> b < |preconditions| && preconditions[b])
  {
    if preconditions == [] then
      NoBitsInZero();
      0
    else
      var i := |preconditions| - 1;
      var d := GuardMask(preconditions[..i]);
      assert forall b :: 0 <= b < i ==> preconditions[..i][b] == preconditions[b];
      if preconditions[i] then
        SetBit(d, i);
        WithBit(d, i)
      else
        d
  }

  /** One more turn of the guard loop. */
  lemma GuardMaskStep(preconditions: seq<bool>, i: nat)
    requires i < |preconditions| <= 64
    ensures GuardMask(preconditions[..i + 1])
      == if preconditions[i] then WithBit(GuardMask(preconditions[..i]), i) else GuardMask(preconditions[..i])
  {
    assert preconditions[..i + 1][..i] == preconditions[..i];
  }

  /** The branches the guard mask disables. */
  lemma GuardMaskBits(preconditions: seq<bool>)
    requires |preconditions| <= 64
    ensures Bits(GuardMask(preconditions)) == set b | 0 <= b < |preconditions| && preconditions[b]
  {
    var d := GuardMask(preconditions);
    assert forall b: nat :: b in Bits(d) <==> b < 64 && IsSet(d, b);
  }

  /** The mask the guard loop builds as written: the loop body never looks at
      the condition `c` and sets bit `i` for every entry. */
  function GuardMaskAsWritten(preconditions: seq<bool>): (d: bv64)
    requires |preconditions| <= 64
    ensures forall b :: 0 <= b < 64 ==> (IsSet(d, b) <==> b < |preconditions|)
  {
    if preconditions == [] then
      NoBitsInZero();
      0
    else
      var i := |preconditions| - 1;
      var d := GuardMaskAsWritten(preconditions[..i]);
      SetBit(d, i);
      WithBit(d, i)
  }

  lemma NoBitsInZero()
    ensures forall c :: 0 <= c < 64 ==> !IsSet(0, c)
  {
    forall c | 0 <= c < 64
      ensures !IsSet(0, c)
    {
      NoBitInZero(c);
    }
  }

  /** A branch whose pre-condition evaluates false is disabled by the loop as
      written, so it can never be selected in this activation; the intended
      loop leaves it enabled. */
  lemma {:induction false} GuardLoopDisablesEnabledBranch()
    ensures IsSet(GuardMaskAsWritten([false]), 0)
    ensures !IsSet(GuardMask([false]), 0)
  {
  }

  // ---------------------------------------------------------------------------
  // Scan order (src/render.rs:171-182)
  // ---------------------------------------------------------------------------

  /** `start` is `thread_rng_n(FUTURES)`, or 0 under `biased;`. */
  predicate ValidStart(start: nat, n: nat)
  {
    if n == 0 then start == 0 else start < n
  }

  /** The branch visited at step `i` of a sweep, `(start + i) % FUTURES`
      (see ScanIndexIsMod), written without `%`. */
  function ScanIndex(start: nat, n: nat, i: nat): nat
    requires start < n && i < n
  {
    if start + i < n then start + i else start + i - n
  }

  /** The step of a sweep at which branch `b` is visited. */
  function ScanPosition(start: nat, n: nat, b: nat): nat
    requires start < n && b < n
  {
    if start <= b then b - start else b + n - start
  }

  lemma ScanIndexIsMod(start: nat, n: nat, i: nat)
    requires start < n && i < n
    ensures ScanIndex(start, n, i) == (start + i) % n
  {
    if start + i >= n {
      assert start + i == (start + i - n) + n;
    }
  }

  /** One sweep visits every branch exactly once: scan index and scan position
      are inverse bijections of `0..N`. */
  lemma ScanIsBijection(start: nat, n: nat)
    requires start < n
    ensures forall i :: 0 <= i < n ==>
      ScanIndex(start, n, i) < n && ScanPosition(start, n, ScanIndex(start, n, i)) == i
    ensures forall b :: 0 <= b < n ==>
      ScanPosition(start, n, b) < n && ScanIndex(start, n, ScanPosition(start, n, b)) == b
  {
  }

  // ---------------------------------------------------------------------------
  // The abstract activation state
  // ---------------------------------------------------------------------------

  /** A branch future as one sweep finds it: not ready, ready with a value, or
      already polled to completion earlier in this activation. */
  datatype Fut<V> = Waiting | Completed(value: V) | Consumed

  /** What one sweep reports: the first accepted value, tagged with its branch
      (`Out::_i(out)`), `Pending` when some enabled future is not ready, and
      `Exhausted` when every branch is disabled. */
  datatype Outcome<V> = Selected(branch: nat, value: V) | Pending | Exhausted

  /** The futures and the branches whose bit is set in `disabled`. */
  datatype State<V> = State(futs: seq<Fut<V>>, disabled: set<nat>)

  /** The activation invariant: at most 64 branches, no bit beyond the branch
      count, and a future that has been taken is disabled (so it is never
      polled again). */
  predicate Consistent<V>(s: State<V>)
  {
    && |s.futs| <= 64
    && (forall b :: 0 <= b < |s.futs| && s.futs[b].Consumed? ==> b in s.disabled)
    && (forall b :: b in s.disabled ==> b < |s.futs|)
  }

  /** Branch `b` is enabled and its future holds a value its pattern accepts. */
  predicate Accepted<V>(s: State<V>, accept: (nat, V) -> bool, b: nat)
    requires b < |s.futs| <= 64
  {
    b !in s.disabled && s.futs[b].Completed? && accept(b, s.futs[b].value)
  }

  /** Polling branch `b` yields its value: the future is taken and the branch
      disabled (src/render.rs:207-218). */
  function Take<V>(s: State<V>, b: nat): (t: State<V>)
    requires Consistent(s) && b < |s.futs|
    ensures Consistent(t) && t.futs == s.futs[b := Consumed] && t.disabled == s.disabled + {b}
  {
    State(s.futs[b := Consumed], s.disabled + {b})
  }

  /** The rest of a sweep from step `i` on, with the `is_pending` flag so far. */
  function SweepFrom<V>(s: State<V>, start: nat, accept: (nat, V) -> bool, i: nat, pending: bool): (r: (Outcome<V>, State<V>))
    requires Consistent(s) && ValidStart(start, |s.futs|) && i <= |s.futs|
    ensures Consistent(r.1) && |r.1.futs| == |s.futs|
    decreases |s.futs| - i
  {
    var n := |s.futs|;
    if i == n then
      (if pending then Pending else Exhausted, s)
    else
      var b := ScanIndex(start, n, i);
      if b in s.disabled then
        SweepFrom(s, start, accept, i + 1, pending)
      else if s.futs[b].Waiting? then
        SweepFrom(s, start, accept, i + 1, true)
      else
        // an enabled future has not been taken yet, so it holds a value
        var v := s.futs[b].value;
        var t := Take(s, b);
        if accept(b, v) then (Selected(b, v), t) else SweepFrom(t, start, accept, i + 1, pending)
  }

  /** One whole sweep. */
  function Sweep<V>(s: State<V>, start: nat, accept: (nat, V) -> bool): (r: (Outcome<V>, State<V>))
    requires Consistent(s) && ValidStart(start, |s.futs|)
    ensures Consistent(r.1) && |r.1.futs| == |s.futs| && s.disabled <= r.1.disabled
    ensures r.0.Selected? ==> r.0.branch < |s.futs| && Accepted(s, accept, r.0.branch)
  {
    SweepFromEffects(s, start, accept, 0, false);
    SweepFromSelectsAccepted(s, start, accept, 0, false);
    SweepFrom(s, start, accept, 0, false)
  }

  /** What the match arm of one branch does (src/render.rs:189-231):
      `continue` past a disabled branch, `continue` with `is_pending` set when
      the future is not ready, `continue` past a value the pattern rejects,
      or return the value. */
  datatype Step<V> = Skip | NotReady | Reject | Return(value: V)

  /** The arm of branch `b`: a ready future is taken and the branch disabled
      before its value is tested. */
  function StepBranch<V>(s: State<V>, accept: (nat, V) -> bool, b: nat): (r: (Step<V>, State<V>))
    requires Consistent(s) && b < |s.futs|
    ensures Consistent(r.1) && |r.1.futs| == |s.futs|
    ensures r.0.Skip? <==> b in s.disabled
    ensures r.0.NotReady? <==> b !in s.disabled && s.futs[b].Waiting?
    ensures r.0.Return? <==> Accepted(s, accept, b)
    ensures r.0.Return? ==> s.futs[b] == Completed(r.0.value)
    ensures r.0.Skip? || r.0.NotReady? ==> r.1 == s
    ensures r.0.Reject? || r.0.Return? ==> r.1.futs == s.futs[b := Consumed] && r.1.disabled == s.disabled + {b}
  {
    if b in s.disabled then (Skip, s)
    else if s.futs[b].Waiting? then (NotReady, s)
    else
      var v := s.futs[b].value;
      (if accept(b, v) then Return(v) else Reject, Take(s, b))
  }

  /** Step `i` of a sweep is the arm of branch `(start + i) % FUTURES`. */
  lemma SweepFromStep<V>(s: State<V>, start: nat, accept: (nat, V) -> bool, i: nat, pending: bool)
    requires Consistent(s) && ValidStart(start, |s.futs|) && i < |s.futs|
    ensures var b := ScanIndex(start, |s.futs|, i);
      var (step, t) := StepBranch(s, accept, b);
      Consistent(t) && |t.futs| == |s.futs| &&
      SweepFrom(s, start, accept, i, pending) ==
        match step
        case Return(v) => (Selected(b, v), t)
        case NotReady => SweepFrom(t, start, accept, i + 1, true)
        case _ => SweepFrom(t, start, accept, i + 1, pending)
  {
  }

  /** `SweepFromStep` for a step already taken: the rest of the sweep after
      the arm of step `i` returned `step` and left `t`. */
  lemma SweepFromAfterStep<V>(s: State<V>, t: State<V>, start: nat, accept: (nat, V) -> bool, i: nat, pending: bool, step: Step<V>)
    requires Consistent(s) && ValidStart(start, |s.futs|) && i < |s.futs|
    requires (step, t) == StepBranch(s, accept, ScanIndex(start, |s.futs|, i))
    ensures Consistent(t) && |t.futs| == |s.futs|
    ensures step.Return? ==> SweepFrom(s, start, accept, i, pending) == (Selected(ScanIndex(start, |s.futs|, i), step.value), t)
    ensures !step.Return? ==> SweepFrom(s, start, accept, i, pending) == SweepFrom(t, start, accept, i + 1, pending || step.NotReady?)
  {
    SweepFromStep(s, start, accept, i, pending);
  }

  // ---------------------------------------------------------------------------
  // What a sweep does, step by step from step i on
  // ---------------------------------------------------------------------------

  /** Branch `b` is reached by the sweep that produced `o`: its step is at or
      after `i`, and not after the step of the selected branch. */
  predicate Swept<V>(o: Outcome<V>, start: nat, n: nat, i: nat, b: nat)
    requires start < n && b < n
  {
    && i <= ScanPosition(start, n, b)
    && (o.Selected? ==> o.branch < n && ScanPosition(start, n, b) <= ScanPosition(start, n, o.branch))
  }

  /** The selected branch is one the sweep reaches from step `i`: it is
      enabled, its future held the value, and its pattern accepts it. */
  lemma {:induction false} SweepFromSelectsAccepted<V>(s: State<V>, start: nat, accept: (nat, V) -> bool, i: nat, pending: bool)
    requires Consistent(s) && ValidStart(start, |s.futs|) && i <= |s.futs|
    ensures var o := SweepFrom(s, start, accept, i, pending).0;
      o.Selected? ==>
        && o.branch < |s.futs| && i <= ScanPosition(start, |s.futs|, o.branch)
        && s.futs[o.branch] == Completed(o.value) && Accepted(s, accept, o.branch)
    decreases |s.futs| - i
  {
    var n := |s.futs|;
    var o := SweepFrom(s, start, accept, i, pending).0;
    if i < n {
      StepAt(start, n, i);
      var b := ScanIndex(start, n, i);
      if b in s.disabled {
        SweepFromSelectsAccepted(s, start, accept, i + 1, pending);
      } else if s.futs[b].Waiting? {
        SweepFromSelectsAccepted(s, start, accept, i + 1, true);
      } else if !accept(b, s.futs[b].value) {
        var t := Take(s, b);
        assert SweepFrom(s, start, accept, i, pending) == SweepFrom(t, start, accept, i + 1, pending);
        SweepFromSelectsAccepted(t, start, accept, i + 1, pending);
        if o.Selected? {
          assert o.branch != b;
        }
      } else {
        assert o == Selected(b, s.futs[b].value);
      }
    }
  }

  /** An accepted branch the sweep reaches from step `i` on makes it select,
      and select a branch no later in scan order. */
  lemma {:induction false} SweepFromSelectsBefore<V>(s: State<V>, start: nat, accept: (nat, V) -> bool, i: nat, pending: bool, c: nat)
    requires Consistent(s) && ValidStart(start, |s.futs|) && i <= |s.futs|
    requires c < |s.futs| && i <= ScanPosition(start, |s.futs|, c) && Accepted(s, accept, c)
    ensures var o := SweepFrom(s, start, accept, i, pending).0;
      o.Selected? && o.branch < |s.futs| && ScanPosition(start, |s.futs|, o.branch) <= ScanPosition(start, |s.futs|, c)
    decreases |s.futs| - i
  {
    var n := |s.futs|;
    StepAt(start, n, i);
    var b := ScanIndex(start, n, i);
    if b in s.disabled {
      SweepFromSelectsBefore(s, start, accept, i + 1, pending, c);
    } else if s.futs[b].Waiting? {
      SweepFromSelectsBefore(s, start, accept, i + 1, true, c);
    } else if !accept(b, s.futs[b].value) {
      var t := Take(s, b);
      assert SweepFrom(s, start, accept, i, pending) == SweepFrom(t, start, accept, i + 1, pending);
      assert Accepted(t, accept, c);
      SweepFromSelectsBefore(t, start, accept, i + 1, pending, c);
    }
  }

  lemma SweepFromSelectsFirst<V>(s: State<V>, start: nat, accept: (nat, V) -> bool, i: nat, pending: bool)
    requires Consistent(s) && ValidStart(start, |s.futs|) && i <= |s.futs|
    ensures var o := SweepFrom(s, start, accept, i, pending).0;
      forall b :: 0 <= b < |s.futs| && i <= ScanPosition(start, |s.futs|, b) && Accepted(s, accept, b) ==>
        o.Selected? && o.branch < |s.futs| && ScanPosition(start, |s.futs|, o.branch) <= ScanPosition(start, |s.futs|, b)
  {
    forall b | 0 <= b < |s.futs| && i <= ScanPosition(start, |s.futs|, b) && Accepted(s, accept, b) {
      SweepFromSelectsBefore(s, start, accept, i, pending, b);
    }
  }

  /** The futures a sweep from step `i` leaves: taken exactly for the enabled,
      ready branches it reaches. */
  ghost predicate TakesReached<V>(s: State<V>, start: nat, accept: (nat, V) -> bool, i: nat, pending: bool)
    requires Consistent(s) && ValidStart(start, |s.futs|) && i <= |s.futs|
  {
    var (o, t) := SweepFrom(s, start, accept, i, pending);
    forall b :: 0 <= b < |s.futs| ==>
      t.futs[b] == if Swept(o, start, |s.futs|, i, b) && b !in s.disabled && s.futs[b].Completed?
                   then Consumed else s.futs[b]
  }

  /** The branches a sweep from step `i` disables: exactly the enabled, ready
      branches it reaches. */
  ghost predicate DisablesReached<V>(s: State<V>, start: nat, accept: (nat, V) -> bool, i: nat, pending: bool)
    requires Consistent(s) && ValidStart(start, |s.futs|) && i <= |s.futs|
  {
    var (o, t) := SweepFrom(s, start, accept, i, pending);
    forall b :: 0 <= b < |s.futs| ==>
      (b in t.disabled <==> b in s.disabled || (Swept(o, start, |s.futs|, i, b) && s.futs[b].Completed?))
  }

  /** A sweep takes exactly the futures of the enabled, ready branches it
      reaches, disables exactly those branches, and changes nothing else. */
  lemma {:induction false} SweepFromEffects<V>(s: State<V>, start: nat, accept: (nat, V) -> bool, i: nat, pending: bool)
    requires Consistent(s) && ValidStart(start, |s.futs|) && i <= |s.futs|
    ensures TakesReached(s, start, accept, i, pending)
    ensures DisablesReached(s, start, accept, i, pending)
    decreases |s.futs| - i, 1
  {
    var n := |s.futs|;
    if i < n {
      StepAt(start, n, i);
      var b := ScanIndex(start, n, i);
      var o := SweepFrom(s, start, accept, i, pending).0;
      SweepFromSelectsAccepted(s, start, accept, i, pending);
      if b in s.disabled || s.futs[b].Waiting? {
        var p := pending || b !in s.disabled;
        assert SweepFrom(s, start, accept, i, pending) == SweepFrom(s, start, accept, i + 1, p);
        SweepFromEffects(s, start, accept, i + 1, p);
        SweptStep(o, start, n, i, b);
      } else if !accept(b, s.futs[b].value) {
        SweepFromEffectsAfterReject(s, start, accept, i, pending);
      }
    }
  }

  /** The step of SweepFromEffects where the branch at step `i` yields a value
      its pattern rejects. */
  lemma {:induction false} SweepFromEffectsAfterReject<V>(s: State<V>, start: nat, accept: (nat, V) -> bool, i: nat, pending: bool)
    requires Consistent(s) && ValidStart(start, |s.futs|) && i < |s.futs|
    requires var b := ScanIndex(start, |s.futs|, i);
      b !in s.disabled && s.futs[b].Completed? && !accept(b, s.futs[b].value)
    ensures TakesReached(s, start, accept, i, pending)
    ensures DisablesReached(s, start, accept, i, pending)
    decreases |s.futs| - i, 0
  {
    var n := |s.futs|;
    StepAt(start, n, i);
    var b := ScanIndex(start, n, i);
    var o := SweepFrom(s, start, accept, i, pending).0;
    var t := Take(s, b);
    assert SweepFrom(s, start, accept, i, pending) == SweepFrom(t, start, accept, i + 1, pending);
    SweepFromSelectsAccepted(t, start, accept, i + 1, pending);
    SweepFromEffects(t, start, accept, i + 1, pending);
    SweptStep(o, start, n, i, b);
  }

  /** Reaching a branch from step `i` is reaching it at step `i` (it is the
      branch `b` visited there) or from step `i + 1`. */
  lemma SweptStep<V>(o: Outcome<V>, start: nat, n: nat, i: nat, b: nat)
    requires start < n && i < n && b == ScanIndex(start, n, i)
    requires o.Selected? ==> o.branch < n && i <= ScanPosition(start, n, o.branch)
    ensures Swept(o, start, n, i, b)
    ensures forall c :: 0 <= c < n && c != b ==> Swept(o, start, n, i, c) == Swept(o, start, n, i + 1, c)
  {
    StepAt(start, n, i);
  }

  /** The branch visited at step `i` is the only one whose step is `i`. */
  lemma StepAt(start: nat, n: nat, i: nat)
    requires start < n && i < n
    ensures ScanIndex(start, n, i) < n && ScanPosition(start, n, ScanIndex(start, n, i)) == i
    ensures forall c :: 0 <= c < n && c != ScanIndex(start, n, i) ==> ScanPosition(start, n, c) != i
  {
  }

  /** The sweep ends `Pending` exactly when nothing was selected and some
      enabled future it reached was not ready (or one was seen before step i). */
  lemma {:induction false} SweepFromPending<V>(s: State<V>, start: nat, accept: (nat, V) -> bool, i: nat, pending: bool)
    requires Consistent(s) && ValidStart(start, |s.futs|) && i <= |s.futs|
    ensures var o := SweepFrom(s, start, accept, i, pending).0;
      o.Pending? <==>
        && !o.Selected?
        && (pending || exists b :: 0 <= b < |s.futs| && i <= ScanPosition(start, |s.futs|, b)
                                   && b !in s.disabled && s.futs[b].Waiting?)
    decreases |s.futs| - i
  {
    var n := |s.futs|;
    if i < n {
      StepAt(start, n, i);
      var b := ScanIndex(start, n, i);
      if b in s.disabled {
        SweepFromPending(s, start, accept, i + 1, pending);
      } else if s.futs[b].Waiting? {
        SweepFromPending(s, start, accept, i + 1, true);
      } else if !accept(b, s.futs[b].value) {
        var t := Take(s, b);
        SweepFromPending(t, start, accept, i + 1, pending);
      }
    }
  }
  // ---------------------------------------------------------------------------
  // What one whole sweep guarantees
  // ---------------------------------------------------------------------------

  /** Some enabled branch holds a value that its pattern accepts. */
  predicate SomeAccepted<V>(s: State<V>, accept: (nat, V) -> bool)
    requires |s.futs| <= 64
  {
    exists b :: 0 <= b < |s.futs| && Accepted(s, accept, b)
  }

  /** Some enabled branch's future is not ready yet. */
  predicate SomeWaiting<V>(s: State<V>)
  {
    exists b :: 0 <= b < |s.futs| && b !in s.disabled && s.futs[b].Waiting?
  }

  /** Every branch is disabled. */
  predicate AllDisabled<V>(s: State<V>)
  {
    forall b :: 0 <= b < |s.futs| ==> b in s.disabled
  }

  /** The sweep returns a value exactly when some enabled branch holds a value
      its pattern accepts, and then it returns the first such branch in scan
      order, tagged with its index, with the value its future produced. */
  lemma SweepSelectsFirstAccepted<V>(s: State<V>, start: nat, accept: (nat, V) -> bool)
    requires Consistent(s) && ValidStart(start, |s.futs|)
    ensures var o := Sweep(s, start, accept).0;
      o.Selected? <==> SomeAccepted(s, accept)
    ensures var o := Sweep(s, start, accept).0;
      o.Selected? ==>
        && o.branch < |s.futs| && s.futs[o.branch] == Completed(o.value)
        && Accepted(s, accept, o.branch)
        && forall b :: 0 <= b < |s.futs| && Accepted(s, accept, b) ==>
             ScanPosition(start, |s.futs|, o.branch) <= ScanPosition(start, |s.futs|, b)
  {
    SweepFromSelectsAccepted(s, start, accept, 0, false);
    SweepFromSelectsFirst(s, start, accept, 0, false);
  }

  /** Under `biased;` (start 0) the selected branch is the lowest-numbered
      branch holding an accepted value. */
  lemma BiasedSelectsLowest<V>(s: State<V>, accept: (nat, V) -> bool)
    requires Consistent(s)
    ensures var o := Sweep(s, 0, accept).0;
      o.Selected? ==>
        o.branch < |s.futs| && Accepted(s, accept, o.branch)
        && forall b :: 0 <= b < o.branch ==> !Accepted(s, accept, b)
  {
    SweepSelectsFirstAccepted(s, 0, accept);
  }

  /** A sweep never clears a bit of `disabled`. */
  lemma SweepNeverReenables<V>(s: State<V>, start: nat, accept: (nat, V) -> bool)
    requires Consistent(s) && ValidStart(start, |s.futs|)
    ensures s.disabled <= Sweep(s, start, accept).1.disabled
  {
    SweepFromEffects(s, start, accept, 0, false);
  }

  /** A disabled branch is skipped: its future is not polled and it is not
      selected. */
  lemma SweepSkipsDisabled<V>(s: State<V>, start: nat, accept: (nat, V) -> bool)
    requires Consistent(s) && ValidStart(start, |s.futs|)
    ensures var (o, t) := Sweep(s, start, accept);
      forall b :: 0 <= b < |s.futs| && b in s.disabled ==>
        t.futs[b] == s.futs[b] && !(o.Selected? && o.branch == b)
  {
    SweepFromEffects(s, start, accept, 0, false);
    SweepFromSelectsAccepted(s, start, accept, 0, false);
  }

  /** An enabled future that is not ready stays enabled and untouched, and
      the sweep does not report `Exhausted`. */
  lemma SweepKeepsWaitingEnabled<V>(s: State<V>, start: nat, accept: (nat, V) -> bool)
    requires Consistent(s) && ValidStart(start, |s.futs|)
    ensures var (o, t) := Sweep(s, start, accept);
      forall b :: 0 <= b < |s.futs| && b !in s.disabled && s.futs[b].Waiting? ==>
        t.futs[b] == Waiting && b !in t.disabled && !o.Exhausted?
  {
    SweepFromEffects(s, start, accept, 0, false);
    SweepFromPending(s, start, accept, 0, false);
  }

  /** A branch whose value the pattern rejects is disabled for good and its
      future is taken; the sweep goes on past it. */
  lemma SweepDisablesRejected<V>(s: State<V>, start: nat, accept: (nat, V) -> bool)
    requires Consistent(s) && ValidStart(start, |s.futs|)
    ensures var (o, t) := Sweep(s, start, accept);
      forall b :: 0 <= b < |s.futs| && b !in s.disabled && s.futs[b].Completed? && !accept(b, s.futs[b].value)
                  && (o.Selected? ==> o.branch < |s.futs| && ScanPosition(start, |s.futs|, b) < ScanPosition(start, |s.futs|, o.branch)) ==>
        b in t.disabled && t.futs[b] == Consumed && !(o.Selected? && o.branch == b)
  {
    SweepFromEffects(s, start, accept, 0, false);
    SweepFromSelectsAccepted(s, start, accept, 0, false);
  }

  /** At most one result: the selected future is taken and disabled, no branch
      after it in scan order is polled, and no other future the sweep took held
      an accepted value. */
  lemma SweepStopsAtSelected<V>(s: State<V>, start: nat, accept: (nat, V) -> bool)
    requires Consistent(s) && ValidStart(start, |s.futs|)
    ensures var (o, t) := Sweep(s, start, accept);
      o.Selected? ==>
        && o.branch < |s.futs| && o.branch in t.disabled && t.futs[o.branch] == Consumed
        && (forall b :: 0 <= b < |s.futs| && ScanPosition(start, |s.futs|, o.branch) < ScanPosition(start, |s.futs|, b) ==>
              t.futs[b] == s.futs[b] && (b in t.disabled <==> b in s.disabled))
        && (forall b :: 0 <= b < |s.futs| && t.futs[b] != s.futs[b] && b != o.branch ==>
              s.futs[b].Completed? && !accept(b, s.futs[b].value))
  {
    SweepFromEffects(s, start, accept, 0, false);
    SweepFromSelectsAccepted(s, start, accept, 0, false);
    SweepFromSelectsFirst(s, start, accept, 0, false);
  }

  /** The sweep reports `Pending` exactly when nothing is accepted and some
      enabled future is not ready. */
  lemma SweepPendingIff<V>(s: State<V>, start: nat, accept: (nat, V) -> bool)
    requires Consistent(s) && ValidStart(start, |s.futs|)
    ensures Sweep(s, start, accept).0.Pending? <==> !SomeAccepted(s, accept) && SomeWaiting(s)
  {
    SweepFromPending(s, start, accept, 0, false);
    SweepSelectsFirstAccepted(s, start, accept);
  }

  /** The sweep reports `Exhausted` exactly when nothing is accepted and every
      branch is disabled afterwards. */
  lemma SweepExhaustedIff<V>(s: State<V>, start: nat, accept: (nat, V) -> bool)
    requires Consistent(s) && ValidStart(start, |s.futs|)
    ensures var (o, t) := Sweep(s, start, accept);
      o.Exhausted? <==> !SomeAccepted(s, accept) && AllDisabled(t)
  {
    var (o, t) := Sweep(s, start, accept);
    SweepFromEffects(s, start, accept, 0, false);
    SweepPendingIff(s, start, accept);
    SweepSelectsFirstAccepted(s, start, accept);
    if o.Exhausted? {
      forall b | 0 <= b < |s.futs|
        ensures b in t.disabled
      {
        assert !(b !in s.disabled && s.futs[b].Waiting?);
      }
    }
  }

  // ---------------------------------------------------------------------------
  // Routing a sweep's outcome (src/render.rs:88-139)
  // ---------------------------------------------------------------------------

  /** What the expanded `select!` does next: run the selected branch's
      handler, run the `complete` handler, run the `default` expression,
      suspend until woken, or panic. */
  datatype Action<V> = RunBranch(branch: nat, value: V) | RunComplete | RunDefault | Suspend | PanicAllCompleted

  /** `none_polled`: every future is completed or disabled. */
  function NonePolled<V>(hasComplete: bool): (a: Action<V>)
    ensures a == RunComplete <==> hasComplete
    ensures a == PanicAllCompleted <==> !hasComplete
  {
    if hasComplete then RunComplete else PanicAllCompleted
  }

  /** With a `default` case the poll function is called once with a no-op
      waker and a `Pending` result runs the default; without one, `Pending`
      suspends the task. */
  function Resolve<V>(o: Outcome<V>, hasDefault: bool, hasComplete: bool): (a: Action<V>)
    ensures a.RunBranch? <==> o.Selected?
    ensures a.RunBranch? ==> a.branch == o.branch && a.value == o.value
    ensures a == RunDefault <==> o.Pending? && hasDefault
    ensures a == Suspend <==> o.Pending? && !hasDefault
    ensures a == RunComplete <==> o.Exhausted? && hasComplete
    ensures a == PanicAllCompleted <==> o.Exhausted? && !hasComplete
  {
    match o
    case Selected(b, v) => RunBranch(b, v)
    case Exhausted => NonePolled(hasComplete)
    case Pending => if hasDefault then RunDefault else Suspend
  }

  /** Exhaustion routing over one sweep: the expansion panics exactly when
      there is no `complete` handler, no value was accepted and every branch
      is disabled; it runs the default exactly when there is one, nothing was
      accepted and some enabled future is not ready; and a branch handler runs
      only on a value that branch accepted. */
  lemma ResolveSweep<V>(s: State<V>, start: nat, accept: (nat, V) -> bool, hasDefault: bool, hasComplete: bool)
    requires Consistent(s) && ValidStart(start, |s.futs|)
    ensures var (o, t) := Sweep(s, start, accept);
      Resolve(o, hasDefault, hasComplete) == PanicAllCompleted <==>
        !hasComplete && !SomeAccepted(s, accept) && AllDisabled(t)
    ensures var (o, t) := Sweep(s, start, accept);
      Resolve(o, hasDefault, hasComplete) == RunComplete <==>
        hasComplete && !SomeAccepted(s, accept) && AllDisabled(t)
    ensures var o := Sweep(s, start, accept).0;
      Resolve(o, hasDefault, hasComplete) == RunDefault <==>
        hasDefault && !SomeAccepted(s, accept) && SomeWaiting(s)
    ensures var o := Sweep(s, start, accept).0;
      var a := Resolve(o, hasDefault, hasComplete);
      a.RunBranch? ==> a.branch < |s.futs| && s.futs[a.branch] == Completed(a.value) && Accepted(s, accept, a.branch)
  {
    SweepSelectsFirstAccepted(s, start, accept);
    SweepPendingIff(s, start, accept);
    SweepExhaustedIff(s, start, accept);
  }

  // ---------------------------------------------------------------------------
  // The activation: the futures tuple and the `disabled` mask in place
  // ---------------------------------------------------------------------------

  class Activation<V> {
    /** `FUTURES` */
    const n: nat
    /** The pinned futures, one per branch, in declaration order. */
    const futures: array<Fut<V>>
    /** The per-branch test `match &out { <pattern> => {}, _ => continue }`. */
    const accepts: (nat, V) -> bool
    var disabled: bv64

    ghost function Snapshot(): State<V>
      reads this, futures
    {
      State(futures[..], Bits(disabled))
    }

    ghost predicate Valid()
      reads this, futures
    {
      futures.Length == n && Consistent(Snapshot())
    }

    /** Moves the futures in and runs the guard loop: `disabled` starts with
        exactly the bits of the branches whose pre-condition holds. */
    constructor (futs: seq<Fut<V>>, preconditions: seq<bool>, accepts: (nat, V) -> bool)
      requires |futs| <= 64 && |preconditions| == |futs|
      requires forall b :: 0 <= b < |futs| ==> !futs[b].Consumed?
      ensures Valid() && fresh(futures)
      ensures n == |futs| && futures[..] == futs && this.accepts == accepts
      ensures disabled == GuardMask(preconditions)
      ensures Bits(disabled) == set b | 0 <= b < |preconditions| && preconditions[b]
    {
      n := |futs|;
      this.accepts := accepts;
      var d: bv64 := 0;
      for i := 0 to |preconditions|
        invariant d == GuardMask(preconditions[..i])
      {
        GuardMaskStep(preconditions, i);
        if preconditions[i] {
          d := WithBit(d, i);
        }
      }
      assert preconditions[..|preconditions|] == preconditions;
      GuardMaskBits(preconditions);
      assert forall b :: b in Bits(d) ==> b < |futs|;
      disabled := d;
      var a := new Fut<V>[|futs|](i requires 0 <= i < |futs| => futs[i]);
      assert forall i :: 0 <= i < |futs| ==> a[i] == futs[i];
      assert a[..] == futs;
      futures := a;
    }

    /** One call of the poll closure: a sweep from `start`, which is 0 under
        `biased;` and the random `rng` otherwise (src/render.rs:164-176). */
    method Poll(biased: bool, rng: nat) returns (o: Outcome<V>)
      requires Valid() && ValidStart(rng, n)
      modifies this, futures
      ensures Valid()
      ensures (o, Snapshot()) == Sweep(old(Snapshot()), if biased then 0 else rng, accepts)
    {
      var start := if biased then 0 else rng;
      o := Scan(start);
    }

    /** The `for i in 0..FUTURES` loop of the poll closure (src/render.rs:177-235):
        the rest of the sweep from `start`. */
    method Scan(start: nat) returns (o: Outcome<V>)
      requires Valid() && ValidStart(start, n)
      modifies this, futures
      ensures Valid()
      ensures (o, Snapshot()) == SweepFrom(old(Snapshot()), start, accepts, 0, false)
    {
      var isPending := false;
      ghost var s0 := Snapshot();
      ghost var s := s0;
      for i := 0 to n
        invariant Valid() && Snapshot() == s
        invariant SweepFrom(s, start, accepts, i, isPending) == SweepFrom(s0, start, accepts, 0, false)
      {
        // `(start + i) % FUTURES`, see ScanIndexIsMod
        var branch := ScanIndex(start, n, i);
        var step := PollBranch(branch);
        SweepFromAfterStep(s, Snapshot(), start, accepts, i, isPending, step);
        s := Snapshot();
        if step.Return? {
          return Selected(branch, step.value);
        } else if step.NotReady? {
          isPending := true;
        }
      }
      o := if isPending then Pending else Exhausted;
    }

    /** The match arm of one branch (src/render.rs:189-231). */
    method PollBranch(branch: nat) returns (step: Step<V>)
      requires Valid() && branch < n
      modifies this, futures
      ensures Valid()
      ensures (step, Snapshot()) == StepBranch(old(Snapshot()), accepts, branch)
    {
      ghost var s := Snapshot();
      InBits(disabled, branch);
      if IsSet(disabled, branch) {
        // the future has been disabled
        return Skip;
      }
      var out := futures[branch];
      if out.Waiting? {
        return NotReady;
      }
      ghost var t := Take(s, branch);
      BitsWithBit(disabled, branch);
      futures[branch] := Consumed;
      disabled := WithBit(disabled, branch);
      assert futures[..] == t.futs;
      assert Snapshot() == t;
      if !accepts(branch, out.value) {
        return Reject;
      }
      return Return(out.value);
    }
  }
}
