/**
  `declare_output_enum` (src/render.rs:242-275): the helper module the
  expansion declares, holding the output enum `Out<_0, .., _{n-1}>` with one
  variant per branch plus `Disabled`, and `Mask`, the smallest unsigned
  integer type with a bit per branch.
*/
module OutputEnum {
  import opened Wrappers

  datatype MaskType = U8 | U16 | U32 | U64

  /** Number of bits in the mask type. */
  function Width(m: MaskType): nat
  {
    match m
    case U8 => 8
    case U16 => 16
    case U32 => 32
    case U64 => 64
  }

  /** The mask type chosen for `branches` branches; `None` is the
      "up to 64 branches supported" panic. */
  function MaskFor(branches: nat): (r: Option<MaskType>)
    ensures r.Some? <==> branches <= 64
    ensures r.Some? ==> branches <= Width(r.value)
    ensures r.Some? ==> forall m: MaskType :: branches <= Width(m) ==> Width(r.value) <= Width(m)
  {
    if branches <= 8 then Some(U8)
    else if branches <= 16 then Some(U16)
    else if branches <= 32 then Some(U32)
    else if branches <= 64 then Some(U64)
    else None
  }

  // ---------------------------------------------------------------------------
  // Variant names `_0`, `_1`, ... (`format!("_{}", num)`)
  // ---------------------------------------------------------------------------

  function Digit(d: nat): (c: char)
    requires d < 10
  {
    (('0' as int) + d) as char
  }

  predicate IsDigit(c: char)
  {
    '0' <= c <= '9'
  }

  /** The decimal numeral of `n`, without leading zeros. */
  function DecimalDigits(n: nat): (s: string)
    ensures |s| > 0 && forall k :: 0 <= k < |s| ==> IsDigit(s[k])
  {
    if n < 10 then [Digit(n)] else DecimalDigits(n / 10) + [Digit(n % 10)]
  }

  /** The number a string of decimal digits denotes. */
  function DecimalValue(s: string): nat
    requires forall k :: 0 <= k < |s| ==> IsDigit(s[k])
  {
    if s == [] then 0
    else
      assert IsDigit(s[|s| - 1]);
      DecimalValue(s[..|s| - 1]) * 10 + (s[|s| - 1] as int - '0' as int)
  }

  lemma {:induction false} DecimalRoundTrip(n: nat)
    ensures DecimalValue(DecimalDigits(n)) == n
  {
    if 10 <= n {
      var s := DecimalDigits(n);
      assert s[..|s| - 1] == DecimalDigits(n / 10);
      DecimalRoundTrip(n / 10);
    }
  }

  /** The name of branch `num`'s variant. */
  function VariantName(num: nat): string
  {
    "_" + DecimalDigits(num)
  }

  /** Reads a variant name back to its branch number; `None` for `Disabled`
      and anything else not of the form `_<digits>`. */
  function VariantIndex(name: string): Option<nat>
  {
    if 2 <= |name| && name[0] == '_' && forall k :: 1 <= k < |name| ==> IsDigit(name[k])
    then Some(DecimalValue(name[1..]))
    else None
  }

  /** Every branch's variant name reads back as that branch's number, so no
      two branches share a variant. */
  lemma VariantNameRoundTrip(num: nat)
    ensures VariantIndex(VariantName(num)) == Some(num)
  {
    var name := VariantName(num);
    assert name[1..] == DecimalDigits(num);
    DecimalRoundTrip(num);
  }

  // ---------------------------------------------------------------------------
  // The declared module
  // ---------------------------------------------------------------------------

  datatype Layout = Layout(variants: seq<string>, mask: MaskType)

  /** The declared items, or `None` for the panic on more than 64 branches. */
  function DeclareOutputEnum(branches: nat): (r: Option<Layout>)
    ensures r.Some? <==> branches <= 64
  {
    var variants := seq(branches, num requires 0 <= num => VariantName(num));
    match MaskFor(branches)
    case Some(mask) => Some(Layout(variants + ["Disabled"], mask))
    case None => None
  }

  /** The declared enum has one variant `_num` per branch in branch order,
      then `Disabled`; the variant names are pairwise distinct (so the enum is
      well formed and `Disabled` cannot clash with a branch); and the mask is
      the smallest of `u8`/`u16`/`u32`/`u64` with a bit for every branch. */
  lemma DeclaredLayout(branches: nat)
    requires branches <= 64
    ensures var r := DeclareOutputEnum(branches);
      && r.Some?
      && |r.value.variants| == branches + 1
      && (forall num :: 0 <= num < branches ==> VariantIndex(r.value.variants[num]) == Some(num))
      && r.value.variants[branches] == "Disabled"
      && VariantIndex("Disabled") == None
      && (forall j, k :: 0 <= j < k < |r.value.variants| ==> r.value.variants[j] != r.value.variants[k])
      && branches <= Width(r.value.mask)
      && (forall m: MaskType :: branches <= Width(m) ==> Width(r.value.mask) <= Width(m))
  {
    var vs := DeclareOutputEnum(branches).value.variants;
    forall num | 0 <= num < branches
      ensures VariantIndex(vs[num]) == Some(num)
    {
      VariantNameRoundTrip(num);
    }
    forall j, k | 0 <= j < k < |vs|
      ensures vs[j] != vs[k]
    {
      assert VariantIndex(vs[j]) == Some(j);
      if k < branches {
        assert VariantIndex(vs[k]) == Some(k);
      } else {
        assert vs[k][0] != '_';
      }
    }
  }
}
