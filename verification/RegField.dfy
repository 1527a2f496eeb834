// The register bit-field toolkit of include/driver/reg_def_toolkit.h: one field list, laid out on the
// same bits on little- and big-endian machines, and read-modify-write access to a field.

module RegField {

  // The arguments of MT_REG_BF_DEF: fields from the most to the least significant, by width.
  type Fields = seq<nat>

  // MT_VA_FOR_EACH_n: the order in which the fields get declared, as positions in the argument list
  // starting at base. MT_VA_FW puts the first argument first, MT_VA_BW puts it last.
  function ForEach(forward: bool, base: nat, n: nat): (r: seq<nat>)
    requires n >= 1
    decreases n
  {
    if n == 1 then [base]
    else if forward then [base] + ForEach(forward, base + 1, n - 1)
    else ForEach(forward, base + 1, n - 1) + [base]
  }

  // MT_REG_BF_DEF: backward on little-endian machines, forward on big-endian ones.
  function Declared(little: bool, fs: Fields): (r: seq<nat>)
    requires fs != []
  {
    ForEach(!little, 0, |fs|)
  }

  function Sum(fs: Fields): nat {
    if fs == [] then 0 else Sum(fs[..|fs| - 1]) + fs[|fs| - 1]
  }

  // The widths of the declared fields, in declaration order.
  function Widths(fs: Fields, d: seq<nat>): Fields
    requires forall i :: i in d ==> i < |fs|
  {
    seq(|d|, p requires 0 <= p < |d| => assert d[p] in d; fs[d[p]])
  }

  // Where the compiler puts the field declared at position p of a register of `size` bits:
  // little-endian compilers allocate from the lowest bit up, big-endian ones from the highest down.
  function Allocated(little: bool, ws: Fields, size: int, p: nat): int
    requires p < |ws|
  {
    if little then Sum(ws[..p]) else size - Sum(ws[..p + 1])
  }

  // ---------- layout ----------

  lemma {:induction false} ForEachAt(forward: bool, base: nat, n: nat)
    requires n >= 1
    ensures |ForEach(forward, base, n)| == n
    ensures forall p :: 0 <= p < n ==> ForEach(forward, base, n)[p] == if forward then base + p else base + n - 1 - p
    decreases n
  {
    if n > 1 { ForEachAt(forward, base + 1, n - 1); }
  }

  lemma {:induction false} SumConcat(a: Fields, b: Fields)
    ensures Sum(a + b) == Sum(a) + Sum(b)
  {
    if b == [] {
      assert a + b == a;
    } else {
      assert (a + b)[..|a + b| - 1] == a + b[..|b| - 1];
      SumConcat(a, b[..|b| - 1]);
    }
  }

  lemma {:induction false} SumReversed(a: Fields, r: Fields)
    requires |r| == |a| && forall i :: 0 <= i < |a| ==> r[i] == a[|a| - 1 - i]
    ensures Sum(r) == Sum(a)
  {
    if a != [] {
      var n := |a| - 1;
      SumReversed(a[..n], r[1..]);
      assert r == [r[0]] + r[1..];
      SumConcat([r[0]], r[1..]);
      assert [r[0]][..0] == [];
    }
  }

  // The low bit of field k of the list, for a register of size bits.
  function Offset(little: bool, fs: Fields, size: int, k: nat): int
    requires k < |fs|
  {
    ForEachAt(!little, 0, |fs|);
    var d := Declared(little, fs);
    assert forall i :: i in d ==> i < |fs|;
    Allocated(little, Widths(fs, d), size, if little then |fs| - 1 - k else k)
  }

  // Field k lies above the fields listed after it.
  lemma OffsetIs(little: bool, fs: Fields, size: int, k: nat)
    requires k < |fs|
    ensures Offset(little, fs, size, k) == if little then Sum(fs[k + 1..]) else size - Sum(fs[..k + 1])
  {
    ForEachAt(!little, 0, |fs|);
    var d := Declared(little, fs);
    assert forall i :: i in d ==> i < |fs|;
    var ws := Widths(fs, d);
    if little {
      SumReversed(fs[k + 1..], ws[..|fs| - 1 - k]);
    } else {
      assert ws == fs;
    }
  }

  // The two expansions put a field on the same bits exactly if the widths add up to the register's size.
  lemma EndianIndependentIff(fs: Fields, size: int, k: nat)
    requires k < |fs|
    ensures Offset(true, fs, size, k) == Offset(false, fs, size, k) <==> Sum(fs) == size
  {
    OffsetIs(true, fs, size, k);
    OffsetIs(false, fs, size, k);
    SumSplit(fs, k + 1);
  }

  lemma SumSplit(fs: Fields, k: nat)
    requires k <= |fs|
    ensures Sum(fs) == Sum(fs[..k]) + Sum(fs[k..])
  {
    assert fs == fs[..k] + fs[k..];
    SumConcat(fs[..k], fs[k..]);
  }

  // Fields do not overlap.
  lemma FieldsApart(little: bool, fs: Fields, k: nat, l: nat)
    requires k < l < |fs|
    ensures Offset(little, fs, Sum(fs), l) + fs[l] <= Offset(little, fs, Sum(fs), k)
  {
    LowBit(little, fs, k);
    LowBit(little, fs, l);
    LaterFieldsFit(fs, k, l);
  }

  lemma LaterFieldsFit(fs: Fields, k: nat, l: nat)
    requires k < l < |fs|
    ensures Sum(fs[l + 1..]) + fs[l] <= Sum(fs[k + 1..])
  {
    Tail(fs, l);
    LaterIsLess(fs, k + 1, l);
  }

  lemma LaterIsLess(fs: Fields, a: nat, b: nat)
    requires a <= b <= |fs|
    ensures Sum(fs[b..]) <= Sum(fs[a..])
  {
    SumSplit(fs[a..], b - a);
    assert fs[a..][b - a..] == fs[b..];
  }

  lemma LowBit(little: bool, fs: Fields, k: nat)
    requires k < |fs|
    ensures Offset(little, fs, Sum(fs), k) == Sum(fs[k + 1..])
  {
    EndianIndependentIff(fs, Sum(fs), k);
    OffsetIs(true, fs, Sum(fs), k);
  }

  lemma Tail(fs: Fields, k: nat)
    requires k < |fs|
    ensures Sum(fs[k..]) == fs[k] + Sum(fs[k + 1..])
  {
    SumConcat([fs[k]], fs[k + 1..]);
    assert fs[k..] == [fs[k]] + fs[k + 1..];
    assert Sum([fs[k]]) == fs[k] by { assert [fs[k]][..0] == []; }
  }

  // ---------- access ----------

  // A register's value, lowest bit first.
  type Bits = seq<bool>

  function ToNat(b: Bits): nat {
    if b == [] then 0 else (if b[0] then 1 else 0) + 2 * ToNat(b[1..])
  }

  // The w low bits of a value, as an unsigned bit-field keeps them.
  function FromInt(x: int, w: nat): (b: Bits)
    ensures |b| == w
    decreases w
  {
    if w == 0 then [] else [x % 2 == 1] + FromInt(x / 2, w - 1)
  }

  function Pow2(n: nat): (p: nat)
    ensures p > 0
  {
    if n == 0 then 1 else 2 * Pow2(n - 1)
  }

  // MT_CHIP_REG_GET_BF on a field of w bits at bit o
  function GetBf(v: Bits, o: nat, w: nat): nat
    requires o + w <= |v|
  {
    ToNat(v[o..o + w])
  }

  // MT_CHIP_REG_ASS_BF: copy the register, assign the field in the copy, write the copy back.
  function AssBf(v: Bits, o: nat, w: nat, x: int): (v': Bits)
    requires o + w <= |v|
    ensures |v'| == |v|
  {
    v[..o] + FromInt(x, w) + v[o + w..]
  }

  lemma {:induction false} FromIntValue(x: int, w: nat)
    ensures ToNat(FromInt(x, w)) == x % Pow2(w)
    decreases w
  {
    if w > 0 {
      FromIntValue(x / 2, w - 1);
      assert FromInt(x, w)[1..] == FromInt(x / 2, w - 1);
      ModDouble(x, Pow2(w - 1));
    }
  }

  lemma ModDouble(x: int, p: nat)
    requires p > 0
    ensures x % (2 * p) == x % 2 + 2 * ((x / 2) % p)
  {
    var h := x / 2;
    assert x == 2 * h + x % 2;
    assert h == p * (h / p) + h % p;
    var r := x % 2 + 2 * (h % p);
    assert x == (2 * p) * (h / p) + r;
    assert 0 <= r < 2 * p;
    DivUnique(x, 2 * p, h / p, r);
  }

  lemma DivUnique(x: int, d: int, q: int, r: int)
    requires d > 0 && x == d * q + r && 0 <= r < d
    ensures x / d == q && x % d == r
  {
    var q' := x / d;
    if q < q' { MulLe(d, q + 1, q'); }
    if q' < q { MulLe(d, q' + 1, q); }
  }

  lemma MulLe(d: nat, a: int, b: int)
    requires a <= b
    ensures d * a <= d * b
  {
    assert d * b - d * a == d * (b - a);
  }

  lemma {:induction false} ToNatBound(b: Bits)
    ensures ToNat(b) < Pow2(|b|)
  {
    if b != [] { ToNatBound(b[1..]); }
  }

  // The bits of a register and its value as a number determine each other.
  lemma {:induction false} FromToNat(b: Bits)
    ensures FromInt(ToNat(b), |b|) == b
  {
    if b != [] {
      FromToNat(b[1..]);
      assert ToNat(b) / 2 == ToNat(b[1..]);
    }
  }

  // Reading a field is shifting and masking the register's value.
  lemma {:induction false} GetBfIsShiftMask(v: Bits, o: nat, w: nat)
    requires o + w <= |v|
    ensures GetBf(v, o, w) == (ToNat(v) / Pow2(o)) % Pow2(w)
    decreases o
  {
    if o == 0 {
      FromIntValue(ToNat(v), w);
      FromIntPrefix(v, w);
      assert ToNat(v) / 1 == ToNat(v);
    } else {
      GetBfIsShiftMask(v[1..], o - 1, w);
      var bf, bf' := v[o..o + w], v[1..][o - 1..o - 1 + w];
      assert forall i :: 0 <= i < w ==> bf'[i] == bf[i];
      assert bf' == bf;
      DivDouble(ToNat(v), Pow2(o - 1));
      assert ToNat(v) / 2 == ToNat(v[1..]);
    }
  }

  lemma {:induction false} FromIntPrefix(v: Bits, w: nat)
    requires w <= |v|
    ensures FromInt(ToNat(v), w) == v[..w]
  {
    if w > 0 {
      FromIntPrefix(v[1..], w - 1);
      assert ToNat(v) / 2 == ToNat(v[1..]);
      assert v[..w] == [v[0]] + v[1..][..w - 1];
    }
  }

  lemma DivDouble(x: nat, p: nat)
    requires p > 0
    ensures x / (2 * p) == x / 2 / p
  {
    var h := x / 2;
    assert x == 2 * h + x % 2;
    assert h == p * (h / p) + h % p;
    DivUnique(x, 2 * p, h / p, x % 2 + 2 * (h % p));
  }

  // Assigning a field and reading it gives the value modulo two to its width; every field that lies
  // elsewhere reads as before.
  lemma AssThenGet(v: Bits, o: nat, w: nat, x: int)
    requires o + w <= |v|
    ensures GetBf(AssBf(v, o, w, x), o, w) == x % Pow2(w)
    ensures forall p: nat, u: nat :: p + u <= |v| && (p + u <= o || o + w <= p) ==>
              GetBf(AssBf(v, o, w, x), p, u) == GetBf(v, p, u)
  {
    var v' := AssBf(v, o, w, x);
    assert v'[o..o + w] == FromInt(x, w);
    FromIntValue(x, w);
    forall p: nat, u: nat | p + u <= |v| && (p + u <= o || o + w <= p)
      ensures GetBf(v', p, u) == GetBf(v, p, u)
    {
      assert v'[p..p + u] == v[p..p + u];
    }
  }

  // A register defined by MT_REG_BF_DEF_UNION whose widths fill it, on either kind of machine.
  class Register {
    const little: bool
    const fs: Fields
    var v: nat

    ghost predicate Valid()
      reads this
    {
      v < Pow2(Sum(fs))
    }

    function Field(k: nat): nat
      requires k < |fs| && Valid()
      reads this
    {
      FieldIn(little, fs, v, k)
    }

    constructor (little: bool, fs: Fields)
      ensures Valid() && this.little == little && this.fs == fs && v == 0
    {
      this.little := little;
      this.fs := fs;
      v := 0;
    }

    // MT_CHIP_ASS_BF: whatever the machine, field k takes the value modulo its width and no other changes.
    method AssBF(k: nat, x: int)
      requires Valid() && k < |fs|
      modifies this
      ensures Valid()
      ensures Field(k) == x % Pow2(fs[k])
      ensures forall j :: 0 <= j < |fs| && j != k ==> Field(j) == old(Field(j))
    {
      FieldBounds(little, fs, k);
      var tmp := FromInt(v, Sum(fs));
      var o := Offset(little, fs, Sum(fs), k);
      tmp := AssBf(tmp, o, fs[k], x);
      AssThenGet(FromInt(v, Sum(fs)), o, fs[k], x);
      ToNatBound(tmp);
      FromToNat(tmp);
      forall j | 0 <= j < |fs| && j != k
        ensures FieldIn(little, fs, ToNat(tmp), j) == FieldIn(little, fs, v, j)
      {
        FieldBounds(little, fs, j);
        FieldsApart(little, fs, if j < k then j else k, if j < k then k else j);
      }
      v := ToNat(tmp);
    }
  }

  lemma FieldBounds(little: bool, fs: Fields, k: nat)
    requires k < |fs|
    ensures 0 <= Offset(little, fs, Sum(fs), k) && Offset(little, fs, Sum(fs), k) + fs[k] <= Sum(fs)
  {
    LowBit(little, fs, k);
    Tail(fs, k);
    SumSplit(fs, k);
  }

  function FieldIn(little: bool, fs: Fields, v: nat, k: nat): nat
    requires k < |fs|
  {
    FieldBounds(little, fs, k);
    GetBf(FromInt(v, Sum(fs)), Offset(little, fs, Sum(fs), k), fs[k])
  }
}
