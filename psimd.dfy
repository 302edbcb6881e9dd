/**
 * The pack/mask engine of psimd: `pack<T, W>`, a fixed-width array of W
 * lanes of one scalar type, with lane-wise arithmetic and comparison, the
 * reductions `any` and `all`, `select`, and the in-place transforms `foreach`
 * and `foreach_active`.
 *
 * A pack taken by const reference or returned by value is a sequence of
 * lanes. Each pack-returning lane-wise operation fills a local result array
 * one lane per loop iteration, as the header does, and returns its contents;
 * the scalar-left forms delegate to another operator, as the header does. A
 * pack taken by mutable reference (`pack &`) is the caller's storage, an
 * array that `foreach` and `foreach_active` update in place, and `any` and
 * `all` update a `bool` accumulator. Reading lane `i` (the const `operator[]`) is sequence
 * indexing `p[i]`. Integer lanes are C++ `int` (`int32` of module CInt); a
 * lane result that overflows is undefined behaviour in C++, so each
 * arithmetic operation requires that no lane overflows.
 */
module Psimd {
  import opened CInt
  import opened PackSpec

  /** The width of `pack<T>` when none is given. */
  const DefaultWidth: nat := 8

  // Construction and element access

  /** `pack()`: a pack of W lanes whose values are unspecified. */
  method Uninitialized<T(0)>(w: nat) returns (p: seq<T>)
    ensures |p| == w
  {
    var data := new T[w];
    p := data[..];
  }

  /** `pack(value)`: every lane holds `value`. */
  method Broadcast<T(0)>(value: T, w: nat) returns (p: seq<T>)
    ensures |p| == w
    ensures forall i :: 0 <= i < w ==> p[i] == value
  {
    var data := new T[w];
    for i := 0 to w
      invariant forall k :: 0 <= k < i ==> data[k] == value
    {
      data[i] := value;
    }
    p := data[..];
  }

  /** Writing lane `i` through the reference the mutable `operator[]` returns. */
  method SetLane<T>(p: array<T>, i: int, value: T)
    requires 0 <= i < p.Length
    modifies p
    ensures p[..] == old(p[..])[i := value]
  {
    p[i] := value;
  }

  // operator+()

  method Add(p1: seq<int32>, p2: seq<int32>) returns (r: seq<int32>)
    requires |p1| == |p2|
    requires forall i :: 0 <= i < |p1| ==> Fits(p1[i] as int + p2[i] as int)
    ensures |r| == |p1|
    ensures forall i :: 0 <= i < |r| ==> r[i] as int == p1[i] as int + p2[i] as int
  {
    var result := new int32[|p1|];
    for i := 0 to |p1|
      invariant forall k :: 0 <= k < i ==> result[k] as int == p1[k] as int + p2[k] as int
    {
      result[i] := p1[i] + p2[i];
    }
    r := result[..];
  }

  method AddScalar(p: seq<int32>, v: int32) returns (r: seq<int32>)
    requires forall i :: 0 <= i < |p| ==> Fits(p[i] as int + v as int)
    ensures |r| == |p|
    ensures forall i :: 0 <= i < |r| ==> r[i] as int == p[i] as int + v as int
  {
    var result := new int32[|p|];
    for i := 0 to |p|
      invariant forall k :: 0 <= k < i ==> result[k] as int == p[k] as int + v as int
    {
      result[i] := p[i] + v;
    }
    r := result[..];
  }

  /** `v + p` is computed as `p + v`. */
  method ScalarAdd(v: int32, p: seq<int32>) returns (r: seq<int32>)
    requires forall i :: 0 <= i < |p| ==> Fits(p[i] as int + v as int)
    ensures |r| == |p|
    ensures forall i :: 0 <= i < |r| ==> r[i] as int == p[i] as int + v as int
  {
    r := AddScalar(p, v);
  }

  // operator-()

  method Sub(p1: seq<int32>, p2: seq<int32>) returns (r: seq<int32>)
    requires |p1| == |p2|
    requires forall i :: 0 <= i < |p1| ==> Fits(p1[i] as int - p2[i] as int)
    ensures |r| == |p1|
    ensures forall i :: 0 <= i < |r| ==> r[i] as int == p1[i] as int - p2[i] as int
  {
    var result := new int32[|p1|];
    for i := 0 to |p1|
      invariant forall k :: 0 <= k < i ==> result[k] as int == p1[k] as int - p2[k] as int
    {
      result[i] := p1[i] - p2[i];
    }
    r := result[..];
  }

  method SubScalar(p: seq<int32>, v: int32) returns (r: seq<int32>)
    requires forall i :: 0 <= i < |p| ==> Fits(p[i] as int - v as int)
    ensures |r| == |p|
    ensures forall i :: 0 <= i < |r| ==> r[i] as int == p[i] as int - v as int
  {
    var result := new int32[|p|];
    for i := 0 to |p|
      invariant forall k :: 0 <= k < i ==> result[k] as int == p[k] as int - v as int
    {
      result[i] := p[i] - v;
    }
    r := result[..];
  }

  /** `v - p` is computed as `pack(v) - p`: the scalar stays the left operand. */
  method ScalarSub(v: int32, p: seq<int32>) returns (r: seq<int32>)
    requires forall i :: 0 <= i < |p| ==> Fits(v as int - p[i] as int)
    ensures |r| == |p|
    ensures forall i :: 0 <= i < |r| ==> r[i] as int == v as int - p[i] as int
  {
    var b := Broadcast(v, |p|);
    r := Sub(b, p);
  }

  // operator*()

  method Mul(p1: seq<int32>, p2: seq<int32>) returns (r: seq<int32>)
    requires |p1| == |p2|
    requires forall i :: 0 <= i < |p1| ==> Fits(p1[i] as int * p2[i] as int)
    ensures |r| == |p1|
    ensures forall i :: 0 <= i < |r| ==> r[i] as int == p1[i] as int * p2[i] as int
  {
    var result := new int32[|p1|];
    for i := 0 to |p1|
      invariant forall k :: 0 <= k < i ==> result[k] as int == p1[k] as int * p2[k] as int
    {
      result[i] := p1[i] * p2[i];
    }
    r := result[..];
  }

  method MulScalar(p: seq<int32>, v: int32) returns (r: seq<int32>)
    requires forall i :: 0 <= i < |p| ==> Fits(p[i] as int * v as int)
    ensures |r| == |p|
    ensures forall i :: 0 <= i < |r| ==> r[i] as int == p[i] as int * v as int
  {
    var result := new int32[|p|];
    for i := 0 to |p|
      invariant forall k :: 0 <= k < i ==> result[k] as int == p[k] as int * v as int
    {
      result[i] := p[i] * v;
    }
    r := result[..];
  }

  /** `v * p` is computed as `p * v`. */
  method ScalarMul(v: int32, p: seq<int32>) returns (r: seq<int32>)
    requires forall i :: 0 <= i < |p| ==> Fits(p[i] as int * v as int)
    ensures |r| == |p|
    ensures forall i :: 0 <= i < |r| ==> r[i] as int == p[i] as int * v as int
  {
    r := MulScalar(p, v);
  }

  // operator/()

  method Div(p1: seq<int32>, p2: seq<int32>) returns (r: seq<int32>)
    requires |p1| == |p2|
    requires forall i :: 0 <= i < |p1| ==> p2[i] != 0 && !(p1[i] as int == IntMin && p2[i] == -1)
    ensures |r| == |p1|
    ensures forall i :: 0 <= i < |r| ==> r[i] as int == Quot(p1[i] as int, p2[i] as int)
  {
    var result := new int32[|p1|];
    for i := 0 to |p1|
      invariant forall k :: 0 <= k < i ==> result[k] as int == Quot(p1[k] as int, p2[k] as int)
    {
      result[i] := DivLane(p1[i], p2[i]);
    }
    r := result[..];
  }

  method DivScalar(p: seq<int32>, v: int32) returns (r: seq<int32>)
    requires v != 0
    requires v == -1 ==> forall i :: 0 <= i < |p| ==> p[i] as int != IntMin
    ensures |r| == |p|
    ensures forall i :: 0 <= i < |r| ==> r[i] as int == Quot(p[i] as int, v as int)
  {
    var result := new int32[|p|];
    for i := 0 to |p|
      invariant forall k :: 0 <= k < i ==> result[k] as int == Quot(p[k] as int, v as int)
    {
      result[i] := DivLane(p[i], v);
    }
    r := result[..];
  }

  /** `v / p` is computed as `pack(v) / p`: the scalar stays the dividend. */
  method ScalarDiv(v: int32, p: seq<int32>) returns (r: seq<int32>)
    requires forall i :: 0 <= i < |p| ==> p[i] != 0 && !(v as int == IntMin && p[i] == -1)
    ensures |r| == |p|
    ensures forall i :: 0 <= i < |r| ==> r[i] as int == Quot(v as int, p[i] as int)
  {
    var b := Broadcast(v, |p|);
    r := Div(b, p);
  }

  // operator%()

  method Mod(p1: seq<int32>, p2: seq<int32>) returns (r: seq<int32>)
    requires |p1| == |p2|
    requires forall i :: 0 <= i < |p1| ==> p2[i] != 0 && !(p1[i] as int == IntMin && p2[i] == -1)
    ensures |r| == |p1|
    ensures forall i :: 0 <= i < |r| ==> r[i] as int == Rem(p1[i] as int, p2[i] as int)
  {
    var result := new int32[|p1|];
    for i := 0 to |p1|
      invariant forall k :: 0 <= k < i ==> result[k] as int == Rem(p1[k] as int, p2[k] as int)
    {
      result[i] := ModLane(p1[i], p2[i]);
    }
    r := result[..];
  }

  method ModScalar(p: seq<int32>, v: int32) returns (r: seq<int32>)
    requires v != 0
    requires v == -1 ==> forall i :: 0 <= i < |p| ==> p[i] as int != IntMin
    ensures |r| == |p|
    ensures forall i :: 0 <= i < |r| ==> r[i] as int == Rem(p[i] as int, v as int)
  {
    var result := new int32[|p|];
    for i := 0 to |p|
      invariant forall k :: 0 <= k < i ==> result[k] as int == Rem(p[k] as int, v as int)
    {
      result[i] := ModLane(p[i], v);
    }
    r := result[..];
  }

  /** `v % p` is computed as `pack(v) % p`: the scalar stays the dividend. */
  method ScalarMod(v: int32, p: seq<int32>) returns (r: seq<int32>)
    requires forall i :: 0 <= i < |p| ==> p[i] != 0 && !(v as int == IntMin && p[i] == -1)
    ensures |r| == |p|
    ensures forall i :: 0 <= i < |r| ==> r[i] as int == Rem(v as int, p[i] as int)
  {
    var b := Broadcast(v, |p|);
    r := Mod(b, p);
  }

  // operator==()

  /** Lane `i` of the mask is 1 where the lanes are equal and 0 elsewhere, so `all(p1 == p2)` is pack equality. */
  method Equal<T(==)>(p1: seq<T>, p2: seq<T>) returns (r: Mask)
    requires |p1| == |p2|
    ensures |r| == |p1|
    ensures forall i :: 0 <= i < |r| ==> r[i] == BoolLane(p1[i] == p2[i])
    ensures EveryActive(r) <==> p1 == p2
  {
    var result := new int32[|p1|];
    for i := 0 to |p1|
      invariant forall k :: 0 <= k < i ==> result[k] == BoolLane(p1[k] == p2[k])
    {
      result[i] := BoolLane(p1[i] == p2[i]);
    }
    r := result[..];
    if EveryActive(r) {
      assert forall k :: 0 <= k < |p1| ==> p1[k] == p2[k] by {
        forall k | 0 <= k < |p1| ensures p1[k] == p2[k] {
          assert r[k] != 0;
        }
      }
    }
  }

  method EqualScalar<T(==)>(p: seq<T>, v: T) returns (r: Mask)
    ensures |r| == |p|
    ensures forall i :: 0 <= i < |r| ==> r[i] == BoolLane(p[i] == v)
    ensures EveryActive(r) <==> forall i :: 0 <= i < |p| ==> p[i] == v
  {
    var result := new int32[|p|];
    for i := 0 to |p|
      invariant forall k :: 0 <= k < i ==> result[k] == BoolLane(p[k] == v)
    {
      result[i] := BoolLane(p[i] == v);
    }
    r := result[..];
  }

  /** `v == p` is computed as `p == v`. */
  method ScalarEqual<T(==)>(v: T, p: seq<T>) returns (r: Mask)
    ensures |r| == |p|
    ensures forall i :: 0 <= i < |r| ==> r[i] == BoolLane(p[i] == v)
    ensures EveryActive(r) <==> forall i :: 0 <= i < |p| ==> p[i] == v
  {
    r := EqualScalar(p, v);
  }

  // operator!=()

  /** The lane-wise complement of `==`, so `any(p1 != p2)` is pack inequality. */
  method NotEqual<T(==)>(p1: seq<T>, p2: seq<T>) returns (r: Mask)
    requires |p1| == |p2|
    ensures |r| == |p1|
    ensures forall i :: 0 <= i < |r| ==> r[i] == BoolLane(p1[i] != p2[i])
    ensures forall i :: 0 <= i < |r| ==> r[i] == 1 - BoolLane(p1[i] == p2[i])
    ensures SomeActive(r) <==> p1 != p2
  {
    var result := new int32[|p1|];
    for i := 0 to |p1|
      invariant forall k :: 0 <= k < i ==> result[k] == BoolLane(p1[k] != p2[k])
    {
      result[i] := BoolLane(p1[i] != p2[i]);
    }
    r := result[..];
    if p1 != p2 {
      var k :| 0 <= k < |p1| && p1[k] != p2[k];
      assert r[k] != 0;
    }
  }

  method NotEqualScalar<T(==)>(p: seq<T>, v: T) returns (r: Mask)
    ensures |r| == |p|
    ensures forall i :: 0 <= i < |r| ==> r[i] == BoolLane(p[i] != v)
    ensures forall i :: 0 <= i < |r| ==> r[i] == 1 - BoolLane(p[i] == v)
    ensures SomeActive(r) <==> exists i :: 0 <= i < |p| && p[i] != v
  {
    var result := new int32[|p|];
    for i := 0 to |p|
      invariant forall k :: 0 <= k < i ==> result[k] == BoolLane(p[k] != v)
    {
      result[i] := BoolLane(p[i] != v);
    }
    r := result[..];
  }

  /** `v != p` is computed as `p != v`. */
  method ScalarNotEqual<T(==)>(v: T, p: seq<T>) returns (r: Mask)
    ensures |r| == |p|
    ensures forall i :: 0 <= i < |r| ==> r[i] == BoolLane(p[i] != v)
    ensures SomeActive(r) <==> exists i :: 0 <= i < |p| && p[i] != v
  {
    r := NotEqualScalar(p, v);
  }

  // Math functions

  /** `abs` on `int` lanes; `std::abs(INT_MIN)` is undefined. */
  method Abs(p: seq<int32>) returns (r: seq<int32>)
    requires forall i :: 0 <= i < |p| ==> p[i] as int != IntMin
    ensures |r| == |p|
    ensures forall i :: 0 <= i < |r| ==> r[i] as int == AbsInt(p[i] as int)
  {
    var result := new int32[|p|];
    for i := 0 to |p|
      invariant forall k :: 0 <= k < i ==> result[k] as int == AbsInt(p[k] as int)
    {
      result[i] := if p[i] < 0 then -p[i] else p[i];
    }
    r := result[..];
  }

  // Algorithms

  /** `foreach(p, fcn)`: every lane of the caller's pack replaced by `fcn` of its value. */
  method Foreach<T>(p: array<T>, fcn: T -> T)
    modifies p
    ensures p[..] == MapAll(old(p[..]), fcn)
  {
    ghost var before := p[..];
    for i := 0 to p.Length
      invariant forall k :: 0 <= k < i ==> p[k] == fcn(before[k])
      invariant forall k :: i <= k < p.Length ==> p[k] == before[k]
    {
      p[i] := fcn(p[i]);
    }
    forall k | 0 <= k < p.Length ensures p[..][k] == MapAll(before, fcn)[k] {
      MapAllAt(before, fcn, k);
    }
  }

  /** `foreach_active(m, p, fcn)`: `fcn` applied exactly to the lanes where `m` is true. */
  method ForeachActive<T>(m: Mask, p: array<T>, fcn: T -> T)
    requires |m| == p.Length
    modifies p
    ensures p[..] == MapActive(m, old(p[..]), fcn)
  {
    ghost var before := p[..];
    for i := 0 to p.Length
      invariant forall k :: 0 <= k < i ==> p[k] == if m[k] != 0 then fcn(before[k]) else before[k]
      invariant forall k :: i <= k < p.Length ==> p[k] == before[k]
    {
      if m[i] != 0 {
        p[i] := fcn(p[i]);
      }
    }
    forall k | 0 <= k < p.Length ensures p[..][k] == MapActive(m, before, fcn)[k] {
      MapActiveAt(m, before, fcn, k);
    }
  }

  /** `any(m)`: some lane of the mask is true. */
  method Any(m: Mask) returns (result: bool)
    ensures result == SomeActive(m)
  {
    result := false;
    for i := 0 to |m|
      invariant result == exists k :: 0 <= k < i && m[k] != 0
    {
      if m[i] != 0 {
        result := true;
      }
    }
  }

  /** `all(m)`: every lane of the mask is true. */
  method All(m: Mask) returns (result: bool)
    ensures result == EveryActive(m)
  {
    result := true;
    for i := 0 to |m|
      invariant result == forall k :: 0 <= k < i ==> m[k] != 0
    {
      if m[i] == 0 {
        result := false;
      }
    }
  }

  /** `select(m, t, f)`: lane `i` from `t` where `m` is true and from `f` elsewhere. */
  method Select<T(0)>(m: Mask, t: seq<T>, f: seq<T>) returns (r: seq<T>)
    requires |m| == |t| == |f|
    ensures |r| == |m|
    ensures forall i :: 0 <= i < |r| ==> r[i] == if m[i] != 0 then t[i] else f[i]
    ensures r == Blend(m, t, f)
  {
    var result := new T[|m|];
    for i := 0 to |m|
      invariant forall k :: 0 <= k < i ==> result[k] == if m[k] != 0 then t[k] else f[k]
    {
      if m[i] != 0 {
        result[i] := t[i];
      } else {
        result[i] := f[i];
      }
    }
    r := result[..];
    forall k | 0 <= k < |m| ensures r[k] == Blend(m, t, f)[k] {
      BlendAt(m, t, f, k);
    }
  }
}
