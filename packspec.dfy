/**
 * Reference definitions for packs and masks, stated on values and lane by
 * lane from the front of the pack (head and tail), independently of the
 * index loops that the operations in module Psimd run. A pack of width W is a
 * sequence of W lanes; a mask is a pack of `int` lanes where zero is false
 * and any other value is true.
 */
module PackSpec {
  import opened CInt

  /** `mask<W>` is `pack<int, W>` used for truth values. */
  type Mask = seq<int32>

  /** The `bool` to `int` conversion of a comparison result stored in a mask lane. */
  function BoolLane(b: bool): (x: int32)
    ensures (x != 0) == b
    ensures x == 0 || x == 1
  {
    if b then 1 else 0
  }

  /** Some lane of the mask is true. */
  predicate SomeActive(m: Mask) {
    exists i :: 0 <= i < |m| && m[i] != 0
  }

  /** Every lane of the mask is true. */
  predicate EveryActive(m: Mask) {
    forall i :: 0 <= i < |m| ==> m[i] != 0
  }

  /** Lane `i` comes from `t` where the mask is true and from `f` elsewhere. */
  function Blend<T>(m: Mask, t: seq<T>, f: seq<T>): (r: seq<T>)
    requires |m| == |t| == |f|
    ensures |r| == |m|
  {
    if m == [] then []
    else [if m[0] != 0 then t[0] else f[0]] + Blend(m[1..], t[1..], f[1..])
  }

  /** Every lane replaced by `fn` of its value. */
  function MapAll<T>(s: seq<T>, fn: T -> T): (r: seq<T>)
    ensures |r| == |s|
  {
    if s == [] then [] else [fn(s[0])] + MapAll(s[1..], fn)
  }

  /** The lanes where the mask is true replaced by `fn` of their value. */
  function MapActive<T>(m: Mask, s: seq<T>, fn: T -> T): (r: seq<T>)
    requires |m| == |s|
    ensures |r| == |s|
  {
    if s == [] then []
    else [if m[0] != 0 then fn(s[0]) else s[0]] + MapActive(m[1..], s[1..], fn)
  }

  lemma {:induction false} BlendAt<T>(m: Mask, t: seq<T>, f: seq<T>, i: int)
    requires |m| == |t| == |f|
    requires 0 <= i < |m|
    ensures Blend(m, t, f)[i] == if m[i] != 0 then t[i] else f[i]
  {
    if i > 0 {
      BlendAt(m[1..], t[1..], f[1..], i - 1);
    }
  }

  lemma {:induction false} MapAllAt<T>(s: seq<T>, fn: T -> T, i: int)
    requires 0 <= i < |s|
    ensures MapAll(s, fn)[i] == fn(s[i])
  {
    if i > 0 {
      MapAllAt(s[1..], fn, i - 1);
    }
  }

  lemma {:induction false} MapActiveAt<T>(m: Mask, s: seq<T>, fn: T -> T, i: int)
    requires |m| == |s|
    requires 0 <= i < |s|
    ensures MapActive(m, s, fn)[i] == if m[i] != 0 then fn(s[i]) else s[i]
  {
    if i > 0 {
      MapActiveAt(m[1..], s[1..], fn, i - 1);
    }
  }

  /** Selecting between a pack and itself gives that pack, whatever the mask. */
  lemma {:induction false} BlendSame<T>(m: Mask, t: seq<T>)
    requires |m| == |t|
    ensures Blend(m, t, t) == t
  {
    if m != [] {
      BlendSame(m[1..], t[1..]);
    }
  }

  /** An all-true mask selects the first pack, an all-false mask the second. */
  lemma {:induction false} BlendUniform<T>(m: Mask, t: seq<T>, f: seq<T>)
    requires |m| == |t| == |f|
    ensures EveryActive(m) ==> Blend(m, t, f) == t
    ensures !SomeActive(m) ==> Blend(m, t, f) == f
  {
    if m != [] {
      BlendUniform(m[1..], t[1..], f[1..]);
      assert EveryActive(m) ==> EveryActive(m[1..]) by {
        if EveryActive(m) {
          forall i | 0 <= i < |m[1..]| ensures m[1..][i] != 0 {
            assert m[1..][i] == m[i + 1];
          }
        }
      }
      assert !SomeActive(m) ==> !SomeActive(m[1..]) by {
        if SomeActive(m[1..]) {
          var i :| 0 <= i < |m[1..]| && m[1..][i] != 0;
          assert m[i + 1] != 0;
        }
      }
      assert EveryActive(m) ==> m[0] != 0;
      assert !SomeActive(m) ==> m[0] == 0;
    }
  }

  /** Transforming the active lanes is selecting, by the mask, between the transformed pack and the original. */
  lemma {:induction false} MapActiveIsBlend<T>(m: Mask, s: seq<T>, fn: T -> T)
    requires |m| == |s|
    ensures MapActive(m, s, fn) == Blend(m, MapAll(s, fn), s)
  {
    if s != [] {
      MapActiveIsBlend(m[1..], s[1..], fn);
      assert MapAll(s, fn)[1..] == MapAll(s[1..], fn);
    }
  }

  /** Under an all-true mask the masked transform is the plain one; under an all-false mask it changes nothing. */
  lemma MapActiveUniform<T>(m: Mask, s: seq<T>, fn: T -> T)
    requires |m| == |s|
    ensures EveryActive(m) ==> MapActive(m, s, fn) == MapAll(s, fn)
    ensures !SomeActive(m) ==> MapActive(m, s, fn) == s
  {
    MapActiveIsBlend(m, s, fn);
    BlendUniform(m, MapAll(s, fn), s);
  }

  /** A mask has at least one lane, so when all lanes are true some lane is. */
  lemma AllImpliesAny(m: Mask)
    requires |m| > 0
    ensures EveryActive(m) ==> SomeActive(m)
  {
    if EveryActive(m) {
      assert m[0] != 0;
    }
  }

  /** A mask with a false lane and a true lane has `any` true and `all` false. */
  lemma MixedMask(m: Mask, i: int, j: int)
    requires 0 <= i < |m| && 0 <= j < |m|
    requires m[i] == 0 && m[j] != 0
    ensures SomeActive(m) && !EveryActive(m)
  {
  }

  /** An all-zero mask has no true lane. */
  lemma ZeroMaskInactive(m: Mask)
    requires forall i :: 0 <= i < |m| ==> m[i] == 0
    ensures !SomeActive(m)
    ensures |m| > 0 ==> !EveryActive(m)
  {
    if |m| > 0 {
      assert m[0] == 0;
    }
  }
}
