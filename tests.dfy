/**
 * The integer test cases of the pack test suite, as methods whose
 * postconditions are the checks the suite makes. Tests written there with
 * `float` lanes and whole-number values (addition, subtraction,
 * multiplication, foreach) are stated here with `int` lanes.
 */
module PsimdTests {
  import opened CInt
  import opened PackSpec
  import opened Psimd

  /** A local pack variable whose lanes the test writes through `operator[]`. */
  method Local(p: seq<int32>) returns (a: array<int32>)
    ensures fresh(a) && a[..] == p
  {
    a := new int32[|p|](i requires 0 <= i < |p| => p[i]);
  }

  /** `binary operator+()` with `int` lanes: `v1 + v2`, `v1 + 2` and `2 + v1` are all `pack(3)`. */
  method AdditionTest() returns (packPack: bool, packScalar: bool, scalarPack: bool)
    ensures packPack && packScalar && scalarPack
  {
    var v1 := Broadcast(1 as int32, DefaultWidth);
    var v2 := Broadcast(2 as int32, DefaultWidth);
    var three := Broadcast(3 as int32, DefaultWidth);
    var s := Add(v1, v2);
    var m := Equal(s, three);
    packPack := All(m);
    s := AddScalar(v1, 2);
    m := Equal(s, three);
    packScalar := All(m);
    s := ScalarAdd(2, v1);
    m := Equal(s, three);
    scalarPack := All(m);
  }

  /** `binary operator-()` with `int` lanes: `v1 - v2`, `v1 - 2` and `4 - v1` are `pack(1)`, `pack(0)` and `pack(2)`. */
  method SubtractionTest() returns (packPack: bool, packScalar: bool, scalarPack: bool)
    ensures packPack && packScalar && scalarPack
  {
    var v1 := Broadcast(2 as int32, DefaultWidth);
    var v2 := Broadcast(1 as int32, DefaultWidth);
    var d := Sub(v1, v2);
    var expected := Broadcast(1 as int32, DefaultWidth);
    var m := Equal(d, expected);
    packPack := All(m);
    d := SubScalar(v1, 2);
    expected := Broadcast(0 as int32, DefaultWidth);
    m := Equal(d, expected);
    packScalar := All(m);
    d := ScalarSub(4, v1);
    expected := Broadcast(2 as int32, DefaultWidth);
    m := Equal(d, expected);
    scalarPack := All(m);
  }

  /** `binary operator*()` with `int` lanes: `v1 * v2`, `v1 * 2` and `2 * v1` are `pack(2)`, `pack(4)` and `pack(4)`. */
  method MultiplicationTest() returns (packPack: bool, packScalar: bool, scalarPack: bool)
    ensures packPack && packScalar && scalarPack
  {
    var v1 := Broadcast(2 as int32, DefaultWidth);
    var v2 := Broadcast(1 as int32, DefaultWidth);
    var two := Broadcast(2 as int32, DefaultWidth);
    var four := Broadcast(4 as int32, DefaultWidth);
    var p := Mul(v1, v2);
    var m := Equal(p, two);
    packPack := All(m);
    p := MulScalar(v1, 2);
    m := Equal(p, four);
    packScalar := All(m);
    p := ScalarMul(2, v1);
    m := Equal(p, four);
    scalarPack := All(m);
  }

  /** `binary operator/()`: `v1 / v2`, `v1 / 2` and `8 / v1` are all `pack(2)`. */
  method DivisionTest() returns (packPack: bool, packScalar: bool, scalarPack: bool)
    ensures packPack && packScalar && scalarPack
  {
    var v1 := Broadcast(4 as int32, DefaultWidth);
    var v2 := Broadcast(2 as int32, DefaultWidth);
    var two := Broadcast(2 as int32, DefaultWidth);
    var q := Div(v1, v2);
    var m := Equal(q, two);
    packPack := All(m);
    q := DivScalar(v1, 2);
    m := Equal(q, two);
    packScalar := All(m);
    q := ScalarDiv(8, v1);
    m := Equal(q, two);
    scalarPack := All(m);
  }

  /** `binary operator%()`: `v1 % v2`, `v1 % 8` and `8 % v1` are `pack(1)`, `pack(4)` and `pack(0)` for `v1(4)`, `v2(3)`. */
  method ModuloTest() returns (packPack: bool, packScalar: bool, scalarPack: bool)
    ensures packPack && packScalar && scalarPack
  {
    var v1 := Broadcast(4 as int32, DefaultWidth);
    var v2 := Broadcast(3 as int32, DefaultWidth);
    var r := Mod(v1, v2);
    var expected := Broadcast(1 as int32, DefaultWidth);
    var m := Equal(r, expected);
    packPack := All(m);
    r := ModScalar(v1, 8);
    expected := Broadcast(4 as int32, DefaultWidth);
    m := Equal(r, expected);
    packScalar := All(m);
    r := ScalarMod(8, v1);
    expected := Broadcast(0 as int32, DefaultWidth);
    m := Equal(r, expected);
    scalarPack := All(m);
  }

  /** `binary operator==()`: equal packs compare all-true; after writing lane 0 they do not. */
  method EqualityTest() returns (before: bool, after: bool)
    ensures before && !after
  {
    var v1Init := Broadcast(1 as int32, DefaultWidth);
    var v1 := Local(v1Init);
    var v2 := Broadcast(1 as int32, DefaultWidth);
    var m1 := Equal(v1[..], v2);
    var m2 := ScalarEqual(1 as int32, v1[..]);
    var m3 := EqualScalar(v1[..], 1 as int32);
    var a1 := All(m1);
    var a2 := All(m2);
    var a3 := All(m3);
    before := a1 && a2 && a3;
    SetLane(v1, 0, 2);
    assert v1[..][0] == 2 != v2[0];
    m1 := Equal(v1[..], v2);
    m2 := ScalarEqual(1 as int32, v1[..]);
    m3 := EqualScalar(v1[..], 1 as int32);
    a1 := All(m1);
    a2 := All(m2);
    a3 := All(m3);
    after := a1 || a2 || a3;
  }

  /** The `operator!=()` case: unequal packs compare all-true; after lane 0 is made equal they do not. */
  method InequalityTest() returns (before: bool, after: bool)
    ensures before && !after
  {
    var v1Init := Broadcast(1 as int32, DefaultWidth);
    var v1 := Local(v1Init);
    var v2 := Broadcast(2 as int32, DefaultWidth);
    var m1 := NotEqual(v1[..], v2);
    var m2 := ScalarNotEqual(1 as int32, v2);
    var m3 := NotEqualScalar(v2, 1 as int32);
    var a1 := All(m1);
    var a2 := All(m2);
    var a3 := All(m3);
    before := a1 && a2 && a3;
    SetLane(v1, 0, 2);
    m1 := NotEqual(v1[..], v2);
    assert m1[0] == 0;
    after := All(m1);
  }

  /** `abs()`: `pack(-4)` differs from `pack(4)` lane by lane, and its `abs` equals it. */
  method AbsTest() returns (differs: bool, equals: bool)
    ensures differs && equals
  {
    var v1 := Broadcast(-4 as int32, DefaultWidth);
    var four := Broadcast(4 as int32, DefaultWidth);
    var m := NotEqual(v1, four);
    differs := All(m);
    v1 := Abs(v1);
    m := Equal(v1, four);
    equals := All(m);
  }

  /** `foreach()` with `int` lanes: setting every lane of `pack(0)` to 1 gives `pack(1)`. */
  method ForeachTest() returns (ok: bool)
    ensures ok
  {
    var v1Init := Broadcast(0 as int32, DefaultWidth);
    var v1 := Local(v1Init);
    var v2 := Broadcast(1 as int32, DefaultWidth);
    var setOne: int32 -> int32 := _ => 1;
    Foreach(v1, setOne);
    forall k | 0 <= k < DefaultWidth ensures v1[k] == v2[k] {
      MapAllAt(v1Init, setOne, k);
    }
    var m := Equal(v1[..], v2);
    ok := All(m);
  }

  /** `foreach_active()`: mask `[1,0,1,0]` and "set to 2" on `pack(0)` give `[2,0,2,0]`. */
  method ForeachActiveTest() returns (result: seq<int32>, ok: bool)
    ensures result == [2, 0, 2, 0]
    ensures ok
  {
    var mInit := Broadcast(0 as int32, 4);
    var m := Local(mInit);
    SetLane(m, 0, 1);
    SetLane(m, 2, 1);
    var vInit := Broadcast(0 as int32, 4);
    var v := Local(vInit);
    var expectedInit := Uninitialized(4);
    var expected := Local(expectedInit);
    SetLane(expected, 0, 2);
    SetLane(expected, 1, 0);
    SetLane(expected, 2, 2);
    SetLane(expected, 3, 0);
    var setTwo: int32 -> int32 := _ => 2;
    ForeachActive(m[..], v, setTwo);
    result := v[..];
    forall k | 0 <= k < 4 ensures result[k] == [2, 0, 2, 0][k] {
      MapActiveAt(m[..], vInit, setTwo, k);
    }
    var eq := Equal(result, expected[..]);
    ok := All(eq);
  }

  /** `any()`: the zero mask has no true lane; after lane 0 is set it has one. */
  method AnyTest() returns (before: bool, after: bool)
    ensures !before && after
  {
    var mInit := Broadcast(0 as int32, DefaultWidth);
    var m := Local(mInit);
    before := Any(m[..]);
    SetLane(m, 0, 1);
    assert m[..][0] != 0;
    after := Any(m[..]);
  }

  /** `all()`: neither the zero mask nor one true lane is all-true; setting every lane to 1 is. */
  method AllTest() returns (zero: bool, one: bool, every: bool)
    ensures !zero && !one && every
  {
    var mInit := Broadcast(0 as int32, DefaultWidth);
    var m := Local(mInit);
    zero := All(m[..]);
    assert m[..][0] == 0;
    SetLane(m, 0, 1);
    one := All(m[..]);
    assert m[..][1] == 0;
    ghost var before := m[..];
    var setOne: int32 -> int32 := _ => 1;
    Foreach(m, setOne);
    forall k | 0 <= k < DefaultWidth ensures m[k] != 0 {
      MapAllAt(before, setOne, k);
    }
    every := All(m[..]);
  }

  /** `select()`: mask `[1,0,1,0]`, `t = pack(0)`, `f = pack(2)` gives `[0,2,0,2]`, which differs from both inputs. */
  method SelectTest() returns (result: seq<int32>, ok: bool)
    ensures result == [0, 2, 0, 2]
    ensures ok
  {
    var mInit := Broadcast(0 as int32, 4);
    var m := Local(mInit);
    SetLane(m, 0, 1);
    SetLane(m, 2, 1);
    var v1 := Broadcast(0 as int32, 4);
    var v2 := Broadcast(2 as int32, 4);
    var ne := NotEqual(v1, v2);
    var distinct := All(ne);
    result := Select(m[..], v1, v2);
    var expectedInit := Uninitialized(4);
    var expected := Local(expectedInit);
    SetLane(expected, 0, 0);
    SetLane(expected, 1, 2);
    SetLane(expected, 2, 0);
    SetLane(expected, 3, 2);
    var eq := Equal(result, expected[..]);
    var matches := All(eq);
    var ne1 := NotEqual(v1, expected[..]);
    var ne2 := NotEqual(v2, expected[..]);
    var d1 := Any(ne1);
    var d2 := Any(ne2);
    ok := distinct && matches && d1 && d2;
  }
}
