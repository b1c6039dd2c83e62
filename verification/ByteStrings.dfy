/** Byte strings of a length, counted: a set can be told apart by them iff it is not larger. */
module ByteStrings {
  import opened Common

  predicate Injective<T(!new), U(==)>(f: T -> U, xs: set<T>) {
    forall x, y :: x in xs && y in xs && f(x) == f(y) ==> x == y
  }

  /** The number of byte strings of a length. */
  function Strings(len: nat): nat {
    if len == 0 then 1 else 256 * Strings(len - 1)
  }

  function ToBytes(v: nat, len: nat): (b: Bytes)
    ensures |b| == len
  {
    if len == 0 then [] else [(v % 256) as byte] + ToBytes(v / 256, len - 1)
  }

  function ToNat(b: Bytes): nat {
    if b == [] then 0 else b[0] as nat + 256 * ToNat(b[1..])
  }

  lemma {:induction false} ToNatBounded(b: Bytes)
    ensures ToNat(b) < Strings(|b|)
  {
    if b != [] { ToNatBounded(b[1..]); }
  }

  lemma {:induction false} ToNatInjective(b: Bytes, c: Bytes)
    requires |b| == |c| && ToNat(b) == ToNat(c)
    ensures b == c
  {
    if b != [] {
      ToNatInjective(b[1..], c[1..]);
      assert b == [b[0]] + b[1..] && c == [c[0]] + c[1..];
    }
  }

  lemma {:induction false} ToBytesRoundTrip(v: nat, len: nat)
    requires v < Strings(len)
    ensures ToNat(ToBytes(v, len)) == v
  {
    if len > 0 {
      ToBytesRoundTrip(v / 256, len - 1);
      assert ToBytes(v, len)[1..] == ToBytes(v / 256, len - 1);
    }
  }

  /** The elements of a set, numbered from 0. */
  lemma {:induction false} Numbered<T>(xs: set<T>) returns (number: map<T, nat>)
    ensures number.Keys == xs
    ensures forall x :: x in xs ==> number[x] < |xs|
    ensures forall x, y :: x in xs && y in xs && number[x] == number[y] ==> x == y
    decreases |xs|
  {
    if xs == {} {
      number := map[];
    } else {
      var x :| x in xs;
      var before := Numbered(xs - {x});
      number := before[x := |xs| - 1];
    }
  }

  /** A way to tell the elements of a set apart by strings of a length. */
  lemma Written<T(!new)>(xs: set<T>, len: nat) returns (f: T -> Bytes)
    requires |xs| <= Strings(len)
    ensures Injective(f, xs) && forall x :: |f(x)| == len
  {
    var number := Numbered(xs);
    f := x => ToBytes(if x in number then number[x] else 0, len);
    forall x, y | x in xs && y in xs && f(x) == f(y) ensures x == y {
      ToBytesRoundTrip(number[x], len);
      ToBytesRoundTrip(number[y], len);
    }
  }

  lemma {:induction false} Pigeonhole(xs: set<nat>, n: nat)
    requires forall x :: x in xs ==> x < n
    ensures |xs| <= n
  {
    if n > 0 {
      Pigeonhole(xs - {n - 1}, n - 1);
    } else {
      assert xs == {};
    }
  }

  /** No more elements than strings can be told apart. */
  lemma NoMoreThanStrings<T(!new)>(f: T -> Bytes, xs: set<T>, len: nat)
    requires Injective(f, xs) && forall x :: x in xs ==> |f(x)| == len
    ensures |xs| <= Strings(len)
  {
    var values := set x | x in xs :: ToNat(f(x));
    forall x | x in xs ensures ToNat(f(x)) < Strings(len) { ToNatBounded(f(x)); }
    Pigeonhole(values, Strings(len));
    forall x, y | x in xs && y in xs && ToNat(f(x)) == ToNat(f(y)) ensures x == y {
      ToNatInjective(f(x), f(y));
    }
    SameSize(x => ToNat(f(x)), xs, values);
  }

  lemma {:induction false} SameSize<T(!new)>(f: T -> nat, xs: set<T>, values: set<nat>)
    requires Injective(f, xs) && values == set x | x in xs :: f(x)
    ensures |xs| == |values|
    decreases |xs|
  {
    if xs != {} {
      var x :| x in xs;
      var fewer := set y | y in xs - {x} :: f(y);
      SameSize(f, xs - {x}, fewer);
      assert values == fewer + {f(x)};
    }
  }
}
