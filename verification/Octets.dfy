/** Bytes, big-endian 32-bit words and concatenation of byte strings. */
module Octets {
  type Byte = x: int | 0 <= x < 0x100
  type Bytes = seq<Byte>

  const TWO_32 := 0x1_0000_0000
  const MAX_UINT32 := 0xFFFF_FFFF

  /** binary.BigEndian.PutUint32. */
  function PutUint32(n: nat): (b: Bytes)
    requires n < TWO_32
    ensures |b| == 4
  {
    var high, low := n / 0x10000, n % 0x10000;
    [high / 0x100, high % 0x100, low / 0x100, low % 0x100]
  }

  /** binary.BigEndian.Uint32. */
  function Uint32(b: Bytes): (n: nat)
    requires |b| == 4
    ensures n < TWO_32
  {
    var b0: int, b1: int, b2: int, b3: int := b[0], b[1], b[2], b[3];
    (b0 * 0x100 + b1) * 0x10000 + (b2 * 0x100 + b3)
  }

  lemma Uint32InvertsPut(n: nat)
    requires n < TWO_32
    ensures Uint32(PutUint32(n)) == n
  {
    var high, low := n / 0x10000, n % 0x10000;
    assert high / 0x100 * 0x100 + high % 0x100 == high;
    assert low / 0x100 * 0x100 + low % 0x100 == low;
  }

  lemma PutInvertsUint32(b: Bytes)
    requires |b| == 4
    ensures PutUint32(Uint32(b)) == b
  {
    var b0: int, b1: int, b2: int, b3: int := b[0], b[1], b[2], b[3];
    var high, low := b0 * 0x100 + b1, b2 * 0x100 + b3;
    assert Uint32(b) / 0x10000 == high && Uint32(b) % 0x10000 == low;
    assert high / 0x100 == b0 && high % 0x100 == b1;
    assert low / 0x100 == b2 && low % 0x100 == b3;
  }

  function Flatten<T>(parts: seq<seq<T>>): seq<T> {
    if parts == [] then [] else parts[0] + Flatten(parts[1..])
  }

  lemma {:induction false} FlattenAppend<T>(a: seq<seq<T>>, b: seq<seq<T>>)
    ensures Flatten(a + b) == Flatten(a) + Flatten(b)
  {
    if a == [] {
      assert a + b == b;
    } else {
      assert (a + b)[1..] == a[1..] + b;
      FlattenAppend(a[1..], b);
    }
  }

  lemma FlattenOne<T>(part: seq<T>)
    ensures Flatten([part]) == part
  {
    assert [part][1..] == [];
  }

  lemma FlattenSnoc<T>(a: seq<seq<T>>, last: seq<T>)
    ensures Flatten(a + [last]) == Flatten(a) + last
  {
    FlattenAppend(a, [last]);
    FlattenOne(last);
  }

  /** Replacing the last part by a longer one appends at the very end. */
  lemma FlattenExtendLast<T>(a: seq<seq<T>>, more: seq<T>)
    requires a != []
    ensures Flatten(a[|a| - 1 := a[|a| - 1] + more]) == Flatten(a) + more
  {
    var init, last := a[..|a| - 1], a[|a| - 1];
    assert a == init + [last];
    assert a[|a| - 1 := last + more] == init + [last + more];
    FlattenSnoc(init, last);
    FlattenSnoc(init, last + more);
  }
}
