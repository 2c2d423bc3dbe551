/** Vocabulary shared by the component models: bytes, options and flattening. */
module Common {

  type Byte = b: int | 0 <= b < 256

  type Bytes = seq<Byte>

  datatype Option<+T> = None | Some(value: T)

  /** The concatenation of a list of pieces, in order. */
  function Flatten<T>(pieces: seq<seq<T>>): seq<T> {
    if pieces == [] then [] else pieces[0] + Flatten(pieces[1..])
  }

  lemma ConcatAssociates<T>(a: seq<T>, b: seq<T>, c: seq<T>)
    ensures (a + b) + c == a + (b + c)
  {}

  lemma {:induction false} FlattenSnoc<T>(pieces: seq<seq<T>>, last: seq<T>)
    ensures Flatten(pieces + [last]) == Flatten(pieces) + last
  {
    if pieces == [] {
      assert [last][1..] == [];
    } else {
      assert (pieces + [last])[1..] == pieces[1..] + [last];
      FlattenSnoc(pieces[1..], last);
    }
  }

  /** Big-endian unsigned integers of two and four bytes. */
  function BigEndian16(b: Bytes): (n: nat)
    requires |b| == 2
    ensures n < 0x1_0000
  {
    b[0] as int * 0x100 + b[1] as int
  }

  function BigEndian32(b: Bytes): (n: nat)
    requires |b| == 4
    ensures n < 0x1_0000_0000
  {
    BigEndian16(b[..2]) * 0x1_0000 + BigEndian16(b[2..])
  }

  function Put16(n: nat): (b: Bytes)
    requires n < 0x1_0000
    ensures |b| == 2 && BigEndian16(b) == n
  {
    [n / 0x100, n % 0x100]
  }

  function Put32(n: nat): (b: Bytes)
    requires n < 0x1_0000_0000
    ensures |b| == 4 && BigEndian32(b) == n
  {
    Put16(n / 0x1_0000) + Put16(n % 0x1_0000)
  }

  /** The most significant byte comes first. */
  lemma BigEndianIs(a: Byte, b: Byte, c: Byte, d: Byte)
    ensures BigEndian16([a, b]) == a as int * 256 + b as int
    ensures BigEndian32([a, b, c, d]) == ((a as int * 256 + b as int) * 256 + c as int) * 256 + d as int
  {
    assert [a, b, c, d][..2] == [a, b] && [a, b, c, d][2..] == [c, d];
  }
}
