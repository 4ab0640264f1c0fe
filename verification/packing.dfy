/** The bit-packing engine both stores are built on: the mask tables, reading
    and writing one bit of a byte, the same two operations lifted to a packed
    buffer addressed by a linear bit position, and the arithmetic facts about
    flattening a two-dimensional coordinate into such a position. */
module Packing {

  /** Single-bit masks: TA[k] has only bit k set (bit 0 is the least significant). */
  const TA: seq<bv8> := [1, 2, 4, 8, 16, 32, 64, 128]

  /** Clearing masks: TB[k] has every bit set except bit k. */
  const TB: seq<bv8> := [254, 253, 251, 247, 239, 223, 191, 127]

  /** Reference meaning of "bit k of b", independent of the tables. */
  predicate Bit(b: bv8, k: nat)
    requires k < 8
  {
    (b >> k) & 1 == 1
  }

  /** The tables are exactly the one-bit masks and their complements; masks of
      distinct bits share no bit. */
  lemma MaskTables(k: nat, j: nat)
    requires k < 8 && j < 8
    ensures TA[k] == 1 << k && TB[k] == !TA[k]
    ensures TA[k] & TA[j] == 0 <==> k != j
  {
    assert TA[0] == 1 && TA[1] == 2 && TA[2] == 4 && TA[3] == 8;
    assert TA[4] == 16 && TA[5] == 32 && TA[6] == 64 && TA[7] == 128;
    assert TB[0] == 254 && TB[1] == 253 && TB[2] == 251 && TB[3] == 247;
    assert TB[4] == 239 && TB[5] == 223 && TB[6] == 191 && TB[7] == 127;
    assert k == 0 || k == 1 || k == 2 || k == 3 || k == 4 || k == 5 || k == 6 || k == 7;
  }

  /** Reads bit k of b by masking with TA[k]. */
  function GetBit(b: bv8, k: nat): (r: bool)
    requires k < 8
    ensures r == Bit(b, k)
  {
    MaskTables(k, k);
    b & TA[k] != 0
  }

  /** OR-ing in a mask that shares no bit with n, or AND-ing with its complement,
      does not change whether n is set. */
  lemma DisjointMask(b: bv8, m: bv8, n: bv8)
    requires m & n == 0
    ensures ((b | m) & n != 0) == (b & n != 0)
    ensures ((b & !m) & n != 0) == (b & n != 0)
  {
  }

  /** Sets bit k of b to v: OR with TA[k] to set, AND with TB[k] to clear. */
  function SetBit(b: bv8, k: nat, v: bool): (r: bv8)
    requires k < 8
    ensures GetBit(r, k) == v
    ensures forall j :: 0 <= j < 8 && j != k ==> GetBit(r, j) == GetBit(b, j)
  {
    var r := if v then b | TA[k] else b & TB[k];
    forall j | 0 <= j < 8 && j != k
      ensures GetBit(r, j) == GetBit(b, j)
    {
      MaskTables(k, j);
      DisjointMask(b, TA[k], TA[j]);
    }
    MaskTables(k, k);
    r
  }

  /** A byte is determined by its eight bits. */
  lemma ByteFromBits(x: bv8, y: bv8)
    requires forall j :: 0 <= j < 8 ==> GetBit(x, j) == GetBit(y, j)
    ensures x == y
  {
    assert GetBit(x, 0) == GetBit(y, 0) && GetBit(x, 1) == GetBit(y, 1);
    assert GetBit(x, 2) == GetBit(y, 2) && GetBit(x, 3) == GetBit(y, 3);
    assert GetBit(x, 4) == GetBit(y, 4) && GetBit(x, 5) == GetBit(y, 5);
    assert GetBit(x, 6) == GetBit(y, 6) && GetBit(x, 7) == GetBit(y, 7);
  }

  /** Writing the value a bit already has leaves the byte as it was. */
  lemma SetBitSameValue(b: bv8, k: nat)
    requires k < 8
    ensures SetBit(b, k, GetBit(b, k)) == b
  {
    ByteFromBits(SetBit(b, k, GetBit(b, k)), b);
  }

  /** Writing a bit twice is the same as writing the last value once. */
  lemma SetBitOverwrite(b: bv8, k: nat, u: bool, v: bool)
    requires k < 8
    ensures SetBit(SetBit(b, k, u), k, v) == SetBit(b, k, v)
  {
    ByteFromBits(SetBit(SetBit(b, k, u), k, v), SetBit(b, k, v));
  }

  /** Writes to two different bits of a byte commute. */
  lemma SetBitCommute(b: bv8, k: nat, j: nat, u: bool, v: bool)
    requires k < 8 && j < 8 && k != j
    ensures SetBit(SetBit(b, k, u), j, v) == SetBit(SetBit(b, j, v), k, u)
  {
    ByteFromBits(SetBit(SetBit(b, k, u), j, v), SetBit(SetBit(b, j, v), k, u));
  }

  /** Setting then clearing bit 0 of a zero byte, as the source's own check does. */
  lemma BitwiseVectors()
    ensures SetBit(0, 0, true) == 1 && GetBit(1, 0)
    ensures SetBit(1, 0, false) == 0 && !GetBit(0, 0)
  {
    MaskTables(0, 0);
  }

  /** The bit at linear position p of a packed buffer: byte p / 8, bit p % 8. */
  function BitAt(buf: seq<bv8>, p: nat): bool
    requires p < 8 * |buf|
  {
    GetBit(buf[p / 8], p % 8)
  }

  /** The buffer with the bit at linear position p set to v. */
  function WithBit(buf: seq<bv8>, p: nat, v: bool): (r: seq<bv8>)
    requires p < 8 * |buf|
    ensures |r| == |buf|
    ensures forall i :: 0 <= i < |buf| && i != p / 8 ==> r[i] == buf[i]
    ensures BitAt(r, p) == v
    ensures forall q :: 0 <= q < 8 * |buf| && q != p ==> BitAt(r, q) == BitAt(buf, q)
  {
    var r := buf[p / 8 := SetBit(buf[p / 8], p % 8, v)];
    forall q | 0 <= q < 8 * |buf| && q != p
      ensures BitAt(r, q) == BitAt(buf, q)
    {
      if q / 8 == p / 8 {
        assert q % 8 != p % 8;
      }
    }
    r
  }

  /** Multiplication by a natural number is monotone. */
  lemma MulMonotone(a: nat, b: nat, n: nat)
    requires a <= b
    ensures a * n <= b * n
  {
  }

  /** A coordinate inside a rows-by-columns grid flattens to a position below rows * columns. */
  lemma {:induction false} LinearInRange(row: nat, column: nat, rows: nat, columns: nat)
    requires row < rows && column < columns
    ensures row * columns + column < rows * columns
  {
    MulMonotone(row + 1, rows, columns);
    assert (row + 1) * columns == row * columns + columns;
  }

  /** Flattening is injective: distinct coordinates of a grid get distinct positions. */
  lemma {:induction false} LinearInjective(r1: nat, c1: nat, r2: nat, c2: nat, columns: nat)
    requires c1 < columns && c2 < columns
    requires r1 * columns + c1 == r2 * columns + c2
    ensures r1 == r2 && c1 == c2
  {
    if r1 < r2 {
      LinearInRange(r1, c1, r2, columns);
      assert false;
    } else if r2 < r1 {
      LinearInRange(r2, c2, r1, columns);
      assert false;
    }
  }

  /** Writing a bit twice leaves the buffer as the last write alone would. */
  lemma WithBitOverwrite(buf: seq<bv8>, p: nat, u: bool, v: bool)
    requires p < 8 * |buf|
    ensures WithBit(WithBit(buf, p, u), p, v) == WithBit(buf, p, v)
  {
    SetBitOverwrite(buf[p / 8], p % 8, u, v);
  }

  /** Writes to distinct positions commute, so a sequence of writes to
      distinct cells leaves every one of them holding its own value whatever
      the order. */
  lemma WithBitCommute(buf: seq<bv8>, p: nat, q: nat, u: bool, v: bool)
    requires p < 8 * |buf| && q < 8 * |buf| && p != q
    ensures WithBit(WithBit(buf, p, u), q, v) == WithBit(WithBit(buf, q, v), p, u)
  {
    if p / 8 == q / 8 {
      SetBitCommute(buf[p / 8], p % 8, q % 8, u, v);
    }
  }
}
