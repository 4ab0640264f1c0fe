/** The identifier/position-addressed bitmap: `size` identifiers, each with
    `width` boolean properties, packed into a zero-initialised byte buffer.
    Property pos of identifier id lives at linear position id * width + pos. */
module Bitmap {
  import opened Packing

  /** The error result of Get and Set: nil, or the illegal-index error. */
  datatype Outcome = Ok | IllegalIndex

  class Bitmap {
    /** Amount of identities. */
    const i: nat
    /** Amount of properties per identity. */
    const w: nat
    /** The packed bits; the array is never replaced, only its bytes change. */
    const a: array<bv8>

    /** The buffer holds exactly the bytes i * w bits need, rounded up. */
    ghost predicate Valid() {
      i * w <= 8 * a.Length < i * w + 8
    }

    /** Allocates size * width bits, rounded up to whole bytes, all cleared. */
    constructor (size: nat, width: nat)
      ensures Valid() && fresh(a)
      ensures i == size && w == width
      ensures forall k :: 0 <= k < a.Length ==> a[k] == 0
      ensures forall id: nat, pos: nat :: InBounds(id, pos) ==> !Cell(id, pos)
    {
      var n := size * width;
      var rest := n % 8;
      n := n / 8;
      if rest != 0 {
        n := n + 1;
      }
      i, w := size, width;
      a := new bv8[n](_ => 0);
      new;
      forall id: nat, pos: nat | InBounds(id, pos)
        ensures !Cell(id, pos)
      {
        LinearInRange(id, pos, i, w);
        var l := id * w + pos;
        assert a[l / 8] == 0;
      }
    }

    /** The guard Get and Set apply, as written: it rejects a position of at
        least w and an identifier greater than i, and admits everything else,
        including the identifier i itself. */
    predicate Admits(id: nat, pos: nat) {
      !(pos >= w || id > i)
    }

    /** The coordinates the bitmap was allocated for. */
    predicate InBounds(id: nat, pos: nat) {
      id < i && pos < w
    }

    /** The byte that holds property pos of identifier id. */
    function ByteIndex(id: nat, pos: nat): (index: nat)
      ensures 8 * index <= id * w + pos < 8 * index + 8
    {
      (id * w + pos) / 8
    }

    /** The value stored for an allocated coordinate. */
    ghost function Cell(id: nat, pos: nat): bool
      reads a
      requires Valid() && InBounds(id, pos)
    {
      LinearInRange(id, pos, i, w);
      BitAt(a[..], id * w + pos)
    }

    /** Every allocated coordinate passes the guard and addresses a byte of
        the buffer, so a guard of id >= i would make Get and Set safe. */
    lemma InBoundsAddressesBuffer(id: nat, pos: nat)
      requires Valid() && InBounds(id, pos)
      ensures Admits(id, pos) && ByteIndex(id, pos) < a.Length
    {
      LinearInRange(id, pos, i, w);
    }

    /** The guard as written also admits identifier i, one past the last
        allocated identifier. Whenever i * w is a multiple of 8 (and w > 0),
        identifier i, position 0 passes the guard and addresses the byte just
        past the end of the buffer. */
    lemma GuardAdmitsPastEnd()
      requires Valid() && w > 0 && (i * w) % 8 == 0
      ensures Admits(i, 0) && !InBounds(i, 0)
      ensures ByteIndex(i, 0) == a.Length
    {
    }

    /** Reads the property pos of identifier id. The guard is the one the
        source applies; the caller must keep the access inside the buffer
        where that guard does not. */
    method Get(id: nat, pos: nat) returns (value: bool, err: Outcome)
      requires Valid()
      requires Admits(id, pos) ==> ByteIndex(id, pos) < a.Length
      ensures err == IllegalIndex <==> pos >= w || id > i
      ensures err == IllegalIndex ==> !value
      ensures err == Ok ==> value == BitAt(a[..], id * w + pos)
      ensures err == Ok && InBounds(id, pos) ==> value == Cell(id, pos)
    {
      if pos >= w || id > i {
        return false, IllegalIndex;
      }
      var l := id * w + pos;
      var index := l / 8;
      var data := a[index];
      value := GetBit(data, l % 8);
      err := Ok;
    }

    /** Writes the property pos of identifier id in place. Same guard and
        caller obligation as Get. */
    method Set(id: nat, pos: nat, value: bool) returns (err: Outcome)
      requires Valid()
      requires Admits(id, pos) ==> ByteIndex(id, pos) < a.Length
      modifies a
      ensures err == IllegalIndex <==> pos >= w || id > i
      ensures err == IllegalIndex ==> a[..] == old(a[..])
      ensures err == Ok ==> a[..] == WithBit(old(a[..]), id * w + pos, value)
      ensures err == Ok && InBounds(id, pos) ==> Cell(id, pos) == value
      ensures forall id': nat, pos': nat :: InBounds(id', pos') && (id', pos') != (id, pos) ==> Cell(id', pos') == old(Cell(id', pos'))
    {
      if pos >= w || id > i {
        return IllegalIndex;
      }
      var l := id * w + pos;
      var index := l / 8;
      var data := a[index];
      ghost var before := a[..];
      a[index] := SetBit(data, l % 8, value);
      assert a[..] == WithBit(before, l, value);
      forall id': nat, pos': nat | InBounds(id', pos') && (id', pos') != (id, pos)
        ensures Cell(id', pos') == old(Cell(id', pos'))
      {
        LinearInRange(id', pos', i, w);
        if id' * w + pos' == l {
          LinearInjective(id', pos', id, pos, w);
        }
      }
      err := Ok;
    }
  }

  /** Allocation size for 1001 identifiers of 4 properties, and a two-by-four
      bitmap whose guard lets identifier 2 through to a byte it does not have. */
  method SizeScenario() {
    var b := new Bitmap(1001, 4);
    assert b.a.Length == 501;
    var c := new Bitmap(2, 4);
    assert c.a.Length == 1;
    c.GuardAdmitsPastEnd();
    assert c.Admits(2, 0) && c.ByteIndex(2, 0) == 1;
  }

  /** Writes and reads on 1000 identifiers of 12 properties, in and out of range. */
  method GetSetScenario() {
    var b := new Bitmap(1000, 12);
    var err := b.Set(1001, 0, true);
    assert err == IllegalIndex;
    err := b.Set(5, 11, true);
    assert err == Ok;
    err := b.Set(5, 10, true);
    assert err == Ok;
    var v;
    v, err := b.Get(5, 11);
    assert err == Ok && v;
    err := b.Set(5, 11, false);
    assert err == Ok;
    v, err := b.Get(5, 11);
    assert err == Ok && !v;
    v, err := b.Get(1001, 0);
    assert err == IllegalIndex;
  }
}
