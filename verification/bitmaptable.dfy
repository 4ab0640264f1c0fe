/** The row/column-addressed bitmap table: a fixed number of rows, each holding
    a fixed number of one-bit columns, packed into a zero-initialised byte
    buffer. Bit (row, column) lives at linear position row * columns + column. */
module BitmapTable {
  import opened Packing

  /** The error result of Get and Set: nil, or the illegal-index error. */
  datatype Outcome = Ok | IllegalIndex

  /** The column count is stored as an unsigned 16-bit integer. */
  const ColumnsModulus: nat := 0x1_0000

  /** Number of bytes needed for rows * columns bits: the quotient by 8,
      rounded up when there is a remainder. */
  function CalculateSize(rows: nat, columns: nat): (size: nat)
    ensures 8 * size >= rows * columns
    ensures size == 0 || 8 * (size - 1) < rows * columns
  {
    var bits := rows * columns;
    if bits % 8 != 0 then bits / 8 + 1 else bits / 8
  }

  /** The sizes the source's own checks expect. */
  lemma CalculateSizeVectors()
    ensures CalculateSize(4, 4) == 2
    ensures CalculateSize(10, 5) == 7
    ensures CalculateSize(50, 1) == 7
    ensures CalculateSize(1000, 12) == 1500
  {
  }

  class Table {
    /** Amount of rows. */
    const rows: nat
    /** Amount of columns per row, after truncation to 16 bits. */
    const columns: nat
    /** The packed bits; the array is never replaced, only its bytes change. */
    const bitmap: array<bv8>

    /** The table's shape fits in its buffer. */
    ghost predicate Valid() {
      columns < ColumnsModulus && rows * columns <= 8 * bitmap.Length
    }

    /** Creates a table with every bit cleared. The column count wraps to 16
        bits while the buffer is sized from the unwrapped count. */
    constructor (rows: nat, columns: nat)
      ensures Valid() && fresh(bitmap)
      ensures Rows() == rows && Columns() == columns % ColumnsModulus
      ensures bitmap.Length == CalculateSize(rows, columns)
      ensures forall k :: 0 <= k < bitmap.Length ==> bitmap[k] == 0
      ensures forall r: nat, c: nat :: r < Rows() && c < Columns() ==> !Cell(r, c)
    {
      this.rows := rows;
      this.columns := columns % ColumnsModulus;
      bitmap := new bv8[CalculateSize(rows, columns)](_ => 0);
      new;
      MulMonotone(columns % ColumnsModulus, columns, rows);
      assert rows * (columns % ColumnsModulus) <= rows * columns;
      forall r: nat, c: nat | r < this.rows && c < this.columns
        ensures !Cell(r, c)
      {
        LinearInRange(r, c, this.rows, this.columns);
        var p := r * this.columns + c;
        assert bitmap[p / 8] == 0;
      }
    }

    /** Amount of rows in the table. */
    function Rows(): nat { rows }

    /** Amount of columns per row. */
    function Columns(): nat { columns }

    /** The linear bit position of an in-range cell; it lies inside the buffer. */
    function LinearPos(row: nat, column: nat): (p: nat)
      requires Valid() && row < rows && column < columns
      ensures p < 8 * bitmap.Length
      ensures GetPos(row, column) == (p / 8, p % 8)
    {
      LinearInRange(row, column, rows, columns);
      row * columns + column
    }

    /** The value stored for an in-range cell. */
    ghost function Cell(row: nat, column: nat): bool
      reads bitmap
      requires Valid() && row < rows && column < columns
    {
      BitAt(bitmap[..], LinearPos(row, column))
    }

    /** Splits the cell's linear position into a byte index and a bit index
        within that byte. */
    function GetPos(row: nat, column: nat): (pos: (nat, nat))
      ensures pos.1 < 8
      ensures 8 * pos.0 + pos.1 == row * columns + column
    {
      var p := row * columns + column;
      (p / 8, p % 8)
    }

    /** With a single column, row 39 is bit 7 of byte 4. */
    lemma GetPosVector()
      requires columns == 1
      ensures GetPos(39, 0) == (4, 7)
    {
    }

    /** Returns the buffer itself, or a fresh copy of it when copy is set. */
    method Data(copy: bool) returns (data: array<bv8>)
      ensures !copy ==> data == bitmap
      ensures copy ==> fresh(data) && data[..] == bitmap[..]
    {
      if !copy {
        return bitmap;
      }
      data := new bv8[bitmap.Length](k reads bitmap requires 0 <= k < bitmap.Length => bitmap[k]);
      assert data[..] == bitmap[..];
    }

    /** Reads a cell; out-of-range coordinates give the illegal-index error. */
    method Get(row: nat, column: nat) returns (value: bool, err: Outcome)
      requires Valid()
      ensures err == IllegalIndex <==> column >= columns || row >= rows
      ensures err == IllegalIndex ==> !value
      ensures err == Ok ==> value == Cell(row, column)
    {
      if column >= columns || row >= rows {
        return false, IllegalIndex;
      }
      var pos := GetPos(row, column);
      assert pos == (LinearPos(row, column) / 8, LinearPos(row, column) % 8);
      value := GetBit(bitmap[pos.0], pos.1);
      err := Ok;
    }

    /** Writes a cell in place; out-of-range coordinates give the
        illegal-index error and change nothing. */
    method Set(row: nat, column: nat, value: bool) returns (err: Outcome)
      requires Valid()
      modifies bitmap
      ensures err == IllegalIndex <==> column >= columns || row >= rows
      ensures err == IllegalIndex ==> bitmap[..] == old(bitmap[..])
      ensures err == Ok ==> bitmap[..] == WithBit(old(bitmap[..]), LinearPos(row, column), value)
      ensures err == Ok ==> Cell(row, column) == value
      ensures forall r: nat, c: nat :: r < rows && c < columns && (r, c) != (row, column) ==> Cell(r, c) == old(Cell(r, c))
    {
      if column >= columns || row >= rows {
        return IllegalIndex;
      }
      var pos := GetPos(row, column);
      ghost var p := LinearPos(row, column);
      ghost var before := bitmap[..];
      bitmap[pos.0] := SetBit(bitmap[pos.0], pos.1, value);
      assert bitmap[..] == WithBit(before, p, value);
      forall r: nat, c: nat | r < rows && c < columns && (r, c) != (row, column)
        ensures Cell(r, c) == old(Cell(r, c))
      {
        if LinearPos(r, c) == p {
          LinearInjective(r, c, row, column, columns);
        }
      }
      err := Ok;
    }
  }

  /** The configuration a 10-by-5 table starts with, and the two views its
      buffer can be read through. */
  method DataScenario() {
    var bm := new Table(10, 5);
    assert bm.Rows() == 10 && bm.Columns() == 5 && bm.bitmap.Length == 7;
    var data := bm.Data(false);
    data[1] := 123;
    assert bm.bitmap[1] == 123;
    var data2 := bm.Data(true);
    assert data2[1] == 123;
    data2[1] := 111;
    assert data[1] == 123 && bm.bitmap[1] == 123;
  }

  /** Writes and reads on a 1000-by-12 table, in and out of range. */
  method GetSetScenario() {
    var b := new Table(1000, 12);
    var err := b.Set(1001, 0, true);
    assert err == IllegalIndex;
    err := b.Set(5, 11, true);
    assert err == Ok;
    err := b.Set(5, 10, true);
    assert err == Ok;
    var v;
    v, err := b.Get(5, 11);
    assert err == Ok && v;
    err := b.Set(5, 11, false);
    assert err == Ok;
    v, err := b.Get(5, 11);
    assert err == Ok && !v;
    v, err := b.Get(1001, 0);
    assert err == IllegalIndex;
  }
}
