# go-bitmaptable in Dafny

A model of the two bit-packed stores of `go-bitmaptable`, with proofs about
them.

- `bitmaptable.go` holds a table of `rows` rows with `columns` one-bit
  columns each. Cell `(row, column)` is bit `p % 8` of byte `p / 8`, where
  `p = row * columns + column`. Bit 0 is the least significant bit of its
  byte. `Get` and `Set` return `ErrIllegalIndex` for a row or column out of
  range. `Data(copy)` hands out the buffer itself, or a copy of it.
- `bitmap.go` holds `size` identifiers with `width` boolean properties
  each. It uses the same packing, addressed by `(id, pos)`, and has its own
  guard.

Files:

- `packing.dfy` (module `Packing`) holds the engine both stores share:
  - the mask tables `tA` and `tB`;
  - `setBit` and `getBit`, which are identical in the two Go files
    (bitmaptable.go:38-54 and bitmap.go:16-32) and are defined once here;
  - the same two operations on a whole buffer, addressed by linear bit
    position (`BitAt`, `WithBit`);
  - the arithmetic of flattening a coordinate into a linear position.
- `bitmaptable.dfy` (module `BitmapTable`) holds class `Table`. Its fields
  `rows`, `columns` and `bitmap` never change. `Set` rewrites one byte of
  `bitmap` in place. `Rows()` and `Columns()` return the two counts
  (bitmaptable.go:118-126); the constructor row below states their values.
- `bitmap.dfy` (module `Bitmap`) holds class `Bitmap`, with fields `i`, `w`
  and `a`, as in bitmap.go.

Each `Get` method changes nothing. Each `Set` method states its whole new
buffer as `WithBit` applied to the old buffer. The lemmas about `WithBit`
then give the round trip (a successful `Set(r, c, v)` followed by `Get(r, c)`
returns `v`), the frame (no other cell changes) and commutation (writes to
distinct cells can be done in any order).

Each module also has scenario methods (`DataScenario`, `GetSetScenario`,
`SizeScenario`). They replay the checks of the repository's test files, and
each assertion in them is proved from the contracts alone. One example: a
write through `Data(false)` is visible in the table, and a write to a
`Data(true)` copy is visible nowhere else.

Three behaviours of the code that a reader might not expect, modelled as
the code has them:

- The column count is stored as a `uint16`. A count of 65536 or more wraps
  silently, while the buffer is still sized from the unwrapped count. The
  constructor of `Table` models this with `columns % 0x1_0000`. The table
  invariant `rows * columns <= 8 * bitmap.Length` still holds after the wrap,
  so `Table.Get` and `Table.Set` never address a byte past the end.
- Zero sizes are accepted and give an empty table.
- The guard in `bitmap.go` admits identifier `size` (see Findings).

## Model

| member | source | states |
|---|---|---|
| `Packing.MaskTables` | bitmaptable.go:38-40 | `tA[k]` is `1 << k`, `tB[k]` is its complement, and the masks of two bits share a bit only when the bits are the same |
| `Packing.GetBit` | bitmaptable.go:51-54 | masking with `tA[k]` reads exactly bit `k`, as defined independently by shifting and masking with 1 |
| `Packing.SetBit` | bitmaptable.go:42-49 | afterwards bit `k` reads `v`, and the other seven bits read as before |
| `Packing.SetBitSameValue` | bitmaptable.go:42-49 | writing the value a bit already holds leaves the byte unchanged |
| `Packing.SetBitOverwrite` | bitmaptable.go:42-49 | two writes to the same bit leave the byte as the second write alone would |
| `Packing.SetBitCommute` | bitmaptable.go:42-49 | writes to two different bits of a byte commute |
| `Packing.BitwiseVectors` | bitmaptable_test.go:5-21 | setting bit 0 of a zero byte gives 1, reading it back gives true, and clearing it gives 0 again |
| `Packing.WithBit` | bitmaptable.go:152-153 | the in-place write of linear position `p` keeps the buffer length, changes no byte but `p / 8`, reads back `v` at `p`, and leaves every other position as it was |
| `Packing.WithBitOverwrite` | bitmaptable.go:152-153 | two writes to the same position leave the buffer as the second write alone would |
| `Packing.WithBitCommute` | bitmaptable.go:152-153 | writes to two distinct positions give the same buffer in either order |
| `Packing.LinearInRange` | bitmaptable.go:113-116 | a coordinate inside a rows-by-columns grid flattens to a position below `rows * columns` |
| `Packing.LinearInjective` | bitmaptable.go:113-116 | two coordinates with a column below `columns` flatten to the same position only if they are equal |
| `BitmapTable.CalculateSize` | bitmaptable.go:56-62 | the result is the least `n` with `8 * n >= rows * columns`, i.e. the bit count divided by 8 and rounded up |
| `BitmapTable.CalculateSizeVectors` | bitmaptable_test.go:23-27 | (4, 4) needs 2 bytes, (10, 5) needs 7, (50, 1) needs 7 and (1000, 12) needs 1500 |
| `BitmapTable.Table.constructor` | bitmaptable.go:84-102 | `Rows()` is the given row count, `Columns()` is the column count modulo 2^16, the buffer is fresh, has `calculateSize(rows, columns)` bytes and holds only zeros, every cell reads false, and the table invariant holds |
| `BitmapTable.Table.GetPos` | bitmaptable.go:110-116 | the bit index is below 8, and 8 times the byte index plus the bit index is `row * columns + column` |
| `BitmapTable.Table.LinearPos` | bitmaptable.go:113-116 | an in-range cell's linear position lies inside the buffer, and `getPos` splits it into its quotient and remainder by 8 |
| `BitmapTable.Table.GetPosVector` | bitmaptable_test.go:59-65 | with one column, row 39 is byte 4, bit 7 |
| `BitmapTable.Table.Data` | bitmaptable.go:128-136 | `Data(false)` is the table's own buffer, and `Data(true)` is a freshly allocated array with the same contents |
| `BitmapTable.Table.Get` | bitmaptable.go:138-145 | the result is `ErrIllegalIndex` exactly when `column >= columns` or `row >= rows`, and then the value is false; otherwise the value is the stored cell; nothing is modified |
| `BitmapTable.Table.Set` | bitmaptable.go:147-155 | fails exactly when Get does, and then leaves the buffer unchanged; on success the new buffer is the old one with that cell's bit written, the cell reads `value`, and every other in-range cell reads as before |
| `Bitmap.Bitmap.constructor` | bitmap.go:51-63 | records `i = size` and `w = width`, and allocates `ceil(size * width / 8)` fresh zero bytes (the invariant `i * w <= 8 * len(a) < i * w + 8`), so every cell reads false |
| `Bitmap.Bitmap.ByteIndex` | bitmap.go:77-78 | the byte index is the quotient of `l = id * w + pos` by 8 (`8 * index <= l < 8 * index + 8`) |
| `Bitmap.Bitmap.GuardAdmitsPastEnd` | bitmap.go:72-79 | whenever `w > 0` and `i * w` is a multiple of 8, identifier `i` with position 0 passes the guard, lies outside the allocated identifiers, and addresses byte `len(a)` |
| `Bitmap.Bitmap.InBoundsAddressesBuffer` | bitmap.go:71-74 | with the bound `id < i`, every admitted coordinate addresses a byte inside the buffer |
| `Bitmap.Bitmap.Get` | bitmap.go:85-96 | the result is `ErrIllegalIndex` exactly when `pos >= w` or `id > i`, and then the value is false; otherwise the value is bit `l % 8` of byte `l / 8` with `l = id * w + pos`; nothing is modified |
| `Bitmap.Bitmap.Set` | bitmap.go:71-83 | fails exactly when Get does, and then leaves the buffer unchanged; on success the new buffer is the old one with bit `l` written, an allocated cell reads `value` afterwards, and every other allocated cell reads as before |

## Left out

- Thread-safe wrappers (`ts` in bitmaptable_ts.go, `NewTS` and `bitmapTS` in bitmap.go:98-123): they only take a mutex around forwarding calls, and concurrency is not modelled. `Packing.WithBitCommute` is the sequential fact behind "concurrent writes to distinct cells are all kept once they are serialised".
- The `Bitmaptable` and `Bitmap` interface types (bitmaptable.go:66-82, bitmap.go:34-47) and the `New` factory at bitmaptable.go:87-89: `New` only calls `newNTS`, which is the `Table` constructor. Interfaces would need traits, which this model does not use.
- The commented-out `SetMulti`/`GetMulti` (bitmaptable.go:157-192) and the unused `ErrIllegalWidth`: they have no behaviour.
- Go's 64-bit `int`: integers are unbounded here. Overflow of `rows * columns` or of `id * w + pos` for huge sizes, and `int(uint64)` of a row count of 2^63 or more, are not modelled.
- Negative sizes, rows, columns, ids and positions: every parameter is a `nat`. The Go guards do not reject negatives, which would panic or alias another cell.
- Bitmap.Bitmap.Get: when the guard passes but byte `l / 8` is past the end of the buffer, Go panics with an index-out-of-range error. This is a precondition here ("admitted ==> byte index < len(a)"), not an outcome.
- Bitmap.Bitmap.Set: the same precondition as `Get`, for the same panic.

## Findings

| source | as written | input that shows it | evidently intended | confidence | as-written member | corrected member |
|---|---|---|---|---|---|---|
| bitmap.go:72-88 | `Set` and `Get` reject only `pos >= s.w` or `id > s.i`, so identifier `s.i`, one past the last allocated identifier, is accepted | `New(2, 4)` allocates one byte; `Set(2, 0, true)` passes the guard and computes `l = 8`, byte index 1 = `len(a)`, so the access is out of range; where `size * width` is not a multiple of 8 the same id instead reads or writes padding bits silently | reject `id >= s.i`, as `bitmaptable.go` does with `row >= rows` | high (not executed) | `Bitmap.Bitmap.GuardAdmitsPastEnd` | `Bitmap.Bitmap.InBoundsAddressesBuffer` |
