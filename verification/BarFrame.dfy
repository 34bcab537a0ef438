/** The test picture of the dummy device (src/device/NtDummyVideoDevice.cpp, fill_frame):
    eight colour bars written three bytes at a time, rows spilling into the next one. */
module BarFrame {
  import opened Arithmetic
  import opened Memory

  const BAR_COLOURS: seq<seq<byte>> :=
    [[255, 255, 255], [255, 255, 0], [0, 255, 255], [0, 255, 0],
     [255, 0, 255], [255, 0, 0], [0, 0, 255], [0, 0, 0]]

  /** White, yellow, cyan, green, magenta, red, blue, black: red is full in bars 0, 1, 4 and 5,
      green in the first four, blue in every other one. */
  lemma BarsAre(b: nat)
    requires b < 8
    ensures |BAR_COLOURS| == 8 && |BAR_COLOURS[b]| == 3
    ensures BAR_COLOURS[b][0] == if b in {0, 1, 4, 5} then 255 else 0
    ensures BAR_COLOURS[b][1] == if b < 4 then 255 else 0
    ensures BAR_COLOURS[b][2] == if b % 2 == 0 then 255 else 0
  {
  }

  /** bar_colours[bar][k] */
  function BarColour(bar: nat, k: nat): byte
    requires bar < 8 && k < 3
  {
    BAR_COLOURS[bar][k]
  }

  /** The bar of column x, for bars this wide. */
  function BarAt(x: nat, columnWidth: nat): nat
    requires columnWidth > 0
  {
    x / columnWidth
  }

  /** The byte of column x. */
  ghost function Colour(w: nat, x: nat): byte
    requires Drawable(w) && x < w
  {
    BarFits(w, x);
    BarColour(BarAt(3 * (x / 3), w / 8), x % 3)
  }

  /** The last group of three starts inside the eighth bar. */
  predicate Drawable(w: nat) {
    w >= 8 && 3 * ((w - 1) / 3) < 8 * (w / 8)
  }

  lemma BarFits(w: nat, x: nat)
    requires Drawable(w) && x < w
    ensures BarAt(3 * (x / 3), w / 8) < 8
  {
    assert x / 3 <= (w - 1) / 3;
    QuotientBelow(3 * (x / 3), w / 8, 8);
  }

  lemma QuotientBelow(a: nat, d: nat, n: nat)
    requires d > 0
    ensures a / d < n <==> a < n * d
  {
    var q := a / d;
    assert a == q * d + a % d;
    if q < n {
      MulMonotone(q + 1, n, d);
    } else {
      MulMonotone(n, q, d);
    }
  }

  /** The loop stays inside the colour table exactly for drawable widths. */
  lemma DrawableIsExact(w: nat)
    requires w >= 8
    ensures Drawable(w) <==> forall x: nat | x < w && x % 3 == 0 :: BarAt(x, w / 8) < |BAR_COLOURS|
  {
    if Drawable(w) {
      forall x: nat | x < w && x % 3 == 0 ensures BarAt(x, w / 8) < 8 {
        BarFits(w, x);
      }
    } else {
      var last := 3 * ((w - 1) / 3);
      QuotientBelow(last, w / 8, 8);
      assert BarAt(last, w / 8) >= 8;
    }
  }

  /** Column x is divided by a bar width other than zero and finds its bar in the table. */
  predicate SafeColumn(w: nat, x: nat) {
    w / 8 != 0 && BarAt(x, w / 8) < |BAR_COLOURS|
  }

  /** So is every column fill_frame looks at, exactly for drawable widths and for width zero,
      where it looks at none. */
  lemma SafeWidths(w: nat)
    ensures w == 0 || Drawable(w) <==> forall x: nat | x < w && x % 3 == 0 :: SafeColumn(w, x)
  {
    if w >= 8 {
      DrawableIsExact(w);
      if !Drawable(w) {
        var x: nat :| x < w && x % 3 == 0 && BarAt(x, w / 8) >= |BAR_COLOURS|;
        assert !SafeColumn(w, x);
      }
    } else if w > 0 {
      assert 0 % 3 == 0 && !SafeColumn(w, 0);
    }
  }

  /** Drawable widths, one by one: the multiples of eight, and those one or two bytes wider
      after which no group of three starts. */
  lemma DrawableWidths(w: nat)
    requires w >= 8
    ensures Drawable(w) <==> w % 8 == 0 || (w % 8 == 1 && w % 3 != 1) || (w % 8 == 2 && w % 3 == 0)
  {
    WidthsByRemainder(w / 8, w % 8, (w - 1) / 3, (w - 1) % 3, w / 3, w % 3);
  }

  lemma WidthsByRemainder(q: nat, r: nat, g: nat, m: nat, h: nat, k: nat)
    requires r < 8 && m < 3 && k < 3 && 8 * q + r == 3 * g + m + 1 == 3 * h + k
    ensures 3 * g < 8 * q <==> r == 0 || (r == 1 && k != 1) || (r == 2 && k == 0)
  {
    var d := h - g;
    assert 3 * d == m + 1 - k;
    assert d == 0 || d == 1;
    if r == 1 {
      assert 3 * g == 8 * q - m;
    } else if r == 2 {
      assert 3 * g == 8 * q + 1 - m;
    } else if r >= 3 {
      assert 3 * g >= 8 * q;
    }
  }

  /** At width 15 the group at column 12 would take its colour from a thirteenth bar. */
  lemma Width15Overruns()
    ensures !Drawable(15) && BarAt(12, 15 / 8) == 12
  {
  }

  /** Every multiple of eight is drawable, 640 included. */
  lemma MultiplesOfEight(w: nat)
    requires w >= 8 && w % 8 == 0
    ensures Drawable(w)
  {
    assert 8 * (w / 8) == w;
  }

  /** The first rows of the picture, one after another. */
  ghost predicate RowsDone(w: nat, rows: nat, picture: seq<byte>)
    requires Drawable(w)
  {
    && |picture| == rows * w
    && forall y: nat, x: nat | y < rows && x < w :: Inside(w, rows, y, x) && picture[y * w + x] == Colour(w, x)
  }

  ghost predicate Inside(w: nat, h: nat, y: nat, x: nat) {
    0 <= y * w + x < h * w
  }

  /** The byte of row y and column x is that of the bar which its group of three starts in. */
  ghost predicate PixelIs(w: nat, h: nat, picture: seq<byte>, y: nat, x: nat)
    requires w >= 8 && |picture| == h * w
  {
    && 0 <= y * w + x < h * w
    && (3 * (x / 3)) / (w / 8) < 8
    && picture[y * w + x] == BAR_COLOURS[(3 * (x / 3)) / (w / 8)][x % 3]
  }

  ghost predicate IsPicture(w: nat, h: nat, picture: seq<byte>)
    requires w >= 8
  {
    |picture| == h * w && forall y: nat, x: nat | y < h && x < w :: PixelIs(w, h, picture, y, x)
  }

  /** fill_frame, on 32-bit unsigned positions. The last group of three of a row may end two
      bytes after it; the next row overwrites them, and after the last row the buffer must
      have room for them. */
  method FillFrame(w: nat, h: nat, buffer: array<byte>)
    requires Drawable(w) && h * w + 2 <= buffer.Length < 0x1_0000_0000
    modifies buffer
    ensures IsPicture(w, h, buffer[..h * w])
    ensures forall k | h * w + 2 <= k < buffer.Length :: buffer[k] == old(buffer[k])
  {
    hide RowsDone, Colour, Drawable;
    BarWidth(w);
    var columnWidth := w / 8;
    var y := 0;
    NoRows(w, buffer[..0]);
    while y < h
      invariant y <= h && 0 <= y * w <= h * w
      invariant RowsDone(w, y, buffer[..y * w])
      invariant forall k | h * w + 2 <= k < buffer.Length :: buffer[k] == old(buffer[k])
    {
      RowInside(w, h, y);
      ghost var row, done := y * w, buffer[..y * w];
      FillRow(w, columnWidth, y * w, buffer);
      assert buffer[..row] == done;
      assert buffer[..row + w][row..] == buffer[row..row + w];
      RowAdded(w, y, done, buffer[..row + w]);
      y := y + 1;
    }
    PictureDone(w, h, buffer[..h * w]);
  }

  lemma PictureDone(w: nat, h: nat, picture: seq<byte>)
    requires Drawable(w) && RowsDone(w, h, picture)
    ensures IsPicture(w, h, picture)
  {
    hide PixelIs;
    forall y: nat, x: nat | y < h && x < w ensures PixelIs(w, h, picture, y, x) {
      assert Inside(w, h, y, x) && picture[y * w + x] == Colour(w, x);
      PixelDone(w, h, picture, y, x);
    }
  }

  lemma PixelDone(w: nat, h: nat, picture: seq<byte>, y: nat, x: nat)
    requires Drawable(w) && |picture| == h * w && x < w && Inside(w, h, y, x) && picture[y * w + x] == Colour(w, x)
    ensures PixelIs(w, h, picture, y, x)
  {
    BarFits(w, x);
  }

  /** The inner loop: the row that starts at position row. */
  method FillRow(w: nat, columnWidth: nat, row: nat, buffer: array<byte>)
    requires Drawable(w) && columnWidth == w / 8 && row + w + 2 <= buffer.Length
    modifies buffer
    ensures RowDone(w, buffer[row..row + w]) && IsPicture(w, 1, buffer[row..row + w])
    ensures forall k | 0 <= k < buffer.Length && !(row <= k < row + w + 2) :: buffer[k] == old(buffer[k])
  {
    hide *;
    BarWidth(w);
    var x := 0;
    ghost var groups := 0;
    RowStart(w, buffer[row..row]);
    while x < w
      invariant x == 3 * groups && x <= w + 2
      invariant RowDone(w, buffer[row..row + if x < w then x else w])
      invariant forall k | 0 <= k < buffer.Length && !(row <= k < row + w + 2) :: buffer[k] == old(buffer[k])
    {
      GroupInBar(w, x);
      ghost var before := buffer[row..row + x];
      var colIdx := BarAt(x, columnWidth);
      buffer[row + x + 0] := BarColour(colIdx, 0);
      buffer[row + x + 1] := BarColour(colIdx, 1);
      buffer[row + x + 2] := BarColour(colIdx, 2);
      ghost var n := if x + 3 < w then x + 3 else w;
      assert buffer[row..row + n][..x] == before;
      RowGrows(w, x, before, buffer[row..row + n]);
      x, groups := x + 3, groups + 1;
    }
    RowIsPicture(w, buffer[row..row + w]);
  }

  /** One row is a picture of height one. */
  lemma RowIsPicture(w: nat, row: seq<byte>)
    requires Drawable(w) && |row| == w && RowDone(w, row)
    ensures IsPicture(w, 1, row)
  {
    hide PixelIs, Colour, Drawable;
    BarWidth(w);
    forall y: nat, x: nat | y < 1 && x < w ensures PixelIs(w, 1, row, y, x) {
      assert y * w + x == x && row[x] == Colour(w, x);
      PixelDone(w, 1, row, y, x);
    }
  }

  /** A row, or as much of it as there is. */
  ghost predicate RowDone(w: nat, row: seq<byte>)
    requires Drawable(w)
  {
    |row| <= w && forall i: nat | i < |row| :: row[i] == Colour(w, i)
  }

  lemma RowStart(w: nat, row: seq<byte>)
    requires Drawable(w) && row == []
    ensures RowDone(w, row)
  {
  }

  lemma RowGrows(w: nat, x: nat, before: seq<byte>, row: seq<byte>)
    requires Drawable(w) && x < w && RowDone(w, before) && |before| == x
    requires x < |row| <= w && |row| <= x + 3 && row[..x] == before
    requires row[x] == Colour(w, x)
    requires x + 1 < |row| ==> row[x + 1] == Colour(w, x + 1)
    requires x + 2 < |row| ==> row[x + 2] == Colour(w, x + 2)
    ensures RowDone(w, row)
  {
    hide Colour;
    forall i: nat | i < |row| ensures row[i] == Colour(w, i) {
      if i < x {
        assert row[i] == before[i];
      }
    }
  }

  lemma BarWidth(w: nat)
    requires Drawable(w)
    ensures w >= 8 && w / 8 > 0
  {
  }

  lemma NoRows(w: nat, picture: seq<byte>)
    requires Drawable(w) && picture == []
    ensures RowsDone(w, 0, picture)
  {
  }

  lemma RowInside(w: nat, h: nat, y: nat)
    requires y < h
    ensures (y + 1) * w == y * w + w <= h * w
  {
    MulMonotone(y + 1, h, w);
  }

  /** A group of three takes its colour from one bar. */
  lemma GroupInBar(w: nat, x: nat)
    requires Drawable(w) && x < w && x % 3 == 0
    ensures w / 8 > 0 && BarAt(x, w / 8) < 8
    ensures Colour(w, x) == BarColour(BarAt(x, w / 8), 0)
    ensures x + 1 < w ==> Colour(w, x + 1) == BarColour(BarAt(x, w / 8), 1)
    ensures x + 2 < w ==> Colour(w, x + 2) == BarColour(BarAt(x, w / 8), 2)
  {
    BarFits(w, x);
    assert (x + 1) / 3 == x / 3 && (x + 1) % 3 == 1;
    assert (x + 2) / 3 == x / 3 && (x + 2) % 3 == 2;
  }

  lemma RowAdded(w: nat, rows: nat, done: seq<byte>, next: seq<byte>)
    requires Drawable(w) && RowsDone(w, rows, done) && |next| == rows * w + w && next[..rows * w] == done
    requires RowDone(w, next[rows * w..])
    ensures RowsDone(w, rows + 1, next)
  {
    hide Colour;
    var n := rows + 1;
    forall y: nat, x: nat | y < n && x < w ensures Inside(w, n, y, x) && next[y * w + x] == Colour(w, x) {
      RowInside(w, n, y);
      if y < rows {
        assert Inside(w, rows, y, x);
        assert next[y * w + x] == done[y * w + x];
      } else {
        assert next[y * w + x] == next[rows * w..][x];
      }
    }
  }

  // ----- the buffer of the device

  /** The next multiple of four. */
  function Align4(n: nat): (r: nat)
    ensures n <= r < n + 4 && r % 4 == 0
  {
    (n + 3) / 4 * 4
  }

  /** A planar 4:2:0 picture with its rows aligned to four bytes, as the constructor sizes
      its buffer. */
  function BufferSize(w: nat, h: nat): int {
    Align4(w) * h + 2 * (Align4((w + 1) / 2) * ((h + 1) / 2))
  }

  /** The two bytes spilled by the last row always fit. */
  lemma SpillFits(w: nat, h: nat)
    requires w > 0 && h > 0
    ensures h * w + 2 <= BufferSize(w, h)
  {
    MulMonotone(w, Align4(w), h);
    MulMonotone(1, Align4((w + 1) / 2), (h + 1) / 2);
  }
}
