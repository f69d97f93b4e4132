/**
 The console in pixels: an array of colours, one per pixel, a cursor in pixels, and drawing loops.
 After every byte the pixels are exactly the rendering of the character grid of `TerminalSpec`.
 */
module Terminal {
  import opened Wrappers
  import opened TerminalSpec

  const CELL_WIDTH: nat := 8
  const CELL_HEIGHT: nat := 10

  // ---------------------------------------------------------------- pixels

  lemma IndexInBounds(stride: nat, height: nat, x: nat, y: nat)
    requires x < stride && y < height
    ensures y * stride + x < stride * height
  {
    assert (y + 1) * stride <= height * stride;
  }

  lemma IndexDistinct(stride: nat, x: nat, y: nat, x': nat, y': nat)
    requires x < stride && x' < stride && (x != x' || y != y')
    ensures y * stride + x != y' * stride + x'
  {
    if y < y' {
      assert (y + 1) * stride <= y' * stride;
    } else if y' < y {
      assert (y' + 1) * stride <= y * stride;
    }
  }

  /** The pixel in column `x` of line `y`. */
  function At(p: seq<Color>, stride: nat, height: nat, x: nat, y: nat): Color
    requires |p| == stride * height && x < stride && y < height
  {
    IndexInBounds(stride, height, x, y);
    p[y * stride + x]
  }

  lemma PixelWritten(p: seq<Color>, stride: nat, height: nat, x: nat, y: nat, color: Color)
    requires |p| == stride * height && x < stride && y < height
    ensures y * stride + x < |p|
    ensures forall x': nat, y': nat :: x' < stride && y' < height ==>
              At(p[y * stride + x := color], stride, height, x', y')
              == if x' == x && y' == y then color else At(p, stride, height, x', y')
  {
    IndexInBounds(stride, height, x, y);
    var p' := p[y * stride + x := color];
    forall x': nat, y': nat | x' < stride && y' < height
      ensures At(p', stride, height, x', y') == if x' == x && y' == y then color else At(p, stride, height, x', y')
    {
      IndexInBounds(stride, height, x', y');
      if x' != x || y' != y {
        IndexDistinct(stride, x, y, x', y');
      }
    }
  }

  // ---------------------------------------------------------------- glyphs

  predicate PixelOn(bits: bv8, col: nat)
    requires col < 8
  {
    (bits >> col) & 1 != 0
  }

  predicate GoodFont(font: seq<bv8>) { |font| == 128 * 8 }

  /** A cell is its glyph with one line of background above and below. */
  function CellPixel(font: seq<bv8>, cell: Cell, dx: nat, dy: nat): Color
    requires GoodFont(font) && dx < CELL_WIDTH && dy < CELL_HEIGHT
  {
    if dy == 0 || dy == 9 || cell.glyph >= 128 then cell.bg
    else if PixelOn(font[cell.glyph * 8 + (dy - 1)], dx) then cell.fg else cell.bg
  }

  /** `p'` is `p` with the first `k` pixels of a cell drawn, in reading order. */
  ghost predicate Painted(p: seq<Color>, p': seq<Color>, stride: nat, height: nat,
                          font: seq<bv8>, left: nat, top: nat, cell: Cell, k: nat)
    requires GoodFont(font)
  {
    && |p| == |p'| == stride * height
    && forall x: nat, y: nat :: x < stride && y < height ==>
         At(p', stride, height, x, y) ==
         if left <= x < left + CELL_WIDTH && top <= y < top + CELL_HEIGHT && (y - top) * 8 + (x - left) < k
         then CellPixel(font, cell, x - left, y - top)
         else At(p, stride, height, x, y)
  }

  lemma PaintedNext(p: seq<Color>, p': seq<Color>, stride: nat, height: nat,
                    font: seq<bv8>, left: nat, top: nat, cell: Cell, dx: nat, dy: nat)
    requires GoodFont(font) && dx < CELL_WIDTH && dy < CELL_HEIGHT
    requires left + CELL_WIDTH <= stride && top + CELL_HEIGHT <= height
    requires Painted(p, p', stride, height, font, left, top, cell, dy * 8 + dx)
    ensures (top + dy) * stride + (left + dx) < |p'|
    ensures Painted(p, p'[(top + dy) * stride + (left + dx) := CellPixel(font, cell, dx, dy)],
                    stride, height, font, left, top, cell, dy * 8 + dx + 1)
  {
    var color := CellPixel(font, cell, dx, dy);
    PixelWritten(p', stride, height, left + dx, top + dy, color);
    var p'' := p'[(top + dy) * stride + (left + dx) := color];
    forall x: nat, y: nat | x < stride && y < height
      ensures At(p'', stride, height, x, y) ==
              if left <= x < left + CELL_WIDTH && top <= y < top + CELL_HEIGHT
                 && (y - top) * 8 + (x - left) < dy * 8 + dx + 1
              then CellPixel(font, cell, x - left, y - top) else At(p, stride, height, x, y)
    {
      assert At(p'', stride, height, x, y) ==
             if x == left + dx && y == top + dy then color else At(p', stride, height, x, y);
      if left <= x < left + CELL_WIDTH && top <= y < top + CELL_HEIGHT {
        SameOffset(x - left, y - top, dx, dy);
      }
    }
  }

  lemma SameOffset(dx: nat, dy: nat, dx': nat, dy': nat)
    requires dx < 8 && dx' < 8
    ensures dy * 8 + dx == dy' * 8 + dx' <==> dx == dx' && dy == dy'
  {
  }

  // ---------------------------------------------------------------- rendering

  /** The colour the grid prescribes for a pixel. */
  function Render(font: seq<bv8>, base: seq<Color>, cells: map<(nat, nat), Cell>,
                  stride: nat, height: nat, x: nat, y: nat): Color
    requires GoodFont(font) && |base| == stride * height && x < stride && y < height
  {
    var at := (x / CELL_WIDTH, y / CELL_HEIGHT);
    if at in cells then CellPixel(font, cells[at], x % CELL_WIDTH, y % CELL_HEIGHT)
    else At(base, stride, height, x, y)
  }

  ghost predicate Shows(p: seq<Color>, font: seq<bv8>, base: seq<Color>, cells: map<(nat, nat), Cell>,
                        stride: nat, height: nat)
    requires GoodFont(font)
  {
    && |p| == |base| == stride * height
    && forall x: nat, y: nat :: x < stride && y < height ==>
         At(p, stride, height, x, y) == Render(font, base, cells, stride, height, x, y)
  }

  lemma MonotoneProduct(a: nat, b: nat, n: nat)
    ensures a <= b ==> a * n <= b * n
  {
  }

  /** Every pixel is in some column of some line. */
  lemma IndexCovered(stride: nat, height: nat, i: nat)
    requires i < stride * height
    ensures stride > 0 && i % stride < stride && i / stride < height && i / stride * stride + i % stride == i
  {
    assert stride > 0;
    var y := i / stride;
    assert i == y * stride + i % stride;
    MonotoneProduct(height, y, stride);
  }

  /** A grid has one rendering: pixels that show it are equal. */
  lemma ShowsOne(p: seq<Color>, p': seq<Color>, font: seq<bv8>, base: seq<Color>, cells: map<(nat, nat), Cell>,
                 stride: nat, height: nat)
    requires GoodFont(font) && Shows(p, font, base, cells, stride, height)
    requires Shows(p', font, base, cells, stride, height)
    ensures p == p'
  {
    forall i | 0 <= i < |p| ensures p[i] == p'[i] {
      IndexCovered(stride, height, i);
      assert At(p, stride, height, i % stride, i / stride) == At(p', stride, height, i % stride, i / stride);
    }
  }

  /** Drawing a whole cell shows the grid with that cell replaced. */
  lemma DrawnCell(p: seq<Color>, p': seq<Color>, font: seq<bv8>, base: seq<Color>, cells: map<(nat, nat), Cell>,
                  stride: nat, height: nat, col: nat, row: nat, cell: Cell)
    requires GoodFont(font) && Shows(p, font, base, cells, stride, height)
    requires Painted(p, p', stride, height, font, col * CELL_WIDTH, row * CELL_HEIGHT, cell, 80)
    ensures Shows(p', font, base, cells[(col, row) := cell], stride, height)
  {
    var cells' := cells[(col, row) := cell];
    forall x: nat, y: nat | x < stride && y < height
      ensures At(p', stride, height, x, y) == Render(font, base, cells', stride, height, x, y)
    {
      assert (x / CELL_WIDTH == col) == (col * CELL_WIDTH <= x < col * CELL_WIDTH + CELL_WIDTH);
      assert (y / CELL_HEIGHT == row) == (row * CELL_HEIGHT <= y < row * CELL_HEIGHT + CELL_HEIGHT);
    }
  }

  /** Wrapping by pixels is wrapping by cells. */
  lemma LatticeStep(pos: nat, size: nat, cell: nat)
    requires cell == CELL_WIDTH || cell == CELL_HEIGHT
    requires pos % cell == 0
    ensures (pos + cell) % cell == 0 && (pos + cell) / cell == pos / cell + 1
    ensures pos + cell + cell <= size <==> pos / cell + 1 < size / cell
  {
  }

  // ---------------------------------------------------------------- console

  class Console {
    const pixels: array<Color>
    const width: nat
    const height: nat
    const pitch: nat
    const font: seq<bv8>
    const theme: Theme
    var cursorX: nat
    var cursorY: nat
    var fg: Color
    var bg: Color
    var ansi: AnsiState
    ghost var base: seq<Color>
    ghost var cells: map<(nat, nat), Cell>

    function Stride(): nat { pitch / 4 }

    /** A frame buffer that can show at least one cell; font and theme are arbitrary tables. */
    predicate GoodDevice()
    {
      && CELL_WIDTH <= width <= Stride() && CELL_HEIGHT <= height
      && pixels.Length == Stride() * height
      && GoodFont(font) && GoodTheme(theme)
    }

    function Dimensions(): Grid { Grid(width / CELL_WIDTH, height / CELL_HEIGHT, Stride() * height) }

    /** The cursor is on the lattice of cells, with its whole cell on the screen, and the pixels
        show the grid. */
    ghost predicate Valid()
      reads this, pixels
    {
      && GoodDevice() && GoodAnsi(ansi)
      && cursorX % CELL_WIDTH == 0 && cursorX + CELL_WIDTH <= width
      && cursorY % CELL_HEIGHT == 0 && cursorY + CELL_HEIGHT <= height
      && Shows(pixels[..], font, base, cells, Stride(), height)
    }

    /** The abstract screen. */
    ghost function View(): Screen
      reads this
    {
      Screen(base, cells, cursorX / CELL_WIDTH, cursorY / CELL_HEIGHT, fg, bg, ansi)
    }

    method PutPixel(x: nat, y: nat, color: Color)
      requires GoodDevice() && x < Stride() && y < height
      modifies pixels
      ensures y * Stride() + x < |old(pixels[..])|
      ensures pixels[..] == old(pixels[..])[y * Stride() + x := color]
    {
      IndexInBounds(Stride(), height, x, y);
      var index := y * Stride() + x;
      pixels[index] := color;
    }

    /** One line of background, as above and below every glyph. */
    method DrawBlankLine(ghost before: seq<Color>, x: nat, y: nat, line: nat, cell: Cell)
      requires GoodDevice() && x + CELL_WIDTH <= width && y + CELL_HEIGHT <= height && (line == 0 || line == 9)
      requires Painted(before, pixels[..], Stride(), height, font, x, y, cell, line * 8)
      modifies pixels
      ensures Painted(before, pixels[..], Stride(), height, font, x, y, cell, line * 8 + 8)
    {
      for col := 0 to 8
        invariant Painted(before, pixels[..], Stride(), height, font, x, y, cell, line * 8 + col)
      {
        PaintedNext(before, pixels[..], Stride(), height, font, x, y, cell, col, line);
        PutPixel(x + col, y + line, cell.bg);
      }
    }

    /** One line of the glyph's bitmap. */
    method DrawGlyphLine(ghost before: seq<Color>, x: nat, y: nat, row: nat, cell: Cell)
      requires GoodDevice() && x + CELL_WIDTH <= width && y + CELL_HEIGHT <= height && row < 8 && cell.glyph < 128
      requires Painted(before, pixels[..], Stride(), height, font, x, y, cell, (row + 1) * 8)
      modifies pixels
      ensures Painted(before, pixels[..], Stride(), height, font, x, y, cell, (row + 2) * 8)
    {
      var bits := font[cell.glyph * 8 + row];
      for col := 0 to 8
        invariant Painted(before, pixels[..], Stride(), height, font, x, y, cell, (row + 1) * 8 + col)
      {
        var color := if PixelOn(bits, col) then cell.fg else cell.bg;
        assert color == CellPixel(font, cell, col, row + 1);
        PaintedNext(before, pixels[..], Stride(), height, font, x, y, cell, col, row + 1);
        PutPixel(x + col, y + row + 1, color);
      }
    }

    method DrawGlyph(x: nat, y: nat, glyph: Byte, fgColor: Color, bgColor: Color)
      requires GoodDevice() && x + CELL_WIDTH <= width && y + CELL_HEIGHT <= height
      modifies pixels
      ensures glyph >= 128 ==> pixels[..] == old(pixels[..])
      ensures glyph < 128 ==>
        Painted(old(pixels[..]), pixels[..], Stride(), height, font, x, y, Cell(glyph, fgColor, bgColor), 80)
    {
      if glyph >= 128 {
        return;
      }
      ghost var before := pixels[..];
      var cell := Cell(glyph, fgColor, bgColor);
      DrawBlankLine(before, x, y, 0, cell);
      for row := 0 to 8
        invariant Painted(before, pixels[..], Stride(), height, font, x, y, cell, (row + 1) * 8)
      {
        DrawGlyphLine(before, x, y, row, cell);
      }
      DrawBlankLine(before, x, y, 9, cell);
    }

    constructor (pixels: array<Color>, width: nat, height: nat, pitch: nat, font: seq<bv8>, theme: Theme)
      requires CELL_WIDTH <= width <= pitch / 4 && CELL_HEIGHT <= height && pixels.Length == pitch / 4 * height
      requires GoodFont(font) && GoodTheme(theme)
      ensures Valid() && this.pixels == pixels && this.width == width && this.height == height
      ensures this.pitch == pitch && this.font == font && this.theme == theme
      ensures View() == Screen(pixels[..], map[], 0, 0, theme.defaultFg, theme.defaultBg, Ground)
    {
      this.pixels, this.width, this.height, this.pitch := pixels, width, height, pitch;
      this.font, this.theme := font, theme;
      cursorX, cursorY := 0, 0;
      fg, bg := theme.defaultFg, theme.defaultBg;
      ansi := Ground;
      base, cells := pixels[..], map[];
    }

    method ClearScreen()
      requires GoodDevice() && GoodAnsi(ansi)
      modifies this`cursorX, this`cursorY, this`base, this`cells, pixels
      ensures Valid() && View() == Clear(Dimensions(), old(View()))
    {
      for i := 0 to pixels.Length
        invariant forall k :: 0 <= k < i ==> pixels[k] == bg
      {
        pixels[i] := bg;
      }
      cursorX, cursorY := 0, 0;
      base, cells := pixels[..], map[];
      ghost var color := bg;
      assert base == seq(Stride() * height, _ => color);
    }

    /** The source's scrolling: the screen starts over. */
    method Scroll()
      requires GoodDevice() && GoodAnsi(ansi)
      modifies this`cursorX, this`cursorY, this`base, this`cells, pixels
      ensures Valid() && View() == Clear(Dimensions(), old(View()))
    {
      ClearScreen();
      cursorY := 0;
    }

    /** The tail that both ways to the next line share. */
    method LineFeed()
      requires Valid()
      modifies this`cursorX, this`cursorY, this`base, this`cells, pixels
      ensures Valid() && View() == NextLine(Dimensions(), old(View()))
    {
      LatticeStep(cursorY, height, CELL_HEIGHT);
      cursorX := 0;
      cursorY := cursorY + CELL_HEIGHT;
      if cursorY + CELL_HEIGHT > height {
        Scroll();
      }
    }

    method PutCharacter(c: Byte)
      requires Valid()
      modifies this`cursorX, this`cursorY, this`base, this`cells, pixels
      ensures Valid() && View() == PutChar(Dimensions(), old(View()), c)
    {
      if c == NEWLINE {
        LineFeed();
        return;
      }
      ghost var before := pixels[..];
      ghost var col, row := cursorX / CELL_WIDTH, cursorY / CELL_HEIGHT;
      DrawGlyph(cursorX, cursorY, c, fg, bg);
      if c < 128 {
        DrawnCell(before, pixels[..], font, base, cells, Stride(), height, col, row, Cell(c, fg, bg));
        cells := cells[(col, row) := Cell(c, fg, bg)];
      }
      LatticeStep(cursorX, width, CELL_WIDTH);
      if cursorX + CELL_WIDTH + CELL_WIDTH > width {
        LineFeed();
      } else {
        cursorX := cursorX + CELL_WIDTH;
      }
    }

    /** Applies the collected parameters, in order. */
    method SelectGraphics(args: seq<nat>)
      requires GoodDevice()
      modifies this`fg, this`bg
      ensures (fg, bg) == SelectAll(theme, old((fg, bg)), args)
    {
      ghost var before := (fg, bg);
      for i := 0 to |args|
        invariant (fg, bg) == SelectAll(theme, before, args[..i])
      {
        var param := args[i];
        assert args[..i + 1][..i] == args[..i];
        if param == 0 {
          fg := theme.defaultFg;
          bg := theme.defaultBg;
        } else if 30 <= param <= 37 {
          fg := theme.colors[param - 30];
        } else if param == 39 {
          fg := theme.defaultFg;
        } else if 40 <= param <= 47 {
          bg := theme.colors[param - 40];
        } else if param == 49 {
          bg := theme.defaultBg;
        } else if 90 <= param <= 97 {
          fg := theme.brightColors[param - 90];
        } else if 100 <= param <= 107 {
          bg := theme.brightColors[param - 100];
        }
      }
      assert args[..|args|] == args;
    }

    /** One byte: the screen follows the grid semantics, and the pixels still show it. */
    method RecvByte(c: Byte)
      requires Valid()
      modifies this, pixels
      ensures Valid() && View() == Recv(theme, Dimensions(), old(View()), c)
    {
      if ansi.Ground? {
        if c == ESC {
          ansi := Escape;
        } else {
          PutCharacter(c);
        }
      } else if ansi.Escape? {
        ansi := if c == BRACKET then Arg(1, seq(MAX_ARGS, _ => 0)) else Ground;
      } else if DIGIT_0 <= c <= DIGIT_9 {
        var last := ansi.args[ansi.count - 1];
        var value := (last * 10 + (c - DIGIT_0)) % USIZE;
        ansi := Arg(ansi.count, ansi.args[ansi.count - 1 := value]);
      } else if c == SEMICOLON {
        if ansi.count < |ansi.args| {
          ansi := Arg(ansi.count + 1, ansi.args);
        }
      } else if c == LETTER_M {
        SelectGraphics(ansi.args[..ansi.count]);
        ansi := Ground;
      }
    }

    /** Screen refinement: after any byte sequence the pixels show exactly what the grid semantics
        prescribes, and the cursor's cell is on the screen. */
    method RecvBytes(bytes: seq<Byte>)
      requires Valid()
      modifies this, pixels
      ensures Valid() && View() == Feed(theme, Dimensions(), old(View()), bytes)
    {
      for i := 0 to |bytes|
        invariant Valid()
        invariant View() == Feed(theme, Dimensions(), old(View()), bytes[..i])
      {
        assert bytes[..i + 1][..i] == bytes[..i];
        RecvByte(bytes[i]);
      }
      assert bytes[..|bytes|] == bytes;
    }

    /** Selecting colours by an escape sequence: no pixel changes, the cursor stays, and the colours
        are those of the parameters in order. */
    method RecvSgr(ps: seq<Option<nat>>)
      requires Valid() && ansi.Ground? && 1 <= |ps| <= MAX_ARGS
      modifies this, pixels
      ensures Valid() && ansi.Ground? && pixels[..] == old(pixels[..])
      ensures cursorX == old(cursorX) && cursorY == old(cursorY)
      ensures (fg, bg) == SelectAll(theme, old((fg, bg)), MeantAll(ps))
    {
      SgrRoundTrip(theme, Dimensions(), View(), ps);
      RecvBytes(SgrSequence(PrintedAll(ps)));
      ShowsOne(old(pixels[..]), pixels[..], font, base, cells, Stride(), height);
    }
  }
}
