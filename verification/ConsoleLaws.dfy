/**
 What the console does for those who write to it, said without its step functions: where text
 appears, which pixels of a letter are lit, and which colours escape sequences select.
 */
module ConsoleLaws {
  import opened Wrappers
  import opened Bytes
  import opened TerminalSpec
  import opened Terminal

  // ---------------------------------------------------------------- text

  /** What was drawn in a cell since the screen was last cleared. */
  function Shown(s: Screen, x: nat, y: nat): Option<Cell>
  {
    if (x, y) in s.cells then Some(s.cells[(x, y)]) else None
  }

  /** Bytes other than escape (27) and newline (10). */
  predicate Plain(text: seq<Byte>)
  {
    forall i :: 0 <= i < |text| ==> text[i] != 27 && text[i] != 10
  }

  /** Cells in reading order. */
  function Offset(g: Grid, x: nat, y: nat): nat { y * g.cols + x }

  /** Nothing but the text and the cursor changed. */
  predicate SameMode(s: Screen, s': Screen)
  {
    s'.base == s.base && s'.fg == s.fg && s'.bg == s.bg && s'.ansi == s.ansi
  }

  /** Between `s` and `s'`, `text` was drawn from offset `p` on; bytes the font lacks left gaps. */
  ghost predicate Drawn(g: Grid, s: Screen, s': Screen, p: nat, text: seq<Byte>)
  {
    forall x: nat, y: nat :: x < g.cols ==>
      var d := Offset(g, x, y) - p;
      Shown(s', x, y) == if 0 <= d < |text| && text[d] < 128 then Some(Cell(text[d], s.fg, s.bg)) else Shown(s, x, y)
  }

  /** The last cell of a line that is not the last one. */
  lemma LineRemains(cols: nat, rows: nat, col: nat, row: nat)
    requires col < cols && row < rows
    ensures row * cols + col + 1 <= cols * rows
    ensures row * cols + col + 1 == cols * rows <==> col + 1 == cols && row + 1 == rows
    ensures (row + 1) * cols == row * cols + cols
  {
    if row + 1 < rows {
      assert (row + 2) * cols <= rows * cols;
    }
  }

  lemma PlainByte(t: Theme, g: Grid, s: Screen, c: Byte)
    requires GoodTheme(t) && s.ansi.Ground? && OnGrid(g, s) && Plain([c])
    requires Offset(g, s.col, s.row) + 1 < g.cols * g.rows
    ensures var s' := Recv(t, g, s, c);
            && SameMode(s, s') && OnGrid(g, s') && Offset(g, s'.col, s'.row) == Offset(g, s.col, s.row) + 1
            && Drawn(g, s, s', Offset(g, s.col, s.row), [c])
  {
    assert [c][0] == c;
    LineRemains(g.cols, g.rows, s.col, s.row);
    var s' := Recv(t, g, s, c);
    forall x: nat, y: nat | x < g.cols && (x != s.col || y != s.row)
      ensures Offset(g, x, y) != Offset(g, s.col, s.row)
    {
      IndexDistinct(g.cols, x, y, s.col, s.row);
    }
  }

  lemma DrawnMore(g: Grid, s: Screen, s': Screen, s'': Screen, p: nat, text: seq<Byte>, c: Byte)
    requires SameMode(s, s') && Drawn(g, s, s', p, text) && Drawn(g, s', s'', p + |text|, [c])
    ensures Drawn(g, s, s'', p, text + [c])
  {
  }

  /** Plain text appears in reading order from the cursor on, wrapping at the end of the line, in the
      current colours; the cursor ends up behind it. Bytes from 128 on leave their cell alone. */
  lemma {:induction false} PlainText(t: Theme, g: Grid, s: Screen, text: seq<Byte>)
    requires GoodTheme(t) && s.ansi.Ground? && OnGrid(g, s) && Plain(text)
    requires Offset(g, s.col, s.row) + |text| < g.cols * g.rows
    ensures var s' := Feed(t, g, s, text);
            && SameMode(s, s') && OnGrid(g, s') && Offset(g, s'.col, s'.row) == Offset(g, s.col, s.row) + |text|
            && Drawn(g, s, s', Offset(g, s.col, s.row), text)
  {
    if text != [] {
      var front, c := text[..|text| - 1], text[|text| - 1];
      PlainText(t, g, s, front);
      var s1 := Feed(t, g, s, front);
      PlainByte(t, g, s1, c);
      DrawnMore(g, s, s1, Recv(t, g, s1, c), Offset(g, s.col, s.row), front, c);
      assert front + [c] == text;
    }
  }

  /** A blank screen in the current background with the cursor at the top left. */
  predicate Blank(g: Grid, s: Screen, s': Screen)
  {
    && s'.col == 0 && s'.row == 0 && s'.cells == map[]
    && |s'.base| == g.pixels && (forall i :: 0 <= i < g.pixels ==> s'.base[i] == s.bg)
    && s'.fg == s.fg && s'.bg == s.bg && s'.ansi == s.ansi
  }

  /** Filling the last cell starts the screen over. */
  lemma FullScreen(t: Theme, g: Grid, s: Screen, text: seq<Byte>)
    requires GoodTheme(t) && s.ansi.Ground? && OnGrid(g, s) && Plain(text) && text != []
    requires Offset(g, s.col, s.row) + |text| == g.cols * g.rows
    ensures Blank(g, s, Feed(t, g, s, text))
  {
    var front := text[..|text| - 1];
    PlainText(t, g, s, front);
    var s1 := Feed(t, g, s, front);
    LineRemains(g.cols, g.rows, s1.col, s1.row);
  }

  /** A newline (10) goes to the start of the next line, or starts the screen over after the last. */
  lemma NewLine(t: Theme, g: Grid, s: Screen)
    requires GoodTheme(t) && s.ansi.Ground? && OnGrid(g, s)
    ensures var s' := Feed(t, g, s, [10]);
            if s.row + 1 == g.rows then Blank(g, s, s')
            else SameMode(s, s') && s'.cells == s.cells && s'.col == 0 && s'.row == s.row + 1
  {
    FeedOne(t, g, s, 10);
  }

  /** Lines, each ended by a newline. */
  function TextOf(lines: seq<seq<Byte>>): seq<Byte>
  {
    if lines == [] then [] else TextOf(lines[..|lines| - 1]) + (lines[|lines| - 1] + [10])
  }

  predicate ShortLines(g: Grid, lines: seq<seq<Byte>>)
  {
    forall i :: 0 <= i < |lines| ==> Plain(lines[i]) && |lines[i]| < g.cols
  }

  /** From line `row` on, the lines were drawn from the left, one per line. */
  ghost predicate LinesDrawn(g: Grid, s: Screen, s': Screen, row: nat, lines: seq<seq<Byte>>)
  {
    forall x: nat, y: nat :: x < g.cols ==>
      Shown(s', x, y) ==
      if row <= y < row + |lines| && x < |lines[y - row]| && lines[y - row][x] < 128
      then Some(Cell(lines[y - row][x], s.fg, s.bg)) else Shown(s, x, y)
  }

  lemma OneLine(t: Theme, g: Grid, s: Screen, line: seq<Byte>)
    requires GoodTheme(t) && s.ansi.Ground? && OnGrid(g, s) && s.col == 0 && s.row + 1 < g.rows
    requires Plain(line) && |line| < g.cols
    ensures var s' := Feed(t, g, s, line + [10]);
            && SameMode(s, s') && OnGrid(g, s') && s'.col == 0 && s'.row == s.row + 1
            && LinesDrawn(g, s, s', s.row, [line])
  {
    FeedTwice(t, g, s, line, [10]);
    LineText(t, g, s, line);
    var s1 := Feed(t, g, s, line);
    NewLine(t, g, s1);
    var s2 := Feed(t, g, s1, [10]);
    DrawnOnLine(g, s, s1, s.row, line);
    SameCells(g, s, s1, s2, s.row, [line]);
  }

  lemma SameCells(g: Grid, s: Screen, s': Screen, s'': Screen, row: nat, lines: seq<seq<Byte>>)
    requires LinesDrawn(g, s, s', row, lines) && s''.cells == s'.cells
    ensures LinesDrawn(g, s, s'', row, lines)
  {
    forall x: nat, y: nat ensures Shown(s'', x, y) == Shown(s', x, y) {}
  }

  lemma LineText(t: Theme, g: Grid, s: Screen, line: seq<Byte>)
    requires GoodTheme(t) && s.ansi.Ground? && OnGrid(g, s) && s.col == 0 && Plain(line) && |line| < g.cols
    ensures var s' := Feed(t, g, s, line);
            && SameMode(s, s') && OnGrid(g, s') && s'.row == s.row && Drawn(g, s, s', s.row * g.cols, line)
  {
    LineFits(g.cols, g.rows, s.row, |line|);
    PlainText(t, g, s, line);
    var s' := Feed(t, g, s, line);
    SameLine(g.cols, s'.col, s'.row, s.row, |line|);
  }

  lemma DrawnOnLine(g: Grid, s: Screen, s': Screen, row: nat, line: seq<Byte>)
    requires |line| < g.cols && Drawn(g, s, s', row * g.cols, line)
    ensures LinesDrawn(g, s, s', row, [line])
  {
    forall x: nat, y: nat | x < g.cols
      ensures 0 <= Offset(g, x, y) - row * g.cols < |line| <==> y == row && x < |line|
      ensures y == row ==> Offset(g, x, y) - row * g.cols == x
    {
      SameLine(g.cols, x, y, row, |line|);
    }
  }

  lemma LineFits(cols: nat, rows: nat, row: nat, n: nat)
    requires n < cols && row < rows
    ensures row * cols + n < cols * rows
  {
    IndexInBounds(cols, rows, n, row);
  }

  /** Offsets within the first `n < cols` cells from the start of a line, or just behind, are on it. */
  lemma SameLine(cols: nat, x: nat, y: nat, row: nat, n: nat)
    requires x < cols && n < cols
    ensures 0 <= y * cols + x - row * cols <= n <==> y == row && x <= n
  {
    if y < row {
      assert (y + 1) * cols <= row * cols;
    } else if row < y {
      assert (row + 1) * cols <= y * cols;
    }
  }

  lemma LinesDrawnMore(g: Grid, s: Screen, s': Screen, s'': Screen, row: nat, lines: seq<seq<Byte>>, line: seq<Byte>)
    requires SameMode(s, s') && LinesDrawn(g, s, s', row, lines) && LinesDrawn(g, s', s'', row + |lines|, [line])
    ensures LinesDrawn(g, s, s'', row, lines + [line])
  {
  }

  /** Lines of text appear one per line, each from the left, and the cursor ends up at the start of
      the line below. */
  lemma {:induction false} TextLines(t: Theme, g: Grid, s: Screen, lines: seq<seq<Byte>>)
    requires GoodTheme(t) && s.ansi.Ground? && OnGrid(g, s) && s.col == 0
    requires ShortLines(g, lines) && s.row + |lines| < g.rows
    ensures var s' := Feed(t, g, s, TextOf(lines));
            && SameMode(s, s') && OnGrid(g, s') && s'.col == 0 && s'.row == s.row + |lines|
            && LinesDrawn(g, s, s', s.row, lines)
  {
    if lines != [] {
      var front, line := lines[..|lines| - 1], lines[|lines| - 1];
      TextLines(t, g, s, front);
      var s1 := Feed(t, g, s, TextOf(front));
      OneLine(t, g, s1, line);
      FeedTwice(t, g, s, TextOf(front), line + [10]);
      LinesDrawnMore(g, s, s1, Feed(t, g, s1, line + [10]), s.row, front, line);
      assert front + [line] == lines;
    }
  }

  // ---------------------------------------------------------------- pixels

  /** In every picture that shows a grid: each drawn cell is its letter in the font, least significant
      bit of each font byte on the left, between two lines of background. */
  lemma LetterPixels(p: seq<Color>, font: seq<bv8>, base: seq<Color>, cells: map<(nat, nat), Cell>,
                     stride: nat, height: nat, col: nat, row: nat, dx: nat, dy: nat)
    requires GoodFont(font) && Shows(p, font, base, cells, stride, height) && dx < 8 && dy < 10
    requires (col, row) in cells && cells[(col, row)].glyph < 128
    requires col * 8 + dx < stride && row * 10 + dy < height
    ensures var cell := cells[(col, row)];
            At(p, stride, height, col * 8 + dx, row * 10 + dy) ==
            if 1 <= dy <= 8 && BitOf(font[cell.glyph * 8 + dy - 1] as nat, dx) then cell.fg else cell.bg
  {
    assert (col * 8 + dx) / 8 == col && (col * 8 + dx) % 8 == dx;
    assert (row * 10 + dy) / 10 == row && (row * 10 + dy) % 10 == dy;
    if 1 <= dy <= 8 {
      BitTests(font[cells[(col, row)].glyph * 8 + dy - 1], dx);
    }
  }

  /** ... and all other pixels are as they were when the screen was last cleared. */
  lemma OtherPixels(p: seq<Color>, font: seq<bv8>, base: seq<Color>, cells: map<(nat, nat), Cell>,
                    stride: nat, height: nat, x: nat, y: nat)
    requires GoodFont(font) && Shows(p, font, base, cells, stride, height) && x < stride && y < height
    requires forall at :: at in cells ==> !(at.0 * 8 <= x < at.0 * 8 + 8 && at.1 * 10 <= y < at.1 * 10 + 10)
    ensures |base| == stride * height && At(p, stride, height, x, y) == At(base, stride, height, x, y)
  {
    var at := (x / 8, y / 10);
    assert at.0 * 8 <= x < at.0 * 8 + 8 && at.1 * 10 <= y < at.1 * 10 + 10;
  }

  // ---------------------------------------------------------------- colours

  /** The screen after a sequence with these parameters. */
  function Selected(t: Theme, g: Grid, s: Screen, ps: seq<Option<nat>>): Screen
    requires GoodTheme(t) && s.ansi.Ground?
  {
    Feed(t, g, s, SgrSequence(PrintedAll(ps)))
  }

  lemma SelectedOne(t: Theme, g: Grid, s: Screen, p: Option<nat>, fg: Color, bg: Color)
    requires GoodTheme(t) && s.ansi.Ground? && Select(t, (s.fg, s.bg), Meant(p)) == (fg, bg)
    ensures Selected(t, g, s, [p]) == s.(fg := fg, bg := bg)
  {
    SgrRoundTrip(t, g, s, [p]);
    assert MeantAll([p]) == [Meant(p)];
    assert [Meant(p)][..0] == [];
  }

  /** Each of the 32 colour codes selects its entry of its table, on its side, and nothing else:
      foreground... */
  lemma ForegroundCodes(t: Theme, g: Grid, s: Screen, i: nat)
    requires GoodTheme(t) && s.ansi.Ground? && i < 8
    ensures Selected(t, g, s, [Some(30 + i)]) == s.(fg := t.colors[i])
    ensures Selected(t, g, s, [Some(90 + i)]) == s.(fg := t.brightColors[i])
  {
    SelectedOne(t, g, s, Some(30 + i), t.colors[i], s.bg);
    SelectedOne(t, g, s, Some(90 + i), t.brightColors[i], s.bg);
  }

  /** ... and background. */
  lemma BackgroundCodes(t: Theme, g: Grid, s: Screen, i: nat)
    requires GoodTheme(t) && s.ansi.Ground? && i < 8
    ensures Selected(t, g, s, [Some(40 + i)]) == s.(bg := t.colors[i])
    ensures Selected(t, g, s, [Some(100 + i)]) == s.(bg := t.brightColors[i])
  {
    SelectedOne(t, g, s, Some(40 + i), s.fg, t.colors[i]);
    SelectedOne(t, g, s, Some(100 + i), s.fg, t.brightColors[i]);
  }

  /** The default codes; leaving the parameter out is 0. */
  lemma DefaultCodes(t: Theme, g: Grid, s: Screen)
    requires GoodTheme(t) && s.ansi.Ground?
    ensures Selected(t, g, s, [Some(39)]) == s.(fg := t.defaultFg)
    ensures Selected(t, g, s, [Some(49)]) == s.(bg := t.defaultBg)
    ensures Selected(t, g, s, [Some(0)]) == s.(fg := t.defaultFg, bg := t.defaultBg)
    ensures Selected(t, g, s, [None]) == s.(fg := t.defaultFg, bg := t.defaultBg)
  {
    SelectedOne(t, g, s, Some(39), t.defaultFg, s.bg);
    SelectedOne(t, g, s, Some(49), s.fg, t.defaultBg);
    SelectedOne(t, g, s, Some(0), t.defaultFg, t.defaultBg);
    SelectedOne(t, g, s, None, t.defaultFg, t.defaultBg);
  }

  /** Every other code, modulo the word size, changes nothing. */
  lemma OtherCodes(t: Theme, g: Grid, s: Screen, p: nat)
    requires GoodTheme(t) && s.ansi.Ground?
    requires var v := p % 0x1_0000_0000_0000_0000;
             !(v == 0 || 30 <= v <= 37 || 39 <= v <= 47 || v == 49 || 90 <= v <= 97 || 100 <= v <= 107)
    ensures Selected(t, g, s, [Some(p)]) == s
  {
    SelectedOne(t, g, s, Some(p), s.fg, s.bg);
  }

  lemma {:induction false} SelectAllTwice(t: Theme, fgbg: (Color, Color), ps: seq<nat>, qs: seq<nat>)
    requires GoodTheme(t)
    ensures SelectAll(t, fgbg, ps + qs) == SelectAll(t, SelectAll(t, fgbg, ps), qs)
  {
    if qs == [] {
      assert ps + qs == ps;
    } else {
      var m := |qs| - 1;
      assert (ps + qs)[..|ps + qs| - 1] == ps + qs[..m];
      SelectAllTwice(t, fgbg, ps, qs[..m]);
    }
  }

  /** Parameters in one sequence act like the same parameters in two, one after the other. */
  lemma SelectedTwice(t: Theme, g: Grid, s: Screen, ps: seq<Option<nat>>, qs: seq<Option<nat>>)
    requires GoodTheme(t) && s.ansi.Ground? && ps != [] && qs != [] && |ps| + |qs| <= 8
    ensures Selected(t, g, s, ps).ansi.Ground?
    ensures Selected(t, g, s, ps + qs) == Selected(t, g, Selected(t, g, s, ps), qs)
  {
    var c1 := SelectAll(t, (s.fg, s.bg), MeantAll(ps));
    var c2 := SelectAll(t, c1, MeantAll(qs));
    assert MeantAll(ps + qs) == MeantAll(ps) + MeantAll(qs);
    SelectAllTwice(t, (s.fg, s.bg), MeantAll(ps), MeantAll(qs));
    SelectedList(t, g, s, ps, c1);
    SelectedList(t, g, s, ps + qs, c2);
    SelectedList(t, g, s.(fg := c1.0, bg := c1.1), qs, c2);
  }

  lemma SelectedList(t: Theme, g: Grid, s: Screen, ps: seq<Option<nat>>, c: (Color, Color))
    requires GoodTheme(t) && s.ansi.Ground? && 1 <= |ps| <= 8 && c == SelectAll(t, (s.fg, s.bg), MeantAll(ps))
    ensures Selected(t, g, s, ps) == s.(fg := c.0, bg := c.1)
  {
    SgrRoundTrip(t, g, s, ps);
  }

  /** Byte for byte, a sequence the kernel prints at boot: ESC [ 9 3 m is bright colour 3. */
  lemma BootColour(t: Theme, g: Grid, s: Screen)
    requires GoodTheme(t) && s.ansi.Ground?
    ensures Feed(t, g, s, [0x1b, 0x5b, 0x39, 0x33, 0x6d]) == s.(fg := t.brightColors[3])
  {
    ForegroundCodes(t, g, s, 3);
    assert Digits(93) == [0x39, 0x33] by {
      assert Digits(9) == [0x39];
    }
    assert PrintedAll([Some(93)]) == [[0x39, 0x33]];
    assert SgrSequence([[0x39, 0x33]]) == [0x1b, 0x5b, 0x39, 0x33, 0x6d];
  }

  // ---------------------------------------------------------------- unknown sequences

  /** An escape before anything but a bracket swallows that byte. */
  lemma EscapeSwallows(t: Theme, g: Grid, s: Screen, c: Byte)
    requires GoodTheme(t) && s.ansi.Ground? && c != 0x5b
    ensures Feed(t, g, s, [0x1b, c]) == s
  {
    assert [0x1b, c] == [0x1b] + [c];
    FeedTwice(t, g, s, [0x1b], [c]);
    FeedOne(t, g, s, 0x1b);
    FeedOne(t, g, Recv(t, g, s, 0x1b), c);
  }

  /** Digits and semicolons of a byte sequence. */
  function Filtered(bytes: seq<Byte>): seq<Byte>
  {
    if bytes == [] then []
    else
      var c := bytes[|bytes| - 1];
      Filtered(bytes[..|bytes| - 1]) + if 0x30 <= c <= 0x39 || c == 0x3b then [c] else []
  }

  /** Inside a sequence everything up to the final m other than digits and semicolons is ignored. */
  lemma {:induction false} NoiseIgnored(t: Theme, g: Grid, s: Screen, bytes: seq<Byte>)
    requires GoodTheme(t) && GoodAnsi(s.ansi) && s.ansi.Arg? && 0x6d !in bytes
    ensures Feed(t, g, s, bytes) == Feed(t, g, s, Filtered(bytes)) && Feed(t, g, s, bytes).ansi.Arg?
  {
    if bytes != [] {
      var front, c := bytes[..|bytes| - 1], bytes[|bytes| - 1];
      NoiseIgnored(t, g, s, front);
      if 0x30 <= c <= 0x39 || c == 0x3b {
        FeedTwice(t, g, s, Filtered(front), [c]);
        FeedOne(t, g, Feed(t, g, s, Filtered(front)), c);
      } else {
        assert Filtered(bytes) == Filtered(front);
      }
    }
  }
}
