/**
 The console as a grid of character cells: what every byte does, as a function on values. Class
 `Terminal.Console` is proved to show exactly this grid in its pixels.
 */
module TerminalSpec {
  import opened Wrappers

  type Byte = b: nat | b < 256
  type Color = nat

  const ESC: Byte := 27
  const NEWLINE: Byte := 10
  const BRACKET: Byte := 91     // [
  const SEMICOLON: Byte := 59   // ;
  const LETTER_M: Byte := 109   // m
  const DIGIT_0: Byte := 48
  const DIGIT_9: Byte := 57

  const MAX_ARGS: nat := 8
  const USIZE: nat := 0x1_0000_0000_0000_0000   // release builds wrap

  datatype Theme = Theme(defaultFg: Color, defaultBg: Color, colors: seq<Color>, brightColors: seq<Color>)

  predicate GoodTheme(t: Theme) { |t.colors| == 8 && |t.brightColors| == 8 }

  datatype AnsiState = Ground | Escape | Arg(count: nat, args: seq<nat>)

  predicate GoodAnsi(a: AnsiState)
  {
    a.Arg? ==> 1 <= a.count <= MAX_ARGS && |a.args| == MAX_ARGS
  }

  /** What was last drawn in a cell. */
  datatype Cell = Cell(glyph: Byte, fg: Color, bg: Color)

  /** The grid: `cells` holds what was drawn since the screen was last cleared; everything else
      still shows `base`. The cursor counts in cells. */
  datatype Screen = Screen(base: seq<Color>, cells: map<(nat, nat), Cell>, col: nat, row: nat,
                           fg: Color, bg: Color, ansi: AnsiState)

  /** Grid size and number of pixels of the frame buffer. */
  datatype Grid = Grid(cols: nat, rows: nat, pixels: nat)

  // ---------------------------------------------------------------- text

  function Clear(g: Grid, s: Screen): Screen
  {
    s.(base := seq(g.pixels, _ => s.bg), cells := map[], col := 0, row := 0)
  }

  /** To the start of the next line; past the last line the screen starts over. */
  function NextLine(g: Grid, s: Screen): Screen
  {
    if s.row + 1 < g.rows then s.(col := 0, row := s.row + 1) else Clear(g, s)
  }

  /** A byte the font does not have leaves the cell alone but still takes its place. */
  function PutChar(g: Grid, s: Screen, c: Byte): Screen
  {
    if c == NEWLINE then NextLine(g, s)
    else
      var s := if c < 128 then s.(cells := s.cells[(s.col, s.row) := Cell(c, s.fg, s.bg)]) else s;
      if s.col + 1 < g.cols then s.(col := s.col + 1) else NextLine(g, s)
  }

  // ---------------------------------------------------------------- select graphic rendition

  /** Foreground and background after one parameter. */
  function Select(t: Theme, fgbg: (Color, Color), p: nat): (Color, Color)
    requires GoodTheme(t)
  {
    if p == 0 then (t.defaultFg, t.defaultBg)
    else if 30 <= p <= 37 then (t.colors[p - 30], fgbg.1)
    else if p == 39 then (t.defaultFg, fgbg.1)
    else if 40 <= p <= 47 then (fgbg.0, t.colors[p - 40])
    else if p == 49 then (fgbg.0, t.defaultBg)
    else if 90 <= p <= 97 then (t.brightColors[p - 90], fgbg.1)
    else if 100 <= p <= 107 then (fgbg.0, t.brightColors[p - 100])
    else fgbg
  }

  function SelectAll(t: Theme, fgbg: (Color, Color), ps: seq<nat>): (Color, Color)
    requires GoodTheme(t)
  {
    if ps == [] then fgbg else Select(t, SelectAll(t, fgbg, ps[..|ps| - 1]), ps[|ps| - 1])
  }

  // ---------------------------------------------------------------- bytes

  function Recv(t: Theme, g: Grid, s: Screen, c: Byte): Screen
    requires GoodTheme(t) && GoodAnsi(s.ansi)
  {
    match s.ansi
    case Ground => if c == ESC then s.(ansi := Escape) else PutChar(g, s, c)
    case Escape => s.(ansi := if c == BRACKET then Arg(1, seq(MAX_ARGS, _ => 0)) else Ground)
    case Arg(count, args) =>
      if DIGIT_0 <= c <= DIGIT_9 then
        s.(ansi := Arg(count, args[count - 1 := (args[count - 1] * 10 + (c - DIGIT_0)) % USIZE]))
      else if c == SEMICOLON then
        s.(ansi := Arg(if count < MAX_ARGS then count + 1 else count, args))
      else if c == LETTER_M then
        var (fg, bg) := SelectAll(t, (s.fg, s.bg), args[..count]);
        s.(fg := fg, bg := bg, ansi := Ground)
      else s
  }

  function Feed(t: Theme, g: Grid, s: Screen, bytes: seq<Byte>): (s': Screen)
    requires GoodTheme(t) && GoodAnsi(s.ansi)
    ensures GoodAnsi(s'.ansi)
  {
    if bytes == [] then s
    else Recv(t, g, Feed(t, g, s, bytes[..|bytes| - 1]), bytes[|bytes| - 1])
  }

  lemma {:induction false} FeedTwice(t: Theme, g: Grid, s: Screen, a: seq<Byte>, b: seq<Byte>)
    requires GoodTheme(t) && GoodAnsi(s.ansi)
    ensures Feed(t, g, s, a + b) == Feed(t, g, Feed(t, g, s, a), b)
  {
    if b == [] {
      assert a + b == a;
    } else {
      var m := |b| - 1;
      assert (a + b)[..|a + b| - 1] == a + b[..m];
      FeedTwice(t, g, s, a, b[..m]);
    }
  }

  lemma FeedOne(t: Theme, g: Grid, s: Screen, c: Byte)
    requires GoodTheme(t) && GoodAnsi(s.ansi)
    ensures Feed(t, g, s, [c]) == Recv(t, g, s, c)
  {
    assert [c][..0] == [];
  }

  /** The cursor and everything drawn are on the grid. */
  ghost predicate OnGrid(g: Grid, s: Screen)
  {
    && s.col < g.cols && s.row < g.rows
    && forall at :: at in s.cells ==> at.0 < g.cols && at.1 < g.rows && s.cells[at].glyph < 128
  }

  /** No byte sequence leaves the grid: pixels outside all cells keep showing the base. */
  lemma {:induction false} FeedStaysOnGrid(t: Theme, g: Grid, s: Screen, bytes: seq<Byte>)
    requires GoodTheme(t) && GoodAnsi(s.ansi) && OnGrid(g, s)
    ensures OnGrid(g, Feed(t, g, s, bytes))
  {
    if bytes != [] {
      FeedStaysOnGrid(t, g, s, bytes[..|bytes| - 1]);
    }
  }

  // ---------------------------------------------------------------- escape sequences

  predicate IsDigit(c: Byte) { DIGIT_0 <= c <= DIGIT_9 }

  predicate IsNumeral(text: seq<Byte>) { forall i :: 0 <= i < |text| ==> IsDigit(text[i]) }

  /** What is left in a parameter that held `v` after more digits: decimal, modulo the word size. */
  function Accumulate(v: nat, text: seq<Byte>): nat
    requires IsNumeral(text)
  {
    if text == [] then v
    else (Accumulate(v, text[..|text| - 1]) * 10 + (text[|text| - 1] - DIGIT_0)) % USIZE
  }

  lemma {:induction false} AccumulateTwice(v: nat, a: seq<Byte>, b: seq<Byte>)
    requires IsNumeral(a) && IsNumeral(b)
    ensures IsNumeral(a + b) && Accumulate(v, a + b) == Accumulate(Accumulate(v, a), b)
  {
    if b == [] {
      assert a + b == a;
    } else {
      var m := |b| - 1;
      assert (a + b)[..|a + b| - 1] == a + b[..m];
      AccumulateTwice(v, a, b[..m]);
    }
  }

  /** The decimal digits of a number. */
  function Digits(n: nat): (text: seq<Byte>)
    ensures IsNumeral(text) && text != []
  {
    if n < 10 then [DIGIT_0 + n] else Digits(n / 10) + [DIGIT_0 + n % 10]
  }

  lemma ModStep(x: nat, d: nat)
    ensures ((x % USIZE) * 10 + d) % USIZE == (x * 10 + d) % USIZE
  {
  }

  /** Reading a printed number gives the number, modulo the word size. */
  lemma {:induction false} ReadsBack(n: nat)
    ensures Accumulate(0, Digits(n)) == n % USIZE
  {
    if n < 10 {
      assert Digits(n)[..0] == [];
    } else {
      var front := Digits(n / 10);
      assert Digits(n)[..|front|] == front;
      ReadsBack(n / 10);
      ModStep(n / 10, n % 10);
    }
  }

  /** Parameter texts separated by semicolons. */
  function Join(texts: seq<seq<Byte>>): seq<Byte>
  {
    if texts == [] then []
    else if |texts| == 1 then texts[0]
    else Join(texts[..|texts| - 1]) + [SEMICOLON] + texts[|texts| - 1]
  }

  function SgrSequence(texts: seq<seq<Byte>>): seq<Byte>
  {
    [ESC, BRACKET] + Join(texts) + [LETTER_M]
  }

  predicate Numerals(texts: seq<seq<Byte>>)
  {
    texts != [] && forall i :: 0 <= i < |texts| ==> IsNumeral(texts[i])
  }

  function Slot(n: nat): nat { if n <= MAX_ARGS then n else MAX_ARGS }

  /** The parameter array after these texts: from the ninth text on, digits run on in the last slot. */
  function ArgsOf(texts: seq<seq<Byte>>): (args: seq<nat>)
    requires Numerals(texts)
    ensures |args| == MAX_ARGS
  {
    var last := texts[|texts| - 1];
    if |texts| == 1 then seq(MAX_ARGS, _ => 0)[0 := Accumulate(0, last)]
    else
      var args := ArgsOf(texts[..|texts| - 1]);
      var i := Slot(|texts|) - 1;
      args[i := Accumulate(args[i], last)]
  }

  lemma {:induction false} FeedNumeral(t: Theme, g: Grid, s: Screen, text: seq<Byte>)
    requires GoodTheme(t) && GoodAnsi(s.ansi) && s.ansi.Arg? && IsNumeral(text)
    ensures var i := s.ansi.count - 1;
            Feed(t, g, s, text) == s.(ansi := Arg(s.ansi.count, s.ansi.args[i := Accumulate(s.ansi.args[i], text)]))
  {
    var i := s.ansi.count - 1;
    if text == [] {
      assert s.ansi.args[i := s.ansi.args[i]] == s.ansi.args;
    } else {
      FeedNumeral(t, g, s, text[..|text| - 1]);
      var v, v' := Accumulate(s.ansi.args[i], text[..|text| - 1]), Accumulate(s.ansi.args[i], text);
      assert s.ansi.args[i := v][i := v'] == s.ansi.args[i := v'];
    }
  }

  lemma FeedNextText(t: Theme, g: Grid, s: Screen, text: seq<Byte>)
    requires GoodTheme(t) && GoodAnsi(s.ansi) && s.ansi.Arg? && IsNumeral(text)
    ensures var n := Slot(s.ansi.count + 1);
            Feed(t, g, s, [SEMICOLON] + text)
            == s.(ansi := Arg(n, s.ansi.args[n - 1 := Accumulate(s.ansi.args[n - 1], text)]))
  {
    FeedTwice(t, g, s, [SEMICOLON], text);
    FeedOne(t, g, s, SEMICOLON);
    FeedNumeral(t, g, Recv(t, g, s, SEMICOLON), text);
  }

  lemma JoinLast(texts: seq<seq<Byte>>)
    requires |texts| > 1
    ensures var m := |texts| - 1; Join(texts) == Join(texts[..m]) + ([SEMICOLON] + texts[m])
  {
  }

  lemma FeedLastText(t: Theme, g: Grid, s: Screen, a: AnsiState, front: seq<Byte>, text: seq<Byte>,
                     whole: seq<Byte>, n: nat, args: seq<nat>)
    requires GoodTheme(t) && GoodAnsi(s.ansi) && GoodAnsi(a) && a.Arg? && IsNumeral(text)
    requires Feed(t, g, s, front) == s.(ansi := a) && whole == front + ([SEMICOLON] + text)
    requires n == Slot(a.count + 1) && args == a.args[n - 1 := Accumulate(a.args[n - 1], text)]
    ensures Feed(t, g, s, whole) == s.(ansi := Arg(n, args))
  {
    FeedTwice(t, g, s, front, [SEMICOLON] + text);
    FeedNextText(t, g, s.(ansi := a), text);
  }

  lemma {:induction false} FeedJoin(t: Theme, g: Grid, s: Screen, texts: seq<seq<Byte>>)
    requires GoodTheme(t) && s.ansi == Arg(1, seq(MAX_ARGS, _ => 0)) && Numerals(texts)
    ensures Feed(t, g, s, Join(texts)) == s.(ansi := Arg(Slot(|texts|), ArgsOf(texts)))
  {
    if |texts| == 1 {
      FeedNumeral(t, g, s, texts[0]);
    } else {
      var front := texts[..|texts| - 1];
      FeedJoin(t, g, s, front);
      FeedJoinLast(t, g, s, texts, front);
    }
  }

  lemma FeedJoinLast(t: Theme, g: Grid, s: Screen, texts: seq<seq<Byte>>, front: seq<seq<Byte>>)
    requires GoodTheme(t) && GoodAnsi(s.ansi) && Numerals(texts) && |texts| > 1 && front == texts[..|texts| - 1]
    requires Feed(t, g, s, Join(front)) == s.(ansi := Arg(Slot(|front|), ArgsOf(front)))
    ensures Feed(t, g, s, Join(texts)) == s.(ansi := Arg(Slot(|texts|), ArgsOf(texts)))
  {
    var before, last := Arg(Slot(|front|), ArgsOf(front)), texts[|texts| - 1];
    JoinLast(texts);
    ArgsOfNext(texts, front);
    FeedLastText(t, g, s, before, Join(front), last, Join(texts), Slot(|texts|), ArgsOf(texts));
  }

  lemma ArgsOfNext(texts: seq<seq<Byte>>, front: seq<seq<Byte>>)
    requires Numerals(texts) && |texts| > 1 && front == texts[..|texts| - 1]
    ensures var n, args := Slot(Slot(|front|) + 1), ArgsOf(front);
            n == Slot(|texts|) && ArgsOf(texts) == args[n - 1 := Accumulate(args[n - 1], texts[|front|])]
  {
  }

  /** A whole sequence, from the ground state: back to the ground state, nothing but the colours
      changes, and they are those of applying the collected parameters in order. */
  lemma FeedSgr(t: Theme, g: Grid, s: Screen, texts: seq<seq<Byte>>)
    requires GoodTheme(t) && s.ansi.Ground? && Numerals(texts)
    ensures var (fg, bg) := SelectAll(t, (s.fg, s.bg), ArgsOf(texts)[..Slot(|texts|)]);
            Feed(t, g, s, SgrSequence(texts)) == s.(fg := fg, bg := bg)
  {
    var s1 := Recv(t, g, s, ESC);
    var s2 := Recv(t, g, s1, BRACKET);
    assert [ESC, BRACKET] == [ESC] + [BRACKET];
    FeedTwice(t, g, s, [ESC], [BRACKET]);
    FeedOne(t, g, s, ESC);
    FeedOne(t, g, s1, BRACKET);
    FeedTwice(t, g, s, [ESC, BRACKET] + Join(texts), [LETTER_M]);
    FeedTwice(t, g, s, [ESC, BRACKET], Join(texts));
    FeedJoin(t, g, s2, texts);
    FeedOne(t, g, Feed(t, g, s2, Join(texts)), LETTER_M);
  }

  function Concat(texts: seq<seq<Byte>>): seq<Byte>
  {
    if texts == [] then [] else Concat(texts[..|texts| - 1]) + texts[|texts| - 1]
  }

  /** What counts as the parameters: all of them up to eight; beyond that, semicolons no longer
      separate and everything from the eighth on reads as one number. */
  function Effective(texts: seq<seq<Byte>>): seq<seq<Byte>>
  {
    if |texts| <= MAX_ARGS then texts else texts[..MAX_ARGS - 1] + [Concat(texts[MAX_ARGS - 1..])]
  }

  lemma {:induction false} ConcatNumeral(texts: seq<seq<Byte>>)
    requires forall i :: 0 <= i < |texts| ==> IsNumeral(texts[i])
    ensures IsNumeral(Concat(texts))
  {
    if texts != [] {
      ConcatNumeral(texts[..|texts| - 1]);
    }
  }

  lemma {:induction false} ArgsOfFew(texts: seq<seq<Byte>>)
    requires Numerals(texts) && |texts| <= MAX_ARGS
    ensures forall i :: 0 <= i < MAX_ARGS ==> ArgsOf(texts)[i] == if i < |texts| then Accumulate(0, texts[i]) else 0
  {
    if |texts| > 1 {
      ArgsOfFew(texts[..|texts| - 1]);
    }
  }

  lemma {:induction false} ArgsOfMany(texts: seq<seq<Byte>>)
    requires Numerals(texts) && |texts| >= MAX_ARGS
    ensures forall i :: 0 <= i < MAX_ARGS - 1 ==> ArgsOf(texts)[i] == Accumulate(0, texts[i])
    ensures IsNumeral(Concat(texts[MAX_ARGS - 1..]))
    ensures ArgsOf(texts)[MAX_ARGS - 1] == Accumulate(0, Concat(texts[MAX_ARGS - 1..]))
  {
    var tail := texts[MAX_ARGS - 1..];
    ConcatNumeral(tail);
    if |texts| == MAX_ARGS {
      ArgsOfFew(texts);
      assert tail == [texts[MAX_ARGS - 1]] && tail[..0] == [];
      assert Concat(tail) == [] + texts[MAX_ARGS - 1] == texts[MAX_ARGS - 1];
    } else {
      var front, last := texts[..|texts| - 1], texts[|texts| - 1];
      ArgsOfMany(front);
      assert tail[..|tail| - 1] == front[MAX_ARGS - 1..];
      AccumulateTwice(0, Concat(front[MAX_ARGS - 1..]), last);
    }
  }

  predicate ReadsAs(args: seq<nat>, texts: seq<seq<Byte>>)
  {
    |args| == |texts| && forall i :: 0 <= i < |texts| ==> IsNumeral(texts[i]) && args[i] == Accumulate(0, texts[i])
  }

  lemma ArgsRead(texts: seq<seq<Byte>>)
    requires Numerals(texts)
    ensures ReadsAs(ArgsOf(texts)[..Slot(|texts|)], Effective(texts))
  {
    var args, eff := ArgsOf(texts), Effective(texts);
    if |texts| <= MAX_ARGS {
      ArgsOfFew(texts);
    } else {
      ArgsOfMany(texts);
      assert |eff| == MAX_ARGS && eff[MAX_ARGS - 1] == Concat(texts[MAX_ARGS - 1..]);
      forall i | 0 <= i < MAX_ARGS - 1 ensures IsNumeral(eff[i]) && args[i] == Accumulate(0, eff[i]) {
        assert eff[i] == texts[i];
      }
    }
  }

  /** The exact meaning of a sequence with any number of parameters. */
  lemma SgrMeaning(t: Theme, g: Grid, s: Screen, texts: seq<seq<Byte>>) returns (args: seq<nat>)
    requires GoodTheme(t) && s.ansi.Ground? && Numerals(texts)
    ensures ReadsAs(args, Effective(texts))
    ensures var (fg, bg) := SelectAll(t, (s.fg, s.bg), args);
            Feed(t, g, s, SgrSequence(texts)) == s.(fg := fg, bg := bg)
  {
    args := ArgsOf(texts)[..Slot(|texts|)];
    ArgsRead(texts);
    FeedSgr(t, g, s, texts);
  }

  /** A parameter as printed: a number, or left out. */
  function Printed(p: Option<nat>): seq<Byte> { if p.None? then [] else Digits(p.value) }

  /** ... and as understood: left out means zero, and numbers wrap at the word size. */
  function Meant(p: Option<nat>): nat { if p.None? then 0 else p.value % USIZE }

  function PrintedAll(ps: seq<Option<nat>>): (texts: seq<seq<Byte>>)
    ensures |texts| == |ps| && forall i :: 0 <= i < |ps| ==> IsNumeral(texts[i])
  {
    seq(|ps|, i requires 0 <= i < |ps| => Printed(ps[i]))
  }

  function MeantAll(ps: seq<Option<nat>>): seq<nat>
  {
    seq(|ps|, i requires 0 <= i < |ps| => Meant(ps[i]))
  }

  /** Round trip: printing one to eight parameters and feeding them to the console applies exactly
      these parameters in order, and changes nothing else. */
  lemma SgrRoundTrip(t: Theme, g: Grid, s: Screen, ps: seq<Option<nat>>)
    requires GoodTheme(t) && s.ansi.Ground? && 1 <= |ps| <= MAX_ARGS
    ensures var (fg, bg) := SelectAll(t, (s.fg, s.bg), MeantAll(ps));
            Feed(t, g, s, SgrSequence(PrintedAll(ps))) == s.(fg := fg, bg := bg)
  {
    FeedSgr(t, g, s, PrintedAll(ps));
    ReadsExactlyEight(ps);
  }

  /** The collected parameters are the printed ones if and only if there are at most eight. */
  lemma ReadsExactlyEight(ps: seq<Option<nat>>)
    requires ps != []
    ensures ArgsOf(PrintedAll(ps))[..Slot(|ps|)] == MeantAll(ps) <==> |ps| <= MAX_ARGS
  {
    var args := ArgsOf(PrintedAll(ps))[..Slot(|ps|)];
    if |ps| <= MAX_ARGS {
      ArgsRead(PrintedAll(ps));
      forall i | 0 <= i < |ps| ensures args[i] == MeantAll(ps)[i] {
        if ps[i].Some? {
          ReadsBack(ps[i].value);
        }
      }
    }
  }

  /** Printing these parameters applies them in order and does nothing else. */
  ghost predicate RoundTrips(t: Theme, g: Grid, s: Screen, ps: seq<Option<nat>>)
    requires GoodTheme(t) && GoodAnsi(s.ansi)
  {
    var (fg, bg) := SelectAll(t, (s.fg, s.bg), MeantAll(ps));
    Feed(t, g, s, SgrSequence(PrintedAll(ps))) == s.(fg := fg, bg := bg)
  }

  /** `n` parameters that are misread for every `n` from nine on: seven times zero, 31, and empty
      ones, which should each reset the colours and go unnoticed instead. */
  function Unnoticed(n: nat): seq<Option<nat>>
    requires n > MAX_ARGS
  {
    seq(MAX_ARGS - 1, _ => Some(0)) + [Some(31)] + seq(n - MAX_ARGS, _ => None)
  }

  lemma {:induction false} ConcatEmpty(texts: seq<seq<Byte>>)
    requires texts != [] && forall i :: 1 <= i < |texts| ==> texts[i] == []
    ensures Concat(texts) == texts[0]
  {
    if |texts| == 1 {
      assert texts[..0] == [];
      assert Concat(texts) == [] + texts[0] == texts[0];
    } else {
      ConcatEmpty(texts[..|texts| - 1]);
      assert Concat(texts) == Concat(texts[..|texts| - 1]) + [] == texts[0];
    }
  }

  lemma ManyMisread(t: Theme, g: Grid, s: Screen, n: nat)
    requires GoodTheme(t) && s.ansi.Ground? && n > MAX_ARGS && t.colors[1] != t.defaultFg
    ensures !RoundTrips(t, g, s, Unnoticed(n))
  {
    var ps := Unnoticed(n);
    var texts := PrintedAll(ps);
    var args := SgrMeaning(t, g, s, texts);
    assert ps[MAX_ARGS - 1] == Some(31) && ps[n - 1] == None;
    assert args[MAX_ARGS - 1] == 31 by {
      var tail := texts[MAX_ARGS - 1..];
      forall i | 1 <= i < |tail| ensures tail[i] == [] { assert ps[MAX_ARGS - 1 + i] == None; }
      ConcatEmpty(tail);
      ReadsBack(31);
      assert Effective(texts)[MAX_ARGS - 1] == Concat(tail) == Digits(31);
    }
    assert SelectAll(t, (s.fg, s.bg), args).0 == t.colors[1];
    assert SelectAll(t, (s.fg, s.bg), MeantAll(ps)).0 == t.defaultFg;
  }

  /** Eight is the exact limit: every list of `n` parameters makes the round trip if and only if
      `n` is at most eight (in a theme whose second colour is not the default). */
  lemma EightIsTheLimit(t: Theme, g: Grid, s: Screen, n: nat)
    requires GoodTheme(t) && s.ansi.Ground? && n >= 1 && t.colors[1] != t.defaultFg
    ensures n <= 8 <==> forall ps: seq<Option<nat>> :: |ps| == n ==> RoundTrips(t, g, s, ps)
  {
    if n <= MAX_ARGS {
      forall ps: seq<Option<nat>> | |ps| == n ensures RoundTrips(t, g, s, ps) { SgrRoundTrip(t, g, s, ps); }
    } else {
      ManyMisread(t, g, s, n);
      assert |Unnoticed(n)| == n;
    }
  }

  /** Seven ones, a three and a one. */
  function NineParameters(): seq<Option<nat>> { seq(7, _ => Some(1)) + [Some(3), Some(1)] }

  lemma NineRead(args: seq<nat>)
    requires ReadsAs(args, Effective(PrintedAll(NineParameters())))
    ensures |args| == 8 && args[7] == 31 && forall i :: 0 <= i < 7 ==> args[i] == 1
  {
    var texts := PrintedAll(NineParameters());
    var eff := Effective(texts);
    var one, three: seq<Byte> := [DIGIT_0 + 1], [DIGIT_0 + 3];
    assert texts[7..] == [three, one];
    TwoTexts(three, one);
    OneDigit(0, 1);
    OneDigit(0, 3);
    OneDigit(3, 1);
    AccumulateTwice(0, three, one);
    assert eff[7] == three + one;
    forall i | 0 <= i < 7 ensures args[i] == 1 {
      assert eff[i] == one;
    }
  }

  /** With a ninth parameter the round trip fails: seven harmless ones, then 3 and 1, read as 31. */
  lemma NinthParameterRunsOn(t: Theme, g: Grid, s: Screen)
    requires GoodTheme(t) && s.ansi.Ground? && t.colors[1] != s.fg
    ensures var ps := NineParameters();
            && SelectAll(t, (s.fg, s.bg), MeantAll(ps)) == (s.fg, s.bg)
            && Feed(t, g, s, SgrSequence(PrintedAll(ps))).fg == t.colors[1] != s.fg
  {
    HarmlessParameters(t, (s.fg, s.bg), MeantAll(NineParameters()));
    var args := SgrMeaning(t, g, s, PrintedAll(NineParameters()));
    NineRead(args);
    HarmlessParameters(t, (s.fg, s.bg), args[..7]);
  }

  lemma OneDigit(v: nat, d: nat)
    requires v < 10 && d < 10
    ensures Accumulate(v, [DIGIT_0 + d]) == v * 10 + d
  {
    assert [DIGIT_0 + d][..0] == [];
  }

  lemma TwoTexts(a: seq<Byte>, b: seq<Byte>)
    ensures Concat([a, b]) == a + b
  {
    assert [a, b][..1] == [a] && [a][..0] == [];
    assert Concat([a]) == [] + a == a;
  }

  lemma {:induction false} HarmlessParameters(t: Theme, fgbg: (Color, Color), ps: seq<nat>)
    requires GoodTheme(t) && forall i :: 0 <= i < |ps| ==> ps[i] == 1 || ps[i] == 3
    ensures SelectAll(t, fgbg, ps) == fgbg
  {
    if ps != [] {
      HarmlessParameters(t, fgbg, ps[..|ps| - 1]);
    }
  }
}
