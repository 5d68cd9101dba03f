/** JSON string literals as RFC 8259 writes them, and what they spell: the decoder reads these and no others, with
    exactly this meaning. */
module StringGrammar {
  import opened Option
  import opened MessageFormat

  // ----- Glyphs -----

  datatype Hex = Hex(value: nat, upper: bool)

  const LOWER := "0123456789abcdef"
  const UPPER := "0123456789ABCDEF"

  /** What stands behind a backslash, and what it stands for. */
  const SHORT: map<char, char> := map[
    '"' := '"', '\\' := '\\', '/' := '/', 'b' := '\U{0008}', 'f' := '\U{000C}', 'n' := '\n', 'r' := '\r', 't' := '\t']

  /** One character as it is written, or one UTF-16 code unit. */
  datatype Glyph = Raw(c: char) | Short(c: char) | Unit(a: Hex, b: Hex, c4: Hex, d: Hex)

  predicate IsGlyph(g: Glyph) {
    match g
    case Raw(c) => c >= ' ' && c != '"' && c != '\\'
    case Short(c) => c in SHORT
    case Unit(a, b, c, d) => a.value < 16 && b.value < 16 && c.value < 16 && d.value < 16
  }

  predicate AreGlyphs(gs: seq<Glyph>) {
    forall k :: 0 <= k < |gs| ==> IsGlyph(gs[k])
  }

  function HexChar(h: Hex): char
    requires h.value < 16
  {
    if h.upper then UPPER[h.value] else LOWER[h.value]
  }

  function GlyphText(g: Glyph): string
    requires IsGlyph(g)
  {
    match g
    case Raw(c) => [c]
    case Short(c) => ['\\', c]
    case Unit(_, _, _, _) => ['\\', 'u'] + HexText(g)
  }

  function HexText(g: Glyph): string
    requires IsGlyph(g) && g.Unit?
  {
    [HexChar(g.a), HexChar(g.b), HexChar(g.c4), HexChar(g.d)]
  }

  function Code(g: Glyph): nat
    requires IsGlyph(g) && g.Unit?
  {
    g.a.value * 0x1000 + g.b.value * 0x100 + g.c4.value * 0x10 + g.d.value
  }

  predicate IsHigh(g: Glyph) {
    IsGlyph(g) && g.Unit? && 0xD800 <= Code(g) < 0xDC00
  }

  predicate IsLow(g: Glyph) {
    IsGlyph(g) && g.Unit? && 0xDC00 <= Code(g) < 0xE000
  }

  function Write(gs: seq<Glyph>): string
    requires AreGlyphs(gs)
  {
    if gs == [] then [] else GlyphText(gs[0]) + Write(gs[1..])
  }

  /** A single character; half of a surrogate pair becomes the replacement character. */
  function Alone(g: Glyph): char
    requires IsGlyph(g)
  {
    match g
    case Raw(c) => c
    case Short(c) => SHORT[c]
    case Unit(_, _, _, _) => if IsHigh(g) || IsLow(g) then '\U{FFFD}' else Code(g) as char
  }

  /** The character of a surrogate pair. */
  function Joined(high: nat, low: nat): char
    requires 0xD800 <= high < 0xDC00 <= low < 0xE000
  {
    (0x1_0000 + (high - 0xD800) * 0x400 + (low - 0xDC00)) as char
  }

  /** What the glyphs spell. */
  function Spelled(gs: seq<Glyph>): string
    requires AreGlyphs(gs)
  {
    if gs == [] then []
    else if |gs| > 1 && IsHigh(gs[0]) && IsLow(gs[1]) then
      [Joined(Code(gs[0]), Code(gs[1]))] + Spelled(gs[2..])
    else [Alone(gs[0])] + Spelled(gs[1..])
  }

  lemma HexReadsBack(h: Hex)
    requires h.value < 16
    ensures HexDigit(HexChar(h)) == Some(h.value)
  {
    var v := h.value;
    assert v == 0 || v == 1 || v == 2 || v == 3 || v == 4 || v == 5 || v == 6 || v == 7
        || v == 8 || v == 9 || v == 10 || v == 11 || v == 12 || v == 13 || v == 14 || v == 15;
  }

  lemma HexWasWritten(c: char) returns (h: Hex)
    requires HexDigit(c).Some?
    ensures h.value < 16 && HexChar(h) == c && HexDigit(c) == Some(h.value)
  {
    h := Hex(HexDigit(c).value, 'A' <= c <= 'F');
    var v := h.value;
    assert v == 0 || v == 1 || v == 2 || v == 3 || v == 4 || v == 5 || v == 6 || v == 7
        || v == 8 || v == 9 || v == 10 || v == 11 || v == 12 || v == 13 || v == 14 || v == 15;
  }

  lemma UnitReadsBack(g: Glyph, rest: string)
    requires IsGlyph(g) && g.Unit?
    ensures CodeUnit(HexText(g) + rest) == Some(Code(g))
    ensures (HexText(g) + rest)[4..] == rest
  {
    HexReadsBack(g.a);
    HexReadsBack(g.b);
    HexReadsBack(g.c4);
    HexReadsBack(g.d);
    assert (HexText(g) + rest)[4..] == rest;
  }

  lemma UnitWasWritten(s: string) returns (g: Glyph)
    requires CodeUnit(s).Some?
    ensures IsGlyph(g) && g.Unit? && CodeUnit(s) == Some(Code(g))
    ensures |s| >= 4 && "\\u" + s == GlyphText(g) + s[4..]
  {
    var a := HexWasWritten(s[0]);
    var b := HexWasWritten(s[1]);
    var c := HexWasWritten(s[2]);
    var d := HexWasWritten(s[3]);
    g := Unit(a, b, c, d);
    assert s == s[..4] + s[4..];
  }

  /** The text goes on with the second half of a surrogate pair. */
  predicate LowAhead(s: string) {
    |s| >= 6 && s[0] == '\\' && s[1] == 'u' && CodeUnit(s[2..]).Some? && 0xDC00 <= CodeUnit(s[2..]).value < 0xE000
  }

  lemma EscapedUnit(g: Glyph, rest: string)
    requires IsGlyph(g) && g.Unit?
    ensures UnicodeEscape(HexText(g) + rest) ==
            if IsHigh(g) && LowAhead(rest)
            then Some((Joined(Code(g), CodeUnit(rest[2..]).value), rest[6..]))
            else Some((Alone(g), rest))
  {
    var s := HexText(g) + rest;
    UnitReadsBack(g, rest);
    assert s[4..] == rest;
    if |s| >= 10 {
      assert s[4] == rest[0] && s[5] == rest[1] && s[6..] == rest[2..] && s[10..] == rest[6..];
    }
  }

  /** The literal from these glyphs to its closing quote, and what follows. */
  function Quoted(gs: seq<Glyph>, rest: string): string
    requires AreGlyphs(gs)
  {
    Write(gs) + ("\"" + rest)
  }

  lemma QuotedFirst(gs: seq<Glyph>, rest: string)
    requires AreGlyphs(gs) && gs != []
    ensures Quoted(gs, rest) == GlyphText(gs[0]) + Quoted(gs[1..], rest)
  {
    Regroup(GlyphText(gs[0]), Write(gs[1..]), "\"" + rest);
  }

  lemma Regroup(a: string, b: string, c: string)
    ensures (a + b) + c == a + (b + c)
  {
  }

  lemma UnitIsAhead(g: Glyph, more: string)
    requires IsGlyph(g) && g.Unit?
    ensures var s := GlyphText(g) + more;
            (LowAhead(s) <==> IsLow(g)) && CodeUnit(s[2..]) == Some(Code(g)) && s[6..] == more
  {
    var s := GlyphText(g) + more;
    assert s[2..] == HexText(g) + more;
    UnitReadsBack(g, more);
  }

  lemma NoUnitAhead(gs: seq<Glyph>, rest: string)
    requires AreGlyphs(gs) && (gs != [] ==> !gs[0].Unit?)
    ensures !LowAhead(Quoted(gs, rest))
  {
    if gs != [] {
      QuotedFirst(gs, rest);
      assert Quoted(gs, rest)[0] == GlyphText(gs[0])[0];
      assert gs[0].Short? ==> Quoted(gs, rest)[1] == gs[0].c;
    } else {
      assert Quoted(gs, rest)[0] == '"';
    }
  }

  /** Whether a second half is ahead can be told from the glyphs. */
  lemma LowAheadIsGlyph(gs: seq<Glyph>, rest: string)
    requires AreGlyphs(gs)
    ensures LowAhead(Quoted(gs, rest)) <==> gs != [] && IsLow(gs[0])
    ensures gs != [] && IsLow(gs[0]) ==>
              var s := Quoted(gs, rest);
              |s| >= 2 && CodeUnit(s[2..]) == Some(Code(gs[0])) && |s| >= 6 && s[6..] == Quoted(gs[1..], rest)
  {
    if gs != [] && gs[0].Unit? {
      QuotedFirst(gs, rest);
      UnitIsAhead(gs[0], Quoted(gs[1..], rest));
    } else {
      NoUnitAhead(gs, rest);
    }
  }

  // ----- Reading string literals -----

  /** One step of reading: a character, and the text after it. */
  lemma ReadOne(s: string, c: char, after: string)
    requires s != [] && s[0] >= ' ' && s[0] != '"'
    requires (if s[0] == '\\' then Escape(s[1..]) else Some((s[0], s[1..]))) == Some((c, after))
    ensures ReadText(s) == match ReadText(after)
                           case Some((text, rest)) => Some(([c] + text, rest))
                           case None => None
  {
  }

  lemma EscapeReadsBack(c: char, rest: string)
    requires c in SHORT
    ensures Escape([c] + rest) == Some((SHORT[c], rest))
  {
    assert ([c] + rest)[0] == c && ([c] + rest)[1..] == rest;
  }

  lemma SpelledPair(gs: seq<Glyph>)
    requires AreGlyphs(gs) && |gs| > 1 && IsHigh(gs[0]) && IsLow(gs[1])
    ensures Spelled(gs) == [Joined(Code(gs[0]), Code(gs[1]))] + Spelled(gs[2..])
  {
  }

  lemma SpelledAlone(gs: seq<Glyph>)
    requires AreGlyphs(gs) && gs != [] && !(|gs| > 1 && IsHigh(gs[0]) && IsLow(gs[1]))
    ensures Spelled(gs) == [Alone(gs[0])] + Spelled(gs[1..])
  {
  }

  /** The first character of a literal. */
  lemma FirstReads(gs: seq<Glyph>, rest: string)
    requires AreGlyphs(gs) && gs != [] && !(|gs| > 1 && IsHigh(gs[0]) && IsLow(gs[1]))
    ensures ReadText(Quoted(gs, rest)) == match ReadText(Quoted(gs[1..], rest))
                                          case Some((text, rest)) => Some(([Alone(gs[0])] + text, rest))
                                          case None => None
  {
    var s, more := Quoted(gs, rest), Quoted(gs[1..], rest);
    QuotedFirst(gs, rest);
    match gs[0]
    case Raw(c) => assert s[1..] == more;
    case Short(c) =>
      assert s[1..] == [c] + more;
      EscapeReadsBack(c, more);
      ReadOne(s, SHORT[c], more);
    case Unit(_, _, _, _) =>
      UnitEscape(gs[0], more);
      LowAheadIsGlyph(gs[1..], rest);
      ReadOne(s, Alone(gs[0]), more);
  }

  lemma EscapeOfUnit(hex: string)
    ensures Escape(['u'] + hex) == UnicodeEscape(hex)
  {
    assert (['u'] + hex)[1..] == hex;
  }

  /** A code unit behind its backslash. */
  lemma UnitEscape(g: Glyph, more: string)
    requires IsGlyph(g) && g.Unit?
    ensures var s := GlyphText(g) + more;
            s[0] == '\\' && Escape(s[1..]) == UnicodeEscape(HexText(g) + more)
    ensures UnicodeEscape(HexText(g) + more) ==
            if IsHigh(g) && LowAhead(more)
            then Some((Joined(Code(g), CodeUnit(more[2..]).value), more[6..]))
            else Some((Alone(g), more))
  {
    assert (GlyphText(g) + more)[1..] == ['u'] + (HexText(g) + more);
    EscapeOfUnit(HexText(g) + more);
    EscapedUnit(g, more);
  }

  /** A surrogate pair. */
  lemma PairReads(gs: seq<Glyph>, rest: string)
    requires AreGlyphs(gs) && |gs| > 1 && IsHigh(gs[0]) && IsLow(gs[1])
    ensures var c := Joined(Code(gs[0]), Code(gs[1]));
            ReadText(Quoted(gs, rest)) == match ReadText(Quoted(gs[2..], rest))
                                          case Some((text, rest)) => Some(([c] + text, rest))
                                          case None => None
  {
    var s, more := Quoted(gs, rest), Quoted(gs[1..], rest);
    QuotedFirst(gs, rest);
    UnitEscape(gs[0], more);
    LowAheadIsGlyph(gs[1..], rest);
    assert gs[1..][1..] == gs[2..];
    ReadOne(s, Joined(Code(gs[0]), Code(gs[1])), Quoted(gs[2..], rest));
  }

  /** A string literal is read as what its glyphs spell. */
  lemma {:induction false} LiteralReadsBack(gs: seq<Glyph>, rest: string)
    requires AreGlyphs(gs)
    ensures ReadText(Quoted(gs, rest)) == Some((Spelled(gs), rest))
    decreases |gs|
  {
    if gs == [] {
      assert Quoted(gs, rest) == "\"" + rest && Quoted(gs, rest)[1..] == rest;
    } else if |gs| > 1 && IsHigh(gs[0]) && IsLow(gs[1]) {
      PairReads(gs, rest);
      LiteralReadsBack(gs[2..], rest);
      SpelledPair(gs);
    } else {
      FirstReads(gs, rest);
      LiteralReadsBack(gs[1..], rest);
      SpelledAlone(gs);
    }
  }

  /** What a step of reading consumed was a glyph, or a pair of them. */
  lemma GlyphWasWritten(s: string) returns (g: Glyph, after: string)
    requires s != [] && s[0] >= ' ' && s[0] != '"' && (s[0] == '\\' ==> Escape(s[1..]).Some?)
    ensures IsGlyph(g) && s == GlyphText(g) + after && (g.Unit? <==> s[0] == '\\' && |s| > 1 && s[1] == 'u')
  {
    if s[0] != '\\' {
      g, after := Raw(s[0]), s[1..];
      assert s == [s[0]] + s[1..];
    } else if s[1] != 'u' {
      g, after := Short(s[1]), s[2..];
      assert s == ['\\', s[1]] + s[2..];
    } else {
      assert s[1..][1..] == s[2..];
      g := UnitWasWritten(s[2..]);
      after := s[2..][4..];
      assert s == "\\u" + s[2..];
    }
  }

  /** The rest of the literal, once its first glyph is known. */
  predicate Splits(s: string, g: Glyph, after: string) {
    IsGlyph(g) && s == GlyphText(g) + after
  }

  lemma ReadSplit(s: string, g: Glyph, after: string)
    requires Splits(s, g, after) && !(IsHigh(g) && LowAhead(after)) && ReadText(s).Some?
    ensures ReadText(after).Some?
    ensures ReadText(s) == Some(([Alone(g)] + ReadText(after).value.0, ReadText(after).value.1))
  {
    match g
    case Raw(c) => assert s[1..] == after;
    case Short(c) =>
      assert s[1..] == [c] + after;
      EscapeReadsBack(c, after);
      ReadOne(s, SHORT[c], after);
    case Unit(_, _, _, _) =>
      UnitEscape(g, after);
      ReadOne(s, Alone(g), after);
  }

  lemma LowIsAhead(s: string) returns (low: Glyph)
    requires LowAhead(s)
    ensures IsLow(low) && Splits(s, low, s[6..]) && CodeUnit(s[2..]) == Some(Code(low))
  {
    low := UnitWasWritten(s[2..]);
    assert s == "\\u" + s[2..] && s[2..][4..] == s[6..];
  }

  lemma ReadSplitPair(s: string, g: Glyph, after: string) returns (low: Glyph)
    requires Splits(s, g, after) && IsHigh(g) && LowAhead(after) && ReadText(s).Some?
    ensures IsLow(low) && Splits(after, low, after[6..]) && ReadText(after[6..]).Some?
    ensures var c := Joined(Code(g), Code(low));
            ReadText(s) == Some(([c] + ReadText(after[6..]).value.0, ReadText(after[6..]).value.1))
  {
    UnitEscape(g, after);
    low := LowIsAhead(after);
    ReadOne(s, Joined(Code(g), Code(low)), after[6..]);
  }

  lemma QuotedMore(g: Glyph, more: seq<Glyph>, rest: string)
    requires IsGlyph(g) && AreGlyphs(more)
    ensures AreGlyphs([g] + more) && Quoted([g] + more, rest) == GlyphText(g) + Quoted(more, rest)
  {
    assert ([g] + more)[1..] == more;
  }

  /** Whatever is read as a string literal was one. */
  lemma {:induction false} LiteralWasWritten(s: string) returns (gs: seq<Glyph>)
    requires ReadText(s).Some?
    ensures AreGlyphs(gs) && s == Quoted(gs, ReadText(s).value.1) && ReadText(s).value.0 == Spelled(gs)
    decreases |s|
  {
    var rest := ReadText(s).value.1;
    if s[0] == '"' {
      gs := [];
      assert s == "\"" + s[1..];
    } else {
      var g, after := GlyphWasWritten(s);
      if IsHigh(g) && LowAhead(after) {
        var low := ReadSplitPair(s, g, after);
        var more := LiteralWasWritten(after[6..]);
        QuotedMore(low, more, rest);
        QuotedMore(g, [low] + more, rest);
        gs := [g] + ([low] + more);
        assert gs[2..] == more;
        SpelledPair(gs);
      } else {
        ReadSplit(s, g, after);
        var more := LiteralWasWritten(after);
        QuotedMore(g, more, rest);
        LowAheadIsGlyph(more, rest);
        gs := [g] + more;
        assert gs[1..] == more;
        SpelledAlone(gs);
      }
    }
  }
}
