/**
 * Text rendering of suits, ranks, cards and hands.
 *
 * A suit renders as its glyph, a rank as its label, a card as its rank label
 * immediately followed by its suit glyph, and a hand as its five cards in
 * position order separated by ", ". Each rendering is shown to be
 * invertible: the parsers below recover the value from its text.
 */
module Render {
  import opened Cards

  /** The suit glyph, a one-character string. */
  function SuitGlyph(s: Suit): (t: string)
    ensures |t| == 1 && GlyphSuit(t[0]) == Some(s)
    ensures ',' !in t
  {
    match s
    case Clubs => "♣"
    case Diamonds => "♦"
    case Hearts => "♥"
    case Spades => "♠"
  }

  /** The rank label: the numeral for 2 to 10, a letter for the face cards and the ace. */
  function RankLabel(r: Rank): (t: string)
    ensures LabelRank(t) == Some(r)
    ensures 1 <= |t| <= 2 && ',' !in t
  {
    match r
    case A => "A"
    case R2 => "2"
    case R3 => "3"
    case R4 => "4"
    case R5 => "5"
    case R6 => "6"
    case R7 => "7"
    case R8 => "8"
    case R9 => "9"
    case R10 => "10"
    case J => "J"
    case Q => "Q"
    case K => "K"
  }

  /** A card: its rank label, then its suit glyph, with nothing between them. */
  function CardString(c: Card): (t: string)
    ensures ',' !in t
  {
    RankLabel(c.rank) + SuitGlyph(c.suit)
  }

  /** A hand: the five cards in position order, separated by ", ". */
  function HandString(h: Hand): (t: string)
    ensures |t| == |CardString(h.c0)| + |CardString(h.c1)| + |CardString(h.c2)|
      + |CardString(h.c3)| + |CardString(h.c4)| + 8
    ensures t[..|CardString(h.c0)|] == CardString(h.c0)
  {
    CardString(h.c0) + ", " + CardString(h.c1) + ", " + CardString(h.c2) + ", "
      + CardString(h.c3) + ", " + CardString(h.c4)
  }

  // ---------------------------------------------------------------------------
  // Inverses of the renderings
  // ---------------------------------------------------------------------------

  function GlyphSuit(g: char): Option<Suit> {
    if g == '♣' then Some(Clubs)
    else if g == '♦' then Some(Diamonds)
    else if g == '♥' then Some(Hearts)
    else if g == '♠' then Some(Spades)
    else None
  }

  function LabelRank(t: string): Option<Rank> {
    if t == "2" then Some(R2)
    else if t == "3" then Some(R3)
    else if t == "4" then Some(R4)
    else if t == "5" then Some(R5)
    else if t == "6" then Some(R6)
    else if t == "7" then Some(R7)
    else if t == "8" then Some(R8)
    else if t == "9" then Some(R9)
    else if t == "10" then Some(R10)
    else if t == "J" then Some(J)
    else if t == "Q" then Some(Q)
    else if t == "K" then Some(K)
    else if t == "A" then Some(A)
    else None
  }

  /** Reads a card: a rank label followed by one suit glyph. */
  function ParseCard(t: string): Option<Card> {
    if |t| < 2 then None
    else
      match (LabelRank(t[..|t| - 1]), GlyphSuit(t[|t| - 1]))
      case (Some(r), Some(s)) => Some(Card(s, r))
      case _ => None
  }

  /** Splits a string at every comma; the pieces exclude the commas. */
  function Split(t: string): (parts: seq<string>)
    ensures |parts| >= 1
  {
    if t == [] then [""]
    else if t[0] == ',' then [""] + Split(t[1..])
    else
      var rest := Split(t[1..]);
      [[t[0]] + rest[0]] + rest[1..]
  }

  /** Reads a card that follows a separator's space. */
  function ParseSpacedCard(t: string): Option<Card> {
    if |t| >= 1 && t[0] == ' ' then ParseCard(t[1..]) else None
  }

  /** Reads a hand: five cards separated by ", ". */
  function ParseHand(t: string): Option<Hand> {
    var f := Split(t);
    if |f| != 5 then None
    else
      match (ParseCard(f[0]), ParseSpacedCard(f[1]), ParseSpacedCard(f[2]), ParseSpacedCard(f[3]), ParseSpacedCard(f[4]))
      case (Some(a), Some(b), Some(c), Some(d), Some(e)) => Some(Hand(a, b, c, d, e))
      case _ => None
  }

  // ---------------------------------------------------------------------------
  // Properties of the renderings
  // ---------------------------------------------------------------------------

  /** A string without a comma is one piece. */
  lemma {:induction false} SplitWithoutComma(p: string)
    requires ',' !in p
    ensures Split(p) == [p]
  {
    if p != [] {
      SplitWithoutComma(p[1..]);
      assert [p[0]] + p[1..] == p;
    }
  }

  /** A comma-free suffix after a comma becomes one more piece. */
  lemma {:induction false} SplitAppend(x: string, p: string)
    requires ',' !in p
    ensures Split(x + "," + p) == Split(x) + [p]
  {
    var t := x + "," + p;
    if x == [] {
      assert t == [','] + p;
      assert t[1..] == p;
      SplitWithoutComma(p);
    } else {
      assert t[0] == x[0];
      assert t[1..] == x[1..] + "," + p;
      SplitAppend(x[1..], p);
    }
  }

  /** Appending a separator ", " and a comma-free piece adds that piece, with its space. */
  lemma SplitAppendSpaced(x: string, p: string)
    requires ',' !in p
    ensures Split(x + ", " + p) == Split(x) + [" " + p]
  {
    assert x + ", " + p == x + "," + (" " + p);
    SplitAppend(x, " " + p);
  }

  /** A card is read back from its rendering, and only a card's rendering reads as that card. */
  lemma CardStringParses(c: Card, t: string)
    ensures ParseCard(CardString(c)) == Some(c)
    ensures ParseCard(t) == Some(c) ==> t == CardString(c)
  {
    var u := CardString(c);
    assert u[..|u| - 1] == RankLabel(c.rank) && u[|u| - 1] == SuitGlyph(c.suit)[0];
    if ParseCard(t) == Some(c) {
      var prefix, glyph := t[..|t| - 1], t[|t| - 1];
      assert LabelRank(prefix) == Some(c.rank);
      assert GlyphSuit(glyph) == Some(c.suit);
      assert prefix == RankLabel(c.rank);
      assert [glyph] == SuitGlyph(c.suit);
      assert t == prefix + [glyph];
    }
  }

  /** Five comma-free pieces joined by ", " split back into those pieces, each after the first with its space. */
  lemma SplitFive(s0: string, s1: string, s2: string, s3: string, s4: string)
    requires ',' !in s0 && ',' !in s1 && ',' !in s2 && ',' !in s3 && ',' !in s4
    ensures Split(s0 + ", " + s1 + ", " + s2 + ", " + s3 + ", " + s4) == [s0, " " + s1, " " + s2, " " + s3, " " + s4]
  {
    var x1 := s0 + ", " + s1;
    var x2 := x1 + ", " + s2;
    var x3 := x2 + ", " + s3;
    SplitWithoutComma(s0);
    SplitAppendSpaced(s0, s1);
    assert Split(x1) == [s0, " " + s1];
    SplitAppendSpaced(x1, s2);
    assert Split(x2) == [s0, " " + s1, " " + s2];
    SplitAppendSpaced(x2, s3);
    assert Split(x3) == [s0, " " + s1, " " + s2, " " + s3];
    SplitAppendSpaced(x3, s4);
  }

  /** The rendering of a hand splits at its four commas into the five card renderings. */
  lemma HandStringPieces(h: Hand)
    ensures Split(HandString(h)) == [CardString(h.c0), " " + CardString(h.c1),
      " " + CardString(h.c2), " " + CardString(h.c3), " " + CardString(h.c4)]
  {
    SplitFive(CardString(h.c0), CardString(h.c1), CardString(h.c2), CardString(h.c3), CardString(h.c4));
  }

  /** A hand is read back from its rendering. */
  lemma HandStringParses(h: Hand)
    ensures ParseHand(HandString(h)) == Some(h)
  {
    HandStringPieces(h);
    var f := Split(HandString(h));
    assert |f| == 5;
    CardStringParses(h.c0, f[0]);
    assert ParseCard(f[0]) == Some(h.c0);
    CardStringParses(h.c1, f[1][1..]);
    assert f[1][1..] == CardString(h.c1) && ParseSpacedCard(f[1]) == Some(h.c1);
    CardStringParses(h.c2, f[2][1..]);
    assert f[2][1..] == CardString(h.c2) && ParseSpacedCard(f[2]) == Some(h.c2);
    CardStringParses(h.c3, f[3][1..]);
    assert f[3][1..] == CardString(h.c3) && ParseSpacedCard(f[3]) == Some(h.c3);
    CardStringParses(h.c4, f[4][1..]);
    assert f[4][1..] == CardString(h.c4) && ParseSpacedCard(f[4]) == Some(h.c4);
  }

  /** Distinct hands render differently: the rendering loses nothing, order included. */
  lemma HandStringInjective(h: Hand, h': Hand)
    ensures HandString(h) == HandString(h') <==> h == h'
  {
    HandStringParses(h);
    HandStringParses(h');
  }

  /** The demonstration hand: five copies of the four of diamonds. */
  lemma DemoHandString()
    ensures CardString(Card(Diamonds, R4)) == "4♦"
    ensures var c := Card(Diamonds, R4); HandString(Hand(c, c, c, c, c)) == "4♦, 4♦, 4♦, 4♦, 4♦"
  {
  }
}
