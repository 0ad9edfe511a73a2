/**
 * Playing cards and the five-card hand classifier.
 *
 * Suits are unordered; ranks are ordered by their position in the
 * declaration (R2 lowest, A highest), which is what a derived ordering on a
 * field-less enumeration compares. A hand is a fixed five-tuple of cards and
 * is classified as one pair when its first two cards share a rank, and as
 * high card of its largest rank otherwise.
 */
module Cards {

  datatype Option<T> = None | Some(value: T)

  datatype Suit = Clubs | Diamonds | Hearts | Spades

  datatype Rank = R2 | R3 | R4 | R5 | R6 | R7 | R8 | R9 | R10 | J | Q | K | A

  /** A card is a suit and a rank, in that order. */
  datatype Card = Card(suit: Suit, rank: Rank)

  /** Exactly five cards, in position order; duplicates are allowed. */
  datatype Hand = Hand(c0: Card, c1: Card, c2: Card, c3: Card, c4: Card)

  datatype HandRank = HighCard(high: Rank) | OnePair(pair: Rank)

  /** The thirteen ranks in declaration order. */
  const ALL_RANKS: seq<Rank> := [R2, R3, R4, R5, R6, R7, R8, R9, R10, J, Q, K, A]

  // ---------------------------------------------------------------------------
  // Rank ordering
  // ---------------------------------------------------------------------------

  /** The discriminant of a rank: its position in the declaration. */
  function Index(r: Rank): (i: nat)
    ensures i < |ALL_RANKS| && ALL_RANKS[i] == r
  {
    match r
    case R2 => 0
    case R3 => 1
    case R4 => 2
    case R5 => 3
    case R6 => 4
    case R7 => 5
    case R8 => 6
    case R9 => 7
    case R10 => 8
    case J => 9
    case Q => 10
    case K => 11
    case A => 12
  }

  /** The derived strict order: compare discriminants, that is, a is declared before b. */
  predicate Less(a: Rank, b: Rank): (r: bool)
    ensures r ==> a != b
    ensures r <==> exists i, j :: 0 <= i < j < |ALL_RANKS| && ALL_RANKS[i] == a && ALL_RANKS[j] == b
  {
    IndexOfPosition(Index(a));
    IndexOfPosition(Index(b));
    Index(a) < Index(b)
  }

  /** The derived non-strict order: less or equal. */
  predicate LessOrEqual(a: Rank, b: Rank): (r: bool)
    ensures r <==> Less(a, b) || a == b
  {
    IndexInjective(a, b);
    Index(a) <= Index(b)
  }

  /** The discriminant determines the rank, so the order is antisymmetric. */
  lemma IndexInjective(a: Rank, b: Rank)
    ensures Index(a) == Index(b) <==> a == b
  {
    if Index(a) == Index(b) {
      assert a == ALL_RANKS[Index(a)] == ALL_RANKS[Index(b)] == b;
    }
  }

  /** Position i of the declaration holds the rank whose discriminant is i. */
  lemma IndexOfPosition(i: nat)
    requires i < |ALL_RANKS|
    ensures Index(ALL_RANKS[i]) == i
  {
  }

  /** Less is a strict total order. */
  lemma LessIsStrictTotalOrder(a: Rank, b: Rank, c: Rank)
    ensures !Less(a, a)
    ensures Less(a, b) ==> !Less(b, a)
    ensures Less(a, b) && Less(b, c) ==> Less(a, c)
    ensures a != b ==> Less(a, b) || Less(b, a)
    ensures LessOrEqual(a, b) <==> Less(a, b) || a == b
  {
    IndexInjective(a, b);
  }

  /** The ranks are strictly increasing in declaration order, R2 is the least and A the greatest. */
  lemma DeclarationOrder()
    ensures forall i, j :: 0 <= i < j < |ALL_RANKS| ==> Less(ALL_RANKS[i], ALL_RANKS[j])
    ensures forall r :: LessOrEqual(R2, r) && LessOrEqual(r, A)
  {
    forall i, j | 0 <= i < j < |ALL_RANKS|
      ensures Less(ALL_RANKS[i], ALL_RANKS[j])
    {
      IndexOfPosition(i);
      IndexOfPosition(j);
    }
  }

  /** Each of the twelve adjacent comparisons the rank-ordering test asserts. */
  lemma AdjacentRanksAreOrdered()
    ensures Less(R2, R3) && Less(R3, R4) && Less(R4, R5) && Less(R5, R6)
    ensures Less(R6, R7) && Less(R7, R8) && Less(R8, R9) && Less(R9, R10)
    ensures Less(R10, J) && Less(J, Q) && Less(Q, K) && Less(K, A)
  {
  }

  // ---------------------------------------------------------------------------
  // Maximum of a sequence of ranks (the standard iterator maximum)
  // ---------------------------------------------------------------------------

  /** The larger of two ranks; on a tie the second one is returned. */
  function Max(x: Rank, y: Rank): (m: Rank)
    ensures m == x || m == y
    ensures LessOrEqual(x, m) && LessOrEqual(y, m)
  {
    if LessOrEqual(x, y) then y else x
  }

  /** Folds Max over rest, starting from acc, left to right. */
  function FoldMax(acc: Rank, rest: seq<Rank>): (m: Rank)
    ensures m == acc || m in rest
    ensures LessOrEqual(acc, m)
    ensures forall x :: x in rest ==> LessOrEqual(x, m)
    decreases |rest|
  {
    if rest == [] then acc
    else
      var m := FoldMax(Max(acc, rest[0]), rest[1..]);
      assert forall x :: x in rest ==> x == rest[0] || x in rest[1..];
      m
  }

  /** The maximum of a sequence: None when it is empty, otherwise its greatest element. */
  function MaxOf(s: seq<Rank>): (r: Option<Rank>)
    ensures r.Some? <==> s != []
    ensures r.Some? ==> r.value in s && forall x :: x in s ==> LessOrEqual(x, r.value)
  {
    if s == [] then None else Some(FoldMax(s[0], s[1..]))
  }

  // ---------------------------------------------------------------------------
  // Hand classification
  // ---------------------------------------------------------------------------

  /** The ranks of the five cards, in position order; suits are dropped. */
  function Ranks(h: Hand): (rs: seq<Rank>)
    ensures |rs| == 5
  {
    [h.c0.rank, h.c1.rank, h.c2.rank, h.c3.rank, h.c4.rank]
  }

  /** The rank of the pair formed by the first two cards, if they form one. */
  function HighestPair(h: Hand): (r: Option<Rank>)
    ensures r.Some? <==> h.c0.rank == h.c1.rank
    ensures r.Some? ==> r.value == h.c0.rank && r.value == h.c1.rank
  {
    if h.c0.rank == h.c1.rank then Some(h.c0.rank) else None
  }

  /** The classification of a hand. */
  function Classify(h: Hand): (r: HandRank)
    ensures h.c0.rank == h.c1.rank ==> r == OnePair(h.c0.rank)
    ensures h.c0.rank != h.c1.rank ==> r.HighCard? && r.high in Ranks(h)
    ensures h.c0.rank != h.c1.rank ==> forall x :: x in Ranks(h) ==> LessOrEqual(x, r.high)
  {
    match HighestPair(h)
    case Some(p) => OnePair(p)
    case None => HighCard(MaxOf(Ranks(h)).value)
  }

  /** The high-card rank is the only rank of the hand that no card's rank exceeds. */
  lemma HighCardIsTheMaximum(h: Hand, m: Rank)
    requires h.c0.rank != h.c1.rank
    ensures Classify(h) == HighCard(m) <==> m in Ranks(h) && forall x :: x in Ranks(h) ==> LessOrEqual(x, m)
  {
    IndexInjective(m, Classify(h).high);
  }

  /**
   * A pair anywhere but in the first two positions is not seen: the hand is
   * high card of its maximum, and when the pair holds that maximum the result
   * is high card, never one pair, of the paired rank.
   */
  lemma PairOnlyInFirstTwoPositions(h: Hand, i: nat, j: nat)
    requires i < j < 5 && Ranks(h)[i] == Ranks(h)[j]
    requires h.c0.rank != h.c1.rank
    ensures Classify(h) != OnePair(Ranks(h)[i])
    ensures (forall x :: x in Ranks(h) ==> LessOrEqual(x, Ranks(h)[i])) ==> Classify(h) == HighCard(Ranks(h)[i])
  {
    var p := Ranks(h)[i];
    if forall x :: x in Ranks(h) ==> LessOrEqual(x, p) {
      HighCardIsTheMaximum(h, p);
    }
  }

  /** The cards of a hand in position order. */
  function CardList(h: Hand): (cs: seq<Card>)
    ensures |cs| == 5
  {
    [h.c0, h.c1, h.c2, h.c3, h.c4]
  }

  /** Replaces the suit of the card at position i (0 to 4). */
  function WithSuit(h: Hand, i: nat, s: Suit): (h': Hand)
    requires i < 5
    ensures CardList(h')[i] == Card(s, CardList(h)[i].rank)
    ensures forall k :: 0 <= k < 5 && k != i ==> CardList(h')[k] == CardList(h)[k]
    ensures Ranks(h') == Ranks(h)
  {
    match i
    case 0 => h.(c0 := h.c0.(suit := s))
    case 1 => h.(c1 := h.c1.(suit := s))
    case 2 => h.(c2 := h.c2.(suit := s))
    case 3 => h.(c3 := h.c3.(suit := s))
    case _ => h.(c4 := h.c4.(suit := s))
  }

  /** Classification reads only the ranks. */
  lemma SuitsAreIgnored(h: Hand, h': Hand)
    requires Ranks(h) == Ranks(h')
    ensures Classify(h) == Classify(h')
  {
    assert h.c0.rank == Ranks(h)[0] == Ranks(h')[0] == h'.c0.rank;
    assert h.c1.rank == Ranks(h)[1] == Ranks(h')[1] == h'.c1.rank;
  }

  /** Changing the suit of any one card leaves the classification unchanged. */
  lemma ChangingASuitKeepsTheClass(h: Hand, i: nat, s: Suit)
    requires i < 5
    ensures Classify(WithSuit(h, i, s)) == Classify(h)
  {
    SuitsAreIgnored(h, WithSuit(h, i, s));
  }

  // ---------------------------------------------------------------------------
  // The hands of the classification tests
  // ---------------------------------------------------------------------------

  /** The first hand of the high-card test. */
  lemma HighCardExampleAceFirst()
    ensures Classify(Hand(Card(Clubs, K), Card(Clubs, A), Card(Diamonds, R2), Card(Hearts, R4), Card(Clubs, R6))) == HighCard(A)
  {
    HighCardIsTheMaximum(Hand(Card(Clubs, K), Card(Clubs, A), Card(Diamonds, R2), Card(Hearts, R4), Card(Clubs, R6)), A);
  }

  /** The second hand of the high-card test. */
  lemma HighCardExampleKing()
    ensures Classify(Hand(Card(Clubs, K), Card(Diamonds, J), Card(Hearts, R5), Card(Spades, R7), Card(Clubs, R9))) == HighCard(K)
  {
    HighCardIsTheMaximum(Hand(Card(Clubs, K), Card(Diamonds, J), Card(Hearts, R5), Card(Spades, R7), Card(Clubs, R9)), K);
  }

  /** The third hand of the high-card test. */
  lemma HighCardExampleAceFourth()
    ensures Classify(Hand(Card(Clubs, K), Card(Diamonds, R4), Card(Hearts, R2), Card(Spades, A), Card(Clubs, Q))) == HighCard(A)
  {
    HighCardIsTheMaximum(Hand(Card(Clubs, K), Card(Diamonds, R4), Card(Hearts, R2), Card(Spades, A), Card(Clubs, Q)), A);
  }

  lemma OnePairExamples()
    ensures Classify(Hand(Card(Clubs, K), Card(Spades, K), Card(Clubs, J), Card(Diamonds, R4), Card(Hearts, R3))) == OnePair(K)
    ensures Classify(Hand(Card(Clubs, Q), Card(Spades, Q), Card(Clubs, J), Card(Diamonds, R4), Card(Hearts, R3))) == OnePair(Q)
  {
  }

  /** A pair of kings in positions 2 and 3 is ignored: the hand is ace high. */
  lemma LaterPairExample()
    ensures Classify(Hand(Card(Clubs, R2), Card(Hearts, R3), Card(Clubs, K), Card(Spades, K), Card(Diamonds, A))) == HighCard(A)
  {
    HighCardIsTheMaximum(Hand(Card(Clubs, R2), Card(Hearts, R3), Card(Clubs, K), Card(Spades, K), Card(Diamonds, A)), A);
  }
}
