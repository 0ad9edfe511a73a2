# Playing cards and a five-card hand classifier

This project models, in Dafny, a small Rust program about playing cards. It
covers four suits, which have no order, and thirteen ranks, ordered by
declaration from 2 up to the ace. A card is a suit and a rank. A hand is
exactly five cards. Classifying a hand gives `OnePair` when the first two cards
share a rank, and otherwise `HighCard` of the largest rank among the five
cards. The program also renders suits, ranks, cards and hands as text.

- `cards.dfy` (module `Cards`) holds the data types, the rank order and the
  classifier.
  - `Index` is the discriminant that the derived ordering compares.
  - `MaxOf` is the standard iterator maximum, a left fold of `Max`.
  - `HighestPair` and `Classify` are `Hand::highest_pair` and `Hand::rank`.
- `render.dfy` (module `Render`) models the `Display` implementations as
  functions that return strings.
  - Inverse parsers (`ParseCard`, `ParseHand`, with a comma `Split`) are
    specification helpers only.
  - Their round-trip lemmas show that each rendering keeps all of the value,
    card order included.

Everything is total. `Classify` has no precondition. The `unwrap` of the
maximum cannot fail: `MaxOf` returns `Some` exactly when its input is
non-empty, and the five ranks of a hand never are. The source is pure, so
there are no classes and no methods.

## Model

| member | source | states |
|---|---|---|
| `Cards.Index` | src/main.rs:14-29 | a rank's discriminant is below 13, and the declaration sequence holds that rank at that position |
| `Cards.Less` | src/main.rs:14 | the derived `<` compares discriminants: a < b holds exactly when a is declared before b, and never for equal ranks |
| `Cards.LessOrEqual` | src/main.rs:14 | the derived `<=` holds exactly when a < b or a == b |
| `Cards.IndexInjective` | src/main.rs:14-29 | two ranks have the same discriminant if and only if they are the same rank |
| `Cards.IndexOfPosition` | src/main.rs:14-29 | the rank at position i of the declaration has discriminant i |
| `Cards.LessIsStrictTotalOrder` | src/main.rs:14 | the derived `<` is irreflexive, asymmetric, transitive and total on distinct ranks; `<=` is `<` or equality |
| `Cards.DeclarationOrder` | src/main.rs:14-29 | ranks strictly increase along the declaration; R2 is the least rank and A the greatest |
| `Cards.AdjacentRanksAreOrdered` | src/main.rs:83-95 | the twelve adjacent comparisons R2 < R3 through K < A hold |
| `Cards.Max` | src/main.rs:52 | the larger of two ranks is one of them and is at least both |
| `Cards.FoldMax` | src/main.rs:49-53 | folding the maximum from an accumulator gives an element of the input that no element exceeds |
| `Cards.MaxOf` | src/main.rs:49-53 | the maximum is absent exactly for an empty sequence; otherwise it is an element and no element exceeds it |
| `Cards.Ranks` | src/main.rs:49-51 | the ranks taken from a hand are exactly five |
| `Cards.HighestPair` | src/main.rs:58-63 | a pair is found if and only if cards 0 and 1 have equal ranks, and it is that rank |
| `Cards.Classify` | src/main.rs:44-56 | equal ranks at positions 0 and 1 give `OnePair` of that rank whatever the other cards are; otherwise `HighCard` of a rank of the hand that no card's rank exceeds |
| `Cards.HighCardIsTheMaximum` | src/main.rs:47-54 | when cards 0 and 1 differ in rank, the result is `HighCard(m)` if and only if m is the maximum rank of the hand |
| `Cards.PairOnlyInFirstTwoPositions` | src/main.rs:59-61 | when cards 0 and 1 differ in rank but cards i and j (i < j) share a rank, the result is not `OnePair` of that rank; if that rank is the hand's maximum the result is `HighCard` of it |
| `Cards.SuitsAreIgnored` | src/main.rs:44-63 | two hands with the same ranks in the same positions classify alike, whatever their suits |
| `Cards.ChangingASuitKeepsTheClass` | src/main.rs:44-63 | changing the suit of any one card leaves the classification unchanged |
| `Cards.HighCardExampleAceFirst` | src/main.rs:100-107 | the first high-card test hand (K, A, 2, 4, 6) classifies as `HighCard(A)` |
| `Cards.HighCardExampleKing` | src/main.rs:109-116 | the second high-card test hand (K, J, 5, 7, 9) classifies as `HighCard(K)` |
| `Cards.HighCardExampleAceFourth` | src/main.rs:118-125 | the third high-card test hand (K, 4, 2, A, Q) classifies as `HighCard(A)` |
| `Cards.OnePairExamples` | src/main.rs:129-147 | the two one-pair test hands classify as `OnePair(K)` and `OnePair(Q)` |
| `Cards.LaterPairExample` | src/main.rs:58-63 | a hand whose only pair is at positions 2 and 3 classifies as `HighCard` of its maximum |
| `Render.SuitGlyph` | src/main.rs:150-159 | a suit renders as one glyph character, and the glyph identifies the suit |
| `Render.RankLabel` | src/main.rs:161-179 | a rank renders as a one- or two-character label without a comma, and the label identifies the rank |
| `Render.CardString` | src/main.rs:181-185 | a card's rendering contains no comma |
| `Render.CardStringParses` | src/main.rs:181-185 | a card's rendering is its label followed directly by its glyph: it reads back as that card, and only that text reads as that card |
| `Render.HandString` | src/main.rs:187-191 | a hand renders as its five card renderings in position order with four two-character separators between them, starting with card 0; `HandStringPieces`, `HandStringParses` and `HandStringInjective` state the rest |
| `Render.HandStringPieces` | src/main.rs:187-191 | a hand's rendering splits at exactly four commas into the five card renderings in position order, each after the first preceded by one space |
| `Render.HandStringParses` | src/main.rs:187-191 | a hand reads back from its rendering |
| `Render.HandStringInjective` | src/main.rs:187-191 | two hands render alike if and only if they are equal, so the rendering neither sorts nor drops cards |
| `Render.DemoHandString` | src/main.rs:66-71 | the four of diamonds renders as "4♦", and the demonstration hand of five such cards as "4♦, 4♦, 4♦, 4♦, 4♦" |

## Left out

- `main` (src/main.rs:66-72): printing to standard output is I/O. `Render.DemoHandString` states the text it prints, without the newline.
- The `fmt::Formatter`, `write!` and `fmt::Result` plumbing: each `Display` is a function that returns the rendered string, and formatting cannot fail here.
- The derived `Debug`, `Copy` and `Clone` behaviour. Dafny datatypes are values, which covers copying.
- Only `<` and `<=` of the derived ordering are modelled (`Cards.Less`, `Cards.LessOrEqual`), not the full `Ord::cmp` interface.
- The `vec!` allocation and the iterator adaptors are modelled as the sequence `Cards.Ranks` and the fold `Cards.MaxOf`.
- `Cards.Max`: on a tie it returns the second argument, as the standard library's maximum does. That library is not part of this model. For ranks, equal means identical, so the tie rule cannot change a result.
- The `card!` test macro is not modelled. The test hands are written out in the example lemmas.
- The program has no state, so repeating `Classify` or a rendering on the same value trivially gives the same result. This is not stated as a separate lemma.
- Strings are sequences of Unicode characters, not UTF-8 bytes: a suit glyph has length 1 here, while its Rust `&str` is 3 bytes long. The program never measures a rendered length, so no behaviour depends on this.
