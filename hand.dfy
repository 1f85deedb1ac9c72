// Hand evaluation for the Blackjack environment: card values, the raw and
// the soft total, bust, score and the two-card natural.
module Hand {

  /** A card value as the deck holds it: an ace is 1, a face card is 10. */
  type Card = c: int | 1 <= c <= 10 witness 1

  /** The values a card is drawn from: one suit, with J, Q and K worth 10. */
  const Deck: seq<Card> := [1, 2, 3, 4, 5, 6, 7, 8, 9, 10, 10, 10, 10]

  /** Every card value is in the deck, so a stream of card values is a
      stream of draws from it. */
  lemma DeckHoldsCards()
    ensures forall c: Card :: c in Deck
  {
    forall c: Card ensures c in Deck {
      assert Deck[c - 1] == c;
    }
  }

  /** The raw total of a hand, every ace counted as 1. */
  function Sum(h: seq<Card>): (s: int)
    ensures |h| <= s <= 10 * |h|
  {
    if h == [] then 0 else Sum(h[..|h| - 1]) + h[|h| - 1]
  }

  /** Drawing a card raises the raw total by the card's value, so by at least
      one, and a hand that is bust stays bust. */
  lemma DrawRaisesSum(h: seq<Card>, c: Card)
    ensures Sum(h + [c]) == Sum(h) + c > Sum(h)
    ensures IsBust(h) ==> IsBust(h + [c])
  {
    assert (h + [c])[..|h|] == h;
  }

  /** One ace may count as 11 when the raw total leaves room for the extra 10. */
  predicate UsableAce(h: seq<Card>)
  {
    1 in h && Sum(h) <= 11
  }

  /** The total a side plays with: the raw total, plus 10 for a usable ace.
      It never adds more than the ace's extra 10, and it is over 21 exactly
      when the raw total is. */
  function SumHand(h: seq<Card>): (s: int)
    ensures Sum(h) <= s <= Sum(h) + 10
    ensures s > 21 <==> Sum(h) > 21
  {
    if UsableAce(h) then Sum(h) + 10 else Sum(h)
  }

  /** A hand is bust when its total is over 21; since a usable ace never takes
      the total past 21, that is when the raw total is over 21. */
  function IsBust(h: seq<Card>): (b: bool)
    ensures b <==> Sum(h) > 21
  {
    SumHand(h) > 21
  }

  /** The points a hand scores: nothing when bust, its total otherwise. */
  function Score(h: seq<Card>): (s: int)
    ensures 0 <= s <= 21
    ensures h != [] ==> (s == 0 <==> IsBust(h))
  {
    if IsBust(h) then 0 else SumHand(h)
  }

  /** Promoting an ace to 11 never busts a hand, and without a usable ace
      the total is the raw total. */
  lemma SoftAceNeverBusts(h: seq<Card>)
    ensures UsableAce(h) <==> 1 in h && Sum(h) <= 11
    ensures UsableAce(h) ==> SumHand(h) == Sum(h) + 10 <= 21 && !IsBust(h)
    ensures !UsableAce(h) ==> SumHand(h) == Sum(h)
  {
  }

  predicate Ascending(s: seq<int>)
  {
    forall i, j :: 0 <= i < j < |s| ==> s[i] <= s[j]
  }

  /** Puts x before the first element of s that is not smaller. */
  function Insert(x: int, s: seq<int>): seq<int>
  {
    if s == [] || x <= s[0] then [x] + s else [s[0]] + Insert(x, s[1..])
  }

  /** The hand in ascending order, as Python's `sorted` returns it. */
  function Sorted(h: seq<int>): seq<int>
  {
    if h == [] then [] else Insert(h[0], Sorted(h[1..]))
  }

  /** Inserting into an ascending sequence keeps it ascending; the result
      starts with x or with the old first element. */
  lemma {:induction false} InsertKeepsOrder(x: int, s: seq<int>)
    requires Ascending(s)
    ensures var r := Insert(x, s);
      Ascending(r) && r != [] && (r[0] == x || (s != [] && r[0] == s[0]))
  {
    if s == [] || x <= s[0] {
      AscendingCons(x, s);
    } else {
      InsertKeepsOrder(x, s[1..]);
      AscendingCons(s[0], Insert(x, s[1..]));
    }
  }

  /** Inserting adds exactly one x to the elements. */
  lemma {:induction false} InsertAddsOne(x: int, s: seq<int>)
    ensures multiset(Insert(x, s)) == multiset(s) + multiset{x}
  {
    if s != [] && s[0] < x {
      assert s == [s[0]] + s[1..];
      InsertAddsOne(x, s[1..]);
    }
  }

  /** An element no greater than the head of an ascending sequence can go
      in front of it. */
  lemma AscendingCons(a: int, t: seq<int>)
    requires Ascending(t) && (t != [] ==> a <= t[0])
    ensures Ascending([a] + t)
  {
    forall i, j | 0 <= i < j < |t| + 1 ensures ([a] + t)[i] <= ([a] + t)[j] {
      if i == 0 {
        assert t[0] <= t[j - 1];
      }
    }
  }

  /** `Sorted` returns the hand's cards, each as often as the hand holds
      it, in ascending order. */
  lemma {:induction false} SortedSortsHand(h: seq<int>)
    ensures Ascending(Sorted(h)) && multiset(Sorted(h)) == multiset(h)
  {
    if h != [] {
      assert h == [h[0]] + h[1..];
      SortedSortsHand(h[1..]);
      InsertKeepsOrder(h[0], Sorted(h[1..]));
      InsertAddsOne(h[0], Sorted(h[1..]));
    }
  }

  /** A natural: the hand sorted is exactly an ace and a ten, so the hand
      holds one ace, one ten and nothing else. */
  predicate IsNatural(h: seq<Card>): (b: bool)
    ensures b ==> multiset(h) == multiset{1, 10}
  {
    SortedSortsHand(h);
    Sorted(h) == [1, 10]
  }

  /** The naturals are the two orders of ace and ten. */
  lemma NaturalIsAceAndTen(h: seq<Card>)
    ensures IsNatural(h) <==> h == [1, 10] || h == [10, 1]
  {
    if IsNatural(h) {
      SortedSortsHand(h);
      AceAndTenOnly(h);
    }
    if h == [1, 10] {
      assert Sorted([10]) == Insert(10, Sorted([])) == [10];
    }
    if h == [10, 1] {
      assert Sorted([1]) == Insert(1, Sorted([])) == [1];
      assert Insert(10, [1]) == [1] + Insert(10, []);
    }
  }

  lemma AceAndTenOnly(h: seq<int>)
    requires multiset(h) == multiset([1, 10])
    ensures h == [1, 10] || h == [10, 1]
  {
    assert |h| == |multiset(h)| == 2;
    assert h == [h[0], h[1]];
    assert multiset(h) == multiset{h[0], h[1]};
    assert h[0] in multiset(h) && h[1] in multiset(h);
  }

  /** A natural totals 21 with its ace counted as 11, and is not bust. */
  lemma NaturalIsTwentyOne(h: seq<Card>)
    requires IsNatural(h)
    ensures UsableAce(h) && SumHand(h) == 21 && !IsBust(h) && Score(h) == 21
  {
    NaturalIsAceAndTen(h);
    assert h[..1] == [h[0]] && h[..1][..0] == [];
    assert Sum(h) == 11;
    assert 1 in h;
  }
}
