/** The landing page's rotating card stack: every tick moves the last card
    to the front. The three cards are kept in an array rotated in place. */
module CardStack {

  datatype Card = Card(id: nat, gradient: string)

  /** `CARDS` */
  const InitialCards: seq<Card> := [
    Card(0, "gradient-magenta"), Card(1, "gradient-aurora"), Card(2, "gradient-sunset")]

  /** The list after one tick: the last card first, the others shifted right
      by one; an empty list stays empty. */
  function Rotated<T>(s: seq<T>): seq<T> {
    if s == [] then s else [s[|s| - 1]] + s[..|s| - 1]
  }

  function RotatedTimes<T>(s: seq<T>, k: nat): seq<T>
    decreases k
  {
    if k == 0 then s else Rotated(RotatedTimes(s, k - 1))
  }

  /** A tick keeps the length and the multiset of cards. */
  lemma RotatedIsPermutation<T>(s: seq<T>)
    ensures |Rotated(s)| == |s|
    ensures multiset(Rotated(s)) == multiset(s)
  {
    if s != [] {
      assert s == s[..|s| - 1] + [s[|s| - 1]];
    }
  }

  /** After `k` ticks (k at most the length) the last `k` cards lead, in
      order, followed by the rest. */
  lemma {:induction false} RotatedTimesShape<T>(s: seq<T>, k: nat)
    requires k <= |s|
    ensures RotatedTimes(s, k) == s[|s| - k..] + s[..|s| - k]
    decreases k
  {
    if k > 0 {
      RotatedTimesShape(s, k - 1);
      var n := |s|;
      var prev := s[n - (k - 1)..] + s[..n - (k - 1)];
      assert prev[|prev| - 1] == s[n - k];
      assert prev[..|prev| - 1] == s[n - (k - 1)..] + s[..n - k];
      assert [s[n - k]] + s[n - (k - 1)..] == s[n - k..];
    }
  }

  /** As many ticks as there are cards restore the original order; with the
      three initial cards, three ticks. */
  lemma FullTurnRestores<T>(s: seq<T>)
    ensures RotatedTimes(s, |s|) == s
    ensures RotatedTimes(InitialCards, 3) == InitialCards
  {
    RotatedTimesShape(s, |s|);
    RotatedTimesShape(InitialCards, 3);
  }

  class Stack {
    var cards: array<Card>

    constructor ()
      ensures cards[..] == InitialCards
      ensures fresh(cards)
    {
      cards := new Card[3] [Card(0, "gradient-magenta"), Card(1, "gradient-aurora"), Card(2, "gradient-sunset")];
    }

    /** One tick: the last card is taken off and put in front, the others
        moving up by one. */
    method Step()
      modifies cards
      ensures cards[..] == Rotated(old(cards[..]))
    {
      var n := cards.Length;
      if n == 0 {
        return;
      }
      var last := cards[n - 1];
      var i := n - 1;
      while i > 0
        invariant 0 <= i <= n - 1
        invariant cards[..i + 1] == old(cards[..i + 1])
        invariant forall k :: i < k < n ==> cards[k] == old(cards[k - 1])
        decreases i
      {
        cards[i] := cards[i - 1];
        i := i - 1;
      }
      cards[0] := last;
      assert cards[..] == [old(cards[n - 1])] + old(cards[..n - 1]);
    }
  }
}
