/** The deck: a stack of role cards whose top is the end of the sequence. */
module Decks {
  import opened Roles

  /** The card a draw from `cards` yields: the last one, or nothing from an empty deck. */
  function Top(cards: seq<Class>): Option<Class>
  {
    if cards == [] then None else Some(cards[|cards| - 1])
  }

  /** The cards that remain after a draw from `cards`. */
  function Rest(cards: seq<Class>): seq<Class>
  {
    if cards == [] then [] else cards[..|cards| - 1]
  }

  class Deck {
    /** The cards of the deck, bottom first; draws and returns happen at the end. */
    var cards: seq<Class>

    /** The derived default deck, which holds no card. */
    constructor Default()
      ensures cards == []
    {
      cards := [];
    }

    /** A full deck: three copies of each role pushed in enumeration order, then shuffled. */
    constructor New()
      ensures |cards| == 15
      ensures multiset(cards) == multiset(StandardDeck())
      ensures forall c: Class :: multiset(cards)[c] == 3
    {
      cards := [];
      new;
      var classes := AllClasses();
      for i := 0 to |classes|
        invariant cards == Triples(classes[..i])
      {
        var role := classes[i];
        for j := 0 to 3
          invariant cards == Triples(classes[..i]) + Copies(role, j)
        {
          cards := cards + [role];
        }
        assert classes[..i + 1][..i] == classes[..i];
      }
      assert classes[..|classes|] == classes;
      Shuffle();
      StandardDeckComposition();
      assert |cards| == |multiset(cards)| == |multiset(StandardDeck())| == |StandardDeck()|;
    }

    /** Pops the top card; an empty deck yields nothing and stays empty. */
    method DrawCard() returns (card: Option<Class>)
      modifies this
      ensures old(cards) == [] ==> card == None && cards == []
      ensures old(cards) != [] ==>
        card == Some(old(cards)[|old(cards)| - 1]) && cards == old(cards)[..|old(cards)| - 1]
    {
      if cards == [] {
        card := None;
      } else {
        card := Some(cards[|cards| - 1]);
        cards := cards[..|cards| - 1];
      }
    }

    /** Pushes `card` onto the top of the deck. */
    method ReturnCard(card: Class)
      modifies this
      ensures cards == old(cards) + [card]
    {
      cards := cards + [card];
    }

    /** Puts the cards into some order; which order is left open. */
    method Shuffle()
      modifies this
      ensures multiset(cards) == multiset(old(cards))
    {
      var shuffled :| multiset(shuffled) == multiset(cards);
      assert |shuffled| == |multiset(shuffled)| == |multiset(cards)| == |cards|;
      cards := shuffled;
    }
  }

  /** Returning a card and then drawing yields that card and restores the deck. */
  method ReturnThenDraw(deck: Deck, card: Class) returns (drawn: Option<Class>)
    modifies deck
    ensures drawn == Some(card)
    ensures deck.cards == old(deck.cards)
  {
    deck.ReturnCard(card);
    drawn := deck.DrawCard();
    assert (old(deck.cards) + [card])[..|old(deck.cards)|] == old(deck.cards);
  }
}
