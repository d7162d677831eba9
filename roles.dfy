/** The role cards of Coup and the composition of a full deck. */
module Roles {

  /** An optional value; `None` stands for an absent card. */
  datatype Option<+T> = None | Some(value: T)

  /** The five roles, in the order in which they are declared and enumerated. */
  datatype Class = Ambassador | Assassin | Captain | Contessa | Duke

  /** Every role exactly once, in enumeration order. */
  function AllClasses(): (r: seq<Class>)
    ensures |r| == 5
    ensures forall i, j :: 0 <= i < j < |r| ==> r[i] != r[j]
  {
    [Ambassador, Assassin, Captain, Contessa, Duke]
  }

  /** The enumeration is complete: every role occurs in it, exactly once. */
  lemma AllClassesOnce(c: Class)
    ensures c in AllClasses()
    ensures multiset(AllClasses())[c] == 1
  {
  }

  /** `n` copies of the card `c`. */
  function Copies(c: Class, n: nat): seq<Class>
  {
    seq(n, _ => c)
  }

  /**
   * The cards that result from pushing, for each role of `classes` in turn,
   * three copies of that role onto an empty deck.
   */
  function Triples(classes: seq<Class>): seq<Class>
  {
    if classes == [] then []
    else Triples(classes[..|classes| - 1]) + Copies(classes[|classes| - 1], 3)
  }

  /** Pushing three copies per role triples every count and the length. */
  lemma {:induction false} TriplesCount(classes: seq<Class>, c: Class)
    ensures |Triples(classes)| == 3 * |classes|
    ensures multiset(Triples(classes))[c] == 3 * multiset(classes)[c]
  {
    if classes != [] {
      var init, last := classes[..|classes| - 1], classes[|classes| - 1];
      TriplesCount(init, c);
      assert classes == init + [last];
      assert Copies(last, 3) == [last, last, last];
    }
  }

  /** The deck before it is shuffled: three copies of each role, in enumeration order. */
  function StandardDeck(): seq<Class>
  {
    Triples(AllClasses())
  }

  /** A full deck holds fifteen cards, three of each role. */
  lemma StandardDeckComposition()
    ensures |StandardDeck()| == 15
    ensures forall c: Class :: multiset(StandardDeck())[c] == 3
  {
    TriplesCount(AllClasses(), Duke);
    forall c: Class
      ensures multiset(StandardDeck())[c] == 3
    {
      TriplesCount(AllClasses(), c);
      AllClassesOnce(c);
    }
  }
}
