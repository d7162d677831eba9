/**
 * The game engine: per-player state, declared actions, the two action
 * resolvers (Income and Ambassador) and the engine that owns the roster,
 * the deck and the gold pool.
 */
module Game {
  import opened Roles
  import opened Decks

  /** Two optional cards, one per slot. */
  type CardPair = (Option<Class>, Option<Class>)

  /** The Ambassador callback: given the two drawn cards, the two cards to give back. */
  type SelectRole = CardPair -> CardPair

  /** A declared action; a targeted player is given by seat, an index into the active players. */
  datatype Action =
    | Ambassador(selectRole: SelectRole)
    | Assassinate(targetPlayer: nat)
    | Captain(targetPlayer: nat)
    | Coup(targetPlayer: nat)
    | Duke
    | ForeignAid
    | Income

  /** A player's decision-maker: it supplies the action the player declares next. */
  type Controller = () -> Action

  /** One player's concealed roles and gold. */
  datatype PlayerData = PlayerData(role1: Option<Class>, role2: Option<Class>, gold: int)
  {
    /** A new player holds two gold and no role. */
    static function Default(): (d: PlayerData)
      ensures d.gold == 2
      ensures d.role1 == None && d.role2 == None
    {
      PlayerData(None, None, 2)
    }
  }

  /** A seat at the table: the player's state and decision-maker. */
  datatype Player = Player(data: PlayerData, controller: Controller)
  {
    /** A new seat: default player data and the given decision-maker. */
    static function New(controller: Controller): (p: Player)
      ensures p.data == PlayerData.Default()
      ensures p.controller == controller
    {
      Player(PlayerData.Default(), controller)
    }
  }

  /** A resolver selected for a turn, bound to the seat of the acting player. */
  datatype ActionImpl =
    | IncomeActionImpl(actingPlayer: nat)
    | AmbassadorActionImpl(actingPlayer: nat, selectRole: SelectRole)

  /** The outcome of an Ambassador exchange: the roles kept and the cards given back. */
  datatype AmbassadorCardSelection = AmbassadorCardSelection(chosenCards: CardPair, returnedCards: CardPair)

  /** The ways creating a game can go. */
  datatype NewResult = Created(engine: Engine) | InvalidPlayerCount(count: nat)

  /** The gold pool of a new game. */
  const StartingGoldPool: int := 30

  /** The largest value of a signed 32-bit integer, the width of every gold amount. */
  const I32Max: int := 0x7fff_ffff

  /** Maps the declared action to its resolver: Ambassador to its own, everything else to Income. */
  function GetActionImpl(actingPlayer: nat, action: Action): (r: ActionImpl)
    ensures r.actingPlayer == actingPlayer
    ensures r.AmbassadorActionImpl? <==> action.Ambassador?
    ensures r.IncomeActionImpl? <==> !action.Ambassador?
    ensures r.AmbassadorActionImpl? ==> r.selectRole == action.selectRole
  {
    match action
    case Ambassador(selectRole) => AmbassadorActionImpl(actingPlayer, selectRole)
    case _ => IncomeActionImpl(actingPlayer)
  }

  /**
   * The Ambassador's validation of a selection: it accepts every selection and
   * yields one in which no role is kept and no card is given back, whatever the
   * player holds, the drawn cards and the requested return are.
   */
  function GetSelection(player: PlayerData, returnedCards: CardPair,
                        drawnCard1: Option<Class>, drawnCard2: Option<Class>): (r: Option<AmbassadorCardSelection>)
    ensures r.Some?
    ensures r.value.chosenCards == (None, None)
    ensures r.value.returnedCards == (None, None)
  {
    Some(AmbassadorCardSelection((None, None), (None, None)))
  }

  /** The cards of `cards` that are present, in order; an absent card contributes nothing. */
  function Present(cards: seq<Option<Class>>): (r: seq<Class>)
    ensures |r| <= |cards|
    ensures forall c :: c in r <==> Some(c) in cards
    ensures |r| == |cards| <==> forall i :: 0 <= i < |cards| ==> cards[i].Some?
  {
    if cards == [] then []
    else match cards[0]
      case None => Present(cards[1..])
      case Some(c) => [c] + Present(cards[1..])
  }

  /** Every present card is kept as often as it occurs. */
  lemma {:induction false} PresentCounts(cards: seq<Option<Class>>, c: Class)
    ensures multiset(Present(cards))[c] == multiset(cards)[Some(c)]
  {
    if cards != [] {
      var tail := cards[1..];
      PresentCounts(tail, c);
      assert cards == [cards[0]] + tail;
      assert multiset(cards) == multiset{cards[0]} + multiset(tail);
      match cards[0]
      case None =>
        assert Present(cards) == Present(tail);
      case Some(d) =>
        assert Present(cards) == [d] + Present(tail);
        assert multiset(Present(cards)) == multiset{d} + multiset(Present(tail));
    }
  }

  /** A present card is kept, an absent one contributes nothing. */
  lemma PresentSingle(card: Option<Class>)
    ensures card.None? ==> Present([card]) == []
    ensures card.Some? ==> Present([card]) == [card.value]
  {
  }

  /** Present cards keep their order: the present cards of a concatenation are those of its parts, concatenated. */
  lemma {:induction false} PresentAppend(a: seq<Option<Class>>, b: seq<Option<Class>>)
    ensures Present(a + b) == Present(a) + Present(b)
  {
    if a != [] {
      var ab := a + b;
      assert ab[0] == a[0] && ab[1..] == a[1..] + b;
      PresentAppend(a[1..], b);
    } else {
      assert a + b == b;
    }
  }

  /** The smaller of two integers. */
  function Min(a: int, b: int): int
  {
    if a <= b then a else b
  }

  /** `p` with `amount` more gold. */
  function AddGold(p: Player, amount: int): Player
  {
    p.(data := p.data.(gold := p.data.gold + amount))
  }

  /** `p` holding the roles `roles`. */
  function WithRoles(p: Player, roles: CardPair): Player
  {
    p.(data := p.data.(role1 := roles.0, role2 := roles.1))
  }

  /** The gold held by all of `players`. */
  function TotalGold(players: seq<Player>): int
  {
    if players == [] then 0
    else TotalGold(players[..|players| - 1]) + players[|players| - 1].data.gold
  }

  /** No player of `players` is in debt. */
  ghost predicate NonNegativeGold(players: seq<Player>)
  {
    forall k :: 0 <= k < |players| ==> players[k].data.gold >= 0
  }

  /** Changing one player's gold changes the total by the same amount. */
  lemma {:induction false} TotalGoldUpdate(players: seq<Player>, i: nat, p: Player)
    requires i < |players|
    ensures TotalGold(players[i := p]) == TotalGold(players) - players[i].data.gold + p.data.gold
  {
    var n := |players| - 1;
    if i < n {
      TotalGoldUpdate(players[..n], i, p);
      assert players[i := p][..n] == players[..n][i := p];
    } else {
      assert players[i := p][..n] == players[..n];
    }
  }

  /** Among players without debt, nobody holds more than the total, and the total is not negative. */
  lemma {:induction false} GoldAtMostTotal(players: seq<Player>, k: nat)
    requires NonNegativeGold(players)
    requires k < |players|
    ensures 0 <= players[k].data.gold <= TotalGold(players)
  {
    var n := |players| - 1;
    TotalGoldNonNegative(players[..n]);
    if k < n {
      GoldAtMostTotal(players[..n], k);
    }
  }

  /** The total gold of players without debt is not negative. */
  lemma {:induction false} TotalGoldNonNegative(players: seq<Player>)
    requires NonNegativeGold(players)
    ensures TotalGold(players) >= 0
  {
    if players != [] {
      TotalGoldNonNegative(players[..|players| - 1]);
    }
  }

  /** Appending a player adds that player's gold to the total. */
  lemma TotalGoldAppend(players: seq<Player>, p: Player)
    ensures TotalGold(players + [p]) == TotalGold(players) + p.data.gold
  {
    assert (players + [p])[..|players|] == players;
  }

  class Engine {
    var activePlayers: seq<Player>
    var turnCount: int
    var cardPool: Deck
    var goldPool: int
    var eliminatedPlayers: seq<Player>
    var currentPlayerIndex: nat
    /** The gold in play: the pool plus every player's gold, fixed when the game is created. */
    ghost var totalGold: int

    /** Nobody, the pool included, is in debt, and the gold in play is what the game started with. */
    ghost predicate Valid()
      reads this
    {
      && goldPool >= 0
      && NonNegativeGold(activePlayers)
      && NonNegativeGold(eliminatedPlayers)
      && goldPool + TotalGold(activePlayers) + TotalGold(eliminatedPlayers) == totalGold
      && totalGold <= StartingGoldPool + 2 * 6
    }

    /** The derived default engine: no player, an empty deck, nothing in the pool. */
    constructor Default()
      ensures activePlayers == [] && eliminatedPlayers == []
      ensures turnCount == 0 && goldPool == 0 && currentPlayerIndex == 0 && totalGold == 0
      ensures fresh(cardPool) && cardPool.cards == []
    {
      activePlayers := [];
      turnCount := 0;
      cardPool := new Deck.Default();
      goldPool := 0;
      eliminatedPlayers := [];
      currentPlayerIndex := 0;
      totalGold := 0;
    }

    /**
     * Creates a game for the given decision-makers, one seat each, in order.
     * Fewer than two or more than six are refused.
     */
    static method New(controllers: seq<Controller>) returns (r: NewResult)
      ensures r.InvalidPlayerCount? <==> |controllers| < 2 || 6 < |controllers|
      ensures r.InvalidPlayerCount? ==> r.count == |controllers|
      ensures r.Created? ==> fresh(r.engine) && fresh(r.engine.cardPool) && r.engine.Valid()
      ensures r.Created? ==>
        && |r.engine.activePlayers| == |controllers|
        && (forall k :: 0 <= k < |controllers| ==>
              r.engine.activePlayers[k].data == PlayerData.Default()
              && r.engine.activePlayers[k].controller == controllers[k])
        && r.engine.goldPool == StartingGoldPool
        && r.engine.turnCount == 0
        && r.engine.eliminatedPlayers == []
        && r.engine.currentPlayerIndex == 0
        && r.engine.totalGold == StartingGoldPool + 2 * |controllers|
      ensures r.Created? ==>
        && |r.engine.cardPool.cards| == 15
        && multiset(r.engine.cardPool.cards) == multiset(StandardDeck())
      ensures r.Created? ==> r.engine.IsOver()
    {
      if |controllers| < 2 || |controllers| > 6 {
        return InvalidPlayerCount(|controllers|);
      }
      var engine := new Engine.Default();
      engine.activePlayers := [];
      for i := 0 to |controllers|
        invariant |engine.activePlayers| == i
        invariant forall k :: 0 <= k < i ==> engine.activePlayers[k] == Player.New(controllers[k])
        invariant TotalGold(engine.activePlayers) == 2 * i
        invariant NonNegativeGold(engine.activePlayers)
        invariant engine.eliminatedPlayers == [] && engine.currentPlayerIndex == 0
      {
        TotalGoldAppend(engine.activePlayers, Player.New(controllers[i]));
        engine.activePlayers := engine.activePlayers + [Player.New(controllers[i])];
      }
      engine.turnCount := 0;
      engine.cardPool := new Deck.New();
      engine.goldPool := StartingGoldPool;
      engine.totalGold := StartingGoldPool + 2 * |controllers|;
      return Created(engine);
    }

    /** True while at least two players are active, false once one or none are. */
    function IsOver(): (r: bool)
      reads this
      ensures r <==> 2 <= |activePlayers|
    {
      |activePlayers| > 1
    }

    /**
     * Selects the resolver for the current player's turn: Income, without asking
     * the decision-maker, when that player holds 10 gold or more; otherwise the
     * resolver of the action the decision-maker declares. Nothing when the current
     * index names no active player. The turn changes no state.
     */
    method DoTurn() returns (nextAction: Option<ActionImpl>)
      ensures currentPlayerIndex >= |activePlayers| ==> nextAction == None
      ensures currentPlayerIndex < |activePlayers| && activePlayers[currentPlayerIndex].data.gold >= 10 ==>
        nextAction == Some(IncomeActionImpl(currentPlayerIndex))
      ensures currentPlayerIndex < |activePlayers| && activePlayers[currentPlayerIndex].data.gold < 10 ==>
        nextAction == Some(GetActionImpl(currentPlayerIndex, activePlayers[currentPlayerIndex].controller()))
    {
      if currentPlayerIndex < |activePlayers| {
        var currentPlayer := activePlayers[currentPlayerIndex];
        if currentPlayer.data.gold >= 10 {
          nextAction := Some(IncomeActionImpl(currentPlayerIndex));
        } else {
          var declared := currentPlayer.controller();
          nextAction := Some(GetActionImpl(currentPlayerIndex, declared));
        }
      } else {
        return None;
      }
    }

    /** Income: the acting player takes two gold from the pool, or what the pool holds if less. */
    method ResolveIncome(actingPlayer: nat)
      requires actingPlayer < |activePlayers|
      modifies this
      ensures goldPool == old(goldPool) - Min(2, old(goldPool))
      ensures activePlayers == old(activePlayers)[actingPlayer := AddGold(old(activePlayers[actingPlayer]), Min(2, old(goldPool)))]
      ensures turnCount == old(turnCount) && cardPool == old(cardPool)
      ensures eliminatedPlayers == old(eliminatedPlayers) && currentPlayerIndex == old(currentPlayerIndex)
      ensures totalGold == old(totalGold)
      ensures goldPool + TotalGold(activePlayers) == old(goldPool) + old(TotalGold(activePlayers))
      ensures old(goldPool) >= 0 ==> goldPool >= 0
      ensures old(goldPool) >= 0 ==> activePlayers[actingPlayer].data.gold >= old(activePlayers[actingPlayer].data.gold)
      ensures old(Valid()) ==> Valid()
    {
      var newGold := Min(2, goldPool);
      TotalGoldUpdate(activePlayers, actingPlayer, AddGold(activePlayers[actingPlayer], newGold));
      activePlayers := activePlayers[actingPlayer := AddGold(activePlayers[actingPlayer], newGold)];
      goldPool := goldPool - newGold;
    }

    /** Gives a card back to the deck; an absent card is skipped. */
    method AmbassadorReturnCard(card: Option<Class>)
      modifies cardPool
      ensures card.None? ==> cardPool.cards == old(cardPool.cards)
      ensures card.Some? ==> cardPool.cards == old(cardPool.cards) + [card.value]
    {
      match card
      case Some(c) => cardPool.ReturnCard(c);
      case None =>
    }

    /**
     * Ambassador: the acting player draws two cards and the callback names two
     * cards to give back; when the selection is accepted, the present cards it
     * gives back are pushed onto the deck and the player's roles become the
     * chosen ones, otherwise nothing else changes.
     */
    method ResolveAmbassador(actingPlayer: nat, selectRole: SelectRole)
      requires actingPlayer < |activePlayers|
      modifies this, cardPool
      ensures cardPool == old(cardPool)
      ensures turnCount == old(turnCount) && goldPool == old(goldPool)
      ensures eliminatedPlayers == old(eliminatedPlayers) && currentPlayerIndex == old(currentPlayerIndex)
      ensures totalGold == old(totalGold)
      ensures
        var deck := old(cardPool.cards);
        var card1, card2 := Top(deck), Top(Rest(deck));
        var player := old(activePlayers[actingPlayer]);
        var selection := GetSelection(player.data, selectRole((card1, card2)), card1, card2);
        && (selection.Some? ==>
              && cardPool.cards == Rest(Rest(deck)) + Present([selection.value.returnedCards.0, selection.value.returnedCards.1])
              && activePlayers == old(activePlayers)[actingPlayer := WithRoles(player, selection.value.chosenCards)])
        && (selection.None? ==>
              cardPool.cards == Rest(Rest(deck)) && activePlayers == old(activePlayers))
      ensures
        var deck := old(cardPool.cards);
        cardPool.cards == deck[..|deck| - Min(2, |deck|)]
      ensures activePlayers == old(activePlayers)[actingPlayer := WithRoles(old(activePlayers[actingPlayer]), (None, None))]
      ensures old(Valid()) ==> Valid()
    {
      var card1 := cardPool.DrawCard();
      var card2 := cardPool.DrawCard();
      var returnedCards := selectRole((card1, card2));
      match GetSelection(activePlayers[actingPlayer].data, returnedCards, card1, card2)
      case Some(selection) =>
        AmbassadorReturnCard(selection.returnedCards.0);
        AmbassadorReturnCard(selection.returnedCards.1);
        TotalGoldUpdate(activePlayers, actingPlayer, WithRoles(activePlayers[actingPlayer], selection.chosenCards));
        activePlayers := activePlayers[actingPlayer := WithRoles(activePlayers[actingPlayer], selection.chosenCards)];
      case None =>
    }
  }

  /** In every reachable state each gold amount fits the signed 32-bit integers the game uses. */
  lemma GoldFitsInI32(engine: Engine)
    requires engine.Valid()
    ensures 0 <= engine.goldPool <= I32Max
    ensures forall k :: 0 <= k < |engine.activePlayers| ==> 0 <= engine.activePlayers[k].data.gold <= I32Max
    ensures forall k :: 0 <= k < |engine.eliminatedPlayers| ==> 0 <= engine.eliminatedPlayers[k].data.gold <= I32Max
  {
    TotalGoldNonNegative(engine.activePlayers);
    TotalGoldNonNegative(engine.eliminatedPlayers);
    forall k | 0 <= k < |engine.activePlayers|
      ensures engine.activePlayers[k].data.gold <= I32Max
    {
      GoldAtMostTotal(engine.activePlayers, k);
    }
    forall k | 0 <= k < |engine.eliminatedPlayers|
      ensures engine.eliminatedPlayers[k].data.gold <= I32Max
    {
      GoldAtMostTotal(engine.eliminatedPlayers, k);
    }
  }
}
