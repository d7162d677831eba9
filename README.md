# Coup engine: a Dafny model of the game-state core

This project models the game-state logic of a Rust rules engine for the card
game Coup (`coup-engine/src/engine.rs`):

- the role cards;
- the deck, a stack of cards that is filled with three copies of each role and
  shuffled, and supports draw (pop), return (push) and shuffle;
- each player's state: two role slots and gold;
- construction of a game, which is refused outside 2 to 6 players;
- the two action resolvers the engine has: Income and Ambassador;
- turn dispatch (`do_turn`, `get_action_impl`) and the `is_over` check.

Layout:

- `roles.dfy`: module `Roles`. It holds `Class` and the composition of a full
  deck. It also holds the general `Option` type, which stands for an absent
  card and is used by `Decks` and `Game` as well.
- `deck.dfy`: module `Decks`. It holds `class Deck`, whose `cards` sequence is
  changed in place the way the source's `Vec` is. The top of the deck is the
  end of the sequence.
- `engine.dfy`: module `Game`. It holds the player, action and resolver
  datatypes, and `class Engine` with the source's fields.

Modelling choices:

- Players are values inside `Engine.activePlayers`, and a resolver acts on a
  seat of the engine it is given. This is a modelling choice: it gives the
  resolvers the meaning their code evidently has (the acting player gains
  what the pool loses).
- A player reference inside an `Action` or a resolver becomes a seat index.
- A `PlayerController` becomes a function `() -> Action`: a decision-maker
  that answers the same way whenever it is asked. Every controller the
  repository defines answers with a constant action
  (`coup-engine/src/engine.rs:345-347`, `coup-engine/src/player_factory.rs:32-34`).
- The Ambassador callback becomes a function on pairs of optional cards.
- `shuffle` becomes a nondeterministic choice of an order with the same
  multiset of cards. No particular random generator is modelled.
- The panic of `Engine::new` on a bad player count becomes the result
  `InvalidPlayerCount(count)`.
- `do_turn` computes a resolver and then drops it: the resolution steps after
  it are only comments in the source. `Engine.DoTurn` changes no state and
  returns the resolver it selected, so that the selection can be stated.
- Gold amounts are `i32` in the source and `int` here. `GoldFitsInI32` proves
  that no reachable amount leaves the `i32` range. A game starts with at most
  30 + 2 × 6 gold in play, Income only moves gold, and nothing goes negative.

Where the code departs from the rules of Coup, the model follows the code:

- The gold pool starts at 30 whatever the number of players, not at
  50 − 2 × players.
- Income grants `min(2, pool)`, not 1.
- A player with 10 or more gold gets Income, not a forced Coup.
- `is_over` is true while two or more players are active. So a newly created
  game already reports itself over (`Engine.New` proves it).
- `get_selection` is a stub. It accepts every selection and keeps and returns
  nothing. An Ambassador turn therefore empties the player's role slots, and
  the drawn cards leave the deck without going anywhere: the number of cards
  in play drops.
- `Engine::new` deals no cards, where the rules deal two to each player. The
  deck of a new game holds all 15 cards. A unit test at
  `coup-engine/src/engine.rs:313` expects 5.

## Model

| member | source | states |
|---|---|---|
| `Roles.AllClasses` | coup-engine/src/engine.rs:30-37 | the enumeration lists five roles, no role twice |
| `Roles.AllClassesOnce` | coup-engine/src/engine.rs:30-37 | every role occurs in the enumeration, exactly once |
| `Roles.TriplesCount` | coup-engine/src/engine.rs:210-214 | pushing three copies of each listed role gives three times as many cards, and each role occurs three times as often as in the list |
| `Roles.StandardDeckComposition` | coup-engine/src/engine.rs:207-217 | the filled deck holds 15 cards, three of each of the five roles |
| `Decks.Deck.Default` | coup-engine/src/engine.rs:39-42 | the default deck is empty |
| `Decks.Deck.New` | coup-engine/src/engine.rs:207-218 | a new deck holds 15 cards with the multiset of the full deck (three per role) after the shuffle; the nested loops are verified against the unshuffled order |
| `Decks.Deck.DrawCard` | coup-engine/src/engine.rs:220-222 | an empty deck yields None and stays empty; otherwise the top card is yielded and removed, and the others keep their order |
| `Decks.Deck.ReturnCard` | coup-engine/src/engine.rs:224-226 | the card goes on top and the deck grows by exactly one |
| `Decks.Deck.Shuffle` | coup-engine/src/engine.rs:228-230 | the card multiset is unchanged, and with it the length |
| `Decks.ReturnThenDraw` | coup-engine/src/engine.rs:220-226 | returning a card and then drawing yields that card and restores the deck exactly |
| `Game.Player.New` | coup-engine/src/engine.rs:197-204 | a new seat holds the default player data and the given decision-maker |
| `Game.PlayerData.Default` | coup-engine/src/engine.rs:187-195 | a new player has 2 gold and both role slots empty |
| `Game.GetActionImpl` | coup-engine/src/engine.rs:289-299 | the Ambassador resolver is chosen exactly when the action is Ambassador, carrying its callback; every other action gets Income; the acting seat is kept |
| `Game.GetSelection` | coup-engine/src/engine.rs:102-124 | whatever its inputs, the selection is accepted, with no role kept and no card given back |
| `Game.Present` | coup-engine/src/engine.rs:126-131 | the cards pushed back are never more than offered, a card is pushed iff it was offered, and all are pushed iff none is absent |
| `Game.PresentCounts` | coup-engine/src/engine.rs:126-131 | each card is pushed back exactly as many times as it is offered present |
| `Game.PresentSingle` | coup-engine/src/engine.rs:126-131 | a single present card is pushed, a single absent one pushes nothing |
| `Game.PresentAppend` | coup-engine/src/engine.rs:126-131 | handling two offers one after the other pushes their present cards in the same order, so the pushed cards keep the order of the offer |
| `Game.TotalGoldUpdate` | coup-engine/src/engine.rs:139-143 | changing one seat's gold changes the table's total gold by exactly that difference |
| `Game.GoldFitsInI32` | coup-engine/src/engine.rs:44-49 | in a valid state the pool, every active player's gold and every eliminated player's gold lie in 0..2^31−1, so the `i32` fields never overflow |
| `Game.Engine.Default` | coup-engine/src/engine.rs:177-185 | the derived default engine has no players, an empty deck, an empty pool and index 0 |
| `Game.Engine.New` | coup-engine/src/engine.rs:233-254 | fails iff fewer than 2 or more than 6 controllers are given; otherwise one player per controller in order, each with 2 gold and no roles, pool 30, turn count 0, no eliminated player, a full 15-card deck, the gold invariant established, and `IsOver` already true |
| `Game.Engine.IsOver` | coup-engine/src/engine.rs:256-258 | true iff at least two players are active (so also on a newly created game) |
| `Game.Engine.DoTurn` | coup-engine/src/engine.rs:260-275 | nothing is selected when the index names no player; Income is selected whatever the controller would declare when the current player holds 10 or more gold; otherwise the resolver of the declared action; no state changes |
| `Game.Engine.ResolveIncome` | coup-engine/src/engine.rs:138-144 | exactly `min(2, pool)` moves from the pool to the acting player and nothing else changes; pool plus players' gold is conserved; a non-negative pool stays non-negative and the player's gold then does not decrease; the invariant is preserved |
| `Game.Engine.AmbassadorReturnCard` | coup-engine/src/engine.rs:126-131 | a present card is pushed onto the deck, an absent one is skipped |
| `Game.Engine.ResolveAmbassador` | coup-engine/src/engine.rs:64-83 | two draws happen; if the selection is accepted, its present returned cards are pushed back and the roles become the chosen ones, otherwise roles and deck past the draws are unchanged; with the stub selection, the deck loses the cards actually drawn (at most two) and both role slots become empty; gold and the invariant are untouched |

## Left out

- Printing: the `Debug` implementations, `print_deck`, `print_current_actions`, the messages of `handle_rebuttal` and of the Ambassador. They are presentation only.
- The random generator behind `shuffle`: any permutation is allowed instead.
- The multiset difference in `get_selection` (`coup-engine/src/engine.rs:118`). It is a call into an external library, and its result is discarded.
- `PlayerController::init`: the engine never calls it.
- `Game.Engine.ResolveIncome`, `Game.Engine.ResolveAmbassador`: the source's resolvers take the acting player and the engine as two separate mutable borrows. Rust cannot lend one of the engine's own players alongside the engine, and `do_turn` never calls a resolver. So the source has no run in which a resolver acts on a seat of the engine whose pool or deck it changes. The model resolves on a seat of the engine it is given.
- A decision-maker whose answer changes between calls, because it reads input or keeps mutable state behind `&self`. `Game.Engine.DoTurn` relies on the controller answering the same way each time.
- The boxed trait-object dispatch of controllers and resolvers. Closed datatypes replace it.
- Resolving the selected action inside `do_turn`, and the challenge and block windows. The source has only comments there.
- `coup-engine/src/player_factory.rs`, `coup-engine/src/lib.rs` and `coup-game/src/main.rs`. They construct controllers and start the process, and hold no game logic.
- `Game.Engine.New`: a Rust panic aborts the caller. Here it is an error result that the caller has to inspect.
