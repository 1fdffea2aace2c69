/**
 * The game-level types that the card catalog works with: card references,
 * effects and their durations, the closed set of events, and a read-only view
 * of the game through which a card finds its owner's battlefield.
 */
module Types {

  import opened Wrappers

  /** The two seats at the table. */
  datatype PlayerId = First | Second

  /**
   * A stable reference to one physical card for the whole game: the player who
   * owns it and the slot of that card in the player's original deck list.
   */
  datatype CardIndex = CardIndex(player: PlayerId, slot: nat)

  /** Opaque keyword abilities; only the one the catalog names is listed. */
  datatype Keyword = CantBlock

  /** How long an effect lasts. */
  datatype Duration =
    | Turn(remainingRounds: nat)
    | CardPlaying(source: CardIndex)
    | Battle
    | Permanent

  /**
   * A modifier applied to one card: additive attack and defense deltas, an
   * optional cost delta, an optional keyword grant, and a duration.
   */
  datatype Effect = Effect(
    targetCardIndex: CardIndex,
    attackPoint: int,
    defensePoint: int,
    costPoint: Option<int>,
    keyword: Option<Keyword>,
    duration: Duration)

  /** The optional fields an effect takes when the creator leaves them to their defaults. */
  predicate HasDefaultExtras(e: Effect) {
    e.costPoint == None && e.keyword == None
  }

  /** The closed set of occurrences a card may react to. */
  datatype Event =
    | RoundStart
    | Draw(target: CardIndex)
    | Summon(target: CardIndex)
    | Grant(effect: Effect)
    | Dead(target: CardIndex)
    | PassTurn

  /** The part of a player's state a card listener reads: the cards on the battlefield, in order. */
  datatype PlayerState = PlayerState(summons: seq<CardIndex>)

  /** A read-only view of the game: both players' states. */
  datatype Game = Game(first: PlayerState, second: PlayerState) {

    /** The state of the player who owns `ci`. */
    function Owner(ci: CardIndex): PlayerState {
      match ci.player
      case First => first
      case Second => second
    }
  }
}
