/** The error kinds the simulator reports. */
module Errors {

  import opened Types

  /** An unsigned 32-bit integer. */
  newtype u32 = x: int | 0 <= x < 0x1_0000_0000

  datatype Error =
    | CardCodeNotFound(code: string)
    | InvalidFactionInteger(faction: u32)
    | LorDeckCodesError
    | CardIndexNotFoundInHands(hand: CardIndex)
    | CardIndexNotFoundInSummons(summon: CardIndex)
    | NoCardsInStack
    | ManaOverFlow
    | NotEnoughMana
}
