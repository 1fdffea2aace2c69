# Runeterra card catalog — Dafny model

This project models the card catalog of a Legends of Runeterra battle
simulator. The catalog does two things:

- `Code2Card` maps a catalog code to a printed card template. The catalog knows
  one code, `"01DE001"`, the Vanguard Bannerman. Every other code fails with
  `CardCodeNotFound`, and the error carries the code that was looked up.
- Every template carries a reaction function, which the resolution engine calls
  with each applied event. The Bannerman's reaction (`BannermanListener`) is
  its Allegiance ability. When the event is the Summon of the Bannerman itself,
  it returns one `Grant` per card on its owner's battlefield, in battlefield
  order. Each grant is a +1|+1 effect that lasts while the Bannerman stays in
  play (`CardPlaying(self)`). Every other event gets no reaction (`None`).

Files:

- `wrappers.dfy`: `Option` and `Result`.
- `types.dfy`: the game types the catalog uses. These are card references
  (player, deck slot), keywords, durations, effects, the closed event set and a
  read-only game view. The game view exposes `Owner(ci)` and that player's
  ordered battlefield (`summons`).
- `errors.dfy`: the simulator's error kinds.
- `cards.dfy`: the catalog, the Bannerman's reaction and the properties proved
  about them.

The types in `types.dfy` are not defined in `src/cards.rs`. They are built from
how that file uses them. `Effect` has two fields that the Bannerman leaves to
`Default::default()`: an optional cost delta and an optional keyword grant.
Both default to `None` (`HasDefaultExtras`).

## Model

| member | source | states |
|---|---|---|
| `Cards.Code2Card` | src/cards.rs:9-46 | The lookup succeeds exactly for the known code `"01DE001"`. Every other code yields `CardCodeNotFound` carrying exactly the input string. A successful lookup carries the Bannerman's reaction function. |
| `Cards.BannermanTemplate` | src/cards.rs:11-20 | `"01DE001"` is a Follower named "Vanguard Bannerman" with the Allegiance text. It is Demacia, Rare, cost 4, 3 attack, 3 defense, and its keywords are exactly `[CantBlock]`. |
| `Cards.AllyGrants` | src/cards.rs:26-37 | Mapping the allies gives a list of the same length. Its i-th event is a Grant to the i-th ally of +1 attack and +1 defense, with duration `CardPlaying(source)` and the other fields at their defaults. |
| `Cards.BannermanListener` | src/cards.rs:21-42 | The reaction is `Some` exactly when the event is a `Summon` of the card's own index. That covers both `None` cases: an event that is not a Summon, and a Summon of a different card. When it reacts, the list is as long as the owner's battlefield, and its i-th element is the +1/+1 `CardPlaying(self)` buff of the i-th card on it. |
| `Cards.GrantTargetsOfAllyGrants` | src/cards.rs:26-37 | Reading the targets back out of the grants gives the allies again, in the same order and with the same repetitions. |
| `Cards.BannermanTargetsAllies` | src/cards.rs:24-38 | On a Summon of itself, the grant targets are exactly the battlefield of the card's owner. |
| `Cards.BannermanReadsOnlyOwner` | src/cards.rs:24-25 | Two games in which the card's owner has the same state give the same reaction to every event. The opponent's battlefield is never consulted. |
| `Cards.BannermanEmptyBattlefield` | src/cards.rs:25-38 | With an empty battlefield, a Summon of itself yields `Some([])`, not `None`. |
| `Cards.BannermanBuffsItself` | src/cards.rs:23-38 | There is no self-filter. If the Bannerman's own index is on its owner's battlefield, the reaction contains a +1/+1 buff targeting the Bannerman itself. |
| `Cards.AllyGrantsBonus` | src/cards.rs:28-36 | Over the grants, the total attack delta and the total defense delta given to any card both equal the number of times that card occurs among the allies. |
| `Cards.BannermanBuffsEachAllyOnce` | src/cards.rs:24-37 | Take a battlefield with no repeated reference. The Bannerman's reaction to its own Summon gives every card on it exactly +1 attack and +1 defense in total. Every other card gets 0. |

## Left out

- `src/lib.rs` is not part of this model. It is an unfinished sketch. Its only
  behaviour is the `UnitCard::cost` field getter, and `Player::pick` is an
  external decision-maker.
- Deck-code decoding is not modelled. It is done by an external library, and
  the catalog never calls it. `LorDeckCodesError` and `InvalidFactionInteger`
  exist only as error kinds.
- The `CANTBLOCK` keyword is an opaque tag (`CantBlock`). Its behaviour is
  defined in a module that is not part of this model.
- The resolution engine is not modelled: the event queue, applying and
  propagating events, effect expiry and reversal, and the zone operations
  (draw, summon, kill, mana). None of these exist in the card catalog.
- `Game::owner` and `PlayerState::summons` are given as a plain lookup in a
  two-player game view (`Types.Game.Owner`). They are not verified operations.
- The integer widths of cost, attack and defense are not modelled. The
  catalog's values are small constants, so they are unbounded `int`s here.
