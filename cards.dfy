/**
 * The card catalog: `Code2Card` maps a catalog code to a printed card
 * template, and each template carries the reaction function that the
 * resolution engine calls with every applied event. The catalog holds one
 * card, the Vanguard Bannerman, whose Allegiance ability grants +1|+1 to every
 * card on its owner's battlefield when it is summoned.
 */
module Cards {

  import opened Wrappers
  import opened Types
  import opened Errors

  datatype CardType = Spell | Follower | Champion

  datatype Faction = Demacia | Freljord | Ionia | Noxus | PiltoverZaun | ShadowIsles

  datatype Rarity = Common | Rare | Epic | Champion

  /** A card's reaction: given an applied event, its own reference and a read-only game, the follow-up events. */
  type Listener = (Event, CardIndex, Game) -> Option<seq<Event>>

  /** A printed card template. */
  datatype Card = Card(
    cardtype: CardType,
    name: string,
    description: string,
    keywords: seq<Keyword>,
    faction: Faction,
    rarity: Rarity,
    cost: int,
    attackPoint: int,
    defensePoint: int,
    eventListener: Listener)

  /** The catalog code of the Vanguard Bannerman. */
  const BannermanCode: string := "01DE001"

  /** Every code the catalog knows. */
  const KnownCodes: set<string> := {BannermanCode}

  /** Looks up a catalog code; an unknown code is reported with the code itself. */
  function Code2Card(code: string): (r: Result<Card, Error>)
    ensures r.Ok? <==> code in KnownCodes
    ensures r.Err? ==> r.error == CardCodeNotFound(code)
    ensures r.Ok? ==> r.value.eventListener == BannermanListener
  {
    if code == BannermanCode then
      Ok(Card(
        cardtype := Follower,
        name := "Vanguard Bannerman",
        description := "Allegiance: Grant all allies +1|+1",
        keywords := [CantBlock],
        faction := Demacia,
        rarity := Rare,
        cost := 4,
        attackPoint := 3,
        defensePoint := 3,
        eventListener := BannermanListener))
    else
      Err(CardCodeNotFound(code))
  }

  /** The buff one ally receives: +1|+1 for as long as `source` stays in play, other fields left at their defaults. */
  predicate IsAllyBuff(e: Event, ally: CardIndex, source: CardIndex) {
    && e.Grant?
    && e.effect.targetCardIndex == ally
    && e.effect.attackPoint == 1
    && e.effect.defensePoint == 1
    && e.effect.duration == CardPlaying(source)
    && HasDefaultExtras(e.effect)
  }

  /** One Grant per ally, in the allies' order. */
  function AllyGrants(allies: seq<CardIndex>, source: CardIndex): (r: seq<Event>)
    ensures |r| == |allies|
    ensures forall i :: 0 <= i < |r| ==> IsAllyBuff(r[i], allies[i], source)
  {
    if allies == [] then []
    else
      [Grant(Effect(allies[0], 1, 1, None, None, CardPlaying(source)))]
      + AllyGrants(allies[1..], source)
  }

  /** The Vanguard Bannerman's reaction: on its own Summon, buff every card on its owner's battlefield. */
  function BannermanListener(event: Event, cardIndex: CardIndex, game: Game): (r: Option<seq<Event>>)
    ensures r.Some? <==> event == Summon(cardIndex)
    ensures r.Some? ==> |r.value| == |game.Owner(cardIndex).summons|
    ensures r.Some? ==> forall i :: 0 <= i < |r.value| ==>
              IsAllyBuff(r.value[i], game.Owner(cardIndex).summons[i], cardIndex)
  {
    match event
    case Summon(target) =>
      if target == cardIndex then Some(AllyGrants(game.Owner(cardIndex).summons, cardIndex))
      else None
    case _ => None
  }

  // ---------------------------------------------------------------------------
  // The printed template

  /** The Bannerman's printed template, field by field. */
  lemma BannermanTemplate()
    ensures Code2Card(BannermanCode).Ok?
    ensures var c := Code2Card(BannermanCode).value;
      && c.cardtype == Follower && c.name == "Vanguard Bannerman"
      && c.description == "Allegiance: Grant all allies +1|+1"
      && c.faction == Demacia && c.rarity == Rare
      && c.cost == 4 && c.attackPoint == 3 && c.defensePoint == 3
      && c.keywords == [CantBlock]
  {
  }

  // ---------------------------------------------------------------------------
  // The reaction function

  /** The grant targets of an event list, in order; events other than Grant contribute nothing. */
  function GrantTargets(events: seq<Event>): seq<CardIndex> {
    if events == [] then []
    else (if events[0].Grant? then [events[0].effect.targetCardIndex] else []) + GrantTargets(events[1..])
  }

  /** The grants list the allies back, in the same order and with the same repetitions. */
  lemma {:induction false} GrantTargetsOfAllyGrants(allies: seq<CardIndex>, source: CardIndex)
    ensures GrantTargets(AllyGrants(allies, source)) == allies
  {
    if allies != [] {
      var r := AllyGrants(allies, source);
      assert r[1..] == AllyGrants(allies[1..], source);
      GrantTargetsOfAllyGrants(allies[1..], source);
    }
  }

  /** The reaction to a summon of oneself names exactly the owner's battlefield as targets. */
  lemma BannermanTargetsAllies(cardIndex: CardIndex, game: Game)
    ensures BannermanListener(Summon(cardIndex), cardIndex, game).Some?
    ensures GrantTargets(BannermanListener(Summon(cardIndex), cardIndex, game).value)
            == game.Owner(cardIndex).summons
  {
    GrantTargetsOfAllyGrants(game.Owner(cardIndex).summons, cardIndex);
  }

  /** Only the owner's battlefield matters: the opponent's state never changes the reaction. */
  lemma BannermanReadsOnlyOwner(event: Event, cardIndex: CardIndex, g1: Game, g2: Game)
    requires g1.Owner(cardIndex) == g2.Owner(cardIndex)
    ensures BannermanListener(event, cardIndex, g1) == BannermanListener(event, cardIndex, g2)
  {
  }

  /** An empty battlefield still yields a reaction, with no events in it. */
  lemma BannermanEmptyBattlefield(cardIndex: CardIndex, game: Game)
    requires game.Owner(cardIndex).summons == []
    ensures BannermanListener(Summon(cardIndex), cardIndex, game) == Some([])
  {
  }

  /** There is no self-filter: a Bannerman already on the battlefield buffs itself. */
  lemma BannermanBuffsItself(cardIndex: CardIndex, game: Game)
    requires cardIndex in game.Owner(cardIndex).summons
    ensures exists e :: e in BannermanListener(Summon(cardIndex), cardIndex, game).value
                        && IsAllyBuff(e, cardIndex, cardIndex)
  {
    var allies := game.Owner(cardIndex).summons;
    var i :| 0 <= i < |allies| && allies[i] == cardIndex;
    var r := BannermanListener(Summon(cardIndex), cardIndex, game).value;
    assert IsAllyBuff(r[i], cardIndex, cardIndex);
  }

  /** The number of times `x` occurs in `s`. */
  function Count(s: seq<CardIndex>, x: CardIndex): nat {
    if s == [] then 0 else (if s[0] == x then 1 else 0) + Count(s[1..], x)
  }

  /** The total attack delta granted to `t` by the events. */
  function AttackBonus(events: seq<Event>, t: CardIndex): int {
    if events == [] then 0
    else
      (if events[0].Grant? && events[0].effect.targetCardIndex == t then events[0].effect.attackPoint else 0)
      + AttackBonus(events[1..], t)
  }

  /** The total defense delta granted to `t` by the events. */
  function DefenseBonus(events: seq<Event>, t: CardIndex): int {
    if events == [] then 0
    else
      (if events[0].Grant? && events[0].effect.targetCardIndex == t then events[0].effect.defensePoint else 0)
      + DefenseBonus(events[1..], t)
  }

  /** Each card is buffed +1|+1 once per occurrence on the battlefield. */
  lemma {:induction false} AllyGrantsBonus(allies: seq<CardIndex>, source: CardIndex, t: CardIndex)
    ensures AttackBonus(AllyGrants(allies, source), t) == Count(allies, t)
    ensures DefenseBonus(AllyGrants(allies, source), t) == Count(allies, t)
  {
    if allies != [] {
      var r := AllyGrants(allies, source);
      assert r[1..] == AllyGrants(allies[1..], source);
      AllyGrantsBonus(allies[1..], source, t);
    }
  }

  /** In a battlefield with no repeated reference, an element occurs once and a non-element never. */
  lemma {:induction false} CountDistinct(s: seq<CardIndex>, x: CardIndex)
    requires forall i, j :: 0 <= i < j < |s| ==> s[i] != s[j]
    ensures Count(s, x) == if x in s then 1 else 0
  {
    if s != [] {
      CountDistinct(s[1..], x);
      if s[0] == x {
        assert x !in s[1..] by {
          forall k | 0 <= k < |s[1..]| ensures s[1..][k] != x {
            assert s[1..][k] == s[k + 1];
          }
        }
      }
    }
  }

  /**
   * Summoning the Bannerman buffs every card on its owner's battlefield by
   * exactly +1|+1 and leaves every other card unbuffed.
   */
  lemma BannermanBuffsEachAllyOnce(cardIndex: CardIndex, game: Game, t: CardIndex)
    requires var s := game.Owner(cardIndex).summons;
             forall i, j :: 0 <= i < j < |s| ==> s[i] != s[j]
    ensures var r := BannermanListener(Summon(cardIndex), cardIndex, game).value;
            && AttackBonus(r, t) == (if t in game.Owner(cardIndex).summons then 1 else 0)
            && DefenseBonus(r, t) == (if t in game.Owner(cardIndex).summons then 1 else 0)
  {
    AllyGrantsBonus(game.Owner(cardIndex).summons, cardIndex, t);
    CountDistinct(game.Owner(cardIndex).summons, t);
  }
}
