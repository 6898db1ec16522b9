/** The decision cascade of the reactive policy (`GamerAgent.reactive_AI`),
    separated from the board: which tier applies, given which candidate
    lists are non-empty and which cards the team's hand holds. */
module Policy {
  import opened Util
  import opened Cards

  /** The tiers of the cascade, in priority order. */
  datatype Tier =
    | ClimbUp        // MOVE onto a neighbour exactly one higher
    | UpgradeLevel   // BUILD on a neighbour of the agent's own height
    | BuildBelow     // BUILD on a lower neighbour
    | MoveLateral    // MOVE onto a neighbour of the agent's own height
    | FallbackMove   // random MOVE anywhere (or pass)
    | FallbackBuild  // random BUILD anywhere (or pass)
    | NoCard         // the hand is empty: nothing is chosen

  /** What the reactive policy looks at before deciding. */
  datatype Situation = Situation(
    advantageous: bool, upgradable: bool, lower: bool, sameLevel: bool,
    hasMove: bool, hasBuild: bool)

  /** The situation seen with a given hand. */
  function SituationWith(advantageous: bool, upgradable: bool, lower: bool, sameLevel: bool, hand: seq<Card>): Situation
  {
    Situation(advantageous, upgradable, lower, sameLevel, Move in hand, BuildPillar in hand)
  }

  function Rank(t: Tier): nat
  {
    match t
    case ClimbUp => 0
    case UpgradeLevel => 1
    case BuildBelow => 2
    case MoveLateral => 3
    case FallbackMove => 4
    case FallbackBuild => 5
    case NoCard => 6
  }

  /** When a tier, taken on its own, could be played. */
  predicate Applicable(t: Tier, s: Situation)
  {
    match t
    case ClimbUp => s.advantageous && s.hasMove
    case UpgradeLevel => s.upgradable && s.hasBuild
    case BuildBelow => s.lower && s.hasBuild
    case MoveLateral => s.sameLevel && s.hasMove
    case FallbackMove => s.hasMove
    case FallbackBuild => s.hasBuild
    case NoCard => true
  }

  /** The card a tier plays. */
  function TierCard(t: Tier): Option<Card>
  {
    match t
    case ClimbUp | MoveLateral | FallbackMove => Some(Move)
    case UpgradeLevel | BuildBelow | FallbackBuild => Some(BuildPillar)
    case NoCard => None
  }

  /** The if/elif cascade of `reactive_AI`: the first tier whose
      condition holds wins. */
  function ChooseTier(s: Situation): (t: Tier)
    ensures Applicable(t, s)
    ensures forall u :: Applicable(u, s) ==> Rank(t) <= Rank(u)
    ensures t == NoCard <==> !s.hasMove && !s.hasBuild
  {
    if s.advantageous && s.hasMove then ClimbUp
    else if s.upgradable && s.hasBuild then UpgradeLevel
    else if s.lower && s.hasBuild then BuildBelow
    else if s.sameLevel && s.hasMove then MoveLateral
    else if s.hasMove then FallbackMove
    else if s.hasBuild then FallbackBuild
    else NoCard
  }

  /** The card the reactive policy returns is one the hand holds, and there
      is one whenever the hand is not empty. */
  lemma ChosenCardInHand(advantageous: bool, upgradable: bool, lower: bool, sameLevel: bool, hand: seq<Card>)
    ensures var card := TierCard(ChooseTier(SituationWith(advantageous, upgradable, lower, sameLevel, hand)));
            (card.Some? <==> hand != []) && (card.Some? ==> card.value in hand)
  {
    if hand != [] {
      assert hand[0] in hand;
      assert Move in hand || BuildPillar in hand by {
        if hand[0] == Move { } else { assert hand[0] == BuildPillar; }
      }
    }
  }
}
