/** The ride-dragon action: a Targaryen enjoys the ride, anyone else does not survive it. */
module RideDragonAction {
  import opened Wrappers
  import opened Cards

  const RideDragonId := "RIDE_DRAGON"

  function DisplayName(): string { "Ride dragon" }

  /** `isCompatibleEmbeddable`: the input has a surname, an alive flag and a mood. */
  predicate IsCompatibleEmbeddable(input: CardInput)
  {
    input.lastName.Some? && input.isAlive.Some? && input.mood.Some?
  }

  /** `isCompatible`: a compatible embeddable whose surname is Targaryen. */
  predicate IsCompatible(input: CardInput)
    ensures IsCompatible(input) <==>
      input.lastName == Some("Targaryen") && input.isAlive.Some? && input.mood.Some?
  {
    IsCompatibleEmbeddable(input) && input.lastName == Some("Targaryen")
  }

  /** The input after a ride. */
  function RodeDragon(input: CardInput): (r: CardInput)
    ensures input.lastName == Some("Targaryen") ==> r == input.(mood := Some("happy"))
    ensures input.lastName != Some("Targaryen") ==> r == input.(isAlive := Some(false))
  {
    if input.lastName == Some("Targaryen") then Merge(input, MoodChange("happy"))
    else Merge(input, AliveChange(false))
  }

  /** `execute`: one update, chosen by surname. It checks no compatibility and never throws. */
  method Execute(card: CardEmbeddable)
    requires card.Valid()
    modifies card
    ensures card.Valid() && card.subscribed == old(card.subscribed)
    ensures card.input == RodeDragon(old(card.input))
    ensures card.output == if card.subscribed then Recomputed(card.kind, old(card.output), card.input)
                           else old(card.output)
  {
    if card.input.lastName == Some("Targaryen") {
      card.UpdateInput(MoodChange("happy"));
    } else {
      card.UpdateInput(AliveChange(false));
    }
  }

  /** A second ride changes nothing. */
  lemma RideIdempotent(input: CardInput)
    ensures RodeDragon(RodeDragon(input)) == RodeDragon(input)
  {
  }

  /** When the action is compatible the rider survives: alive stays as it was, mood turns happy.
      When only the embeddable is compatible but the rider is no Targaryen, the rider dies. */
  lemma CompatibleRiderSurvives(input: CardInput)
    ensures IsCompatible(input) ==>
      RodeDragon(input).isAlive == input.isAlive && RodeDragon(input).mood == Some("happy")
    ensures IsCompatibleEmbeddable(input) && !IsCompatible(input) ==>
      RodeDragon(input).isAlive == Some(false) && RodeDragon(input).mood == input.mood
  {
  }
}
