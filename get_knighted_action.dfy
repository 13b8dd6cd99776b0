/** The get-knighted action: give the character the title "Sir". */
module GetKnightedAction {
  import opened Wrappers
  import opened Cards

  const GetKnightedId := "GET_KNIGHTED"

  function DisplayName(): string { "Get Knighted" }

  /** `isCompatible`: only character cards. */
  predicate IsCompatible(card: CardEmbeddable)
    ensures IsCompatible(card) <==> card.kind == GotCharacter
  {
    card.Type() == GotCharacterCardType
  }

  /** The input after knighting: titled "Sir", nothing else touched. */
  function Knighted(input: CardInput): (r: CardInput)
    ensures r == input.(nameTitle := Some("Sir"))
  {
    Merge(input, TitleChange("Sir"))
  }

  /** `execute`: a single update of `nameTitle`. It checks no compatibility and never throws. */
  method Execute(card: CardEmbeddable)
    requires card.Valid()
    modifies card
    ensures card.Valid() && card.subscribed == old(card.subscribed)
    ensures card.input == Knighted(old(card.input))
    ensures card.output == if card.subscribed then Recomputed(card.kind, old(card.output), card.input)
                           else old(card.output)
  {
    card.UpdateInput(TitleChange("Sir"));
  }

  /** Knighting twice is knighting once. */
  lemma KnightedIdempotent(input: CardInput)
    ensures Knighted(Knighted(input)) == Knighted(input)
  {
  }

  /** Once knighted, a character with a first or last name is called "Sir" followed by the
      untitled name, whatever title they held before. */
  lemma KnightedFullName(input: CardInput)
    requires input.firstName.Some? || input.lastName.Some?
    ensures FullName(Knighted(input)) == "Sir " + FullName(input.(nameTitle := None))
  {
    FullNameWithTitle(input, "Sir");
  }
}
