/** The two card factories. They differ only in the card they create; their default tables
    are the same. `Math.random()` is passed in as a real number in [0, 1). */
module CardFactory {
  import opened Wrappers
  import opened Cards

  /** `randomlyChoose(options)`: the option at index `floor(random * options.length)`.
      On an empty list that index is 0 and the lookup yields `undefined`. */
  function RandomlyChoose<T>(options: seq<T>, random: real): (r: Option<T>)
    requires 0.0 <= random < 1.0
    ensures r.Some? <==> |options| > 0
    ensures r.Some? ==> r.value in options
    ensures |options| > 0 ==>
      exists k :: (&& 0 <= k < |options| && r == Some(options[k])
                   && k as real <= random * |options| as real < (k + 1) as real)
  {
    var n := |options| as real;
    var index := (random * n).Floor;
    if options == [] then None
    else
      assert 0 <= index < |options| by {
        assert 0.0 <= random * n < n by {
          assert random * n < 1.0 * n;
        }
        assert index as real <= random * n < index as real + 1.0;
        assert index as real < |options| as real;
      }
      Some(options[index])
  }

  const Locations := [BeyondTheWall, KingsLanding, Winterfell]
  const Moods := ["bored", "happy", "sad", "vengeful"]

  datatype Factory = ContactCardFactory | GotCharacterCardFactory
  {
    /** The type of the cards this factory creates. */
    function Type(): (r: string)
      ensures r == ContactCardType <==> this == ContactCardFactory
      ensures r == GotCharacterCardType <==> this == GotCharacterCardFactory
    {
      match this
      case ContactCardFactory => ContactCardType
      case GotCharacterCardFactory => GotCharacterCardType
    }

    /** The default text of the display name (translation is not modelled). */
    function DisplayName(): string
    {
      match this
      case ContactCardFactory => "contact card"
      case GotCharacterCardFactory => "character card"
    }

    /** `isEditable()`. */
    predicate IsEditable()
    {
      true
    }

    /** `getDefaultLocation(lastName)`: the house seat, or a random one of the three locations. */
    function GetDefaultLocation(lastName: Option<string>, random: real): (r: string)
      requires 0.0 <= random < 1.0
      ensures lastName == Some("Stark") ==> r == Winterfell
      ensures lastName in {Some("Targaryen"), Some("Lannister")} ==> r == KingsLanding
      ensures r in {BeyondTheWall, KingsLanding, Winterfell}
    {
      match lastName
      case Some("Stark") => Winterfell
      case Some("Targaryen") => KingsLanding
      case Some("Lannister") => KingsLanding
      case _ => RandomlyChoose(Locations, random).value
    }

    /** `getDefaultMood(lastName)`: the house mood, or a random one of four moods. */
    function GetDefaultMood(lastName: Option<string>, random: real): (r: string)
      requires 0.0 <= random < 1.0
      ensures lastName == Some("Stark") ==> r == "cold"
      ensures lastName == Some("Targaryen") ==> r == "hot"
      ensures lastName == Some("Lannister") ==> r == "rich"
      ensures lastName !in {Some("Stark"), Some("Targaryen"), Some("Lannister")} ==>
        r in {"bored", "happy", "sad", "vengeful"}
    {
      match lastName
      case Some("Stark") => "cold"
      case Some("Targaryen") => "hot"
      case Some("Lannister") => "rich"
      case _ => RandomlyChoose(Moods, random).value
    }

    /** `getDefaultInput(partial)`: alive, with the default mood and location of the surname.
        The mood is drawn before the location, so it takes the first random draw. */
    function GetDefaultInput(partial: CardInput, moodRandom: real, locationRandom: real): (r: CardInput)
      requires 0.0 <= moodRandom < 1.0 && 0.0 <= locationRandom < 1.0
      ensures r.isAlive == Some(true)
      ensures r.mood == Some(GetDefaultMood(partial.lastName, moodRandom))
      ensures r.location == Some(GetDefaultLocation(partial.lastName, locationRandom))
      ensures r.location.value in {BeyondTheWall, KingsLanding, Winterfell}
      ensures r.firstName.None? && r.lastName.None? && r.nameTitle.None?
    {
      NoChanges.(isAlive := Some(true),
                 mood := Some(GetDefaultMood(partial.lastName, moodRandom)),
                 location := Some(GetDefaultLocation(partial.lastName, locationRandom)))
    }

    /** `create(initialInput)`: a new card of this factory's type. */
    method Create(initialInput: CardInput) returns (card: CardEmbeddable)
      ensures fresh(card) && card.Valid() && card.subscribed
      ensures card.Type() == Type()
      ensures card.input == initialInput && card.output.originalLastName == initialInput.lastName
    {
      if this == ContactCardFactory {
        card := new CardEmbeddable.ContactCard(initialInput);
      } else {
        card := new CardEmbeddable.GotCharacterCard(initialInput);
      }
    }
  }

  /** The defaults look at nothing in the partial input but its surname, and both factories
      give the same defaults. */
  lemma DefaultInputOnlyFromLastName(f: Factory, g: Factory, p: CardInput, q: CardInput, moodRandom: real, locationRandom: real)
    requires 0.0 <= moodRandom < 1.0 && 0.0 <= locationRandom < 1.0
    requires p.lastName == q.lastName
    ensures f.GetDefaultInput(p, moodRandom, locationRandom) == g.GetDefaultInput(q, moodRandom, locationRandom)
  {
  }

  /** The known houses' defaults need no random draw: every draw gives the same answer. */
  lemma HouseDefaultsAreFixed(f: Factory, lastName: Option<string>, a: real, b: real)
    requires 0.0 <= a < 1.0 && 0.0 <= b < 1.0
    requires lastName in {Some("Stark"), Some("Targaryen"), Some("Lannister")}
    ensures f.GetDefaultLocation(lastName, a) == f.GetDefaultLocation(lastName, b)
    ensures f.GetDefaultMood(lastName, a) == f.GetDefaultMood(lastName, b)
  {
  }
}
