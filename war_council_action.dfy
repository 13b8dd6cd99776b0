/** The war council action: advise for or against a journey, and show the advice in a flyout. */
module WarCouncilAction {
  import opened Wrappers
  import opened Cards
  import opened Overlays

  const WarCouncilActionId := "WAR_COUNCIL_ACTION"

  function DisplayName(): string { "Consult war council" }

  /** `isCompatible`: only contact cards. */
  predicate IsCompatible(card: CardEmbeddable)
    ensures IsCompatible(card) <==> card.kind == Contact
  {
    card.Type() == ContactCardType
  }

  /** A recommendation and its reason. */
  datatype Advice = Advice(recommended: bool, reason: string)

  /** `getAdvice`: the recommendation for travelling from the card's location to the target.
      Outside the three known locations there is no advice (the function returns `undefined`). */
  function GetAdvice(input: CardInput, targetLocation: Option<string>): (r: Option<Advice>)
    ensures targetLocation.None? ==> r.Some? && !r.value.recommended
    ensures targetLocation == Some(BeyondTheWall) ==> r.Some? && !r.value.recommended
    ensures targetLocation == Some(KingsLanding) ==>
      r.Some? && (r.value.recommended <==> input.lastName != Some("Stark"))
    ensures targetLocation == Some(Winterfell) ==>
      r.Some? && (r.value.recommended <==> input.lastName != Some("Lannister"))
    ensures r.None? <==>
      targetLocation.Some? && targetLocation.value !in {BeyondTheWall, KingsLanding, Winterfell}
  {
    if targetLocation.None? then
      Some(Advice(false, "Going somewhere, not nowhere."))
    else
      var currentLocation, target, lastName := input.location, targetLocation.value, input.lastName;
      if currentLocation == Some(target) && lastName == Some("Stark") && currentLocation == Some(KingsLanding) then
        Some(Advice(false, "Kings landing is dangerous for Starks! Get out, do not stay."))
      else if currentLocation == Some(target) && currentLocation == Some(BeyondTheWall) then
        Some(Advice(false, "Do not stay here, get out now!"))
      else if target == BeyondTheWall then
        Some(Advice(false, "It is too dangerous, many will die and join the Night Kings army!"))
      else if target == KingsLanding then
        if lastName == Some("Stark") then Some(Advice(false, "Death is almost certain"))
        else Some(Advice(true, "Cersei must be destroyed! Good luck!"))
      else if target == Winterfell then
        if lastName == Some("Lannister") then Some(Advice(false, "The north remembers"))
        else Some(Advice(true, "Safe for most."))
      else None
  }

  const MayTravel := "Recommendation: You may travel to "
  const StayAway := "Recommendation: Stay away from "

  /** The flyout header. The two wordings never coincide, so the header tells the advice apart. */
  function Header(recommended: bool, location: string): (r: string)
    ensures recommended <==> r == MayTravel + location
    ensures !recommended <==> r == StayAway + location
  {
    var differ := |"Recommendation: "|;
    assert MayTravel[differ] == 'Y' && StayAway[differ] == 'S';
    assert (MayTravel + location)[differ] == MayTravel[differ];
    assert (StayAway + location)[differ] == StayAway[differ];
    if recommended then MayTravel + location else StayAway + location
  }

  /** `execute`: nothing without a trigger context or without advice; otherwise a flyout with
      the header, and the reason in a green (recommended) or red call-out. */
  method Execute(card: CardEmbeddable, targetLocation: Option<string>) returns (flyout: Option<Flyout>)
    ensures targetLocation.None? ==> flyout.None?
    ensures targetLocation.Some? && targetLocation.value !in {BeyondTheWall, KingsLanding, Winterfell} ==>
      flyout.None?
    ensures flyout.Some? <==>
      targetLocation.Some? && targetLocation.value in {BeyondTheWall, KingsLanding, Winterfell}
    ensures flyout.Some? ==>
      var advice := GetAdvice(card.input, targetLocation).value;
      && flyout.value.header == Some(Header(advice.recommended, targetLocation.value))
      && flyout.value.callout == Some(if advice.recommended then Success else Danger)
      && flyout.value.body == advice.reason
  {
    if targetLocation.None? {
      return None;
    }
    var advice := GetAdvice(card.input, targetLocation);
    var location := targetLocation.value;
    if advice.Some? {
      var color := if advice.value.recommended then Success else Danger;
      flyout := Some(Flyout(Some(Header(advice.value.recommended, location)), Some(color), advice.value.reason));
    } else {
      flyout := None;
    }
  }

  /** Staying put: a card already in Kings Landing is told to leave with the Stark warning only
      when it is a Stark, and anyone else gets the ordinary Kings Landing advice; a card already
      Beyond the Wall is told to leave, with its own reason. */
  lemma StayingPut(input: CardInput)
    ensures input.location == Some(KingsLanding) ==>
      GetAdvice(input, Some(KingsLanding)) ==
        if input.lastName == Some("Stark")
        then Some(Advice(false, "Kings landing is dangerous for Starks! Get out, do not stay."))
        else Some(Advice(true, "Cersei must be destroyed! Good luck!"))
    ensures input.location == Some(BeyondTheWall) ==>
      GetAdvice(input, Some(BeyondTheWall)) == Some(Advice(false, "Do not stay here, get out now!"))
  {
  }

  /** The advice does not depend on the current location except for staying put, and staying
      put changes nothing but the reason. */
  lemma CurrentLocationOnlyChangesReason(input: CardInput, location: Option<string>, target: string)
    ensures GetAdvice(input.(location := location), Some(target)).Some? == GetAdvice(input, Some(target)).Some?
    ensures GetAdvice(input, Some(target)).Some? ==>
      GetAdvice(input.(location := location), Some(target)).value.recommended
        == GetAdvice(input, Some(target)).value.recommended
  {
  }
}
