/** The relocate action: move a character to a target location and let the destination decide
    the character's mood and fate. The source's `switch` has inner `default` branches that end
    without `break` or `return`, so control falls through into the next outer `case`.
    The values `Math.random()` returns are injected: `random(k)` is the value of the k-th call
    the run makes, and each call is compared with its site's threshold (0.2 Beyond the Wall,
    0.5 in Kings Landing, 0.8 in Winterfell). */
module RelocateAction {
  import opened Wrappers
  import opened Cards

  const RelocateActionId := "RELOCATE_ACTION"

  function DisplayName(): string { "Relocate" }

  /** `isCompatible`: only character cards. */
  predicate IsCompatible(card: CardEmbeddable)
    ensures IsCompatible(card) <==> card.kind == GotCharacter
  {
    card.Type() == GotCharacterCardType
  }

  /** How a relocation settles `isAlive`: kept, set, or the outcome of the `draw`-th
      comparison `Math.random() < threshold`. */
  datatype AliveEffect = KeepAlive | SetAlive(alive: bool) | DrawAlive(draw: nat, threshold: real)

  /** The net effect of a relocation: the mood it leaves (if it writes one), how `isAlive`
      ends, and the threshold `p` of every `Math.random() < p` comparison it makes, in order. */
  datatype Relocation = Relocation(mood: Option<string>, alive: AliveEffect, thresholds: seq<real>)

  /** The net effect of the switch, written as a table: a later `isAlive` write hides an earlier
      one, so the last comparison made is the one that decides. */
  function RelocationFor(lastName: Option<string>, target: string): (r: Relocation)
    ensures r.alive.DrawAlive? ==> r.alive.draw == |r.thresholds| - 1
    ensures |r.thresholds| <= 3
    ensures |r.thresholds| == 0 <==> !r.alive.DrawAlive?
  {
    if target == BeyondTheWall then
      if lastName == Some("Stark") then Relocation(Some("brave"), KeepAlive, [])
      else if lastName == Some("Targaryen") then Relocation(Some("worried"), KeepAlive, [])
      else if lastName == Some("Lannister") then Relocation(Some("cozy"), DrawAlive(0, 0.2), [0.2])
      else Relocation(Some("terrified"), DrawAlive(2, 0.8), [0.2, 0.5, 0.8])
    else if target == KingsLanding then
      if lastName == Some("Stark") then Relocation(Some("brave"), SetAlive(false), [])
      else if lastName == Some("Targaryen") then Relocation(Some("worried"), DrawAlive(0, 0.5), [0.5])
      else if lastName == Some("Lannister") then Relocation(Some("cozy"), KeepAlive, [])
      else Relocation(None, DrawAlive(1, 0.8), [0.5, 0.8])
    else if target == Winterfell then
      if lastName == Some("Stark") then Relocation(Some("happy"), KeepAlive, [])
      else if lastName == Some("Targaryen") then Relocation(Some("lonely"), KeepAlive, [])
      else Relocation(None, DrawAlive(0, 0.8), [0.8])
    else Relocation(None, KeepAlive, [])
  }

  /** The deciding comparison is the last one made. Every comparison is against one of the three
      sites' thresholds, and falling through only ever moves on to a later `case`, so the
      thresholds met strictly grow along the run. */
  lemma ThresholdsGrow(lastName: Option<string>, target: string)
    ensures var r := RelocationFor(lastName, target);
      r.alive.DrawAlive? ==> r.alive.threshold == r.thresholds[r.alive.draw]
    ensures var t := RelocationFor(lastName, target).thresholds;
      && (forall i :: 0 <= i < |t| ==> t[i] in {0.2, 0.5, 0.8})
      && (forall i, j :: 0 <= i < j < |t| ==> t[i] < t[j])
  {
  }

  /** The input after relocating to `target`, with `random(k)` the k-th `Math.random()` value. */
  function Relocated(input: CardInput, target: string, random: nat -> real): (r: CardInput)
    ensures r.location == Some(target)
    ensures r.firstName == input.firstName && r.lastName == input.lastName
    ensures r.nameTitle == input.nameTitle
  {
    var effect := RelocationFor(input.lastName, target);
    input.(location := Some(target),
           mood := if effect.mood.Some? then effect.mood else input.mood,
           isAlive := match effect.alive
                      case KeepAlive => input.isAlive
                      case SetAlive(b) => Some(b)
                      case DrawAlive(k, p) => Some(random(k) < p))
  }

  /** The state after a batch of updates made from the output `oldOutput`: the input is
      `input`, and the output, while subscribed, is `oldOutput` recomputed from it (only the
      latest recomputation is visible). */
  ghost predicate UpdatedTo(card: CardEmbeddable, oldOutput: CardOutput, input: CardInput)
    reads card
  {
    && card.Valid()
    && card.input == input
    && card.output == if card.subscribed then Recomputed(card.kind, oldOutput, input) else oldOutput
  }

  /** The body of `case BEYOND_THE_WALL`; `stop` when it returns, otherwise it falls through. */
  method BeyondTheWallCase(card: CardEmbeddable, ghost base: CardOutput, random: nat -> real, taken: nat)
    returns (stop: bool, taken': nat)
    requires UpdatedTo(card, base, card.input)
    modifies card
    ensures card.subscribed == old(card.subscribed)
    ensures var lastName := old(card.input.lastName);
      if lastName == Some("Stark") then
        stop && taken' == taken && UpdatedTo(card, base, old(card.input).(mood := Some("brave")))
      else if lastName == Some("Targaryen") then
        stop && taken' == taken && UpdatedTo(card, base, old(card.input).(mood := Some("worried")))
      else
        !stop && taken' == taken + 1
        && UpdatedTo(card, base, old(card.input).(mood := Some("terrified"), isAlive := Some(random(taken) < 0.2)))
  {
    var lastName := card.input.lastName;
    if lastName == Some("Stark") {
      card.UpdateInput(MoodChange("brave"));
      return true, taken;
    } else if lastName == Some("Targaryen") {
      card.UpdateInput(MoodChange("worried"));
      return true, taken;
    } else {
      card.UpdateInput(MoodChange("terrified"));
      card.UpdateInput(AliveChange(random(taken) < 0.2));
      return false, taken + 1;
    }
  }

  /** The body of `case KINGS_LANDING`; `stop` when it returns, otherwise it falls through. */
  method KingsLandingCase(card: CardEmbeddable, ghost base: CardOutput, random: nat -> real, taken: nat)
    returns (stop: bool, taken': nat)
    requires UpdatedTo(card, base, card.input)
    modifies card
    ensures card.subscribed == old(card.subscribed)
    ensures var lastName := old(card.input.lastName);
      if lastName == Some("Stark") then
        stop && taken' == taken
        && UpdatedTo(card, base, old(card.input).(mood := Some("brave"), isAlive := Some(false)))
      else if lastName == Some("Targaryen") then
        stop && taken' == taken + 1
        && UpdatedTo(card, base, old(card.input).(mood := Some("worried"), isAlive := Some(random(taken) < 0.5)))
      else if lastName == Some("Lannister") then
        stop && taken' == taken && UpdatedTo(card, base, old(card.input).(mood := Some("cozy")))
      else
        !stop && taken' == taken + 1
        && UpdatedTo(card, base, old(card.input).(isAlive := Some(random(taken) < 0.5)))
  {
    var lastName := card.input.lastName;
    if lastName == Some("Stark") {
      card.UpdateInput(MoodChange("brave"));
      card.UpdateInput(AliveChange(false));
      return true, taken;
    } else if lastName == Some("Targaryen") {
      card.UpdateInput(MoodChange("worried"));
      card.UpdateInput(AliveChange(random(taken) < 0.5));
      return true, taken + 1;
    } else if lastName == Some("Lannister") {
      card.UpdateInput(MoodChange("cozy"));
      return true, taken;
    } else {
      card.UpdateInput(AliveChange(random(taken) < 0.5));
      return false, taken + 1;
    }
  }

  /** The body of `case WINTERFELL`, the last case: nothing follows it. */
  method WinterfellCase(card: CardEmbeddable, ghost base: CardOutput, random: nat -> real, taken: nat)
    returns (taken': nat)
    requires UpdatedTo(card, base, card.input)
    modifies card
    ensures card.subscribed == old(card.subscribed)
    ensures var lastName := old(card.input.lastName);
      if lastName == Some("Stark") then
        taken' == taken && UpdatedTo(card, base, old(card.input).(mood := Some("happy")))
      else if lastName == Some("Targaryen") then
        taken' == taken && UpdatedTo(card, base, old(card.input).(mood := Some("lonely")))
      else
        taken' == taken + 1 && UpdatedTo(card, base, old(card.input).(isAlive := Some(random(taken) < 0.8)))
  {
    var lastName := card.input.lastName;
    if lastName == Some("Stark") {
      card.UpdateInput(MoodChange("happy"));
      return taken;
    } else if lastName == Some("Targaryen") {
      card.UpdateInput(MoodChange("lonely"));
      return taken;
    } else {
      card.UpdateInput(AliveChange(random(taken) < 0.8));
      return taken + 1;
    }
  }

  /** The `switch` on the target, entered with the card already moved there: it runs the
      matching `case` and every later one until a `return`, and gives the number of
      `Math.random()` calls made. */
  method Switch(card: CardEmbeddable, ghost base: CardOutput, target: string, random: nat -> real)
    returns (taken: nat)
    requires UpdatedTo(card, base, card.input) && card.input.location == Some(target)
    modifies card
    ensures card.subscribed == old(card.subscribed)
    ensures taken == |RelocationFor(old(card.input.lastName), target).thresholds|
    ensures UpdatedTo(card, base, Relocated(old(card.input), target, random))
  {
    ghost var input, lastName := card.input, card.input.lastName;
    ghost var unmatched := lastName !in {Some("Stark"), Some("Targaryen"), Some("Lannister")};
    var stop := false;
    taken := 0;
    // Set once a `case` has matched: from then on every later `case` body runs too.
    var fallingThrough := false;
    if target == BeyondTheWall {
      fallingThrough := true;
      stop, taken := BeyondTheWallCase(card, base, random, taken);
      if stop {
        return;
      }
    }
    // Falling through from Beyond the Wall: terrified after one comparison.
    assert fallingThrough ==>
      && target == BeyondTheWall && lastName != Some("Stark") && lastName != Some("Targaryen") && taken == 1
      && UpdatedTo(card, base, input.(mood := Some("terrified"), isAlive := Some(random(0) < 0.2)));
    assert !fallingThrough ==> target != BeyondTheWall && taken == 0 && UpdatedTo(card, base, input);
    if fallingThrough || target == KingsLanding {
      fallingThrough := true;
      stop, taken := KingsLandingCase(card, base, random, taken);
      if stop {
        return;
      }
    }
    // Falling through from Kings Landing: only an unmatched surname gets here.
    assert fallingThrough ==>
      && target in {BeyondTheWall, KingsLanding} && unmatched
      && taken == (if target == BeyondTheWall then 2 else 1)
      && UpdatedTo(card, base, input.(mood := if target == BeyondTheWall then Some("terrified") else input.mood,
                                      isAlive := Some(random(taken - 1) < 0.5)));
    assert !fallingThrough ==>
      target != BeyondTheWall && target != KingsLanding && taken == 0 && UpdatedTo(card, base, input);
    if fallingThrough || target == Winterfell {
      taken := WinterfellCase(card, base, random, taken);
    }
  }

  /** `execute`: without a trigger context it throws and changes nothing; otherwise it moves
      the card, runs the `switch`, and reports the number of `Math.random()` calls it made. It does not
      consult `isCompatible`. */
  method Execute(card: CardEmbeddable, targetLocation: Option<string>, random: nat -> real)
    returns (r: Result<nat>)
    requires card.Valid()
    modifies card
    ensures card.Valid() && card.subscribed == old(card.subscribed)
    ensures targetLocation.None? ==>
      r == Throws(IncompatibleActionError) && card.input == old(card.input) && card.output == old(card.output)
    ensures targetLocation.Some? ==>
      && r == Ok(|RelocationFor(old(card.input.lastName), targetLocation.value).thresholds|)
      && card.input == Relocated(old(card.input), targetLocation.value, random)
      && card.output == if card.subscribed then Recomputed(card.kind, old(card.output), card.input)
                        else old(card.output)
  {
    if targetLocation.None? {
      return Throws(IncompatibleActionError);
    }
    var target := targetLocation.value;
    ghost var base := card.output;
    ghost var before := card.input;
    card.UpdateInput(LocationChange(target));
    var taken := Switch(card, base, target, random);
    assert Relocated(before.(location := Some(target)), target, random) == Relocated(before, target, random);
    return Ok(taken);
  }

  /** A Stark sent to Kings Landing turns brave and dies, whatever the draws. */
  lemma StarkToKingsLanding(input: CardInput, random: nat -> real)
    requires input.lastName == Some("Stark")
    ensures RelocationFor(input.lastName, KingsLanding).thresholds == []
    ensures Relocated(input, KingsLanding, random).mood == Some("brave")
    ensures Relocated(input, KingsLanding, random).isAlive == Some(false)
  {
  }

  /** A Targaryen sent to Kings Landing turns worried and survives with chance 0.5. */
  lemma TargaryenToKingsLanding(input: CardInput, random: nat -> real)
    requires input.lastName == Some("Targaryen")
    ensures RelocationFor(input.lastName, KingsLanding).thresholds == [0.5]
    ensures Relocated(input, KingsLanding, random).mood == Some("worried")
    ensures Relocated(input, KingsLanding, random).isAlive == Some(random(0) < 0.5)
  {
  }

  /** Starks and Targaryens going Beyond the Wall or to Winterfell only change mood. */
  lemma GreatHousesOnlyChangeMood(input: CardInput, target: string, random: nat -> real)
    requires input.lastName in {Some("Stark"), Some("Targaryen")}
    requires target in {BeyondTheWall, Winterfell}
    ensures RelocationFor(input.lastName, target).thresholds == []
    ensures Relocated(input, target, random).isAlive == input.isAlive
    ensures Relocated(input, target, random).mood in
      {Some("brave"), Some("worried"), Some("happy"), Some("lonely")}
  {
  }

  /** Beyond the Wall, a Lannister falls through to the Kings Landing case and ends up cozy;
      the one comparison made, against 0.2, decides whether they live. */
  lemma LannisterBeyondTheWall(input: CardInput, random: nat -> real)
    requires input.lastName == Some("Lannister")
    ensures RelocationFor(input.lastName, BeyondTheWall).thresholds == [0.2]
    ensures Relocated(input, BeyondTheWall, random).mood == Some("cozy")
    ensures Relocated(input, BeyondTheWall, random).isAlive == Some(random(0) < 0.2)
  {
  }

  /** Beyond the Wall, any other surname falls through twice: terrified, three comparisons
      (0.2, 0.5, 0.8), and the last, Winterfell's 0.8, decides. */
  lemma OthersBeyondTheWall(input: CardInput, random: nat -> real)
    requires input.lastName !in {Some("Stark"), Some("Targaryen"), Some("Lannister")}
    ensures RelocationFor(input.lastName, BeyondTheWall).thresholds == [0.2, 0.5, 0.8]
    ensures Relocated(input, BeyondTheWall, random).mood == Some("terrified")
    ensures Relocated(input, BeyondTheWall, random).isAlive == Some(random(2) < 0.8)
  {
  }

  /** An unmatched surname sent to Kings Landing keeps its mood; it falls through to
      Winterfell, so of the two comparisons (0.5, 0.8) the second decides. */
  lemma OthersToKingsLanding(input: CardInput, random: nat -> real)
    requires input.lastName !in {Some("Stark"), Some("Targaryen"), Some("Lannister")}
    ensures RelocationFor(input.lastName, KingsLanding).thresholds == [0.5, 0.8]
    ensures Relocated(input, KingsLanding, random).mood == input.mood
    ensures Relocated(input, KingsLanding, random).isAlive == Some(random(1) < 0.8)
  {
  }

  /** Anyone but a Stark or a Targaryen sent to Winterfell keeps the mood and survives with
      chance 0.8; a Lannister is no exception there. */
  lemma OthersToWinterfell(input: CardInput, random: nat -> real)
    requires input.lastName !in {Some("Stark"), Some("Targaryen")}
    ensures RelocationFor(input.lastName, Winterfell).thresholds == [0.8]
    ensures Relocated(input, Winterfell, random).mood == input.mood
    ensures Relocated(input, Winterfell, random).isAlive == Some(random(0) < 0.8)
  {
  }

  /** A target outside the three locations only moves the card. */
  lemma UnknownTargetOnlyMoves(input: CardInput, target: string, random: nat -> real)
    requires target !in {BeyondTheWall, KingsLanding, Winterfell}
    ensures RelocationFor(input.lastName, target).thresholds == []
    ensures Relocated(input, target, random) == input.(location := Some(target))
  {
  }

  /** The result depends on no `Math.random()` value beyond those the run asks for. */
  lemma OnlyTakenDrawsMatter(input: CardInput, target: string, r1: nat -> real, r2: nat -> real)
    requires forall k: nat :: k < |RelocationFor(input.lastName, target).thresholds| ==> r1(k) == r2(k)
    ensures Relocated(input, target, r1) == Relocated(input, target, r2)
  {
  }
}
