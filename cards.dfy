/** The two card embeddables: the contact card and the Game of Thrones character card.
    Their input is a mutable JavaScript object that partial updates are merged into; their
    output holds fields derived from the input and is recomputed on every input change while
    the card is subscribed to its own input stream. */
module Cards {
  import opened Wrappers
  import opened Text

  // The values of the `Location` string enum.
  const KingsLanding := "Kings Landing"
  const Winterfell := "Winterfell"
  const BeyondTheWall := "Beyond the Wall"

  // The embeddable type identifiers.
  const ContactCardType := "CONTACT_CARD_EMBEDDABLE"
  const GotCharacterCardType := "GOT_CHARACTER_CARD_EMBEDDABLE"

  // The sigil image URLs, as opaque constants.
  const StarkSigil := "https://source.unsplash.com/uDpDycSH2r4/400x100"
  const LannisterSigil := "https://source.unsplash.com/lbuXprjhtc4/400x100"
  const TargaryenSigil := "https://source.unsplash.com/MYjFOiVWWT8/400x100"
  const BaratheonSigil := "https://source.unsplash.com/KhyOccNSSrg/400x100"
  const MockingbirdSigil := "https://source.unsplash.com/400x100/?Mockingbird"
  const AnimalSigil := "https://source.unsplash.com/400x100/?Animal"

  /** The card input. Every key may be absent at run time, so every field is optional.
      The same shape serves as a partial update (`Partial<Input>`): a present field overwrites. */
  datatype CardInput = CardInput(
    firstName: Option<string>,
    lastName: Option<string>,
    nameTitle: Option<string>,
    isAlive: Option<bool>,
    mood: Option<string>,
    location: Option<string>)

  /** The card output: derived fields, plus the title the input-change callback writes. */
  datatype CardOutput = CardOutput(
    fullName: Option<string>,
    sigilImageUrl: Option<string>,
    originalLastName: Option<string>,
    title: Option<string>)

  /** An update that changes nothing. */
  const NoChanges := CardInput(None, None, None, None, None, None)

  function MoodChange(mood: string): CardInput { NoChanges.(mood := Some(mood)) }
  function AliveChange(isAlive: bool): CardInput { NoChanges.(isAlive := Some(isAlive)) }
  function LocationChange(location: string): CardInput { NoChanges.(location := Some(location)) }
  function TitleChange(nameTitle: string): CardInput { NoChanges.(nameTitle := Some(nameTitle)) }

  function Override<T>(current: Option<T>, change: Option<T>): Option<T>
  {
    if change.Some? then change else current
  }

  /** `{ ...input, ...changes }`: the framework's merge of a partial update. */
  function Merge(input: CardInput, changes: CardInput): CardInput
  {
    CardInput(
      Override(input.firstName, changes.firstName),
      Override(input.lastName, changes.lastName),
      Override(input.nameTitle, changes.nameTitle),
      Override(input.isAlive, changes.isAlive),
      Override(input.mood, changes.mood),
      Override(input.location, changes.location))
  }

  /** Merging the empty update is the identity. */
  lemma MergeNoChanges(input: CardInput)
    ensures Merge(input, NoChanges) == input
  {
  }

  /** Two updates in a row are one update with the later values winning. */
  lemma MergeCompose(input: CardInput, first: CardInput, second: CardInput)
    ensures Merge(Merge(input, first), second) == Merge(input, Merge(first, second))
  {
  }

  /** The name parts `[nameTitle, firstName, lastName]`, defined ones only, joined by spaces. */
  function FullName(input: CardInput): string
  {
    Join(Defined([input.nameTitle, input.firstName, input.lastName]), " ")
  }

  /** The name parts split one by one: each part contributes itself when defined, nothing otherwise. */
  lemma NamePartsDefined(input: CardInput)
    ensures Defined([input.nameTitle, input.firstName, input.lastName])
         == Defined([input.nameTitle]) + Defined([input.firstName]) + Defined([input.lastName])
  {
    var title, first, last := [input.nameTitle], [input.firstName], [input.lastName];
    assert [input.nameTitle, input.firstName, input.lastName] == title + first + last;
    DefinedAppend(title + first, last);
    DefinedAppend(title, first);
  }

  /** Without a title, a first and a last name are joined by one space. */
  lemma FullNameFirstLast(input: CardInput)
    requires input.nameTitle.None? && input.firstName.Some? && input.lastName.Some?
    ensures FullName(input) == input.firstName.value + " " + input.lastName.value
  {
    NamePartsDefined(input);
    DefinedSingleton(None);
    DefinedSingleton(input.firstName);
    DefinedSingleton(input.lastName);
    JoinCons(input.firstName.value, [input.lastName.value], " ");
  }

  /** With first and last name defined, the full name spells out as title, first, last.
      Only an absent title is dropped: an empty-string title still adds its separator. */
  lemma FullNameSpelledOut(input: CardInput)
    requires input.firstName.Some? && input.lastName.Some?
    ensures input.nameTitle.None? ==>
      FullName(input) == input.firstName.value + " " + input.lastName.value
    ensures input.nameTitle.Some? ==>
      FullName(input) == input.nameTitle.value + " " + input.firstName.value + " " + input.lastName.value
  {
    var untitled := input.(nameTitle := None);
    FullNameFirstLast(untitled);
    if input.nameTitle.Some? {
      var title := input.nameTitle.value;
      FullNameWithTitle(input, title);
      assert input == input.(nameTitle := Some(title));
      assert title + " " + (input.firstName.value + " " + input.lastName.value)
          == title + " " + input.firstName.value + " " + input.lastName.value;
    } else {
      assert input == untitled;
    }
  }

  /** A name of one defined part is that part; no parts gives the empty name. */
  lemma FullNameFewParts(input: CardInput)
    ensures input.nameTitle.None? && input.firstName.None? ==>
      FullName(input) == (if input.lastName.Some? then input.lastName.value else "")
    ensures input.nameTitle.None? && input.lastName.None? ==>
      FullName(input) == (if input.firstName.Some? then input.firstName.value else "")
  {
    NamePartsDefined(input);
    DefinedSingleton(input.nameTitle);
    DefinedSingleton(input.firstName);
    DefinedSingleton(input.lastName);
  }

  /** A title with neither first nor last name is the whole name, with no separator. */
  lemma FullNameTitleOnly(input: CardInput)
    requires input.nameTitle.Some? && input.firstName.None? && input.lastName.None?
    ensures FullName(input) == input.nameTitle.value
  {
    NamePartsDefined(input);
    DefinedSingleton(input.nameTitle);
    DefinedSingleton(None);
  }

  /** A title goes in front of the rest of the name, separated by one space, as long as there is
      a first or last name to follow it. */
  lemma FullNameWithTitle(input: CardInput, title: string)
    requires input.firstName.Some? || input.lastName.Some?
    ensures FullName(input.(nameTitle := Some(title))) == title + " " + FullName(input.(nameTitle := None))
  {
    var titled, untitled := input.(nameTitle := Some(title)), input.(nameTitle := None);
    var rest := Defined([input.firstName]) + Defined([input.lastName]);
    NamePartsDefined(titled);
    NamePartsDefined(untitled);
    DefinedSingleton(Some(title));
    DefinedSingleton(None);
    DefinedSingleton(input.firstName);
    DefinedSingleton(input.lastName);
    JoinCons(title, rest, " ");
  }

  /** The two cards of the plugin. */
  datatype CardKind = Contact | GotCharacter

  /** The embeddable `type` of each card. */
  function TypeOf(kind: CardKind): (t: string)
    ensures t == ContactCardType <==> kind == Contact
    ensures t == GotCharacterCardType <==> kind == GotCharacter
  {
    match kind
    case Contact => ContactCardType
    case GotCharacter => GotCharacterCardType
  }

  /** `getSigilImageUrl`: a house sigil for the known surnames, a card-specific default otherwise. */
  function SigilImageUrl(kind: CardKind, lastName: Option<string>): string
  {
    match lastName
    case Some("Stark") => StarkSigil
    case Some("Snow") => StarkSigil
    case Some("Lannister") => LannisterSigil
    case Some("Targaryen") => TargaryenSigil
    case Some("Baratheon") => BaratheonSigil
    case _ => if kind == Contact then MockingbirdSigil else AnimalSigil
  }

  predicate IsHouse(lastName: Option<string>)
  {
    lastName in {Some("Stark"), Some("Snow"), Some("Lannister"), Some("Targaryen"), Some("Baratheon")}
  }

  /** The contact card's sigil table: Stark and Snow share one sigil, the other three houses
      each have their own, every other (or absent) surname gets the Mockingbird image. */
  lemma ContactSigilTable(lastName: Option<string>)
    ensures SigilImageUrl(Contact, lastName) == StarkSigil <==> lastName in {Some("Stark"), Some("Snow")}
    ensures SigilImageUrl(Contact, lastName) == LannisterSigil <==> lastName == Some("Lannister")
    ensures SigilImageUrl(Contact, lastName) == TargaryenSigil <==> lastName == Some("Targaryen")
    ensures SigilImageUrl(Contact, lastName) == BaratheonSigil <==> lastName == Some("Baratheon")
    ensures SigilImageUrl(Contact, lastName) == MockingbirdSigil <==> !IsHouse(lastName)
  {
  }

  /** The character card uses the same table except that its default is the Animal image. */
  lemma GotSigilTable(lastName: Option<string>)
    ensures IsHouse(lastName) ==> SigilImageUrl(GotCharacter, lastName) == SigilImageUrl(Contact, lastName)
    ensures !IsHouse(lastName) <==> SigilImageUrl(GotCharacter, lastName) == AnimalSigil
  {
  }

  /** The output passed to the base constructor: no title yet. */
  function InitialOutput(kind: CardKind, input: CardInput): CardOutput
  {
    CardOutput(Some(FullName(input)), Some(SigilImageUrl(kind, input.lastName)), input.lastName, None)
  }

  /** The input-change callback's `updateOutput({ fullName, sigilImageUrl, title })`. */
  function Recomputed(kind: CardKind, output: CardOutput, input: CardInput): CardOutput
  {
    var fullName := FullName(input);
    output.(fullName := Some(fullName), sigilImageUrl := Some(SigilImageUrl(kind, input.lastName)),
            title := Some("Hello " + fullName))
  }

  /** Only the latest recomputation is visible, and it never touches `originalLastName`. */
  lemma RecomputedLatestWins(kind: CardKind, output: CardOutput, a: CardInput, b: CardInput)
    ensures Recomputed(kind, Recomputed(kind, output, a), b) == Recomputed(kind, output, b)
    ensures Recomputed(kind, output, a).originalLastName == output.originalLastName
  {
  }

  /** A card embeddable. `subscribed` stands for the subscription to the input stream. */
  class CardEmbeddable {
    const kind: CardKind
    var input: CardInput
    var output: CardOutput
    var subscribed: bool

    /** Outputs are always derived; while subscribed they agree with the current input. */
    ghost predicate Valid()
      reads this
    {
      && output.fullName.Some?
      && output.sigilImageUrl.Some?
      && (subscribed ==>
            && output.fullName == Some(FullName(input))
            && output.sigilImageUrl == Some(SigilImageUrl(kind, input.lastName))
            && (output.title.Some? ==> output.title == Some("Hello " + FullName(input))))
    }

    /** The embeddable `type` the actions test. */
    function Type(): string
    {
      TypeOf(kind)
    }

    /** `new ContactCardEmbeddable(initialInput)`. */
    constructor ContactCard(initialInput: CardInput)
      ensures Valid() && subscribed
      ensures kind == Contact && Type() == ContactCardType
      ensures input == initialInput
      ensures output == InitialOutput(Contact, initialInput)
      ensures output.originalLastName == initialInput.lastName && output.title.None?
    {
      kind := Contact;
      input := initialInput;
      output := InitialOutput(Contact, initialInput);
      subscribed := true;
    }

    /** `new GotCharacterCardEmbeddable(initialInput)`. */
    constructor GotCharacterCard(initialInput: CardInput)
      ensures Valid() && subscribed
      ensures kind == GotCharacter && Type() == GotCharacterCardType
      ensures input == initialInput
      ensures output == InitialOutput(GotCharacter, initialInput)
      ensures output.originalLastName == initialInput.lastName && output.title.None?
    {
      kind := GotCharacter;
      input := initialInput;
      output := InitialOutput(GotCharacter, initialInput);
      subscribed := true;
    }

    /** `updateInput(changes)`: merge, then, while subscribed, run the input-change callback. */
    method UpdateInput(changes: CardInput)
      requires Valid()
      modifies this
      ensures Valid()
      ensures input == Merge(old(input), changes)
      ensures subscribed == old(subscribed)
      ensures output == if subscribed then Recomputed(kind, old(output), input) else old(output)
      ensures output.originalLastName == old(output.originalLastName)
      ensures subscribed ==> output.title == Some("Hello " + FullName(input))
    {
      input := Merge(input, changes);
      if subscribed {
        output := Recomputed(kind, output, input);
      }
    }

    /** `destroy()`: unsubscribe; input and output stay as they are. */
    method Destroy()
      requires Valid()
      modifies this
      ensures Valid() && !subscribed
      ensures input == old(input) && output == old(output)
    {
      subscribed := false;
    }
  }

  /** Once destroyed, updates still reach the input but the output is frozen. */
  method UpdateAfterDestroy(card: CardEmbeddable, changes: CardInput)
    requires card.Valid()
    modifies card
    ensures card.input == Merge(old(card.input), changes)
    ensures card.output == old(card.output)
  {
    card.Destroy();
    card.UpdateInput(changes);
  }
}
