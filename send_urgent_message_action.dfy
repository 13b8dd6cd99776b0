/** The send-urgent-message action: ask for a message in a modal, then shout it in a flyout. */
module SendUrgentMessageAction {
  import opened Wrappers
  import opened Text
  import opened Cards
  import opened Overlays

  const SendUrgentMessageActionId := "SEND_URGENT_MESSAGE_ACTION"

  function DisplayName(): string { "Send urgent message" }

  /** `isCompatible`: only character cards. */
  predicate IsCompatible(card: CardEmbeddable)
    ensures IsCompatible(card) <==> card.kind == GotCharacter
  {
    card.Type() == GotCharacterCardType
  }

  const HelpPrefix := "HELP "
  const Alarm := "!!!!! !!! IMPORTANT!!! READ ME NOW!!"

  /** The header: the full name upper-cased between "HELP " and the alarm. It holds no
      lower-case letter. Upper-casing an absent full name throws. */
  function Greeting(fullName: Option<string>): (r: Result<string>)
    ensures fullName.None? <==> r == Throws(TypeError)
    ensures r.Ok? <==> fullName.Some?
    ensures r.Ok? ==> r.value == HelpPrefix + Upper(fullName.value) + Alarm
    ensures r.Ok? ==> |r.value| == |HelpPrefix| + |fullName.value| + |Alarm|
    ensures r.Ok? ==> r.value[|HelpPrefix|..|HelpPrefix| + |fullName.value|] == Upper(fullName.value)
    ensures r.Ok? ==> forall i :: 0 <= i < |r.value| ==> !('a' <= r.value[i] <= 'z')
  {
    match fullName
    case None => Throws(TypeError)
    case Some(name) =>
      var upper := Upper(name);
      assert (HelpPrefix + upper + Alarm)[|HelpPrefix|..|HelpPrefix| + |name|] == upper;
      ShoutedHasNoLowerCase(upper);
      Ok(HelpPrefix + upper + Alarm)
  }

  /** Framing an upper-cased text with the prefix and the alarm adds no lower-case letter. */
  lemma ShoutedHasNoLowerCase(upper: string)
    requires forall i :: 0 <= i < |upper| ==> !('a' <= upper[i] <= 'z')
    ensures forall i :: 0 <= i < |HelpPrefix + upper + Alarm| ==> !('a' <= (HelpPrefix + upper + Alarm)[i] <= 'z')
  {
    var shouted := HelpPrefix + upper + Alarm;
    forall i | 0 <= i < |shouted|
      ensures !('a' <= shouted[i] <= 'z')
    {
      if i < |HelpPrefix| {
        assert shouted[i] == HelpPrefix[i];
      } else if i < |HelpPrefix| + |upper| {
        assert shouted[i] == upper[i - |HelpPrefix|];
      } else {
        assert shouted[i] == Alarm[i - |HelpPrefix| - |upper|];
      }
    }
  }

  /** The body: the message upper-cased, character by character. */
  function Body(message: string): (r: string)
    ensures |r| == |message|
    ensures forall i :: 0 <= i < |r| ==> r[i] == UpperChar(message[i])
    ensures forall i :: 0 <= i < |r| ==> !('a' <= r[i] <= 'z')
  {
    Upper(message)
  }

  /** Upper-casing loses the case of the message: a message and its upper-cased form show the
      same body, so messages that differ only in the case of ASCII letters read the same. */
  lemma BodyLosesCase(message: string)
    ensures Body(message) == Body(Upper(message))
  {
    UpperIdempotent(message);
  }

  /** `execute`: on an incompatible embeddable it throws before any modal opens. Otherwise the
      modal opens; cancelling sends nothing, and Done shows one red flyout. */
  method Execute(card: CardEmbeddable, outcome: ModalOutcome) returns (r: Result<Option<Flyout>>)
    ensures !IsCompatible(card) ==> r == Throws(IncompatibleActionError)
    ensures IsCompatible(card) && outcome.Cancel? ==> r == Ok(None)
    ensures IsCompatible(card) && outcome.Done? && card.output.fullName.None? ==> r == Throws(TypeError)
    ensures IsCompatible(card) && outcome.Done? && card.output.fullName.Some? ==>
      r == Ok(Some(Flyout(Some(Greeting(card.output.fullName).value), Some(Danger), Body(outcome.message))))
  {
    if !IsCompatible(card) {
      return Throws(IncompatibleActionError);
    }
    match outcome
    case Cancel =>
      r := Ok(None);
    case Done(message) =>
      var greeting := Greeting(card.output.fullName);
      if greeting.Throws? {
        return Throws(greeting.error);
      }
      r := Ok(Some(Flyout(Some(greeting.value), Some(Danger), Body(message))));
  }

  /** On a well-formed character card, Done always opens the flyout. */
  lemma ValidCardGetsGreeting(card: CardEmbeddable)
    requires card.Valid()
    ensures Greeting(card.output.fullName).Ok?
  {
  }
}
