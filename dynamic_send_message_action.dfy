/** The dynamic send-message action: one class, two registered instances. The emergency one
    shouts the greeting and keeps the message as typed; the status update greets politely and
    upper-cases the message. */
module DynamicSendMessage {
  import opened Wrappers
  import opened Text
  import opened Cards
  import opened Overlays
  import SendUrgentMessageAction

  /** An action instance: `isEmergency` and `id` are fixed by its constructor. */
  datatype DynamicSendMessageAction = DynamicSendMessageAction(isEmergency: bool, id: string)
  {
    /** The display name. */
    function DisplayName(): (r: string)
      ensures r == "Send urgent message via dragon" <==> isEmergency
      ensures r == "Send status update via raven" <==> !isEmergency
    {
      if isEmergency then "Send urgent message via dragon" else "Send status update via raven"
    }

    /** `isCompatible`: only contact cards. */
    predicate IsCompatible(card: CardEmbeddable)
      ensures IsCompatible(card) <==> card.kind == Contact
    {
      card.Type() == ContactCardType
    }

    /** The header: the shouted greeting in an emergency (which throws on an absent full name),
        otherwise "Dear " and the full name. */
    function Greeting(fullName: Option<string>): (r: Result<string>)
      ensures isEmergency ==> r == SendUrgentMessageAction.Greeting(fullName)
      ensures !isEmergency ==> r == Ok("Dear " + Show(fullName))
      ensures r.Ok? <==> !isEmergency || fullName.Some?
    {
      if isEmergency then
        match fullName
        case None => Throws(TypeError)
        case Some(name) => Ok("HELP " + Upper(name) + "!!!!! !!! IMPORTANT!!! READ ME NOW!!")
      else Ok("Dear " + Show(fullName))
    }

    /** The call-out text: the message as typed in an emergency, upper-cased otherwise. */
    function Body(message: string): (r: string)
      ensures |r| == |message|
      ensures isEmergency ==> r == message
      ensures !isEmergency ==> forall i :: 0 <= i < |r| ==> r[i] == UpperChar(message[i])
      ensures !isEmergency ==> forall i :: 0 <= i < |r| ==> !('a' <= r[i] <= 'z')
    {
      if isEmergency then message else Upper(message)
    }

    /** `execute`: on an incompatible embeddable it throws before any modal opens. Otherwise the
        modal opens; cancelling sends nothing, and Done shows one flyout, red in an emergency
        and green otherwise. */
    method Execute(card: CardEmbeddable, outcome: ModalOutcome) returns (r: Result<Option<Flyout>>)
      ensures !IsCompatible(card) ==> r == Throws(IncompatibleActionError)
      ensures IsCompatible(card) && outcome.Cancel? ==> r == Ok(None)
      ensures IsCompatible(card) && outcome.Done? ==>
        match Greeting(card.output.fullName)
        case Throws(e) => r == Throws(e)
        case Ok(greeting) =>
          r == Ok(Some(Flyout(Some(greeting), Some(if isEmergency then Danger else Success),
                              Body(outcome.message))))
    {
      if !IsCompatible(card) {
        return Throws(IncompatibleActionError);
      }
      match outcome
      case Cancel =>
        r := Ok(None);
      case Done(message) =>
        var greeting := Greeting(card.output.fullName);
        if greeting.Throws? {
          return Throws(greeting.error);
        }
        var color := if isEmergency then Danger else Success;
        r := Ok(Some(Flyout(Some(greeting.value), Some(color), Body(message))));
    }
  }

  /** The two registered instances. */
  const SendUrgentMessage := DynamicSendMessageAction(true, "sendUrgentMessage")
  const SendStatusUpdate := DynamicSendMessageAction(false, "sendStatusUpdate")

  /** The registered instances differ in id and in every visible text. */
  lemma RegisteredInstances(fullName: string)
    ensures SendUrgentMessage.id != SendStatusUpdate.id
    ensures SendUrgentMessage.DisplayName() != SendStatusUpdate.DisplayName()
    ensures SendUrgentMessage.Greeting(Some(fullName)) != SendStatusUpdate.Greeting(Some(fullName))
  {
    var urgent := SendUrgentMessage.Greeting(Some(fullName)).value;
    assert urgent[0] == 'H';
    assert SendStatusUpdate.Greeting(Some(fullName)).value[0] == 'D';
  }
}
