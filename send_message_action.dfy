/** The send-message action: ask for a message in a modal, then show it in a flyout. */
module SendMessageAction {
  import opened Wrappers
  import opened Text
  import opened Cards
  import opened Overlays

  const SendMessageActionId := "SEND_MESSAGE_ACTION"

  function DisplayName(): string { "Send message" }

  /** `isCompatible`: only contact cards. */
  predicate IsCompatible(card: CardEmbeddable)
    ensures IsCompatible(card) <==> card.kind == Contact
  {
    card.Type() == ContactCardType
  }

  /** The content `sendMessage` shows: the greeting, then the message after a full stop and one
      space when the message is non-empty. An absent full name prints as "undefined". */
  function Content(fullName: Option<string>, message: string): (r: string)
    ensures message == "" ==> r == "Hello, " + Show(fullName)
    ensures message != "" ==> r == "Hello, " + Show(fullName) + ". " + message
  {
    var greeting := "Hello, " + Show(fullName);
    if message != "" then greeting + ". " + message else greeting
  }

  /** Two non-empty messages to the same name give the same content only if they are equal. */
  lemma {:induction false} ContentKeepsMessage(fullName: Option<string>, m1: string, m2: string)
    requires m1 != "" && m2 != ""
    requires Content(fullName, m1) == Content(fullName, m2)
    ensures m1 == m2
  {
    var prefix := |"Hello, " + Show(fullName) + ". "|;
    assert Content(fullName, m1)[prefix..] == m1;
    assert Content(fullName, m2)[prefix..] == m2;
  }

  /** `execute`: on an incompatible embeddable it throws before any modal opens. Otherwise the
      modal opens; cancelling sends nothing, and Done sends exactly one flyout with the message. */
  method Execute(card: CardEmbeddable, outcome: ModalOutcome) returns (r: Result<Option<Flyout>>)
    ensures r == Throws(IncompatibleActionError) <==> !IsCompatible(card)
    ensures IsCompatible(card) ==> r.Ok?
    ensures r.Ok? && outcome.Cancel? ==> r.value.None?
    ensures r.Ok? && outcome.Done? ==>
      r.value == Some(Flyout(None, None, Content(card.output.fullName, outcome.message)))
  {
    if !IsCompatible(card) {
      return Throws(IncompatibleActionError);
    }
    match outcome
    case Cancel =>
      r := Ok(None);
    case Done(message) =>
      r := Ok(Some(Flyout(None, None, Content(card.output.fullName, message))));
  }
}
