/** The say-hello action: greet the card by its full name through an injected callback.
    The callback calls are returned in order instead of being made. */
module SayHelloAction {
  import opened Wrappers
  import opened Cards

  const SayHelloActionId := "SAY_HELLO_ACTION"

  function DisplayName(): string { "Say hello" }

  /** `hasFullNameOutput`: the output carries a full name. */
  predicate HasFullNameOutput(output: CardOutput)
  {
    output.fullName.Some?
  }

  /** `isCompatible`: any embeddable whose output has a full name. */
  predicate IsCompatible(card: CardEmbeddable)
    reads card
  {
    HasFullNameOutput(card.output)
  }

  /** Every card is greetable: its output always holds a full name. */
  lemma CardsAreCompatible(card: CardEmbeddable)
    requires card.Valid()
    ensures IsCompatible(card)
  {
  }

  /** The text handed to the callback: the greeting, then the message after a full stop and two
      spaces when the trigger carries a non-empty one. An empty message counts as none. */
  function Hello(fullName: string, message: Option<string>): (r: string)
    ensures message.None? || message == Some("") ==> r == "Hello, " + fullName
    ensures message.Some? && message.value != "" ==> r == "Hello, " + fullName + ".  " + message.value
  {
    var greeting := "Hello, " + fullName;
    if message.Some? && message.value != "" then greeting + ".  " + message.value else greeting
  }

  /** Different non-empty messages to the same name give different texts: the message can be read
      back from the text, after the greeting and its four-character separator. */
  lemma {:induction false} HelloKeepsMessage(fullName: string, m1: string, m2: string)
    requires m1 != "" && m2 != ""
    requires Hello(fullName, Some(m1)) == Hello(fullName, Some(m2))
    ensures m1 == m2
  {
    var prefix := |"Hello, " + fullName + ".  "|;
    assert Hello(fullName, Some(m1))[prefix..] == m1;
    assert Hello(fullName, Some(m2))[prefix..] == m2;
  }

  /** `execute`: on an incompatible embeddable it throws before calling back; otherwise it calls
      the callback exactly once. `message` is the trigger context's `message`, absent when the
      trigger context or its message is. */
  method Execute(card: CardEmbeddable, message: Option<string>) returns (r: Result<seq<string>>)
    ensures r == Throws(IncompatibleActionError) <==> !IsCompatible(card)
    ensures IsCompatible(card) ==> r.Ok?
    ensures r.Ok? ==> |r.value| == 1 && r.value[0] == Hello(card.output.fullName.value, message)
  {
    if !IsCompatible(card) {
      return Throws(IncompatibleActionError);
    }
    var calls := [];
    var greeting := "Hello, " + card.output.fullName.value;
    if message.Some? && message.value != "" {
      calls := calls + [greeting + ".  " + message.value];
    } else {
      calls := calls + [greeting];
    }
    return Ok(calls);
  }
}
