/** What the actions show the user. The overlay service is not modelled: a modal's result is an
    input to the action, and a flyout is returned as a value. */
module Overlays {
  import opened Wrappers

  /** How the message modal was closed: cancelled, or done with the typed message. */
  datatype ModalOutcome = Cancel | Done(message: string)

  /** The colour of a call-out box. */
  datatype CalloutColor = Success | Danger

  /** An opened flyout: an optional header, and a body that sits in a call-out when it has a colour. */
  datatype Flyout = Flyout(header: Option<string>, callout: Option<CalloutColor>, body: string)
}
