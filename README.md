# Game of Kibana actions, modelled in Dafny

A model of the sample embeddable plugin: two card widgets (the contact card and the Game of
Thrones character card), their factories, and the actions a user can run on a card — relocate,
consult the war council, ride a dragon, get knighted, say hello, and the three send-message
variants.

- **Cards** (`cards.dfy`). A card is a class with an input (first and last name, optional title,
  alive flag, mood, location), an output derived from it (full name, sigil URL, original last
  name, title) and a subscription flag. Both card kinds share one class; a `kind` constant picks
  the embeddable `type` and the default sigil. `UpdateInput` merges a partial update (present
  fields overwrite, the rest stay) and, while subscribed, recomputes the output from the new
  input. `Destroy` drops the subscription, after which the output no longer follows the input.
  Every input field is optional because the actions test fields for `undefined` at run time.
- **Factories** (`card_factory.dfy`). The default location and mood tables, `randomlyChoose`
  with the `Math.random()` value passed in as a real in [0, 1), and `getDefaultInput`.
- **Relocate** (`relocate_action.dfy`). `Execute` moves the card and runs `Switch`, which issues
  the `updateInput` calls of the source's `switch` in order, including its fall-through from one
  location `case` into the next. The values `Math.random()` returns are injected as
  `random: nat -> real`, indexed by call order, and each is compared with its site's threshold
  (0.2, 0.5 or 0.8) as in the source. The method is proved equal to a declarative table of net
  effects, `RelocationFor`, which also lists the thresholds met in order. The listed outcomes (a
  Lannister Beyond the Wall ends up cozy, alive exactly when the one value drawn is below 0.2,
  for one) are lemmas about that table.
- **War council** (`war_council_action.dfy`). The advice table and the flyout it opens, returned
  as a value.
- **Ride dragon, get knighted** (`ride_dragon_action.dfy`, `get_knighted_action.dfy`). One
  update each, proved idempotent.
- **Messages** (`say_hello_action.dfy`, `send_message_action.dfy`,
  `dynamic_send_message_action.dfy`, `send_urgent_message_action.dfy`). The compatibility gate
  throws `IncompatibleActionError`. Otherwise the modal's outcome (`Cancel` or `Done(message)`) is
  an input, and the opened flyout (or the say-hello callback's arguments) is the result.
- **Shared values** (`text.dfy`, `overlays.dfy`). Optional values, thrown errors, and JavaScript's
  `filter`, `join` and ASCII `toUpperCase`. Also the modal outcome and flyout values.

Assumptions about the framework base class, which is not part of this model:
- `updateInput(changes)` sets the input to `{...input, ...changes}`.
- It then notifies the input subscription synchronously, once per call.
- Subscribing does not replay the current input, so a new card's output has no `title` yet.
- The contact card's `type` is the name it passes to the base constructor.
- The contact-card factory declares no `type` field; its `type` is assumed to be the `name` it
  passes to the base factory constructor, as the character factory's explicit `type` is.
- Both base-constructor calls set the input and the output the same way: the contact card's
  `super(type, initialInput, output, parent)` and the character card's
  `super(initialInput, output, parent)`, which passes no type.
- `super.destroy()` does not stop later `updateInput` calls from merging into the input.
- `CONTACT_CARD_EMBEDDABLE`, as imported by the send-message action, is the same string
  `'CONTACT_CARD_EMBEDDABLE'`. It comes from `slow_contact_card_embeddable_factory`, which is not
  part of this model.

On relocation, an unmatched surname makes one to three `Math.random()` calls, because control
falls through the outer `case`s; the last call made decides `isAlive`.

After `destroy` the card's subscription is gone, so, under the `super.destroy()` assumption
above, later updates still reach the input while the output stays frozen.

## Model

| member | source | states |
|---|---|---|
| `Text.Defined` | public/embeddables/contact_card/contact_card_embeddable.tsx:49 | the filtered name parts are exactly the defined ones, and never more than the parts given |
| `Text.DefinedAppend` | public/embeddables/contact_card/contact_card_embeddable.tsx:49 | filtering distributes over concatenation, so the defined parts keep their order |
| `Text.DefinedSingleton` | public/embeddables/contact_card/contact_card_embeddable.tsx:49 | filtering a single part keeps it exactly when it is defined |
| `Text.JoinCons` | public/embeddables/contact_card/contact_card_embeddable.tsx:50 | `join` puts one separator after a first part that has others after it |
| `Text.Show` | public/actions/send_message_action.tsx:51 | no contract of its own: a template literal prints an absent value as "undefined"; used by `SendMessageAction.Content` |
| `Text.Join` | public/embeddables/contact_card/contact_card_embeddable.tsx:50 | no contract of its own: `join` with one separator between neighbours; characterised by `Text.JoinCons` and the full-name lemmas |
| `Text.UpperIdempotent` | public/actions/send_urgent_message_action.tsx:59 | upper-casing an upper-cased text changes nothing |
| `Text.Upper` | public/actions/send_urgent_message_action.tsx:53 | upper-casing keeps the length, maps each character, and leaves no lower-case ASCII letter |
| `Cards.FullName` | public/embeddables/contact_card/contact_card_embeddable.tsx:47-51 | no contract of its own: the defined name parts joined by single spaces; characterised by the `Cards.FullName…` lemmas below |
| `Cards.NamePartsDefined` | public/embeddables/contact_card/contact_card_embeddable.tsx:48-49 | each of title, first name and last name contributes itself when defined and nothing otherwise, in that order |
| `Cards.FullNameFirstLast` | public/embeddables/contact_card/contact_card_embeddable.tsx:47-51 | without a title, a first and a last name are joined by one space |
| `Cards.FullNameSpelledOut` | public/embeddables/contact_card/contact_card_embeddable.tsx:47-51 | with first and last name defined, the full name is "first last", or "title first last" when a title is defined, with single spaces; an empty-string title still adds its leading separator |
| `Cards.FullNameWithTitle` | public/embeddables/contact_card/contact_card_embeddable.tsx:47-51 | a defined title goes in front of the rest of the name with one space, provided a first or last name follows |
| `Cards.FullNameFewParts` | public/embeddables/got_character_card/got_character_card_embeddable.tsx:50-54 | with only a first or only a last name the full name is that name; with no part at all it is empty |
| `Cards.FullNameTitleOnly` | public/embeddables/contact_card/contact_card_embeddable.tsx:47-51 | a title with neither first nor last name is the whole full name, with no separator |
| `Cards.Merge` | public/actions/relocate_action.tsx:53 | no contract of its own: the base class's `{...input, ...changes}`, present fields overwriting; characterised by `Cards.MergeNoChanges` and `Cards.MergeCompose` |
| `Cards.MergeCompose` | public/actions/relocate_action.tsx:67-68 | two successive partial updates equal one update in which the later values win |
| `Cards.MergeNoChanges` | public/actions/relocate_action.tsx:53 | an update with no fields leaves the input as it was |
| `Cards.SigilImageUrl` | public/embeddables/contact_card/contact_card_embeddable.tsx:53-67 | no contract of its own: the sigil switch, with the character card's Animal default; characterised by `Cards.ContactSigilTable` and `Cards.GotSigilTable` |
| `Cards.InitialOutput` | public/embeddables/contact_card/contact_card_embeddable.tsx:80-84 | no contract of its own: the output handed to the base constructor, with no title; stated through the constructors' contracts |
| `Cards.Recomputed` | public/embeddables/contact_card/contact_card_embeddable.tsx:88-95 | no contract of its own: the subscription callback's `updateOutput`; characterised by `Cards.RecomputedLatestWins` and `Cards.CardEmbeddable.UpdateInput` |
| `Cards.TypeOf` | public/embeddables/got_character_card/got_character_card_embeddable.tsx:78 | the character card's type is `GOT_CHARACTER_CARD_EMBEDDABLE`, the contact card's is `CONTACT_CARD_EMBEDDABLE`, and each type names exactly one card kind |
| `Cards.ContactSigilTable` | public/embeddables/contact_card/contact_card_embeddable.tsx:53-67 | Stark and Snow share one sigil, Lannister, Targaryen and Baratheon each have their own, and exactly the other (or absent) surnames get the Mockingbird image |
| `Cards.GotSigilTable` | public/embeddables/got_character_card/got_character_card_embeddable.tsx:56-70 | the character card agrees with the contact card on the five houses, and exactly the other surnames get the Animal image |
| `Cards.RecomputedLatestWins` | public/embeddables/contact_card/contact_card_embeddable.tsx:88-95 | only the latest recomputation of the output is visible, and recomputation never touches `originalLastName` |
| `Cards.CardEmbeddable.ContactCard` | public/embeddables/contact_card/contact_card_embeddable.tsx:76-96 | a new contact card holds the initial input, an output derived from it, `originalLastName` equal to the initial last name, no title, and a live subscription |
| `Cards.CardEmbeddable.GotCharacterCard` | public/embeddables/got_character_card/got_character_card_embeddable.tsx:80-99 | the same for a character card, whose type is `GOT_CHARACTER_CARD_EMBEDDABLE` |
| `Cards.CardEmbeddable.UpdateInput` | public/embeddables/contact_card/contact_card_embeddable.tsx:88-95 | the input becomes the merge of the old input and the update; while subscribed, full name and sigil are recomputed from it and the title becomes "Hello " + full name; `originalLastName` never changes; the card invariant is kept |
| `Cards.CardEmbeddable.Destroy` | public/embeddables/contact_card/contact_card_embeddable.tsx:103-109 | the subscription ends; input and output are unchanged |
| `Cards.UpdateAfterDestroy` | public/embeddables/got_character_card/got_character_card_embeddable.tsx:106-112 | after `destroy` (under the assumption that `super.destroy()` leaves `updateInput` merging), an update still reaches the input but the output stays frozen |
| `CardFactory.RandomlyChoose` | public/embeddables/contact_card/contact_card_embeddable_factory.tsx:31-34 | on a non-empty list the computed index is in range, so the result is an element, the one whose equal share of [0, 1) holds the draw; an empty list yields `undefined` |
| `CardFactory.Factory.Type` | public/embeddables/got_character_card/got_character_card_embeddable_factory.tsx:42 | each factory's type is its own card's type, and the two differ |
| `CardFactory.Factory.DisplayName` | public/embeddables/got_character_card/got_character_card_embeddable_factory.tsx:86-90 | no contract of its own: the default message of the display name, "contact card" or "character card" |
| `CardFactory.Factory.IsEditable` | public/embeddables/contact_card/contact_card_embeddable_factory.tsx:43-45 | no contract of its own: `true` for both factories |
| `CardFactory.Factory.GetDefaultLocation` | public/embeddables/contact_card/contact_card_embeddable_factory.tsx:47-62 | Stark gets Winterfell, Targaryen and Lannister get Kings Landing, and every surname gets one of the three locations |
| `CardFactory.Factory.GetDefaultMood` | public/embeddables/got_character_card/got_character_card_embeddable_factory.tsx:65-76 | Stark is cold, Targaryen hot, Lannister rich, and every other surname gets one of bored, happy, sad and vengeful |
| `CardFactory.Factory.GetDefaultInput` | public/embeddables/contact_card/contact_card_embeddable_factory.tsx:77-83 | the defaults are alive, with the surname's default mood (first draw) and default location (second draw), one of the three locations, and set no name fields |
| `CardFactory.DefaultInputOnlyFromLastName` | public/embeddables/got_character_card/got_character_card_embeddable_factory.tsx:78-84 | the defaults depend only on the partial input's last name, and both factories give the same ones |
| `CardFactory.HouseDefaultsAreFixed` | public/embeddables/got_character_card/got_character_card_embeddable_factory.tsx:48-56 | for Stark, Targaryen and Lannister the default location and mood do not depend on the random draw |
| `CardFactory.Factory.Create` | public/embeddables/got_character_card/got_character_card_embeddable_factory.tsx:109-111 | `create` returns a new card of the factory's own type holding the given input |
| `RelocateAction.DisplayName` | public/actions/relocate_action.tsx:38-40 | no contract of its own: "Relocate" |
| `RelocateAction.IsCompatible` | public/actions/relocate_action.tsx:42-44 | relocation is compatible exactly with character cards |
| `RelocateAction.RelocationFor` | public/actions/relocate_action.tsx:55-108 | a relocation makes at most three `Math.random()` comparisons, none exactly when `isAlive` is not decided by one, and when one decides it is the last made |
| `RelocateAction.ThresholdsGrow` | public/actions/relocate_action.tsx:68-104 | the deciding comparison uses the last threshold met; every threshold is 0.2, 0.5 or 0.8, and they strictly increase along the run |
| `RelocateAction.Relocated` | public/actions/relocate_action.tsx:53 | after relocating, the location is the target and first name, last name and title are unchanged |
| `RelocateAction.BeyondTheWallCase` | public/actions/relocate_action.tsx:56-71 | Stark turns brave and Targaryen worried and both stop; anyone else turns terrified, gets `isAlive` = next value < 0.2, and falls through |
| `RelocateAction.KingsLandingCase` | public/actions/relocate_action.tsx:72-92 | Stark turns brave and dies, Targaryen turns worried with `isAlive` = next value < 0.5, Lannister turns cozy, and all three stop; anyone else gets `isAlive` = next value < 0.5 and falls through |
| `RelocateAction.WinterfellCase` | public/actions/relocate_action.tsx:93-107 | Stark turns happy, Targaryen lonely; anyone else gets `isAlive` = next value < 0.8 |
| `RelocateAction.Switch` | public/actions/relocate_action.tsx:55-108 | run on a card already at the target, the falling-through `case` bodies leave exactly the table's net effect as input, recompute the output from it while subscribed, and make as many `Math.random()` calls as the table lists thresholds |
| `RelocateAction.Execute` | public/actions/relocate_action.tsx:46-109 | without a trigger context it throws `IncompatibleActionError` and changes nothing; otherwise the final input is the table's net effect, the output is recomputed from it, and it reports the number of `Math.random()` calls made; it does not consult compatibility |
| `RelocateAction.StarkToKingsLanding` | public/actions/relocate_action.tsx:74-77 | a Stark sent to Kings Landing ends brave and dead, with no random call |
| `RelocateAction.TargaryenToKingsLanding` | public/actions/relocate_action.tsx:72-83 | a Targaryen sent to Kings Landing turns worried and is alive exactly when the one value drawn is below 0.5 |
| `RelocateAction.GreatHousesOnlyChangeMood` | public/actions/relocate_action.tsx:58-65 | Starks and Targaryens going Beyond the Wall or to Winterfell make no random call, keep `isAlive`, and get one of brave, worried, happy or lonely |
| `RelocateAction.LannisterBeyondTheWall` | public/actions/relocate_action.tsx:66-87 | a Lannister sent Beyond the Wall falls through to Kings Landing: cozy, thresholds [0.2], alive exactly when that one value is below 0.2 |
| `RelocateAction.OthersBeyondTheWall` | public/actions/relocate_action.tsx:66-105 | any other surname sent Beyond the Wall ends terrified after thresholds [0.2, 0.5, 0.8], alive exactly when the third value is below 0.8 |
| `RelocateAction.OthersToKingsLanding` | public/actions/relocate_action.tsx:88-105 | an unmatched surname sent to Kings Landing keeps its mood after thresholds [0.5, 0.8], alive exactly when the second value is below 0.8 |
| `RelocateAction.OthersToWinterfell` | public/actions/relocate_action.tsx:93-105 | anyone but a Stark or Targaryen sent to Winterfell keeps the mood and is alive exactly when the one value drawn is below 0.8 |
| `RelocateAction.UnknownTargetOnlyMoves` | public/actions/relocate_action.tsx:53-55 | a target outside the three locations changes only the location |
| `RelocateAction.OnlyTakenDrawsMatter` | public/actions/relocate_action.tsx:68-104 | the outcome depends on no `Math.random()` value beyond the ones the run asks for |
| `WarCouncilAction.DisplayName` | public/actions/war_council_action.tsx:39-41 | no contract of its own: "Consult war council" |
| `WarCouncilAction.IsCompatible` | public/actions/war_council_action.tsx:43-45 | the war council is compatible exactly with contact cards |
| `WarCouncilAction.GetAdvice` | public/actions/war_council_action.tsx:47-108 | no trigger context is advised against; Beyond the Wall is never recommended; Kings Landing is recommended exactly for non-Starks; Winterfell exactly for non-Lannisters; any other target gets no advice |
| `WarCouncilAction.Header` | public/actions/war_council_action.tsx:120-122 | the header reads "Recommendation: You may travel to X" exactly when recommended and "Recommendation: Stay away from X" exactly when not |
| `WarCouncilAction.Execute` | public/actions/war_council_action.tsx:110-131 | with no trigger context, or a target outside the three locations, nothing opens; otherwise one flyout with the header, and the reason in a green or red call-out |
| `WarCouncilAction.StayingPut` | public/actions/war_council_action.tsx:59-71 | already in Kings Landing, a Stark gets the "dangerous for Starks" warning and anyone else the ordinary "Cersei" advice; already Beyond the Wall, the advice is "Do not stay here, get out now!" |
| `WarCouncilAction.CurrentLocationOnlyChangesReason` | public/actions/war_council_action.tsx:59-72 | the current location changes only the reason, never whether there is advice or what it recommends |
| `RideDragonAction.DisplayName` | public/actions/ride_dragon_action.tsx:52-54 | no contract of its own: "Ride dragon" |
| `RideDragonAction.IsCompatibleEmbeddable` | public/actions/ride_dragon_action.tsx:40-45 | no contract of its own: surname, alive flag and mood are defined; characterised through `RideDragonAction.IsCompatible` and `RideDragonAction.CompatibleRiderSurvives` |
| `RideDragonAction.IsCompatible` | public/actions/ride_dragon_action.tsx:56-61 | the action is compatible exactly when the surname is Targaryen and the alive flag and mood are defined |
| `RideDragonAction.RodeDragon` | public/actions/ride_dragon_action.tsx:63-69 | a Targaryen's mood becomes happy and nothing else changes; anyone else dies and nothing else changes |
| `RideDragonAction.Execute` | public/actions/ride_dragon_action.tsx:63-69 | the card's input becomes the ridden input and the output follows it; no compatibility check, no throw |
| `RideDragonAction.RideIdempotent` | public/actions/ride_dragon_action.tsx:63-69 | a second ride changes nothing |
| `RideDragonAction.CompatibleRiderSurvives` | public/actions/ride_dragon_action.tsx:40-69 | when the action is compatible the rider keeps `isAlive` and turns happy; a compatible embeddable that is no Targaryen dies and keeps its mood |
| `GetKnightedAction.DisplayName` | public/actions/get_knighted_action.tsx:38-40 | no contract of its own: "Get Knighted" |
| `GetKnightedAction.IsCompatible` | public/actions/get_knighted_action.tsx:42-44 | knighting is compatible exactly with character cards |
| `GetKnightedAction.Knighted` | public/actions/get_knighted_action.tsx:47 | knighting sets the title to "Sir" and changes no other field |
| `GetKnightedAction.Execute` | public/actions/get_knighted_action.tsx:46-48 | the card's input becomes the knighted input and the output follows it; no compatibility check, no throw |
| `GetKnightedAction.KnightedIdempotent` | public/actions/get_knighted_action.tsx:47 | knighting twice is knighting once |
| `GetKnightedAction.KnightedFullName` | public/actions/get_knighted_action.tsx:47 | a knighted character with a first or last name is called "Sir" followed by the untitled name, whatever title came before |
| `SayHelloAction.DisplayName` | public/actions/say_hello_action.tsx:67-69 | no contract of its own: "Say hello" |
| `SayHelloAction.HasFullNameOutput` | public/actions/say_hello_action.tsx:44-51 | no contract of its own: the output's `fullName` is defined |
| `SayHelloAction.IsCompatible` | public/actions/say_hello_action.tsx:73-79 | no contract of its own: `HasFullNameOutput` of the card's current output; `SayHelloAction.Execute` states its effect |
| `SayHelloAction.CardsAreCompatible` | public/actions/say_hello_action.tsx:44-51 | every well-formed card has a full name in its output, so say-hello is compatible with it |
| `SayHelloAction.Hello` | public/actions/say_hello_action.tsx:86-92 | no message or an empty one gives "Hello, " + name; a non-empty message follows after a full stop and two spaces |
| `SayHelloAction.HelloKeepsMessage` | public/actions/say_hello_action.tsx:88-89 | different non-empty messages to one name give different greetings |
| `SayHelloAction.Execute` | public/actions/say_hello_action.tsx:81-93 | it throws `IncompatibleActionError` exactly when the output has no full name; otherwise it always succeeds and calls the callback exactly once, with the greeting |
| `SendMessageAction.DisplayName` | public/actions/send_message_action.tsx:42-44 | no contract of its own: "Send message" |
| `SendMessageAction.IsCompatible` | public/actions/send_message_action.tsx:46-48 | send-message is compatible exactly with contact cards |
| `SendMessageAction.Content` | public/actions/send_message_action.tsx:50-55 | an empty message gives "Hello, " + name; a non-empty one follows after a full stop and one space; an absent name prints as "undefined" |
| `SendMessageAction.ContentKeepsMessage` | public/actions/send_message_action.tsx:53 | different non-empty messages to one name give different contents |
| `SendMessageAction.Execute` | public/actions/send_message_action.tsx:57-71 | it throws `IncompatibleActionError` exactly when incompatible, before any modal; on a compatible card it always succeeds: Cancel sends nothing, Done sends exactly one flyout with the message |
| `SendUrgentMessageAction.DisplayName` | public/actions/send_urgent_message_action.tsx:42-44 | no contract of its own: "Send urgent message" |
| `SendUrgentMessageAction.IsCompatible` | public/actions/send_urgent_message_action.tsx:46-48 | the urgent message is compatible exactly with character cards |
| `SendUrgentMessageAction.Greeting` | public/actions/send_urgent_message_action.tsx:50-53 | the header is "HELP ", the upper-cased name and the alarm text, in that order; it has no lower-case letter, it succeeds exactly when the name is defined and throws `TypeError` exactly when it is absent |
| `SendUrgentMessageAction.ShoutedHasNoLowerCase` | public/actions/send_urgent_message_action.tsx:53 | framing an upper-cased name with "HELP " and the alarm text adds no lower-case letter |
| `SendUrgentMessageAction.Body` | public/actions/send_urgent_message_action.tsx:59 | the body is the message upper-cased character by character, so it keeps the length and has no lower-case letter |
| `SendUrgentMessageAction.BodyLosesCase` | public/actions/send_urgent_message_action.tsx:59 | a message and its upper-cased form show the same body, so messages that differ only in the case of ASCII letters read the same |
| `SendUrgentMessageAction.ValidCardGetsGreeting` | public/actions/send_urgent_message_action.tsx:50-53 | a well-formed card always gets a header |
| `SendUrgentMessageAction.Execute` | public/actions/send_urgent_message_action.tsx:65-79 | an incompatible card throws `IncompatibleActionError`; Cancel sends nothing; Done shows one red flyout with the header and body, or throws `TypeError` when the name is absent |
| `DynamicSendMessage.DynamicSendMessageAction.DisplayName` | public/actions/dynamic_send_message_action.tsx:44-46 | the name is "Send urgent message via dragon" exactly in an emergency and "Send status update via raven" exactly otherwise |
| `DynamicSendMessage.DynamicSendMessageAction.IsCompatible` | public/actions/dynamic_send_message_action.tsx:48-50 | the dynamic action is compatible exactly with contact cards |
| `DynamicSendMessage.DynamicSendMessageAction.Greeting` | public/actions/dynamic_send_message_action.tsx:52-57 | in an emergency the header is the urgent action's shouted greeting; otherwise "Dear " + name; it fails only in an emergency with no name |
| `DynamicSendMessage.DynamicSendMessageAction.Body` | public/actions/dynamic_send_message_action.tsx:59-63 | the body keeps the message's length; it is the message as typed in an emergency, and otherwise the message upper-cased character by character, with no lower-case letter |
| `DynamicSendMessage.DynamicSendMessageAction.Execute` | public/actions/dynamic_send_message_action.tsx:73-87 | an incompatible card throws `IncompatibleActionError`; Cancel sends nothing; Done shows one flyout, red in an emergency and green otherwise, unless the greeting throws |
| `DynamicSendMessage.RegisteredInstances` | public/actions/dynamic_send_message_action.tsx:90-91 | the two registered instances differ in id, display name and greeting |

## Left out

- Rendering: the React components, `render`, `reload` and unmounting. The `Location` values are
  taken from `public/embeddables/contact_card/contact_card.tsx:54-58`.
- The overlay service (`openModal`, `openFlyout`, the message modal, the initializer dialogs and
  each factory's `getExplicitInput`). This is foreign UI code. A modal's result is an input, and a
  flyout is a returned value.
- The action, trigger and factory registries and the registration calls. Their semantics live in
  the framework, for instance when one trigger id is registered twice.
- The framework base class: its input stream, `updateOutput` beyond a field-wise merge,
  `super.destroy`, and parent containers. Only the assumptions listed above are
  modelled.
- `Math.random()` and floating point. The values it returns are injected as exact reals: a
  sequence `random: nat -> real` for relocation, and one real in [0, 1) per `randomlyChoose`
  call. The thresholds 0.2, 0.5 and 0.8 are exact reals too.
- Translation: the factories' display names are their default messages.
- Promises: every call runs to completion in order.
- `public/embeddables/filterable_embeddable.tsx`. It holds no logic beyond serialising an
  external filter type.
- A partial update that sets a key to `undefined` explicitly. The model treats such a key as
  absent.
- `Text.Upper`: does not model full Unicode case mapping; it upper-cases ASCII letters only.
- `SayHelloAction.Execute`: does not tell a missing trigger context from a trigger context
  without a message; both behave the same in the source.
- `DynamicSendMessage.DynamicSendMessageAction.Execute`: does not model where the `TypeError`
  surfaces. In the source it is thrown inside the asynchronous Done callback and rejects that
  callback's promise, not `execute`'s.
- `SendUrgentMessageAction.Execute`: does not model where the `TypeError` surfaces either. In the
  source it too is thrown inside the asynchronous Done callback and rejects that callback's
  promise, not `execute`'s.
- `DynamicSendMessage.DynamicSendMessageAction`: does not model the constructor's default
  `isEmergency = true`, which applies only when `undefined` is passed.
