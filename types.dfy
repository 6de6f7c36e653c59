/** Shared value types of the application (types.ts). */
module Types {

  /** An optional value; `None` stands for JavaScript's `undefined` / `null`. */
  datatype Option<+T> = None | Some(value: T)

  /** The five states of the live voice session (`ConnectionState` in types.ts). */
  datatype ConnectionState = Disconnected | Connecting | Connected | Reconnecting | Error

  /** The string value each `ConnectionState` member carries in types.ts. */
  function StateValue(s: ConnectionState): (v: string)
  {
    match s
    case Disconnected => "disconnected"
    case Connecting => "connecting"
    case Connected => "connected"
    case Reconnecting => "reconnecting"
    case Error => "error"
  }

  /** Distinct states carry distinct string values. */
  lemma StateValueInjective(a: ConnectionState, b: ConnectionState)
    ensures StateValue(a) == StateValue(b) ==> a == b
  {
    if StateValue(a) == StateValue(b) {
      assert StateValue(a)[0] == StateValue(b)[0];
      assert |StateValue(a)| == |StateValue(b)|;
    }
  }

  datatype Role = User | Model

  /** The contact card attached to a confirmation message (`ChatMessage.contactData`). */
  datatype ContactData = ContactData(
    fullName: string,
    phoneNumber: Option<string>,
    email: Option<string>,
    company: Option<string>,
    address: Option<string>)

  /**
   * A chat message. The `id` and `timestamp` fields of the original record are clock
   * readings used only as display keys and are not part of this model; an absent
   * `isError` is `false`.
   */
  datatype ChatMessage = ChatMessage(
    role: Role,
    text: string,
    isError: bool,
    contactData: Option<ContactData>)
}
