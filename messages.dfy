/** The optional value of TypeScript's `x?: T` fields. */
module Wrappers {

  datatype Option<+T> = None | Some(value: T)
}

/** The chat entry shared by the terminal page and its output view. */
module Messages {
  import opened Wrappers

  datatype Role = User | Assistant | System

  /** One entry of the message store. The creation time is display-only and
      is not modelled; `id` is whatever string the caller supplied. */
  datatype Message = Message(id: string, role: Role, content: string, severity: Option<int>)

  function UserMessage(id: string, content: string): Message
  {
    Message(id, User, content, None)
  }

  function SystemMessage(id: string, content: string): Message
  {
    Message(id, System, content, None)
  }
}

/** The theme colours the views paint meters and badges with. */
module Tones {

  /** `Muted` is the unlit bar or segment. */
  datatype Tone = Primary | Secondary | Accent | Destructive | Amber | Muted
}
