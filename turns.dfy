/**
 * One entry of a chat transcript, `{"role": ..., "content": ...}` in the
 * source. The content is optional because the fitness path of
 * `send_message` appends the Python value None as an assistant's content.
 */
module Turns {
  import opened Wrappers

  datatype Role = System | User | Assistant

  datatype Turn = Turn(role: Role, content: Option<string>)

  /** A turn whose content is a string. */
  function Said(role: Role, text: string): Turn
  {
    Turn(role, Some(text))
  }

  /**
   * user, assistant, user, assistant, ...: the shape of the conversation
   * that follows the system turn.
   */
  predicate Alternating(t: seq<Turn>)
  {
    |t| % 2 == 0 && forall i :: 0 <= i < |t| ==> t[i].role == (if i % 2 == 0 then User else Assistant)
  }
}
