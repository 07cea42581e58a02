/**
 * The entries of the shared chat transcript. In the server each entry is
 * the object `{ role, parts: [{ text }] }` with role "user" or "model"; it
 * always carries exactly one part, so a turn is a role and one text.
 */
module Conversation {
  datatype Role = User | Model

  datatype Turn = Turn(role: Role, text: string)
}
