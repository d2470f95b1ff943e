/** How a database transaction ends, as its caller may find it. */
module Transactions {
  /** A commit whose reply is lost has taken effect; the caller sees an error, as after a roll-back. */
  datatype Outcome = Commits | RollsBack | CommitsUnanswered
}
