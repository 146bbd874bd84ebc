/** The stored user row that the rate limiter and the billing routes read and update. */
module Users {
  /** The members of a user row the core reads: its id, credit balance and BYOK flag. */
  datatype User = User(id: string, credits: int, isUnlimited: bool)

  /** The user table: rows by id. */
  type UserTable = map<string, User>
}
