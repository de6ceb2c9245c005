/** Who a request runs for, and the account table the brief handler reads
    its Google credentials from. */
module Auth {
  import opened Values

  /** The signed-in user the request runs for (`session.user`), reduced to
      the user id. */
  datatype Session = Session(userId: string)

  /** A row of the account table: the OAuth link of a user with a provider.
      The lookup selects rows by `userId` and `provider`; the refresh token
      is handed to the OAuth client, which this model does not contain. */
  datatype Account = Account(userId: string, provider: string, refreshToken: Option<string>)
}
