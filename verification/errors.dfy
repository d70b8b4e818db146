/** The errors the datasource layer returns. */
module Errors {

  datatype Error =
    /** Wraps the sentinel "record is wrong type", with the diagnostics the message carries. */
    | WrongRecordType(uid: string, expected: string, actual: string)
    /** "no records found for uid ...": the vault answered with an empty list. */
    | NoRecords(uid: string)
    /** Neither configuration variable is set. */
    | NoConfig
    /** The file named by the configuration-file variable could not be read. */
    | ConfigFileUnreadable(path: string)
    /** The decoded configuration lacks the app key, the client id or the private key. */
    | InvalidCredentials
    /** A datasource configuration without a uid, or with an empty one. */
    | UidRequired
    /** An error of the vault client library, passed through unchanged. */
    | Vault(message: string)

  /** `errors.Is(err, ErrWrongRecordType)`. */
  predicate IsWrongRecordType(e: Error) {
    e.WrongRecordType?
  }
}
