/** The outcomes an installer request can fail with. */
module Errors {

  /** Why the administrator form was refused, one case per check of CreateAdmin. */
  datatype Rejection = UsernameInvalid | PasswordTooShort | EmailMissing

  /**
   * PortInvalid: the port text is not a decimal integer (raised through the
   * controller's generic error path, before any connection attempt).
   * ConnectionFailed: the driver could not open, or ping, the database.
   * MigrationFailed: AutoMigrate reported an error; the message is the
   * storage engine's, it does not name the entity.
   * BadRequest: the administrator form failed validation.
   */
  datatype InstallError =
    | PortInvalid(text: string)
    | ConnectionFailed(message: string)
    | MigrationFailed(message: string)
    | BadRequest(reason: Rejection)
}
