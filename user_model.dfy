/**
 The shape of a registered account record (`models/UserModel.js`). The record
 is keyed by its `email_or_phone` identifier in the user store, so the
 identifier itself is the map key rather than a field.
 */
module UserModel {

  /** The roles the schema admits; a new record gets `RoleUser` by default. */
  datatype Role = RoleUser | RoleAdmin

  /** `password` holds the one-way hash of the chosen secret, never the secret. */
  datatype User = User(password: string, role: Role)

  /** The role the schema assigns when a record is created without one. */
  const DefaultRole: Role := RoleUser
}
