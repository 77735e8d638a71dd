/** The user entity of the external `entities` package. The controllers see it
    through its getters (GetUsername, GetEmail, GetDisplayName); the `lib`
    package uses it as a struct with the same three fields. Either way only
    these three values are visible, so one datatype serves both views. */
module Entities {

  datatype User = User(username: string, email: string, displayName: string)

  /** The error every createToken returns for a nil user. */
  const NilUserError: string := "user is nil"
}
