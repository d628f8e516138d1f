/**
 * The authenticated principal. On the server it is the user record that the `protect`
 * middleware attaches to the request; on the client it is the session's `user`. Only the
 * fields the core reads are kept.
 */
module Accounts {

  datatype User = User(id: string, name: string, isAdmin: bool)
}
