/**
  The boundary between the access-groups client and the remote access-control
  service: what the client hands to the request executor (`api.execute`) and
  what comes back from it.
 */
module Remote {

  datatype Option<T> = None | Some(value: T)

  /** A user's `first_name` as the directory service reports it: a string,
      JSON `null`, or no such property at all (`undefined`). */
  datatype NameField = Named(name: string) | Null | Missing

  /** One entry of the list that `users/get` resolves with. */
  datatype User = User(uuid: string, firstName: NameField)

  /** The request body (`dataArguments`). */
  datatype Body =
    | NoBody                                          // no dataArguments given
    | CuratorBody(uuid: string)                       // { uuid }
    | ExpirationBody(groupExpiration: int)            // { groupExpiration }
    | InvitationBody(uuid: string, invitationExpiration: int, groupExpiration: int)

  /** One logical operation: the named endpoint, its positional path
      parameters and its body. */
  datatype Request = Request(path: string, endpointArguments: seq<string>, dataArguments: Body)

  /** A value a request resolves with: a numeric status code, a list of users,
      or anything else (a string, an object). Only `Status(200)` is `=== 200`. */
  datatype Value = Status(code: int) | UserList(users: seq<User>) | OtherValue

  /** A call either returns a value or raises an error that carries a message. */
  datatype Outcome = Returned(value: Value) | Raised(message: string)

  /** The remote service seen through the executor: given every request it has
      already received, oldest first, and a new request, what that call
      returns or raises. Nothing else about the service is assumed. */
  type Service = (seq<Request>, Request) -> Outcome
}
