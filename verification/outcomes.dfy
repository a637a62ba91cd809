/** Optional values, errors and results shared by the whole model.

    The import script reports every failure by raising an exception that ends
    the run; here each exception becomes an `Error` value carried by `Err`. */
module Outcomes {

  datatype Option<T> = None | Some(value: T)

  /** One constructor per kind of exception the modelled code raises. */
  datatype Error =
    | NotLoggedIn                 // ensure_login: "Must be logged in"
    | InvalidCredentials          // login answered 403
    | BadRequest                  // login answered 400
    | NoPermission                // a fetch or create answered 403
    | HttpStatus(code: int)       // any other unexpected status code
    | VersionMissing              // an update answered 400
    | VersionMismatch             // an update answered 409
    | BadUri                      // parse_uri's assertion, or a URI that is not a string
    | NoId                        // int(None) on a URI without an id
    | MissingField(key: string)   // a record lacks the key (or it has the wrong type)
    | TreeInfoMissing             // tree_info_fetched: "Tree info must be initialized"
    | NoDefItem(rankName: string) // get_defitem found no item
    | NoParent                    // a taxon was to be created under no parent

  /** A value or the error that stopped the computation; usable with `:-`. */
  datatype Result<T> = Ok(value: T) | Err(error: Error) {
    predicate IsFailure() { Err? }

    function PropagateFailure<U>(): Result<U>
      requires Err?
    {
      Err(error)
    }

    function Extract(): T
      requires Ok?
    {
      value
    }
  }

  /** The outcome of an operation that returns nothing; usable with `:-`. */
  datatype Outcome = Pass | Fail(error: Error) {
    predicate IsFailure() { Fail? }

    function PropagateFailure(): Outcome
      requires Fail?
    {
      this
    }
  }
}
