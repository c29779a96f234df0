/** The status categories a handler reports, and how storage errors map onto them. */
module Codes {
  import opened Common
  import opened Storage

  datatype Code = Ok | InvalidArgument | NotFound | AlreadyExists | Internal

  /** Status of a handler whose last storage call was a create. */
  function CreateStatus(err: Option<StoreError>): (c: Code)
    ensures c == Ok <==> err.None?
    ensures c == AlreadyExists <==> err == Some(ErrAlreadyExists)
    ensures c == Internal <==> err.Some? && err.value != ErrAlreadyExists
  {
    match err
    case None => Ok
    case Some(ErrAlreadyExists) => AlreadyExists
    case Some(_) => Internal
  }

  /** Status of a handler whose last storage call was an update, a delete or a get. */
  function LookupStatus(err: Option<StoreError>): (c: Code)
    ensures c == Ok <==> err.None?
    ensures c == NotFound <==> err == Some(ErrNotFound)
    ensures c == Internal <==> err.Some? && err.value != ErrNotFound
  {
    match err
    case None => Ok
    case Some(ErrNotFound) => NotFound
    case Some(_) => Internal
  }
}
