/** The outcome of a view, reduced to where it sends the visitor. */
module Http {
  import opened Errors

  /** Where a view sends the visitor, or the exception that escapes it. */
  datatype Response =
    | RedirectHome
    | RedirectToCase(pk: string)
    | Rerender
    | NotFound
    | ServerError(error: Exception)
}
