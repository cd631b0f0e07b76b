/** Values shared by the web-service actions: optional request parameters,
    the results of a request handler, and the errors a handler can end with. */
module Ws {

  datatype Option<T> = None | Some(value: T)

  /** The ways a request can fail before a response is written. */
  datatype Error =
    | MissingParameter(name: string)    // Request.mandatoryParam on an absent parameter
    | InvalidBoolean(name: string)      // a boolean parameter that is not true/false/yes/no
    | EmptyParameter(name: string)      // `from` or `to` given as the empty string
    | IdOrKeyRequired                   // neither or both of `id` and `key`
    | ComponentNotFound                 // no component with the given id or key
    | NotProjectOrModule                // the target is neither a project nor a module
    | InsufficientPrivileges            // the caller may not administer the target
    | BadRequest(message: string)       // WsUtils.checkRequest failed
    | NotFound(message: string)         // NotFoundException
    | InvalidPaging                     // page index or page size not strictly positive

  datatype Result<T> = Success(value: T) | Failure(error: Error)

  function Min(a: int, b: int): int { if a <= b then a else b }

  /** A message built as `prefix + argument + suffix` determines its argument:
      an error message built from a format with one `%s` names that value. */
  lemma MessageNamesArgument(prefix: string, a1: string, a2: string, suffix: string)
    requires prefix + a1 + suffix == prefix + a2 + suffix
    ensures a1 == a2
  {
    var m1, m2 := prefix + a1 + suffix, prefix + a2 + suffix;
    assert |a1| == |a2|;
    assert m1[|prefix|..|prefix| + |a1|] == a1;
    assert m2[|prefix|..|prefix| + |a2|] == a2;
  }
}
