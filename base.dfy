/** Failure-compatible wrappers shared by every stage of the interpreter.
    Each Error constructor names one exception the Ruby interpreter raises
    (its message is given beside it), or marks an outcome this model does
    not compute. */
module Base {

  datatype Option<+T> = None | Some(value: T)

  datatype Error =
    | NeverReturns            // next_token recurses forever (unterminated string literal)
    | UnbalancedParens        // 'Unbalanced parens'
    | UnexpectedClose         // 'Unexpected )'
    | UnknownType             // 'Type of value is unknown, cannot write'
    | UnsupportedLiteral      // a quoted literal with backslashes, newlines or odd quoting
    | Unbound                 // 'Cannot found var in ENV: <name>'
    | AlreadyBound            // 'Var already bound'
    | TypeMismatch            // 'Types mismatch, can't add String to Number'
    | CannotConcat            // 'Can't concatenate values. Please use + instead'
    | CastListToString        // 'Can't cast List to String'
    | CastListToSymbol        // 'Can't cast List to Symbol'
    | CannotEvaluate          // 'Cannot evaluate unknown expression: <form>'
    | ZeroDivision            // Ruby ZeroDivisionError from `%` by an Integer 0
    | Incomparable            // Ruby ArgumentError from `<` or `>` between an Integer, a String and a Symbol
    | WrongArity              // Ruby ArgumentError from a lambda called with the wrong arity
    | NotCallable             // Ruby NoMethodError: `call` on a value that is not a lambda
    | NoMethod                // Ruby NoMethodError: `val`, `quoted?`, `bool`, `first`, ... on nil, an Array or a lambda
    | Unmodelled              // depends on floating point or on Ruby coercions between mismatched types

  datatype Result<+T> = Ok(value: T) | Err(error: Error) {
    predicate IsFailure() { Err? }

    function PropagateFailure<U>(): Result<U>
      requires Err?
    {
      Err(error)
    }

    function Extract(): T
      requires Ok?
    {
      value
    }
  }
}
