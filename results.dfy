/** Failure-compatible wrappers shared by the decoder and the file tool. */
module Results {

  datatype Option<+T> = None | Some(value: T)

  /** Why a decode stopped. Each case stands for the exception the decoder raises there. */
  datatype Error =
    | CodeNotFound(code: nat)                      // no line carries the requested code
    | IndexOutOfRange(index: nat)                  // IndexError: a line read past the end
    | NotAnInteger(text: string)                   // ValueError from int()
    | UnknownTypeCode(typeCode: int)               // KeyError from the value-type table
    | MalformedString(line: string)                // a string literal with broken quoting
    | MissingSeparator(line: string)               // a key/value line without a comma
    | UnsupportedDatasourceType(rawType: string)   // KeyError from the data-source table

  /** The outcome of one decoding step; `:-` stops at the first `Err`. */
  datatype Result<+T> = Ok(value: T) | Err(error: Error) {

    predicate IsFailure() {
      Err?
    }

    function PropagateFailure<U>(): Result<U>
      requires Err?
    {
      Err(error)
    }

    function Extract(): T
      requires Ok?
    {
      value
    }
  }
}

/** The structured document that the decoder hands to the JSON serialiser. */
module Json {

  /** A JSON value; an object is a map, so its keys carry no order. */
  datatype Value =
    | JString(str: string)
    | JNumber(num: int)
    | JBool(flag: bool)
    | JArray(items: seq<Value>)
    | JObject(fields: map<string, Value>)
}
