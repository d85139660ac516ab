/** Option and Result, the two failure-carrying shapes the skill's model uses. */
module Wrappers {

  /** A value that may be absent; `None` stands for Python's `None`. */
  datatype Option<+T> = None | Some(value: T)

  /** Either a returned value or a raised exception. */
  datatype Result<+T, +E> = Success(value: T) | Failure(error: E)
}

/** The exceptions the handler lets escape to the Lambda runtime. */
module Errors {

  datatype Error =
    | InvalidApplicationId  // ValueError("Invalid Application ID")
    | InvalidIntent         // ValueError("Invalid intent")
    | MissingDateSlot       // KeyError on intent['slots']['DATE']['value']
    | MalformedDate         // ValueError from datetime.strptime
    | EmptyRange            // ValueError from randint(a, b) with a > b
    | IndexOutOfRange       // IndexError from facts[i]
}
