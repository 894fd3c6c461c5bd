/** Failure-carrying result types shared by the whole model. */
module Wrappers {

  datatype Option<+T> = None | Some(value: T) {
    function GetOr(default: T): T {
      match this
      case Some(v) => v
      case None => default
    }
  }

  datatype Result<+T, +E> = Ok(value: T) | Err(error: E)
}

/** The errors the adapter raises. Each names the JavaScript exception it stands for. */
module Errors {

  datatype Error =
    /** `Failed to fetch: <statusText>`: the HTTP response was not ok. */
    | FailedToFetch(statusText: string)
    /** `response.json()` rejected: the body was not JSON. */
    | UndecodableBody
    /** `Invalid data received from Strapi`: the content body's `data` is not an array. */
    | InvalidData
    /** `Invalid schema data received from Strapi`: the schema body's `attributes` is falsy. */
    | InvalidSchemaData
    /** `Invalid field value for key: <key>`: an `object` property is not an object with `type`. */
    | InvalidFieldValue(key: string)
    /** A JavaScript TypeError: the member `member` is undefined or null where the code reads
        a property of it, converts it to an object or destructures it. */
    | TypeError(member: string)

  /** The message each error carries. `UndecodableBody` and `TypeError` are raised by the
      JavaScript runtime, whose exact wording is not part of this model; the other four are
      the adapter's own messages. */
  function Message(e: Error): string {
    match e
    case FailedToFetch(text) => "Failed to fetch: " + text
    case UndecodableBody => "SyntaxError: response body is not JSON"
    case InvalidData => "Invalid data received from Strapi"
    case InvalidSchemaData => "Invalid schema data received from Strapi"
    case InvalidFieldValue(key) => "Invalid field value for key: " + key
    case TypeError(member) => "TypeError: '" + member + "' is undefined or null"
  }
}
