/** Value types shared by the mock handlers: an optional value (a query
    field or a nullable `data`) and the two response shapes every handler
    answers with. */
module Common {

  /** A value that may be absent: an omitted query parameter, or `null`. */
  datatype Option<+T> = None | Some(value: T) {

    /** The carried value, or `default` when absent (a destructuring default). */
    function GetOr(default: T): T {
      match this
      case Some(v) => v
      case None => default
    }
  }

  /** The envelope of every mock answer: a status code, a message and a payload. */
  datatype BaseResponse<T> = BaseResponse(code: int, msg: string, data: T)

  /** One page of a list: the page's records, the echoed page number and page
      size, and the length of the whole list that was paged. */
  datatype PaginatedResponse<T> = PaginatedResponse(records: seq<T>, current: int, size: int, total: int)
}
