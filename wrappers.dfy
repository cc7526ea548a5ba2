/** Result shapes shared by every service of the application. */
module Wrappers {

  datatype Option<T> = None | Some(value: T)

  /** The `{ data, error }` pair that every service function resolves to
      (`ApiResponse<T>` in the type definitions). */
  datatype ApiResponse<T> = ApiResponse(data: Option<T>, error: Option<string>)

  function Ok<T>(x: T): ApiResponse<T> { ApiResponse(Some(x), None) }

  function Err<T>(message: string): ApiResponse<T> { ApiResponse(None, Some(message)) }

  /** An error object as the backend client reports it: a code and a message. */
  datatype DbError = DbError(code: string, message: string)

  /** The `{ data, error }` pair a backend query resolves to. */
  datatype DbResponse<T> = DbResponse(data: Option<T>, error: Option<DbError>)

  /** The backend's code for "a single row was requested and none matched". */
  const NO_ROWS: string := "PGRST116"

  /** The platform the client runs on, where it changes a result. */
  datatype Platform = Web | Native
}
