/** What a route handler sends back: a status code and either `{ error }` or a JSON payload. */
module Http {
  datatype Payload<T> = Error(error: string) | Json(value: T)

  datatype Reply<T> = Reply(status: nat, payload: Payload<T>)

  /** `res.status(code).json({ error })` */
  function Fail<T>(status: nat, error: string): Reply<T> {
    Reply(status, Error(error))
  }

  /** `res.json(value)`, or `res.status(code).json(value)` for a success other than 200. */
  function Send<T>(status: nat, value: T): Reply<T> {
    Reply(status, Json(value))
  }
}
