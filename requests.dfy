/** What the React list components get back from their service calls and
    show in return: the outcome of an awaited call, the notification the
    `useNotification` hook displays, and which save call a form submit
    makes. The calls themselves are not made; their outcomes are inputs. */
module Requests {
  import opened Js

  /** An awaited call: its data, or the rejection carrying
      `error.response?.data?.error`. */
  datatype Response<T> = Ok(data: T) | Failed(serverError: Option<string>)

  datatype Kind = Success | Error

  /** The notification on screen: `showNotification(message, kind)`. */
  datatype Notice = Notice(message: string, kind: Kind)

  /** The service call a form submit makes: `update(id, data)` or
      `create(data)`. */
  datatype SaveCall = Update(id: int) | Create
}
