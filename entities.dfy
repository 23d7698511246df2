/** The records the backend owns and the screens list and edit. */
module Entities {

  /** A controller; `guid` is how events refer to it. */
  datatype Controller = Controller(id: string, serialNumber: string, guid: string)

  /** An event type; events refer to it by `id`. */
  datatype EventType = EventType(id: string, eventCode: string, comment: string)

  /** An event as the list and statistics calls return it; times are the server's strings. */
  datatype Event = Event(id: string, eventType: EventType, controller: Controller,
                         eventTime: string, serverTime: string, comment: string)
}
