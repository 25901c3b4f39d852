/** Events and the small result types shared by the modules. */
module Events {
  datatype Option<+T> = None | Some(value: T)

  datatype Result<+T, +E> = Ok(value: T) | Err(error: E)

  /** A decoded event; `payload` stands for everything but the type URL and the flag. */
  datatype Event = Event(typeUrl: string, payload: int, retained: bool)

  /** handleMessage marks an event that arrived with the RETAIN flag
      (internal/broker/broker.go:214-218). */
  function Stamp(e: Event, flagged: bool): Event {
    if flagged then e.(retained := true) else e
  }

  /** The buffer of every channel a subscriber is given (internal/broker/subscriber.go:35). */
  const CAPACITY := 100
}
