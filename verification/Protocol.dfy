/** The streaming protocol between the worker process and the gateway. */
module Protocol {

  datatype EventKind =
    | EventStart
    | EventProgress
    | EventDone
    | EventError
    | EventToolCall
    | EventPaused
    | EventOther(name: string)

  /** One call of the stream callback: an error, a nil event, or an event of some kind. */
  datatype WorkerCall = CallError | CallNil | CallEvent(kind: EventKind)

  /** Everything a worker does with one task: the callback calls it makes, in order, and
      whether Execute then returns an error. */
  datatype WorkerRun = NoStreamWorker | Ran(calls: seq<WorkerCall>, failed: bool)

  /** The calls on which the gateway completes the task in its queue. */
  predicate IsTerminal(call: WorkerCall)
  {
    call == CallError || call == CallEvent(EventDone) || call == CallEvent(EventError)
  }
}
