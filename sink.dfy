/**
 * The log sink the handler posts to, seen only through its contract: a
 * synchronous Post that either appends the entry or fails and leaves what
 * was appended untouched.
 */
module Fluent {
  import opened Wrappers
  import opened Errors
  import opened Timestamps
  import opened Events

  /** One Post call: the tag, the record, and the time passed beside the record. */
  datatype Entry = Entry(tag: string, record: Record, time: Time)

  /** Every entry handed to Post, and the entries the sink accepted, each in call order. */
  datatype SinkLog = SinkLog(attempted: seq<Entry>, posted: seq<Entry>)

  /** The sink's answer to its n-th call (from 0) with a given entry: None accepts, Some(msg) refuses. */
  type Oracle = (nat, Entry) -> Option<string>

  /** The sink's state after a call, and the error the call returned, if any. */
  datatype Step = Step(log: SinkLog, err: Option<Error>)

  /** One Post: the entry is attempted; it is appended exactly when the sink accepts it. */
  function Deliver(accept: Oracle, log: SinkLog, e: Entry): (s: Step)
    ensures s.log.attempted == log.attempted + [e]
    ensures s.err.None? <==> accept(|log.attempted|, e).None?
    ensures s.err.None? ==> s.log.posted == log.posted + [e]
    ensures s.err.Some? ==>
      s.log.posted == log.posted && s.err.value == DeliveryError(accept(|log.attempted|, e).value)
  {
    match accept(|log.attempted|, e)
    case None => Step(SinkLog(log.attempted + [e], log.posted + [e]), None)
    case Some(msg) => Step(SinkLog(log.attempted + [e], log.posted), Some(DeliveryError(msg)))
  }

  class Sink {
    const accept: Oracle
    var attempted: seq<Entry>
    var posted: seq<Entry>

    function Log(): SinkLog
      reads this
    {
      SinkLog(attempted, posted)
    }

    constructor (accept: Oracle)
      ensures this.accept == accept && Log() == SinkLog([], [])
    {
      this.accept := accept;
      attempted, posted := [], [];
    }

    /** Posts `record` under `tag` with `time`, waiting for the sink's answer. */
    method Post(tag: string, record: Record, time: Time) returns (err: Option<Error>)
      modifies this
      ensures Step(Log(), err) == Deliver(accept, old(Log()), Entry(tag, record, time))
    {
      var e := Entry(tag, record, time);
      var answer := accept(|attempted|, e);
      attempted := attempted + [e];
      if answer.None? {
        posted := posted + [e];
        err := None;
      } else {
        err := Some(DeliveryError(answer.value));
      }
    }
  }
}
