/** The request/reply correlation step, `cis_audio_get_info`, as a function on the
    shared record. The blocking wait is not modelled as blocking: an `Exchange`
    records what the channel and the scheduler did during one call. */
module Correlation {
  import opened AudioTypes
  import opened Dispatcher

  /** The environment of one get-info call: the result of sending the request,
      the deliveries the dispatcher makes while the caller sleeps in wait_on_bit,
      and the value wait_on_bit returns (0 once woken, nonzero when interrupted). */
  datatype Exchange = Exchange(sendResult: int, during: seq<Reply>, waitResult: int)

  /** The outcome of one get-info call: the new record, the return code, whether
      a request went to the channel, and the chimes played meanwhile. */
  datatype Fetch = Fetch(core: Core, err: int, requested: bool, played: seq<Chime>)

  /** The record once the request is out (bit `id` set) and the deliveries of the wait are made. */
  function AfterWait(c: Core, id: int, ex: Exchange): Core
  {
    Delivered(Core(c.flag + {id}, c.info), ex.during)
  }

  /** wait_on_bit returns 0 only once bit `id` is clear. */
  predicate WaitConsistent(c: Core, id: int, ex: Exchange)
  {
    c.info.debug == DbgNull && ex.sendResult >= 0 && ex.waitResult == 0 ==> id !in AfterWait(c, id, ex).flag
  }

  /** One call of `cis_audio_get_info(id)` from record `c`. */
  function Fetched(c: Core, id: int, ex: Exchange): (r: Fetch)
    requires WaitConsistent(c, id, ex)
    // any debug mode short-circuits: success, nothing sent, nothing changed
    ensures c.info.debug != DbgNull ==> r == Fetch(c, 0, false, [])
    // otherwise the request is sent and the bit of `id` is clear on return, whatever happened
    ensures c.info.debug == DbgNull ==> r.requested && id !in r.core.flag
    // a failed send returns its error and leaves every other bit and the state as they were
    ensures c.info.debug == DbgNull && ex.sendResult < 0 ==>
              r.err == ex.sendResult && r.core == Core(c.flag - {id}, c.info) && r.played == []
    // after a successful send the result is 0 exactly when the wait completed or
    // the reply for `id` arrived (also when it raced ahead of the wait or of an interruption);
    // any other outcome is the wait's own error
    ensures c.info.debug == DbgNull && ex.sendResult >= 0 ==>
              && (r.err == 0 <==> ex.waitResult == 0 || id in Answered(c.info.debug, ex.during))
              && (r.err != 0 ==> r.err == ex.waitResult)
              && r.core.info == AfterWait(c, id, ex).info
              // the caller reads, per field, the last accepted reply for its id during the wait, or the old value
              && r.core.info.debug == c.info.debug
              && r.core.info.paState == Latest(c.info.paState, LastAccepted(c.info.debug, IdPaState, ex.during), (m: Info) => m.paState)
              && r.core.info.clipStatus == Latest(c.info.clipStatus, LastAccepted(c.info.debug, IdClipOverrun, ex.during), (m: Info) => m.clipStatus)
              && r.core.info.chime == Latest(c.info.chime, LastAccepted(c.info.debug, IdChime, ex.during), (m: Info) => m.chime)
              && (forall j :: j != id ==> (j in r.core.flag <==> j in c.flag && j !in Answered(c.info.debug, ex.during)))
              && r.played == Played(c.info.debug, ex.during)
  {
    if c.info.debug != DbgNull then Fetch(c, 0, false, [])
    else if ex.sendResult < 0 then Fetch(Core(c.flag - {id}, c.info), ex.sendResult, true, [])
    else
      var after := AfterWait(c, id, ex);
      var played := Played(c.info.debug, ex.during);
      if ex.waitResult == 0 then Fetch(after, 0, true, played)
      else if id !in after.flag then Fetch(after, 0, true, played)
      else Fetch(Core(after.flag - {id}, after.info), ex.waitResult, true, played)
  }
}
