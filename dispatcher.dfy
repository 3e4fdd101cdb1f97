/** The notification dispatcher, `cis_audio_update_info`, as a function on the
    shared record, and its effect over a sequence of deliveries. */
module Dispatcher {
  import opened AudioTypes

  /** In simulate mode a reply that is not itself tagged as simulated is dropped. */
  predicate Accepted(mode: int, msg: Info)
  {
    !(mode == DbgSimu && msg.debug == DbgNull)
  }

  /** The identifiers that take part in the query/reply protocol. */
  predicate IsQuery(id: int)
  {
    id == IdPaState || id == IdClipOverrun
  }

  /** A delivery that clears the pending bit of its identifier. */
  predicate Answers(mode: int, r: Reply)
  {
    Accepted(mode, r.msg) && IsQuery(r.id)
  }

  /** The record after one delivery of `msg` for `id`. */
  function Updated(c: Core, id: int, msg: Info): (r: Core)
    // a real reply in simulate mode changes nothing
    ensures !Accepted(c.info.debug, msg) ==> r == c
    // PA state and clip overrun copy their one field
    ensures Accepted(c.info.debug, msg) && id == IdPaState ==> r.info == c.info.(paState := msg.paState)
    ensures Accepted(c.info.debug, msg) && id == IdClipOverrun ==> r.info == c.info.(clipStatus := msg.clipStatus)
    // the chime copies the chime record and never touches the pending word
    ensures Accepted(c.info.debug, msg) && id == IdChime ==> r == Core(c.flag, c.info.(chime := msg.chime))
    // an unknown identifier changes nothing
    ensures !IsQuery(id) && id != IdChime ==> r == c
    // an answered query has its bit clear; no other bit moves
    ensures Answers(c.info.debug, Reply(id, msg)) ==> id !in r.flag
    ensures forall j :: j != id ==> (j in r.flag <==> j in c.flag)
    ensures r.info.debug == c.info.debug
  {
    if !Accepted(c.info.debug, msg) then c
    else if id == IdPaState then Core(c.flag - {id}, c.info.(paState := msg.paState))
    else if id == IdChime then Core(c.flag, c.info.(chime := msg.chime))
    else if id == IdClipOverrun then Core(c.flag - {id}, c.info.(clipStatus := msg.clipStatus))
    else c
  }

  /** The identifiers whose pending bit a sequence of deliveries clears: exactly
      the query identifiers for which an accepted reply was delivered. */
  function Answered(mode: int, replies: seq<Reply>): (ids: set<int>)
    ensures forall id :: id in ids ==> IsQuery(id)
    ensures forall i :: 0 <= i < |replies| && Answers(mode, replies[i]) ==> replies[i].id in ids
    ensures forall id :: id in ids ==> exists i :: 0 <= i < |replies| && Answers(mode, replies[i]) && replies[i].id == id
  {
    if replies == [] then {}
    else
      var rest := Answered(mode, replies[1..]);
      assert forall id :: id in rest ==> exists i :: 0 <= i < |replies| && Answers(mode, replies[i]) && replies[i].id == id by {
        forall id | id in rest
          ensures exists i :: 0 <= i < |replies| && Answers(mode, replies[i]) && replies[i].id == id
        {
          var k :| 0 <= k < |replies| - 1 && Answers(mode, replies[1..][k]) && replies[1..][k].id == id;
          assert replies[k + 1] == replies[1..][k];
        }
      }
      (if Answers(mode, replies[0]) then {replies[0].id} else {}) + rest
  }

  /** The message of the last accepted delivery for `id`, if there is one. */
  function LastAccepted(mode: int, id: int, replies: seq<Reply>): (m: Option<Info>)
    ensures m.None? ==> forall i :: 0 <= i < |replies| && replies[i].id == id ==> !Accepted(mode, replies[i].msg)
    ensures m.Some? ==> exists i :: && 0 <= i < |replies| && replies[i] == Reply(id, m.value) && Accepted(mode, m.value)
                                     && forall j :: i < j < |replies| && replies[j].id == id ==> !Accepted(mode, replies[j].msg)
    decreases |replies|
  {
    if replies == [] then None
    else
      var rest := LastAccepted(mode, id, replies[1..]);
      assert forall j :: 0 <= j < |replies| - 1 ==> replies[1..][j] == replies[j + 1];
      if rest.Some? then
        assert exists i :: && 0 <= i < |replies| && replies[i] == Reply(id, rest.value) && Accepted(mode, rest.value)
                           && forall j :: i < j < |replies| && replies[j].id == id ==> !Accepted(mode, replies[j].msg) by {
          var k :| && 0 <= k < |replies| - 1 && replies[1..][k] == Reply(id, rest.value) && Accepted(mode, rest.value)
                   && forall j :: k < j < |replies| - 1 && replies[1..][j].id == id ==> !Accepted(mode, replies[1..][j].msg);
          assert replies[k + 1] == Reply(id, rest.value);
          assert forall j :: k + 1 < j < |replies| ==> replies[j] == replies[1..][j - 1];
        }
        rest
      else if replies[0].id == id && Accepted(mode, replies[0].msg) then
        assert replies[0] == Reply(id, replies[0].msg);
        Some(replies[0].msg)
      else None
  }

  /** The value a field holds after deliveries: that of the last accepted reply for its id, else the old one. */
  function Latest<T>(previous: T, last: Option<Info>, field: Info -> T): T
  {
    if last.Some? then field(last.value) else previous
  }

  /** The chimes a sequence of deliveries hands to the chime player, in order. */
  function Played(mode: int, replies: seq<Reply>): seq<Chime>
  {
    if replies == [] then []
    else (if Accepted(mode, replies[0].msg) && replies[0].id == IdChime then [replies[0].msg.chime] else [])
         + Played(mode, replies[1..])
  }

  /** The record after the deliveries `replies`, in order. */
  function Delivered(c: Core, replies: seq<Reply>): (r: Core)
    ensures r.info.debug == c.info.debug
    ensures r.flag == c.flag - Answered(c.info.debug, replies)
    // in simulate mode, real replies alone leave the record as it was
    ensures (forall i :: 0 <= i < |replies| ==> !Accepted(c.info.debug, replies[i].msg)) ==> r == c
    // each field the waiting caller reads holds the last accepted reply for its id, or its old value
    ensures r.info.paState == Latest(c.info.paState, LastAccepted(c.info.debug, IdPaState, replies), (m: Info) => m.paState)
    ensures r.info.clipStatus == Latest(c.info.clipStatus, LastAccepted(c.info.debug, IdClipOverrun, replies), (m: Info) => m.clipStatus)
    ensures r.info.chime == Latest(c.info.chime, LastAccepted(c.info.debug, IdChime, replies), (m: Info) => m.chime)
    decreases |replies|
  {
    if replies == [] then c
    else
      assert forall i :: 0 <= i < |replies| - 1 ==> replies[1..][i] == replies[i + 1];
      Delivered(Updated(c, replies[0].id, replies[0].msg), replies[1..])
  }
}
