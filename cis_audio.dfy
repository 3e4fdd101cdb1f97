/** The driver: the shared record `g_cis_audio_data` and the worker latch as one
    object, with the operations of cis_audio.c as methods that update it in place.
    Calls into code that is not part of this model (the remote channel, the chime
    player, the amplifier hooks, the scheduler) leave a trace in ghost logs; their
    results are parameters. */
module Driver {
  import opened AudioTypes
  import opened Dispatcher
  import opened Correlation
  import RetryWorker

  // ioctl command codes: _IO('a', nr) == 'a' * 256 + nr.
  const CmdGetPaState: int := 0x6101
  const CmdSetPaState: int := 0x6102
  const CmdGetClipOverrun: int := 0x6103
  const CmdSetClipOverrun: int := 0x6104

  /** The mute state the worker reports once the amplifier is unmuted. */
  const Unmuted: int := 0

  /** The user-space argument of an ioctl: whether copying it faults, and the int it holds. */
  datatype UserBuffer = UserBuffer(faults: bool, value: int)

  /** What reading a sysfs attribute shows, before formatting. */
  datatype Shown = DebugMode(mode: int) | PaStateText(state: int) | Failed | InvalidAttr

  class CisAudio {
    var flag: set<int>   // pending-request bits
    var info: Info       // last-known audio state
    var retry: bool      // the worker's latch `s_retry`

    ghost var requests: seq<Request>   // requests handed to the remote channel
    ghost var chimes: seq<Chime>       // chimes handed to the chime player
    ghost var muteNotices: seq<int>    // calls of set_amp_mute_state
    ghost var ampEnables: nat          // calls of mxc_amp_gpio_enable(1)
    ghost var schedules: seq<nat>      // delays (ms) with which the worker was scheduled

    /** Between calls no request is pending: every call that sets a bit clears it
        before returning. The worker's bookkeeping: mute state 0 is reported once,
        exactly when the latch is set, and every run that enabled the amplifier ended
        either in that report or in a new schedule. */
    ghost predicate Valid()
      reads this
    {
      && flag == {}
      && muteNotices == (if retry then [Unmuted] else [])
      && |schedules| >= 1
      && ampEnables + 1 == |schedules| + |muteNotices|
    }

    function Data(): Core
      reads this
    {
      Core(flag, info)
    }

    /** Module init after registration: pending word 0, the reset values of
        cis_audio_info_init, the rest of the static record zero, the worker
        scheduled after 500 ms. */
    constructor ()
      ensures Valid()
      ensures flag == {} && info == Info(DbgNull, PaInvalid, 0, Chime(0, 0, 0, 0)) && !retry
      ensures requests == [] && chimes == [] && ampEnables == 0
      ensures schedules == [RetryWorker.FirstDelayMs]
    {
      flag := {};
      info := ZeroInfo.(debug := DbgNull, paState := PaInvalid);
      retry := false;
      requests, chimes, muteNotices, ampEnables := [], [], [], 0;
      schedules := [RetryWorker.FirstDelayMs];
    }

    /** The state after a get-info call returning `err` is the one `Fetched` describes. */
    twostate predicate FetchedBy(id: int, ex: Exchange, err: int)
      reads this
      requires WaitConsistent(old(Data()), id, ex)
    {
      var f := Fetched(old(Data()), id, ex);
      && Data() == f.core
      && err == f.err
      && requests == old(requests) + (if f.requested then [GetRequest(id)] else [])
      && chimes == old(chimes) + f.played
    }

    /** cis_audio_get_info: set the bit, send the request, wait for the reply. */
    method GetInfo(id: int, ex: Exchange) returns (err: int)
      requires Valid()
      requires WaitConsistent(Data(), id, ex)
      modifies this`flag, this`info, this`requests, this`chimes
      ensures Valid()
      ensures FetchedBy(id, ex, err)
    {
      if info.debug != DbgNull {
        return 0;
      }
      flag := flag + {id};
      requests := requests + [GetRequest(id)];
      if ex.sendResult < 0 {
        flag := flag - {id};
        return ex.sendResult;
      }
      // the dispatcher runs while this caller sleeps in wait_on_bit
      ghost var mode := info.debug;
      var after := Delivered(Data(), ex.during);
      flag, info := after.flag, after.info;
      chimes := chimes + Played(mode, ex.during);
      err := ex.waitResult;
      if err != 0 {
        if id !in flag {
          return 0;   // the reply landed together with the interruption
        }
        flag := flag - {id};
        return err;
      }
    }

    /** cis_audio_set_info: a pass-through to the channel. */
    method SetInfo(id: int, value: seq<int>, sendResult: int) returns (err: int)
      modifies this`requests
      ensures requests == old(requests) + [SetRequest(id, value)]
      ensures err == sendResult
    {
      requests := requests + [SetRequest(id, value)];
      err := sendResult;
    }

    /** cis_audio_set_pa_state: send the state, truncated to one byte. */
    method SetPaState(state: int, sendResult: int) returns (err: int)
      modifies this`requests
      ensures requests == old(requests) + [SetRequest(IdPaState, [UnsignedChar(state)])]
      ensures err == sendResult
    {
      err := SetInfo(IdPaState, [UnsignedChar(state)], sendResult);
    }

    /** cis_audio_get_pa_state: `dest` is the caller's pointer (None for NULL) with
        the value it points to; `out` is that value afterwards. */
    method GetPaState(dest: Option<int>, ex: Exchange) returns (err: int, out: Option<int>)
      requires Valid()
      requires WaitConsistent(Data(), IdPaState, ex)
      modifies this`flag, this`info, this`requests, this`chimes
      ensures Valid()
      ensures FetchedBy(IdPaState, ex, err)
      ensures out == if err == 0 && dest.Some? then Some(info.paState) else dest
    {
      err := GetInfo(IdPaState, ex);
      out := dest;
      if err == 0 && dest.Some? {
        out := Some(info.paState);
      }
    }

    /** cis_audio_update_info: one delivery from the channel. It runs also while
        a get-info caller waits with its bit set, so it does not assume `Valid()`; it
        keeps it, since it only ever clears bits. */
    method UpdateInfo(id: int, msg: Info)
      modifies this`flag, this`info, this`chimes
      ensures old(Valid()) ==> Valid()
      ensures Data() == Updated(old(Data()), id, msg)
      ensures chimes == old(chimes) + Played(old(info.debug), [Reply(id, msg)])
    {
      if info.debug == DbgSimu && msg.debug == DbgNull {
        return;   // under simulate mode, real messages are not received
      }
      if id == IdPaState {
        info := info.(paState := msg.paState);
      } else if id == IdChime {
        info := info.(chime := msg.chime);
        chimes := chimes + [info.chime];
        return;
      } else if id == IdClipOverrun {
        info := info.(clipStatus := msg.clipStatus);
      } else {
        return;
      }
      if id in flag {
        flag := flag - {id};
      }
    }

    /** cis_audio_pa_state_worker: one scheduled run; `setResult` is what the
        unmute request returns. */
    method WorkerTick(setResult: int)
      requires Valid()
      modifies this`retry, this`requests, this`muteNotices, this`ampEnables, this`schedules
      ensures Valid()
      ensures var s := RetryWorker.Tick(old(retry), setResult);
        && retry == s.retry
        && ampEnables == old(ampEnables) + (if s.attempted then 1 else 0)
        && requests == old(requests) + (if s.attempted then [SetRequest(IdPaState, [UnsignedChar(PaUnmute)])] else [])
        && muteNotices == old(muteNotices) + (if s.notified then [Unmuted] else [])
        && schedules == old(schedules) + (if s.rescheduled then [RetryWorker.RetryDelayMs] else [])
    {
      if !retry {
        ampEnables := ampEnables + 1;
        var err := SetPaState(PaUnmute, setResult);
        if err == 0 {
          retry := true;
          muteNotices := muteNotices + [Unmuted];
        } else {
          schedules := schedules + [RetryWorker.RetryDelayMs];
        }
      }
    }

    /** cis_audio_show_property, before formatting: attribute index `off`. */
    method ShowProperty(off: int, ex: Exchange) returns (shown: Shown)
      requires Valid()
      requires off == IdPaState ==> WaitConsistent(Data(), IdPaState, ex)
      modifies this`flag, this`info, this`requests, this`chimes
      ensures Valid()
      ensures off == IdDebug ==> unchanged(this) && shown == DebugMode(info.debug)
      ensures off == IdPaState ==>
        var f := Fetched(old(Data()), IdPaState, ex);
        FetchedBy(IdPaState, ex, f.err) && shown == (if f.err != 0 then Failed else PaStateText(info.paState))
      ensures off != IdDebug && off != IdPaState ==> unchanged(this) && shown == InvalidAttr
    {
      if off == IdDebug {
        shown := DebugMode(info.debug);
      } else if off == IdPaState {
        var ret := GetInfo(off, ex);
        shown := if ret != 0 then Failed else PaStateText(info.paState);
      } else {
        shown := InvalidAttr;
      }
    }

    /** cis_audio_store_property, after parsing: attribute index `off`, the number
        sscanf read (None when it read none), what the channel returns for a set
        request, and the byte count written. */
    method StoreProperty(off: int, parsed: Option<int>, setResult: int, count: nat) returns (ret: int)
      requires Valid()
      modifies this`flag, this`info, this`requests, this`chimes
      ensures Valid()
      // the debug attribute selects the mode, nothing else
      ensures off == IdDebug && parsed.Some? ==>
        && ret == count && info == old(info).(debug := parsed.value)
        && flag == old(flag) && requests == old(requests) && chimes == old(chimes)
      // in set mode a pa_state write goes to the peripheral and the record stays
      ensures off == IdPaState && parsed.Some? && old(info.debug) == DbgSet ==>
        && ret == (if setResult != 0 then -EIO else count)
        && Data() == old(Data()) && chimes == old(chimes)
        && requests == old(requests) + [SetRequest(IdPaState, [UnsignedChar(parsed.value)])]
      // in any other mode it is answered locally: pa_state becomes 0 or 1, its bit is
      // clear, and nothing is sent
      ensures off == IdPaState && parsed.Some? && old(info.debug) != DbgSet ==>
        && ret == count
        && info == old(info).(paState := if parsed.value != 0 then 1 else 0)
        && flag == old(flag) - {IdPaState}
        && requests == old(requests) && chimes == old(chimes)
      // unparsable input and other attributes change nothing
      ensures parsed.None? || (off != IdDebug && off != IdPaState) ==> ret == count && unchanged(this)
    {
      if off == IdDebug {
        if parsed.None? {
          return count;
        }
        info := info.(debug := parsed.value);
      } else if off == IdPaState {
        if parsed.None? {
          return count;
        }
        if info.debug == DbgSet {
          var err := SetInfo(IdPaState, [UnsignedChar(parsed.value)], setResult);
          if err != 0 {
            return -EIO;
          }
        } else {
          var audio := ZeroInfo.(debug := DbgSimu, paState := if parsed.value != 0 then 1 else 0);
          UpdateInfo(off, audio);
        }
      }
      return count;
    }

    /** cis_audio_ioctl on a file opened on this device: `user` is the argument
        buffer, `ex` the environment of a get command, `setResult` what the channel
        returns for a set request; `copied` is what reaches user space. */
    method Ioctl(cmd: int, user: UserBuffer, ex: Exchange, setResult: int) returns (ret: int, copied: Option<int>)
      requires Valid()
      requires cmd == CmdGetPaState ==> WaitConsistent(Data(), IdPaState, ex)
      requires cmd == CmdGetClipOverrun ==> WaitConsistent(Data(), IdClipOverrun, ex)
      modifies this`flag, this`info, this`requests, this`chimes
      ensures Valid()
      ensures cmd == CmdGetPaState ==>
        var f := Fetched(old(Data()), IdPaState, ex);
        && FetchedBy(IdPaState, ex, f.err)
        && (ret, copied) == (if f.err != 0 then (-EIO, None)
                             else if user.faults then (-EFAULT, None)
                             else (0, Some(info.paState)))
      ensures cmd == CmdGetClipOverrun ==>
        var f := Fetched(old(Data()), IdClipOverrun, ex);
        && FetchedBy(IdClipOverrun, ex, f.err)
        && (ret, copied) == (if f.err != 0 then (-EIO, None)
                             else if user.faults then (-EFAULT, None)
                             else (0, Some(info.clipStatus)))
      ensures cmd == CmdSetPaState ==> copied == None
      ensures cmd == CmdSetPaState && user.faults ==> ret == -EFAULT && unchanged(this)
      // in test mode the new state is applied locally, unfiltered and untruncated
      ensures cmd == CmdSetPaState && !user.faults && old(info.debug) == DbgTest ==>
        && ret == 0
        && info == old(info).(paState := user.value)
        && flag == old(flag) - {IdPaState}
        && requests == old(requests) && chimes == old(chimes)
      // otherwise it is sent to the peripheral as one byte
      ensures cmd == CmdSetPaState && !user.faults && old(info.debug) != DbgTest ==>
        && ret == (if setResult != 0 then -EIO else 0)
        && Data() == old(Data()) && chimes == old(chimes)
        && requests == old(requests) + [SetRequest(IdPaState, [UnsignedChar(user.value)])]
      // SET_CLIP_OVERRUN is defined but has no case: it is not supported
      ensures cmd == CmdSetClipOverrun ==> ret == -ENOIOCTLCMD && copied == None && unchanged(this)
      // nor is any other command
      ensures cmd != CmdGetPaState && cmd != CmdSetPaState && cmd != CmdGetClipOverrun ==>
        ret == -ENOIOCTLCMD && copied == None && unchanged(this)
    {
      copied := None;
      if cmd == CmdGetPaState {
        var err := GetInfo(IdPaState, ex);
        if err != 0 {
          return -EIO, None;
        }
        if user.faults {
          return -EFAULT, None;
        }
        return 0, Some(info.paState);
      } else if cmd == CmdSetPaState {
        if user.faults {
          return -EFAULT, None;
        }
        if info.debug == DbgTest {
          var audio := ZeroInfo.(paState := user.value);
          UpdateInfo(IdPaState, audio);
          return 0, None;
        }
        var err := SetInfo(IdPaState, [UnsignedChar(user.value)], setResult);
        if err != 0 {
          return -EIO, None;
        }
        return 0, None;
      } else if cmd == CmdGetClipOverrun {
        var err := GetInfo(IdClipOverrun, ex);
        if err != 0 {
          return -EIO, None;
        }
        if user.faults {
          return -EFAULT, None;
        }
        return 0, Some(info.clipStatus);
      }
      return -ENOIOCTLCMD, None;
    }
  }
}
