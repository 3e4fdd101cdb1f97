# cis_audio: a Dafny model of the audio-control bridge driver

`cis_audio.c` is a Linux driver that talks to a remote audio peripheral over
an asynchronous channel. A request goes out through `sip_audio_get_info`. The
answer comes back later, unsolicited, through `cis_audio_update_info`. The
driver makes this a blocking call by keeping one pending bit per audio
identifier in the word `flag` of the shared record `g_cis_audio_data`:

- `cis_audio_get_info` sets the bit, sends the request and sleeps in `wait_on_bit`;
- the dispatcher `cis_audio_update_info` records the reply and clears the bit;
- if the sleep is interrupted, the caller checks the bit again: a clear bit means
  the reply already landed, and the call succeeds.

A boot worker, `cis_audio_pa_state_worker`, keeps sending an unmute request
until the channel accepts it. A one-way latch (`s_retry`) then makes it inert.

The model has six modules:

- `AudioTypes` (audio_types.dfy): the record `cis_audio_info`, the shared record
  (pending word plus info), replies, channel requests, the constants, and the C
  conversion to `unsigned char`.
- `Dispatcher` (dispatcher.dfy): `Updated`, one delivery to `cis_audio_update_info`
  as a function on the record; `Delivered`, a sequence of deliveries.
- `Correlation` (correlation.dfy): `Fetched`, one call of `cis_audio_get_info` as a
  function on the record.
- `RetryWorker` (retry_worker.dfy): `Tick`, one run of the worker; `RunTicks`, a
  series of runs; lemmas on how the series ends.
- `Driver` (cis_audio.dfy): class `CisAudio` holds `flag`, `info` and the latch
  as fields. Its methods follow the C functions statement by statement and are
  proved against the functions above.
- `Scenarios` (scenarios.dfy): client code that runs the methods on concrete
  scenarios and checks the outcome against their contracts.

How the model treats the environment:

- The pending word is the set of its bit positions that are 1.
- The blocking wait is an input, `Exchange`. It holds the send result, the
  deliveries the dispatcher makes while the caller sleeps, and the value
  `wait_on_bit` returns: 0 once woken, nonzero when interrupted.
- `WaitConsistent` states the one guarantee taken from the kernel:
  `wait_on_bit` returns 0 only once the bit is clear.
- The object invariant `Valid()` says that no bit is pending between calls. Every
  method keeps it. `UpdateInfo` does not assume it, because the dispatcher also
  runs while a caller waits with its bit set.
- Calls into code outside the file leave a trace in ghost logs on the class:
  requests to the channel, chimes played, `set_amp_mute_state` calls, amplifier
  enables, and the delays the worker was scheduled with.

Behaviour of the code worth noting:

- Four ioctl command codes are defined (cis_audio.c:21-25), but only three have
  a case in `cis_audio_ioctl` (cis_audio.c:310-377). `SET_CLIP_OVERRUN` returns
  `-ENOIOCTLCMD`.
- A write to the `pa_state` attribute goes to the peripheral only in
  `MSG_DBG_SET` mode. In every other mode, normal mode included, it is applied
  locally as 0 or 1 (cis_audio.c:242-252).
- The ioctl get commands return `-EIO` for any failure of `cis_audio_get_info`
  (cis_audio.c:313-317, 357-360). This includes an interrupted wait, so the
  interruption is not passed on as a distinct error.

The enumerations `MSG_DBG_*`, `cis_audio_id`, the PA states and
`CIS_ITEM_INT_VALUE_INVALID` live in headers (cis_core.h, cis_dev.h) that are
not part of this model. The values used are listed in audio_types.dfy. The
proofs depend only on these values being distinct.

## Model

| member | source | states |
|---|---|---|
| `AudioTypes.UnsignedChar` | cis_audio.c:95-99 | the one-byte payload is in 0..255, equals the int modulo 256, and is the int itself when it already fits |
| `Dispatcher.Updated` | cis_audio.c:123-172 | in simulate mode a reply tagged MSG_DBG_NULL changes nothing; PA_STATE and CLIP_OVERRUN copy only their one field and leave their bit clear; CHIME copies the chime and never touches the pending word; an unknown id changes nothing; no other bit moves; the debug mode never changes |
| `Dispatcher.Answered` | cis_audio.c:168-171 | the ids whose bit a series of deliveries clears are exactly the query ids (PA_STATE, CLIP_OVERRUN) for which an accepted reply was delivered: every such delivery clears its bit, and no bit is cleared without one |
| `Dispatcher.LastAccepted` | cis_audio.c:128-165 | the message it gives for an id is that of an accepted delivery for that id with no accepted delivery for the id after it; none means no delivery for the id was accepted |
| `Dispatcher.Delivered` | cis_audio.c:123-172 | after a series of deliveries the pending word is the old one minus the answered ids; pa_state, the clip status and the chime each hold the last accepted reply for their id, or their old value when there is none; the debug mode is unchanged; in simulate mode a series of real replies leaves the record untouched |
| `Correlation.Fetched` | cis_audio.c:43-75 | any debug mode returns 0 with nothing sent or changed; otherwise the request is sent and the id's bit is clear on return; a failed send returns its error with state and other bits unchanged; after a good send the result is 0 exactly when the wait completed or the reply for the id arrived (racing ahead of the wait or of an interruption), else the wait's error; the caller then reads, per field, the last accepted reply for that field's id during the wait, or the old value; other bits only lose the answered ids |
| `RetryWorker.Tick` | cis_audio.c:103-121 | a set latch makes the run a no-op; a clear latch attempts, and sets exactly when the unmute request returns 0; the mute-state notice goes out exactly when the latch flips; the run reschedules exactly when the latch stays clear |
| `RetryWorker.RunTicks` | cis_audio.c:103-121 | over any series of runs the latch never reverts, ends set exactly when some request succeeded, mute state 0 is notified at most once and only by the run that flips the latch, and each attempt ends in that notice or a reschedule |
| `RetryWorker.FirstSuccessAt` | cis_audio.c:110-119 | if the k-th request is the first to succeed, there are k+1 attempts, k reschedules and one notice, and the latch ends set |
| `RetryWorker.NeverSucceeds` | cis_audio.c:116-119 | while every request fails, every run attempts and reschedules, no notice goes out and the latch stays clear, with no retry cap |
| `RetryWorker.BootScenario` | cis_audio.c:110-119 | two failures then a success give three attempts, two reschedules and one notice; a fourth run does nothing |
| `Driver.CisAudio.constructor` | cis_audio.c:421-425 | after init the pending word is 0, the debug mode is MSG_DBG_NULL, pa_state is the invalid value, the rest of the record is zero, the latch is clear, and the worker is scheduled after 500 ms |
| `Driver.CisAudio.GetInfo` | cis_audio.c:43-75 | the new record, the return code, the request sent and the chimes played are exactly those `Fetched` gives, and no bit is left pending |
| `Driver.CisAudio.SetInfo` | cis_audio.c:77-80 | one set request goes to the channel and its result is returned unchanged |
| `Driver.CisAudio.SetPaState` | cis_audio.c:95-100 | the state is sent as a one-byte PA_STATE set request and the channel's result is returned unchanged |
| `Driver.CisAudio.GetPaState` | cis_audio.c:82-92 | the error of get-info passes through unchanged, and `*state` is written, with the new pa_state, only when that error is 0 and the pointer is non-null |
| `Driver.CisAudio.UpdateInfo` | cis_audio.c:123-172 | the new record is `Updated` of the old one, exactly an accepted chime delivery is handed to the chime player, and an invariant-holding state stays so |
| `Driver.CisAudio.WorkerTick` | cis_audio.c:103-121 | the latch, amplifier enables, unmute requests, mute notices and reschedules follow `Tick`, and the latch invariant is kept: mute state 0 is reported once, exactly when the latch is set |
| `Driver.CisAudio.ShowProperty` | cis_audio.c:175-205 | the debug attribute shows the mode; pa_state runs get-info and shows "failed" on a nonzero result, else the new pa_state; other attributes are invalid; only pa_state changes state |
| `Driver.CisAudio.StoreProperty` | cis_audio.c:207-260 | debug writes set the mode only; a pa_state write in MSG_DBG_SET mode sends one byte and returns -EIO on any nonzero channel result; in any other mode it sets pa_state to 0 or 1 locally, clears its bit and sends nothing; unparsable input and other attributes change nothing and return the count |
| `Driver.CisAudio.Ioctl` | cis_audio.c:299-378 | the get commands run get-info and return -EIO on failure, -EFAULT on a faulting copy, else 0 with the field copied out; SET_PA_STATE returns -EFAULT on a faulting copy, applies the value locally and unfiltered in MSG_DBG_TEST mode, and otherwise sends one byte and returns -EIO on failure; every other command returns -ENOIOCTLCMD and changes nothing |

## Left out

- The `audio_mutex` lock itself. A second get-info caller blocks on the mutex until the first returns, then sends its own request; the model runs each call as one step, which gives the same order. A late reply to an interrupted request may answer the next request for the same id; `Exchange.during` admits it.
- The sleeping and waking of `wait_on_bit` / `wake_up_bit`. Only the outcome of the wait is an input, together with the deliveries made during it. The wake-up sent when `cis_audio_update_info` clears a set bit leaves no trace.
- Concurrent writes of the debug mode while a caller sleeps.
- `sip_audio_get_info` and `sip_audio_set_info`, which are foreign channel calls. Their results are parameters, and each call is recorded in the `requests` log.
- `cis_chime_play`, `mxc_amp_gpio_enable` and `set_amp_mute_state`, which are external hooks. Only their calls are recorded, in ghost logs.
- `sprintf` formatting in `cis_audio_show_property`: the method returns what would be shown, as a `Shown` value.
- `sscanf` parsing in `cis_audio_store_property`: its result is the `parsed` parameter.
- `copy_to_user` and `copy_from_user`: a user buffer is a flag for whether the copy faults, plus the int it holds.
- Jiffies conversion and the delayed-work queue. The worker's schedule requests are logged in milliseconds, and each run is a call of `WorkerTick`.
- `dbg_prt` logging.
- Misc-device and sysfs registration and teardown, `cis_audio_open` and `cis_audio_release`. The constructor models the successful init path, and `Ioctl` assumes a file opened on this device.
- Driver.CisAudio.GetInfo: the pending word is modelled as an unbounded set of bit positions, so a bit index outside one `unsigned long` is not modelled. All callers pass PA_STATE or CLIP_OVERRUN.
