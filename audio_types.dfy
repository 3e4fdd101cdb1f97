/** Values and constants shared by every part of the cis_audio model.

    The enumerations below are declared in kernel headers (cis_core.h, cis_dev.h)
    that are not part of this model. The values chosen here agree with everything
    the driver itself reveals: the identifiers double as the indices of the sysfs
    attributes debug, pa_state and chime. Every property proved relies only on
    the constants being distinct. */
module AudioTypes {

  // Debug modes held in `info.debug`.
  const DbgNull: int := 0   // normal operation: requests go to the remote peripheral
  const DbgSimu: int := 1   // simulate locally: real replies are dropped
  const DbgSet: int := 2    // writes of the pa_state attribute are sent to the peripheral
  const DbgTest: int := 3   // the SET_PA_STATE ioctl is answered locally

  // Audio item identifiers; also the bit positions in the pending word.
  const IdDebug: int := 0
  const IdPaState: int := 1
  const IdChime: int := 2
  const IdClipOverrun: int := 3

  // Amplifier states.
  const PaUnmute: int := 1
  const PaInvalid: int := -1   // CIS_ITEM_INT_VALUE_INVALID

  // Linux error numbers returned (negated) by the driver.
  const EIO: int := 5
  const EFAULT: int := 14
  const ENOIOCTLCMD: int := 515

  datatype Option<T> = None | Some(value: T)

  /** A requested audio cue. */
  datatype Chime = Chime(tone: int, period: int, cycle: int, location: int)

  /** `struct cis_audio_info`: the last-known audio state, also the payload of a reply. */
  datatype Info = Info(debug: int, paState: int, clipStatus: int, chime: Chime)

  /** `struct cis_audio_info audio = {0}`. */
  const ZeroInfo: Info := Info(0, 0, 0, Chime(0, 0, 0, 0))

  /** The shared record `g_cis_audio_data` without its work item: the pending word,
      as the set of bit positions that are 1, and the audio state. */
  datatype Core = Core(flag: set<int>, info: Info)

  /** One asynchronous delivery to `cis_audio_update_info`. */
  datatype Reply = Reply(id: int, msg: Info)

  /** A request handed to the remote channel (sip_audio_get_info / sip_audio_set_info). */
  datatype Request = GetRequest(id: int) | SetRequest(id: int, payload: seq<int>)

  /** C conversion of an int to `unsigned char`: reduction modulo 256. */
  function UnsignedChar(v: int): (b: int)
    ensures 0 <= b < 256
    ensures (v - b) % 256 == 0
    ensures 0 <= v < 256 ==> b == v
  {
    v % 256
  }
}
