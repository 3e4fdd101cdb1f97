/** Client code that uses only the contracts of the driver's methods. */
module Scenarios {
  import opened AudioTypes
  import opened Dispatcher
  import opened Correlation
  import opened Driver

  /** Normal mode: the reply for PA state arrives during the wait; the call
      succeeds and the record holds the reported state. The same holds when the
      wait is interrupted after the reply landed. */
  method PaStateQuery(interrupt: int)
  {
    var d := new CisAudio();
    var reply := Reply(IdPaState, ZeroInfo.(paState := PaUnmute));
    var ex := Exchange(0, [reply], interrupt);
    assert Answered(DbgNull, [reply]) == {IdPaState};
    var err := d.GetInfo(IdPaState, ex);
    assert err == 0;
    assert d.info.paState == PaUnmute;
    assert d.flag == {};
    assert d.requests == [GetRequest(IdPaState)];
  }

  /** Normal mode, no reply, interrupted wait: the wait's error comes back and the bit is clear. */
  method InterruptedQuery(interrupt: int)
    requires interrupt != 0
  {
    var d := new CisAudio();
    var err := d.GetInfo(IdClipOverrun, Exchange(0, [], interrupt));
    assert err == interrupt;
    assert d.flag == {};
  }

  /** Any debug mode written to the debug attribute reads back; outside
      MSG_DBG_SET mode a pa_state write then sends nothing and sets the state locally. */
  method DebugRoundTrip(mode: int)
  {
    var d := new CisAudio();
    var ret := d.StoreProperty(IdDebug, Some(mode), 0, 2);
    var shown := d.ShowProperty(IdDebug, Exchange(0, [], 0));
    assert shown == DebugMode(mode);
    if mode != DbgSet {
      ret := d.StoreProperty(IdPaState, Some(1), 0, 2);
      assert ret == 2;
      assert d.info.paState == 1;
      assert d.requests == [];
    }
  }

  /** Boot: two refused unmute requests, then one accepted, then a stale run. */
  method Boot(e1: int, e2: int, later: int)
    requires e1 != 0 && e2 != 0
  {
    var d := new CisAudio();
    d.WorkerTick(e1);
    d.WorkerTick(e2);
    d.WorkerTick(0);
    d.WorkerTick(later);
    assert d.retry;
    assert d.muteNotices == [Unmuted];
    assert d.ampEnables == 3;
    assert d.schedules == [500, 1000, 1000];
  }
}
