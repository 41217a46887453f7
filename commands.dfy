/** Inbound commands from the network (src/network.cpp): the WebSocket data
    handler, which routes JSON commands into the controller's setters, and
    the `/api/status`, `/api/start` and `/api/stop` HTTP handlers. JSON
    parsing is not modelled: a message arrives already parsed, or as a
    parse failure. */
module Commands {
  import opened Config
  import opened Snapshot
  import opened Device
  import opened Storage
  import opened Publisher
  import opened Control

  /** The text-frame opcode of section 5.2 of RFC 6455. */
  const WS_TEXT: nat := 1

  /** What the server library reports about a received frame: whether it
      is the final fragment, its offset in the message, the message length
      and the opcode. */
  datatype FrameInfo = FrameInfo(final: bool, index: nat, len: nat, opcode: nat)

  /** A parsed JSON message: the string under "cmd" and the integer the
      value under "value" converts to. */
  datatype JsonCommand = JsonCommand(cmd: string, value: int)

  /** The effect a message asks for. */
  datatype Action = SetVolume(vol: int) | SetMode(mode: int) | PickShot(shot: int) | Start | Stop | Ignore

  /** Only a message that arrives whole, in one final text frame, is read. */
  predicate WholeTextFrame(info: FrameInfo, len: nat) {
    info.final && info.index == 0 && info.len == len && info.opcode == WS_TEXT
  }

  /** The routing of the data handler: five command names, anything else
      ignored, and nothing from a fragment, a binary frame or text that does
      not parse. */
  function Route(info: FrameInfo, len: nat, parsed: Option<JsonCommand>): (a: Action)
    ensures a != Ignore ==> WholeTextFrame(info, len) && parsed.Some?
    ensures WholeTextFrame(info, len) && parsed.Some? ==>
      var m := parsed.value;
      && (m.cmd == "volume" <==> a == SetVolume(m.value))
      && (m.cmd == "mode" <==> a == SetMode(m.value))
      && (m.cmd == "shot" <==> a == PickShot(m.value))
      && (m.cmd == "start" <==> a == Start)
      && (m.cmd == "stop" <==> a == Stop)
      && (m.cmd !in {"volume", "mode", "shot", "start", "stop"} ==> a == Ignore)
  {
    if !WholeTextFrame(info, len) then Ignore
    else match parsed
      case None => Ignore
      case Some(m) =>
        if m.cmd == "volume" then SetVolume(m.value)
        else if m.cmd == "mode" then SetMode(m.value)
        else if m.cmd == "shot" then PickShot(m.value)
        else if m.cmd == "start" then Start
        else if m.cmd == "stop" then Stop
        else Ignore
  }

  /** The `WS_EVT_DATA` branch of `onWsEvent`: the routed action has the
      effect of the operation it names, and nothing else changes. */
  method OnWsData(d: DeviceState, now: U32, info: FrameInfo, len: nat, parsed: Option<JsonCommand>)
    requires d.Consistent() && (Route(info, len, parsed) == Start ==> d.Valid())
    modifies d`targetVolume, d`mode, d`selectedShot, d`store, d`state, d`servoAngle,
             d`isPourActive, d`pourStartTime, d`pumpLevel, d`broadcasts
    ensures d.Consistent() && (old(d.Valid()) ==> d.Valid())
    ensures var a := Route(info, len, parsed);
      var saved := (a.SetVolume? && InVolumeRange(a.vol)) || a.SetMode?
                   || (a.PickShot? && 1 <= a.shot <= SHOT_COUNT);
      var started := a == Start && old(d.state) != Pouring && d.glassPresent[d.selectedShot - 1];
      && d.targetVolume == (if a.SetVolume? && InVolumeRange(a.vol) then a.vol else old(d.targetVolume))
      && d.mode == (if a.SetMode? then a.mode else old(d.mode))
      && d.selectedShot == (if a.PickShot? && 1 <= a.shot <= SHOT_COUNT then a.shot else old(d.selectedShot))
      && d.store == (if saved && !d.storeFails then WithSettings(old(d.store), CurrentSettings(d))
                     else old(d.store))
      && Outputs(d) == (if started then Started(d.selectedShot, now)
                        else if a == Stop then Stopped(old(Outputs(d)))
                        else old(Outputs(d)))
      && d.broadcasts == old(d.broadcasts) + (if started || a == Stop then [CurrentSnapshot(d, now)] else [])
  {
    var a := Route(info, len, parsed);
    match a
    case SetVolume(vol) => SetTargetVolume(d, vol);
    case SetMode(mode) => SetPourMode(d, mode);
    case PickShot(shot) => SelectShot(d, shot);
    case Start => StartPour(d, now);
    case Stop => StopPour(d, now);
    case Ignore =>
  }

  /** `GET /api/status`: the state under "state", with the error counter. */
  method ApiStatus(d: DeviceState, now: U32) returns (r: StatusReport)
    ensures LabelToState(r.state) == Some(d.state)
    ensures r.errors == d.stats.errors && r.totalPours == d.stats.totalPours
    ensures r.totalVolume == d.stats.totalVolume && r.uptime == Uptime(now)
    ensures r.mode == d.mode && r.volume == d.targetVolume && r.shot == d.selectedShot
  {
    r := StatusReport(GetStateString(Code(d.state)), d.mode, d.targetVolume, d.selectedShot,
                      now / 1000, d.stats.totalPours, d.stats.totalVolume, d.stats.errors);
    LabelRoundTrip(d.state);
  }

  /** `POST /api/start`: always answers "OK", even when the start is refused. */
  method ApiStart(d: DeviceState, now: U32) returns (reply: string)
    requires d.Valid()
    modifies d`state, d`servoAngle, d`isPourActive, d`pourStartTime, d`pumpLevel, d`broadcasts
    ensures d.Valid()
    ensures reply == "OK"
    ensures var accepted := old(d.state) != Pouring && d.glassPresent[d.selectedShot - 1];
      && Outputs(d) == (if accepted then Started(d.selectedShot, now) else old(Outputs(d)))
      && d.broadcasts == old(d.broadcasts) + (if accepted then [CurrentSnapshot(d, now)] else [])
  {
    StartPour(d, now);
    reply := "OK";
  }

  /** `POST /api/stop`: always stops and answers "OK". */
  method ApiStop(d: DeviceState, now: U32) returns (reply: string)
    requires d.Consistent()
    modifies d`pumpLevel, d`isPourActive, d`state, d`servoAngle, d`broadcasts
    ensures d.Consistent()
    ensures reply == "OK"
    ensures Outputs(d) == Stopped(old(Outputs(d)))
    ensures d.broadcasts == old(d.broadcasts) + [CurrentSnapshot(d, now)]
  {
    StopPour(d, now);
    reply := "OK";
  }
}
