/** Building and pushing the state snapshot (src/network.cpp): the document
    sent to a client on connect and to every client by `broadcastState`.
    Delivery is an append to the device's broadcast log. */
module Publisher {
  import opened Config
  import opened Snapshot
  import opened Device

  /** The document built from given values of the published globals. */
  function SnapshotOf(state: SystemState, mode: int, volume: U16, shot: U8, glasses: seq<bool>,
                      stats: Statistics, now: U32): Snapshot
  {
    Snapshot(StateLabel(state), mode, volume, shot, glasses, stats.totalPours, stats.totalVolume, Uptime(now))
  }

  /** The snapshot of the globals at time `now`. */
  function CurrentSnapshot(d: DeviceState, now: U32): Snapshot
    reads d, d.glassPresent
  {
    SnapshotOf(d.state, d.mode, d.targetVolume, d.selectedShot, d.glassPresent[..], d.stats, now)
  }

  /** The `glasses` array of the document: one entry per sensor, in order. */
  method GlassList(glass: array<bool>) returns (g: seq<bool>)
    requires glass.Length == SHOT_COUNT
    ensures |g| == SHOT_COUNT
    ensures forall i :: 0 <= i < SHOT_COUNT ==> g[i] == glass[i]
  {
    g := [];
    for i := 0 to SHOT_COUNT
      invariant |g| == i
      invariant forall j :: 0 <= j < i ==> g[j] == glass[j]
    {
      g := g + [glass[i]];
    }
  }

  /** The document built for a newly connected client. */
  method OnConnect(d: DeviceState, now: U32) returns (s: Snapshot)
    requires d.Consistent()
    ensures s == CurrentSnapshot(d, now)
    ensures LabelToState(s.status) == Some(d.state)
    ensures s.uptime == now / 1000
  {
    var glasses := GlassList(d.glassPresent);
    assert glasses == d.glassPresent[..];
    s := Snapshot(GetStateString(Code(d.state)), d.mode, d.targetVolume, d.selectedShot,
                  glasses, d.stats.totalPours, d.stats.totalVolume, now / 1000);
    LabelRoundTrip(d.state);
  }

  /** `broadcastState`: the same document, pushed to every client. */
  method BroadcastState(d: DeviceState, now: U32)
    requires d.Consistent()
    modifies d`broadcasts
    ensures d.broadcasts == old(d.broadcasts) + [CurrentSnapshot(d, now)]
  {
    var glasses := GlassList(d.glassPresent);
    assert glasses == d.glassPresent[..];
    var s := Snapshot(GetStateString(Code(d.state)), d.mode, d.targetVolume, d.selectedShot,
                      glasses, d.stats.totalPours, d.stats.totalVolume, now / 1000);
    d.broadcasts := d.broadcasts + [s];
  }
}
