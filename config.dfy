/** Constants, machine widths and shared value types of the dispenser firmware
    (include/config.h). */
module Config {

  datatype Option<T> = None | Some(value: T)

  // ---- machine widths -------------------------------------------------

  const Two8: nat := 0x100
  const Two16: nat := 0x1_0000
  const Two32: nat := 0x1_0000_0000

  type U8 = x: int | 0 <= x < 0x100
  type U16 = x: int | 0 <= x < 0x1_0000
  type U32 = x: int | 0 <= x < 0x1_0000_0000

  /** The time between two `millis()` readings as the firmware computes it:
      an `unsigned long` subtraction, which wraps modulo 2^32. */
  function Elapsed(now: U32, since: U32): (r: U32)
    ensures since <= now ==> r == now - since
    ensures now < since ==> r == Two32 - (since - now)
  {
    (now - since) % Two32
  }

  /** `x++` on a `uint32_t` counter. */
  function Inc32(x: U32): (r: U32)
    ensures x < Two32 - 1 ==> r == x + 1
    ensures x == Two32 - 1 ==> r == 0
  {
    (x + 1) % Two32
  }

  /** `x += y` on a `uint32_t` counter with a 16-bit addend. */
  function Add32(x: U32, y: U16): (r: U32)
    ensures x + y < Two32 ==> r == x + y
    ensures x + y >= Two32 ==> r + Two32 == x + y
  {
    (x + y) % Two32
  }

  // ---- controls -------------------------------------------------------

  const ENCODER_CLK: nat := 13
  const ENCODER_DT: nat := 15
  const ENCODER_SW: nat := 0
  const BUTTON_START: nat := 37
  const DEBOUNCE_MS: nat := 50
  /** The anti-chatter window of the encoder interrupt (a literal in the handler). */
  const ENCODER_GATE_MS: nat := 5

  /** Presence sensors of the five shot glasses, indexed from 0. */
  const GLASS_PINS: seq<nat> := [35, 36, 37, 38, 39]
  const SHOT_COUNT: nat := 5

  // ---- pouring --------------------------------------------------------

  const VOLUME_MIN: nat := 10
  const VOLUME_MAX: nat := 200
  const VOLUME_STEP: nat := 5
  const VOLUME_DEFAULT: nat := 25

  const PUMP_ML_PER_SEC: nat := 10
  const PUMP_SPEED_DEFAULT: U8 := 255

  const POS_SHOT_1: nat := 30
  const POS_SHOT_2: nat := 60
  const POS_SHOT_3: nat := 90
  const POS_SHOT_4: nat := 120
  const POS_SHOT_5: nat := 150
  const POS_PARKING: nat := 0

  /** `PourMode` codes. The firmware keeps the mode as a raw enum value, and
      the network path casts any integer into it, so it is an `int` here. */
  const MODE_MANUAL: int := 0
  const MODE_AUTO: int := 1

  const STATS_SAVE_INTERVAL: nat := 30000
  const MAX_POUR_TIME: nat := 30000

  predicate InVolumeRange(v: int) {
    VOLUME_MIN <= v <= VOLUME_MAX
  }

  /** How long the pump must run to deliver `vol` millilitres at the
      calibrated flow rate, in milliseconds. */
  function PourDurationMs(vol: U16): (ms: nat)
    ensures ms * PUMP_ML_PER_SEC == vol * 1000
    ensures InVolumeRange(vol) ==> 1000 <= ms <= 20000 < MAX_POUR_TIME
  {
    assert vol * 1000 == (vol * 100) * PUMP_ML_PER_SEC;
    vol * 1000 / PUMP_ML_PER_SEC
  }

  /** Servo angle for a shot position, as the `switch` in `startPour`
      computes it; a shot outside 1..5 leaves the initial 0. */
  function ServoPosition(shot: int): (angle: nat)
    ensures 1 <= shot <= SHOT_COUNT ==> angle == 30 * shot && angle != POS_PARKING
    ensures !(1 <= shot <= SHOT_COUNT) ==> angle == POS_PARKING
  {
    match shot
    case 1 => POS_SHOT_1
    case 2 => POS_SHOT_2
    case 3 => POS_SHOT_3
    case 4 => POS_SHOT_4
    case 5 => POS_SHOT_5
    case _ => 0
  }

  /** `g_selectedShot++; if (g_selectedShot > 5) g_selectedShot = 1;` on a
      `uint8_t`. */
  function NextShot(shot: U8): (r: U8)
    ensures 1 <= shot <= SHOT_COUNT ==> 1 <= r <= SHOT_COUNT && r % SHOT_COUNT == (shot + 1) % SHOT_COUNT
    ensures shot != Two8 - 1 ==> 1 <= r <= SHOT_COUNT
    ensures r == 0 <==> shot == Two8 - 1
  {
    var n := (shot + 1) % Two8;
    if n > SHOT_COUNT then 1 else n
  }

  /** `NextShot` applied `k` times. */
  function AdvanceShot(shot: U8, k: nat): U8 {
    if k == 0 then shot else NextShot(AdvanceShot(shot, k - 1))
  }

  /** Five advances bring every valid shot back to itself: the automatic
      mode visits every glass in turn. */
  lemma {:induction false} AdvanceShotCycle(shot: U8, k: nat)
    requires 1 <= shot <= SHOT_COUNT
    ensures 1 <= AdvanceShot(shot, k) <= SHOT_COUNT
    ensures AdvanceShot(shot, k) - 1 == (shot - 1 + k) % SHOT_COUNT
  {
    if k > 0 {
      AdvanceShotCycle(shot, k - 1);
      var p := AdvanceShot(shot, k - 1);
      assert AdvanceShot(shot, k) - 1 == p % SHOT_COUNT;
    }
  }

  // ---- states and statistics -----------------------------------------

  /** `SystemState`, in declaration order. */
  datatype SystemState = Idle | Ready | Moving | Pouring | Paused | Error | Cleaning

  /** The enum's numeric value. */
  function Code(s: SystemState): (c: int)
    ensures 0 <= c <= 6
  {
    match s
    case Idle => 0
    case Ready => 1
    case Moving => 2
    case Pouring => 3
    case Paused => 4
    case Error => 5
    case Cleaning => 6
  }

  /** Distinct states have distinct numeric values. */
  lemma CodeInjective(a: SystemState, b: SystemState)
    requires Code(a) == Code(b)
    ensures a == b
  {
  }

  /** `Statistics`: six `uint32_t` counters. */
  datatype Statistics = Statistics(
    totalPours: U32,
    totalVolume: U32,
    totalTime: U32,
    errors: U32,
    lastPourVolume: U32,
    lastPourTime: U32)

  const ZeroStats: Statistics := Statistics(0, 0, 0, 0, 0, 0)
}
