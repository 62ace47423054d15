/**
 * The A1 environment sensor driver: the status bytes for air quality, light
 * and noise become levels the flow cards compare against. The levels are
 * fields of the device that each poll overwrites.
 */
module A1 {
  import opened Results
  import opened Bytes
  import opened Codec
  import opened Communicate

  /** The level every sensor shows before its first good reading, and after a byte out of range. */
  const Unknown: int := 11

  datatype Sensor = Air | Light | Noise

  /**
   * The air quality and the light byte, 0..3, are levels 1..4 (excellent,
   * good, normal, bad and dark, dim, normal, bright).
   */
  function FourLevels(b: Option<byte>): (level: int)
    ensures level == Unknown <==> b.None? || b.value > 3
    ensures level != Unknown ==> level == b.value + 1 && 1 <= level <= 4
  {
    match b
    case Some(0) => 1
    case Some(1) => 2
    case Some(2) => 3
    case Some(3) => 4
    case _ => Unknown
  }

  /** Noise byte 0..2 is quiet, normal, noisy (levels 1..3). */
  function NoiseLevel(b: Option<byte>): (level: int)
    ensures level == Unknown <==> b.None? || b.value > 2
    ensures level != Unknown ==> level == b.value + 1 && 1 <= level <= 3
  {
    match b
    case Some(0) => 1
    case Some(1) => 2
    case Some(2) => 3
    case _ => Unknown
  }

  /** The level names the capabilities and the trigger tokens carry. */
  function LevelName(s: Sensor, level: int): string
  {
    match s
    case Air =>
      if level == 1 then "excellent" else if level == 2 then "good"
      else if level == 3 then "normal" else if level == 4 then "bad" else "unknown"
    case Light =>
      if level == 1 then "dark" else if level == 2 then "dim"
      else if level == 3 then "normal" else if level == 4 then "bright" else "unknown"
    case Noise =>
      if level == 1 then "quiet" else if level == 2 then "normal"
      else if level == 3 then "noisy" else "unknown"
  }

  /** Within one sensor the names tell the levels apart. */
  lemma LevelNamesDistinct(s: Sensor, a: int, b: int)
    requires a in {1, 2, 3, 4, Unknown} && b in {1, 2, 3, 4, Unknown}
    requires s == Noise ==> a != 4 && b != 4
    ensures LevelName(s, a) == LevelName(s, b) <==> a == b
  {
  }

  datatype Levels = Levels(air: int, light: int, noise: int)

  function LevelOf(l: Levels, s: Sensor): int
  {
    match s
    case Air => l.air
    case Light => l.light
    case Noise => l.noise
  }

  /** The levels a status payload shows: air is byte 6, light byte 4, noise byte 8. */
  function Sensed(status: seq<byte>): Levels
  {
    Levels(FourLevels(At(status, 6)), FourLevels(At(status, 4)), NoiseLevel(At(status, 8)))
  }

  /** A write of a sensor's name and number capabilities, and a fired change trigger. */
  datatype Write = Write(sensor: Sensor, name: string, level: int)
  datatype Fired = Fired(sensor: Sensor, token: string)

  /** The capability writes of one poll, in order; a sensor at `Unknown` writes nothing. */
  function Writes(l: Levels): (w: seq<Write>)
    ensures forall s :: (exists k :: 0 <= k < |w| && w[k].sensor == s) <==> LevelOf(l, s) != Unknown
    ensures forall k :: 0 <= k < |w| ==>
      (w[k].level == LevelOf(l, w[k].sensor) && w[k].level != Unknown &&
       w[k].name == LevelName(w[k].sensor, w[k].level))
  {
    var a := if l.air != Unknown then [Write(Air, LevelName(Air, l.air), l.air)] else [];
    var b := if l.light != Unknown then [Write(Light, LevelName(Light, l.light), l.light)] else [];
    var c := if l.noise != Unknown then [Write(Noise, LevelName(Noise, l.noise), l.noise)] else [];
    assert forall k :: 0 <= k < |a + b + c| ==>
      (a + b + c)[k] in a || (a + b + c)[k] in b || (a + b + c)[k] in c;
    assert l.air != Unknown ==> (a + b + c)[0].sensor == Air;
    assert l.light != Unknown ==> (a + b + c)[|a|].sensor == Light;
    assert l.noise != Unknown ==> (a + b + c)[|a| + |b|].sensor == Noise;
    a + b + c
  }

  /** The triggers of one poll, in order: one per sensor whose level changed. */
  function Fires(before: Levels, after: Levels): (f: seq<Fired>)
    ensures forall s :: (exists k :: 0 <= k < |f| && f[k].sensor == s) <==> LevelOf(before, s) != LevelOf(after, s)
    ensures forall k :: 0 <= k < |f| ==> f[k].token == LevelName(f[k].sensor, LevelOf(after, f[k].sensor))
  {
    var a := if before.air != after.air then [Fired(Air, LevelName(Air, after.air))] else [];
    var b := if before.light != after.light then [Fired(Light, LevelName(Light, after.light))] else [];
    var c := if before.noise != after.noise then [Fired(Noise, LevelName(Noise, after.noise))] else [];
    FiresParts(before, after, a, b, c);
    a + b + c
  }

  /** The trigger list of `Fires`, built from its three optional parts. */
  lemma FiresParts(before: Levels, after: Levels, a: seq<Fired>, b: seq<Fired>, c: seq<Fired>)
    requires a == if before.air != after.air then [Fired(Air, LevelName(Air, after.air))] else []
    requires b == if before.light != after.light then [Fired(Light, LevelName(Light, after.light))] else []
    requires c == if before.noise != after.noise then [Fired(Noise, LevelName(Noise, after.noise))] else []
    ensures var f := a + b + c;
      && (forall s :: (exists k :: 0 <= k < |f| && f[k].sensor == s) <==> LevelOf(before, s) != LevelOf(after, s))
      && (forall k :: 0 <= k < |f| ==> f[k].token == LevelName(f[k].sensor, LevelOf(after, f[k].sensor)))
  {
    var f := a + b + c;
    assert forall k :: 0 <= k < |f| ==> f[k] in a || f[k] in b || f[k] in c;
    forall s
      ensures (exists k :: 0 <= k < |f| && f[k].sensor == s) <==> LevelOf(before, s) != LevelOf(after, s)
    {
      match s
      case Air => if before.air != after.air { assert f[0].sensor == Air; }
      case Light => if before.light != after.light { assert f[|a|].sensor == Light; }
      case Noise => if before.noise != after.noise { assert f[|a| + |b|].sensor == Noise; }
    }
  }

  /** A second poll over the same status fires nothing. */
  lemma PollSettles(status: seq<byte>)
    ensures Fires(Sensed(status), Sensed(status)) == []
  {
  }

  /** The values `getAirQualityList(mode)` offers. */
  function AirQualityList(mode: string): seq<int>
  {
    if mode == "better" then [2, 3, 4] else if mode == "worse" then [1, 2, 3] else [1, 2, 3, 4]
  }

  /** The values `getLightLevelList(mode)` offers. */
  function LightLevelList(mode: string): seq<int>
  {
    if mode == "brighter" then [1, 2, 3] else if mode == "darker" then [2, 3, 4] else [1, 2, 3, 4]
  }

  /** The values `getNoiseLevelList(mode)` offers. */
  function NoiseLevelList(mode: string): seq<int>
  {
    if mode == "louder" then [1, 2] else if mode == "softer" then [2, 3] else [1, 2, 3]
  }

  /** The comparison conditions, of a chosen value against the current level. */
  datatype Condition =
    | AirIs | AirBetter | AirWorse
    | LightIs | LightBrighter | LightDarker
    | NoiseIs | NoiseSofter | NoiseLouder

  function SensorOf(cond: Condition): Sensor
  {
    match cond
    case AirIs => Air case AirBetter => Air case AirWorse => Air
    case LightIs => Light case LightBrighter => Light case LightDarker => Light
    case NoiseIs => Noise case NoiseSofter => Noise case NoiseLouder => Noise
  }

  /** `check_airquality_level*`, `check_lightlevel*` and `check_noiselevel*`. */
  predicate Holds(cond: Condition, chosen: int, l: Levels)
  {
    var current := LevelOf(l, SensorOf(cond));
    match cond
    case AirIs => chosen == current
    case AirBetter => chosen > current
    case AirWorse => chosen < current
    case LightIs => chosen == current
    case LightBrighter => chosen < current
    case LightDarker => chosen > current
    case NoiseIs => chosen == current
    case NoiseSofter => chosen > current
    case NoiseLouder => chosen < current
  }

  /** The list a comparison condition's card offers. */
  function ChoiceList(cond: Condition): seq<int>
  {
    match cond
    case AirIs => AirQualityList("") case AirBetter => AirQualityList("better")
    case AirWorse => AirQualityList("worse")
    case LightIs => LightLevelList("") case LightBrighter => LightLevelList("brighter")
    case LightDarker => LightLevelList("darker")
    case NoiseIs => NoiseLevelList("") case NoiseSofter => NoiseLevelList("softer")
    case NoiseLouder => NoiseLevelList("louder")
  }

  /** The top known level of a sensor. */
  function Top(s: Sensor): int
  {
    if s == Noise then 3 else 4
  }

  /**
   * Each card offers exactly the known levels for which its condition holds
   * at some known level of its sensor, in increasing order.
   */
  lemma ListsMatchConditions(cond: Condition, v: int)
    ensures v in ChoiceList(cond) <==>
      (1 <= v <= Top(SensorOf(cond)) &&
       exists current :: 1 <= current <= Top(SensorOf(cond)) &&
         Holds(cond, v, Levels(current, current, current)))
    ensures forall i, j :: 0 <= i < j < |ChoiceList(cond)| ==> ChoiceList(cond)[i] < ChoiceList(cond)[j]
  {
    var top := Top(SensorOf(cond));
    if v in ChoiceList(cond) {
      var current := match cond
        case AirBetter => v - 1 case LightDarker => v - 1 case NoiseSofter => v - 1
        case AirWorse => v + 1 case LightBrighter => v + 1 case NoiseLouder => v + 1
        case _ => v;
      assert 1 <= current <= top && Holds(cond, v, Levels(current, current, current));
    }
    if 1 <= v <= top && exists current :: 1 <= current <= top && Holds(cond, v, Levels(current, current, current)) {
      var current :| 1 <= current <= top && Holds(cond, v, Levels(current, current, current));
      match cond
      case AirIs => assert v in [1, 2, 3, 4];
      case AirBetter => assert v in [2, 3, 4];
      case AirWorse => assert v in [1, 2, 3];
      case LightIs => assert v in [1, 2, 3, 4];
      case LightBrighter => assert v in [1, 2, 3];
      case LightDarker => assert v in [2, 3, 4];
      case NoiseIs => assert v in [1, 2, 3];
      case NoiseSofter => assert v in [2, 3];
      case NoiseLouder => assert v in [1, 2];
    }
  }

  /**
   * While a sensor is at `Unknown`, every value its "worse", "brighter" or
   * "louder" card offers holds and none of the opposite cards' values does.
   */
  lemma UnknownConditions(cond: Condition, v: int, l: Levels)
    requires LevelOf(l, SensorOf(cond)) == Unknown && v in ChoiceList(cond)
    ensures cond in {AirWorse, LightBrighter, NoiseLouder} ==> Holds(cond, v, l)
    ensures cond !in {AirWorse, LightBrighter, NoiseLouder} ==> !Holds(cond, v, l)
  {
  }

  class A1Device {
    var airQuality: int
    var lightLevel: int
    var noiseLevel: int
    const comm: Communicate

    function Current(): Levels
      reads this
    {
      Levels(airQuality, lightLevel, noiseLevel)
    }

    /** `onInit`: every sensor starts at `Unknown`. */
    constructor (comm: Communicate)
      ensures this.comm == comm
      ensures Current() == Levels(Unknown, Unknown, Unknown)
    {
      this.comm := comm;
      airQuality, lightLevel, noiseLevel := Unknown, Unknown, Unknown;
    }

    /**
     * `onCheckInterval()`: one status read. A read that throws changes no
     * level; otherwise the three levels become those the payload shows, the
     * known ones are written, and the changed ones fire.
     */
    method OnCheckInterval() returns (writes: seq<Write>, fired: seq<Fired>)
      modifies this, comm
      ensures var read := Expect0(SendPacketRun(comm.cipher, old(comm.Snapshot()), CmdControl, Codec.ReadStatus));
        && comm.Snapshot() == read.link
        && (read.result.Throw? ==> Current() == old(Current()) && writes == [] && fired == [])
        && (read.result.Ok? ==>
              && Current() == Sensed(read.result.value)
              && writes == Writes(Current())
              && fired == Fires(old(Current()), Current()))
    {
      var response := comm.ReadStatus();
      if response.Throw? {
        return [], [];
      }
      var before := Current();
      var air := FourLevels(At(response.value, 6));
      var light := FourLevels(At(response.value, 4));
      var noise := NoiseLevel(At(response.value, 8));
      airQuality, lightLevel, noiseLevel := air, light, noise;
      var a := if air != Unknown then [Write(Air, LevelName(Air, air), air)] else [];
      var b := if light != Unknown then [Write(Light, LevelName(Light, light), light)] else [];
      var c := if noise != Unknown then [Write(Noise, LevelName(Noise, noise), noise)] else [];
      writes := a + b + c;
      var x := if before.air != air then [Fired(Air, LevelName(Air, air))] else [];
      var y := if before.light != light then [Fired(Light, LevelName(Light, light))] else [];
      var z := if before.noise != noise then [Fired(Noise, LevelName(Noise, noise))] else [];
      fired := x + y + z;
    }

    /** A comparison condition of a flow card against the current levels. */
    function Check(cond: Condition, chosen: int): (holds: bool)
      reads this
      ensures holds == Holds(cond, chosen, Current())
    {
      var current := match SensorOf(cond)
        case Air => airQuality
        case Light => lightLevel
        case Noise => noiseLevel;
      match cond
      case AirIs => chosen == current
      case AirBetter => chosen > current
      case AirWorse => chosen < current
      case LightIs => chosen == current
      case LightBrighter => chosen < current
      case LightDarker => chosen > current
      case NoiseIs => chosen == current
      case NoiseSofter => chosen > current
      case NoiseLouder => chosen < current
    }
  }
}
