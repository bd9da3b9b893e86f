/** The RkISP1 black-level-correction algorithm (`BlackLevelCorrection`):
    it resolves four per-channel black levels once, at `init`, and writes
    them into the parameter buffer of the first frame, at `prepare`. */
module Blc {
  import opened Optional
  import opened IntTypes
  import opened ArithShift
  import opened IspParams

  /** The level a channel gets when neither the tuning file nor the sensor
      helper provides one (sample domain, 16-bit). */
  const FallbackLevel: int16 := 4096

  /** The register fields hold 12-bit levels; the algorithm works with
      16-bit ones. */
  const RegisterShift: nat := 4

  /** The four Bayer channels. */
  datatype Channel = Red | GreenR | GreenB | Blue

  /** The levels read from the tuning file under the keys "R", "Gr", "Gb" and
      "B"; each key is present or absent independently. */
  datatype TuningLevels = TuningLevels(
    red: Option<int16>,
    greenR: Option<int16>,
    greenB: Option<int16>,
    blue: Option<int16>)
  {
    function At(c: Channel): Option<int16>
    {
      match c
      case Red => red
      case GreenR => greenR
      case GreenB => greenB
      case Blue => blue
    }

    /** All four keys are present (`tuningHasLevels`). */
    predicate Complete()
    {
      red.Some? && greenR.Some? && greenB.Some? && blue.Some?
    }
  }

  /** The resolved black levels, one per channel. */
  datatype BlackLevels = BlackLevels(red: int16, greenR: int16, greenB: int16, blue: int16)
  {
    function At(c: Channel): int16
    {
      match c
      case Red => red
      case GreenR => greenR
      case GreenB => greenB
      case Blue => blue
    }
  }

  /** The algorithm object. `Unresolved` is `tuningParameters_ == false`;
      `Resolved` carries the levels `init` chose. */
  datatype Blc = Unresolved | Resolved(levels: BlackLevels)

  /** What `init` leaves behind: the updated algorithm and its return code. */
  datatype InitResult = InitResult(algo: Blc, status: int)

  function FixedValAt(v: FixedVal, c: Channel): int
  {
    match c
    case Red => v.r
    case GreenR => v.gr
    case GreenB => v.gb
    case Blue => v.b
  }

  /** The constructor: a new algorithm is unresolved, and so leaves every
      parameter buffer it is handed untouched. */
  function Construct(): (a: Blc)
    ensures forall frame: uint32, p: Params :: Prepare(a, frame, p) == p
  {
    Unresolved
  }

  /** The precedence rule of `init`. Without a sensor-helper level each
      channel independently takes its tuning value or the fallback; with one,
      a complete set of tuning values still wins, and anything less is
      ignored in favour of the sensor level on all four channels. */
  function Resolve(t: TuningLevels, sensor: Option<int16>): (levels: BlackLevels)
    ensures sensor.None? ==>
      forall c :: t.At(c).Some? ==> levels.At(c) == t.At(c).value
    ensures sensor.None? ==>
      forall c :: t.At(c).None? ==> levels.At(c) == FallbackLevel
    ensures sensor.Some? && t.Complete() ==>
      forall c :: levels.At(c) == t.At(c).value
    ensures sensor.Some? && !t.Complete() ==>
      forall c :: levels.At(c) == sensor.value
  {
    if sensor.None? then
      BlackLevels(
        t.red.ValueOr(FallbackLevel),
        t.greenR.ValueOr(FallbackLevel),
        t.greenB.ValueOr(FallbackLevel),
        t.blue.ValueOr(FallbackLevel))
    else if t.Complete() then
      BlackLevels(t.red.value, t.greenR.value, t.greenB.value, t.blue.value)
    else
      BlackLevels(sensor.value, sensor.value, sensor.value, sensor.value)
  }

  /** `init`: resolves the levels whatever the algorithm held before, never
      fails, and latches the resolved state. */
  function Init(a: Blc, t: TuningLevels, sensor: Option<int16>): (r: InitResult)
    ensures r.status == 0
    ensures r.algo.Resolved?
    ensures r.algo.levels == Resolve(t, sensor)
  {
    InitResult(Resolved(Resolve(t, sensor)), 0)
  }

  /** One level scaled from the 16-bit sample domain to the 12-bit register
      domain by `level >> 4`: the four low bits are dropped, rounding toward
      negative infinity, and the result fits a 12-bit register field. */
  function ToRegister(level: int16): (v: int)
    ensures v * 16 <= level as int < v * 16 + 16
    ensures v == level as int / 16
    ensures -0x800 <= v < 0x800
    ensures 0 <= level ==> 0 <= v < 0x1000
  {
    ShiftRightIsFloorDiv(level as int, RegisterShift);
    ShiftRight(level as int, RegisterShift)
  }

  /** `prepare`: on frame 0 of a resolved algorithm, program fixed black
      levels and mark the BLS module as updated, enabled and reconfigured;
      on any other frame, or before `init`, leave the buffer alone. */
  function Prepare(a: Blc, frame: uint32, p: Params): (q: Params)
    ensures frame > 0 || a.Unresolved? ==> q == p
    ensures frame == 0 && a.Resolved? ==>
      && q.bls.enableAuto == 0
      && (forall c :: FixedValAt(q.bls.fixedVal, c) * 16 <= a.levels.At(c) as int < FixedValAt(q.bls.fixedVal, c) * 16 + 16)
      && SetsOnly(p.moduleEnUpdate, q.moduleEnUpdate, ModuleBls)
      && SetsOnly(p.moduleEns, q.moduleEns, ModuleBls)
      && SetsOnly(p.moduleCfgUpdate, q.moduleCfgUpdate, ModuleBls)
      && q.bls.measurement == p.bls.measurement
      && q.otherModules == p.otherModules
  {
    if frame > 0 then p
    else if a.Unresolved? then p
    else
      var levels := a.levels;
      var bls := p.bls.(
        enableAuto := 0,
        fixedVal := FixedVal(
          ToRegister(levels.red),
          ToRegister(levels.greenR),
          ToRegister(levels.greenB),
          ToRegister(levels.blue)));
      p.(
        bls := bls,
        moduleEnUpdate := p.moduleEnUpdate | ModuleBls,
        moduleEns := p.moduleEns | ModuleBls,
        moduleCfgUpdate := p.moduleCfgUpdate | ModuleBls)
  }
}
