/** Properties of the black-level-correction model that relate several calls
    or compare it with an independent per-channel statement of its policy. */
module BlcProperties {
  import opened Optional
  import opened IntTypes
  import opened IspParams
  import opened Blc

  /** Where one channel's resolved level comes from. */
  datatype Origin = FromTuning | FromSensor | FromFallback

  /** The precedence rule stated channel by channel: the sensor level is taken
      exactly when it exists and the tuning file is incomplete; otherwise a
      channel takes its own tuning value if it has one, else the fallback. */
  function ChannelOrigin(t: TuningLevels, sensor: Option<int16>, c: Channel): Origin
  {
    if sensor.Some? && !t.Complete() then FromSensor
    else if t.At(c).Some? then FromTuning
    else FromFallback
  }

  /** The level the per-channel rule designates for a channel. */
  function OriginLevel(t: TuningLevels, sensor: Option<int16>, c: Channel): int16
  {
    match ChannelOrigin(t, sensor, c)
    case FromTuning => t.At(c).value
    case FromSensor => sensor.value
    case FromFallback => FallbackLevel
  }

  /** `init`'s three-branch resolution agrees, on every channel and for every
      input, with the per-channel statement of the rule. */
  lemma ResolveFollowsOrigin(t: TuningLevels, sensor: Option<int16>, c: Channel)
    ensures Resolve(t, sensor).At(c) == OriginLevel(t, sensor, c)
  {
  }

  /** The fallback 4096 is used on a channel exactly when the sensor helper
      gives no level and the tuning file lacks that channel. */
  lemma FallbackUsedIff(t: TuningLevels, sensor: Option<int16>, c: Channel)
    ensures ChannelOrigin(t, sensor, c) == FromFallback <==> sensor.None? && t.At(c).None?
  {
  }

  /** The sensor level is used on some channel exactly when it exists and at
      least one tuning key is missing, and then it is used on all four. */
  lemma SensorLevelUsedIff(t: TuningLevels, sensor: Option<int16>)
    ensures (exists c :: ChannelOrigin(t, sensor, c) == FromSensor) <==> sensor.Some? && !t.Complete()
    ensures (exists c :: ChannelOrigin(t, sensor, c) == FromSensor) ==>
      forall c :: ChannelOrigin(t, sensor, c) == FromSensor
  {
    if sensor.Some? && !t.Complete() {
      assert ChannelOrigin(t, sensor, Red) == FromSensor;
    }
  }

  /** Channels draw on different sources only when the sensor helper gives no
      level: with a sensor level, all four channels share one origin. */
  lemma NoMixingWithSensorLevel(t: TuningLevels, sensor: Option<int16>, c: Channel, d: Channel)
    requires sensor.Some?
    ensures ChannelOrigin(t, sensor, c) == ChannelOrigin(t, sensor, d)
  {
  }

  /** A complete tuning file decides the levels alone: the sensor level,
      present or not, makes no difference. */
  lemma CompleteTuningOverridesSensor(t: TuningLevels, sensor: Option<int16>)
    requires t.Complete()
    ensures Resolve(t, sensor) == Resolve(t, None)
    ensures Resolve(t, sensor) == BlackLevels(t.red.value, t.greenR.value, t.greenB.value, t.blue.value)
  {
  }

  /** With a sensor level, an incomplete tuning file is ignored entirely: any
      two incomplete tuning files resolve to the same levels. */
  lemma PartialTuningIgnored(t: TuningLevels, u: TuningLevels, level: int16)
    requires !t.Complete() && !u.Complete()
    ensures Resolve(t, Some(level)) == Resolve(u, Some(level))
    ensures Resolve(t, Some(level)) == BlackLevels(level, level, level, level)
  {
  }

  /** Scaling to the register domain keeps the order of levels. */
  lemma ToRegisterMonotonic(x: int16, y: int16)
    requires x <= y
    ensures ToRegister(x) <= ToRegister(y)
  {
  }

  /** Running `prepare` twice on the same frame gives what running it once
      gives: the writes are assignments and bitwise ORs. */
  lemma PrepareIdempotent(a: Blc, frame: uint32, p: Params)
    ensures Prepare(a, frame, Prepare(a, frame, p)) == Prepare(a, frame, p)
  {
  }

  /** What `prepare` writes into the BLS configuration does not depend on what
      the buffer held before; only the masks keep their other bits. */
  lemma PrepareOverwritesBls(a: Blc, p: Params, p': Params)
    requires a.Resolved?
    ensures Prepare(a, 0, p).bls.enableAuto == Prepare(a, 0, p').bls.enableAuto
    ensures Prepare(a, 0, p).bls.fixedVal == Prepare(a, 0, p').bls.fixedVal
  {
  }

  /** After `init`, frame 0 receives the resolved levels scaled to 12 bits
      (floor division by 16) and every later frame is left alone. */
  lemma InitThenPrepare(a: Blc, t: TuningLevels, sensor: Option<int16>, frame: uint32, p: Params)
    ensures var b := Init(a, t, sensor).algo;
      && (frame == 0 ==>
            forall c :: FixedValAt(Prepare(b, frame, p).bls.fixedVal, c) == Resolve(t, sensor).At(c) as int / 16)
      && (frame > 0 ==> Prepare(b, frame, p) == p)
  {
  }

  /** With no tuning data and no sensor level, every channel resolves to 4096
      and frame 0 is programmed with 256 on every channel, the BLS module
      enabled and auto-measurement off. */
  lemma NothingProvidedScenario(p: Params)
    ensures var b := Init(Construct(), TuningLevels(None, None, None, None), None).algo;
      && b.levels == BlackLevels(4096, 4096, 4096, 4096)
      && Prepare(b, 0, p).bls.fixedVal == FixedVal(256, 256, 256, 256)
      && Prepare(b, 0, p).bls.enableAuto == 0
      && Prepare(b, 0, p).moduleEns & ModuleBls == ModuleBls
  {
  }

  /** A sensor level of 256 is overridden by a complete tuning file with
      distinct values. */
  lemma TuningBeatsSensorScenario()
    ensures Resolve(TuningLevels(Some(4000), Some(4016), Some(4032), Some(4048)), Some(256))
      == BlackLevels(4000, 4016, 4032, 4048)
  {
  }
}
