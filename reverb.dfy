/** The listener's reverb record: its single-valued properties, how each one
    is written and pushed to the reverb effect, and the EAX 2 view of it. */
module ReverbSchema {
  import opened Base
  import opened Records
  import opened Payloads

  /** The reverb properties that EAX 2 and 3 set and get one field at a time.
      ENVIRONMENT and ENVIRONMENTSIZE are not among them: they rewrite the
      whole record. */
  datatype ReverbField =
    | EnvironmentDiffusion | Room | RoomHF | RoomLF
    | DecayTime | DecayHFRatio | DecayLFRatio
    | Reflections | ReflectionsDelay | ReflectionsPan
    | Reverb | ReverbDelay | ReverbPan
    | EchoTime | EchoDepth | ModulationTime | ModulationDepth
    | AirAbsorptionHF | HFReference | LFReference | RoomRolloffFactor | Flags

  /** The fields EAX 2 exposes one at a time (DSPROPERTY_EAX20LISTENER_*). */
  predicate InEax2(f: ReverbField)
  {
    f in {EnvironmentDiffusion, Room, RoomHF, RoomRolloffFactor, DecayTime, DecayHFRatio,
          Reflections, ReflectionsDelay, Reverb, ReverbDelay, AirAbsorptionHF, Flags}
  }

  type Eax2ReverbField = f: ReverbField | InEax2(f) witness Room

  /** The C type of each field: LONG for gains, EAXVECTOR for pans, DWORD for
      the flags, float for everything else. */
  function FieldKind(f: ReverbField): Kind
  {
    match f
    case Room | RoomHF | RoomLF | Reflections | Reverb => LongKind
    case ReflectionsPan | ReverbPan => VectorKind
    case Flags => FlagsKind
    case _ => FloatKind
  }

  /** The value a Get of field `f` copies out of `r`. */
  function FieldValue(r: ReverbProps, f: ReverbField): (v: Value)
    ensures KindOf(v) == FieldKind(f)
  {
    match f
    case EnvironmentDiffusion => FloatValue(r.environmentDiffusion)
    case Room => LongValue(r.room)
    case RoomHF => LongValue(r.roomHF)
    case RoomLF => LongValue(r.roomLF)
    case DecayTime => FloatValue(r.decayTime)
    case DecayHFRatio => FloatValue(r.decayHFRatio)
    case DecayLFRatio => FloatValue(r.decayLFRatio)
    case Reflections => LongValue(r.reflections)
    case ReflectionsDelay => FloatValue(r.reflectionsDelay)
    case ReflectionsPan => VectorValue(r.reflectionsPan)
    case Reverb => LongValue(r.reverb)
    case ReverbDelay => FloatValue(r.reverbDelay)
    case ReverbPan => VectorValue(r.reverbPan)
    case EchoTime => FloatValue(r.echoTime)
    case EchoDepth => FloatValue(r.echoDepth)
    case ModulationTime => FloatValue(r.modulationTime)
    case ModulationDepth => FloatValue(r.modulationDepth)
    case AirAbsorptionHF => FloatValue(r.airAbsorptionHF)
    case HFReference => FloatValue(r.hfReference)
    case LFReference => FloatValue(r.lfReference)
    case RoomRolloffFactor => FloatValue(r.roomRolloffFactor)
    case Flags => FlagsValue(r.flags)
  }

  /** The store a single-field Set does into the deferred record. Reading the
      field back yields what was written, every other field keeps its value,
      and so do the environment index and size. */
  function WithField(r: ReverbProps, f: ReverbField, v: Value): (r': ReverbProps)
    requires KindOf(v) == FieldKind(f)
    ensures FieldValue(r', f) == v
    ensures forall g :: g != f ==> FieldValue(r', g) == FieldValue(r, g)
    ensures r'.environment == r.environment && r'.environmentSize == r.environmentSize
  {
    match f
    case EnvironmentDiffusion => r.(environmentDiffusion := v.fl)
    case Room => r.(room := v.l)
    case RoomHF => r.(roomHF := v.l)
    case RoomLF => r.(roomLF := v.l)
    case DecayTime => r.(decayTime := v.fl)
    case DecayHFRatio => r.(decayHFRatio := v.fl)
    case DecayLFRatio => r.(decayLFRatio := v.fl)
    case Reflections => r.(reflections := v.l)
    case ReflectionsDelay => r.(reflectionsDelay := v.fl)
    case ReflectionsPan => r.(reflectionsPan := v.vec)
    case Reverb => r.(reverb := v.l)
    case ReverbDelay => r.(reverbDelay := v.fl)
    case ReverbPan => r.(reverbPan := v.vec)
    case EchoTime => r.(echoTime := v.fl)
    case EchoDepth => r.(echoDepth := v.fl)
    case ModulationTime => r.(modulationTime := v.fl)
    case ModulationDepth => r.(modulationDepth := v.fl)
    case AirAbsorptionHF => r.(airAbsorptionHF := v.fl)
    case HFReference => r.(hfReference := v.fl)
    case LFReference => r.(lfReference := v.fl)
    case RoomRolloffFactor => r.(roomRolloffFactor := v.fl)
    case Flags => r.(flags := v.bits)
  }

  /** AL_EAXREVERB_* effect parameters. */
  datatype EffectParam =
    | AlDiffusion | AlGain | AlGainHF | AlGainLF
    | AlDecayTime | AlDecayHFRatio | AlDecayLFRatio
    | AlReflectionsGain | AlReflectionsDelay | AlReflectionsPan
    | AlLateReverbGain | AlLateReverbDelay | AlLateReverbPan
    | AlEchoTime | AlEchoDepth | AlModulationTime | AlModulationDepth
    | AlAirAbsorptionGainHF | AlHFReference | AlLFReference | AlRoomRolloffFactor
    | AlDecayHFLimit

  /** One push to the reverb effect, as recorded in the listener's log. */
  datatype EffectPush =
      /** ApplyReverbParams(effect, props): the whole record in one batch. */
    | ApplyReverbParams(props: ReverbProps)
      /** alEffectf(effect, param, mB_to_gain(mb)). */
    | EffectGain(param: EffectParam, mb: real)
      /** alEffectf(effect, param, value). */
    | EffectFloat(param: EffectParam, value: real)
      /** alEffectfv(effect, param, &vec.x). */
    | EffectVector(param: EffectParam, vec: Vector)
      /** alEffecti(effect, param, on ? AL_TRUE : AL_FALSE). */
    | EffectBool(param: EffectParam, on: bool)

  /** EAX20LISTENERFLAGS_* / EAX30LISTENERFLAGS_* bits. */
  const DecayTimeScale: bv32 := 0x01
  const ReflectionsScale: bv32 := 0x02
  const ReflectionsDelayScale: bv32 := 0x04
  const ReverbScale: bv32 := 0x08
  const ReverbDelayScale: bv32 := 0x10
  const DecayHFLimit: bv32 := 0x20

  /** EAX2LISTENERFLAGS_MASK (eax.c:1228-1233). */
  const Eax2ListenerFlagsMask: bv32 :=
    DecayTimeScale | ReflectionsScale | ReflectionsDelayScale | ReverbScale | ReverbDelayScale | DecayHFLimit

  /** The one effect parameter a single-field Set pushes, carrying the value
      just stored in `r`; the flags push only the decay-HF-limit bit. */
  function FieldPush(f: ReverbField, r: ReverbProps): EffectPush
  {
    match f
    case EnvironmentDiffusion => EffectFloat(AlDiffusion, r.environmentDiffusion)
    case Room => EffectGain(AlGain, r.room as real)
    case RoomHF => EffectGain(AlGainHF, r.roomHF as real)
    case RoomLF => EffectGain(AlGainLF, r.roomLF as real)
    case DecayTime => EffectFloat(AlDecayTime, r.decayTime)
    case DecayHFRatio => EffectFloat(AlDecayHFRatio, r.decayHFRatio)
    case DecayLFRatio => EffectFloat(AlDecayLFRatio, r.decayLFRatio)
    case Reflections => EffectGain(AlReflectionsGain, r.reflections as real)
    case ReflectionsDelay => EffectFloat(AlReflectionsDelay, r.reflectionsDelay)
    case ReflectionsPan => EffectVector(AlReflectionsPan, r.reflectionsPan)
    case Reverb => EffectGain(AlLateReverbGain, r.reverb as real)
    case ReverbDelay => EffectFloat(AlLateReverbDelay, r.reverbDelay)
    case ReverbPan => EffectVector(AlLateReverbPan, r.reverbPan)
    case EchoTime => EffectFloat(AlEchoTime, r.echoTime)
    case EchoDepth => EffectFloat(AlEchoDepth, r.echoDepth)
    case ModulationTime => EffectFloat(AlModulationTime, r.modulationTime)
    case ModulationDepth => EffectFloat(AlModulationDepth, r.modulationDepth)
    case AirAbsorptionHF => EffectGain(AlAirAbsorptionGainHF, r.airAbsorptionHF)
    case HFReference => EffectFloat(AlHFReference, r.hfReference)
    case LFReference => EffectFloat(AlLFReference, r.lfReference)
    case RoomRolloffFactor => EffectFloat(AlRoomRolloffFactor, r.roomRolloffFactor)
    case Flags => EffectBool(AlDecayHFLimit, r.flags & DecayHFLimit != 0)
  }

  /** EAXRevTo2: the EAX 2 listener's view of the reverb record. Its flags
      never show a bit outside EAX2LISTENERFLAGS_MASK. */
  function EAXRevTo2(props: ReverbProps): (r: Listener2Props)
    ensures r.flags & !Eax2ListenerFlagsMask == 0
    ensures r.flags | (props.flags & !Eax2ListenerFlagsMask) == props.flags
  {
    Listener2Props(
      room := props.room,
      roomHF := props.roomHF,
      roomRolloffFactor := props.roomRolloffFactor,
      decayTime := props.decayTime,
      decayHFRatio := props.decayHFRatio,
      reflections := props.reflections,
      reflectionsDelay := props.reflectionsDelay,
      reverb := props.reverb,
      reverbDelay := props.reverbDelay,
      environment := props.environment,
      environmentSize := props.environmentSize,
      environmentDiffusion := props.environmentDiffusion,
      airAbsorptionHF := props.airAbsorptionHF,
      flags := props.flags & Eax2ListenerFlagsMask)
  }

  /** The overwrite step of EAX 2 listener ALLPARAMETERS: the thirteen fields
      EAX 2 can express (flags unmasked) replace those of `base`; the
      environment index and every EAX 3-only field stay as in `base`. */
  function Eax2Overlay(base: ReverbProps, v: Listener2Props): (r: ReverbProps)
    ensures r.environment == base.environment
    ensures r.roomLF == base.roomLF && r.decayLFRatio == base.decayLFRatio
    ensures r.reflectionsPan == base.reflectionsPan && r.reverbPan == base.reverbPan
    ensures r.echoTime == base.echoTime && r.echoDepth == base.echoDepth
    ensures r.modulationTime == base.modulationTime && r.modulationDepth == base.modulationDepth
    ensures r.hfReference == base.hfReference && r.lfReference == base.lfReference
    ensures r.flags == v.flags
  {
    base.(
      environmentSize := v.environmentSize,
      environmentDiffusion := v.environmentDiffusion,
      room := v.room,
      roomHF := v.roomHF,
      decayTime := v.decayTime,
      decayHFRatio := v.decayHFRatio,
      reflections := v.reflections,
      reflectionsDelay := v.reflectionsDelay,
      reverb := v.reverb,
      reverbDelay := v.reverbDelay,
      airAbsorptionHF := v.airAbsorptionHF,
      roomRolloffFactor := v.roomRolloffFactor,
      flags := v.flags)
  }

  /** Writing an EAX 2 record and reading the EAX 2 view back returns what was
      written, except that the environment is the base's and the flags come
      back masked. */
  lemma RevTo2AfterOverlay(base: ReverbProps, v: Listener2Props)
    ensures EAXRevTo2(Eax2Overlay(base, v))
         == v.(environment := base.environment, flags := v.flags & Eax2ListenerFlagsMask)
  {
  }

  /** Writing back a record's own EAX 2 view changes nothing but the flags,
      which lose their EAX 3-only bits. */
  lemma OverlayOfRevTo2(r: ReverbProps)
    ensures Eax2Overlay(r, EAXRevTo2(r)) == r.(flags := r.flags & Eax2ListenerFlagsMask)
  {
  }
}
