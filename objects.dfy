/** The objects the handlers update in place: the primary buffer (listener)
    and a sound buffer. Each handler is a method that assigns fields step by
    step as eax.c does; its contract says that the result code, the new state
    and the pushes it logs are exactly those of the matching function in
    Eax3, Eax2 or Eax1. */
module DSound {
  import opened Base
  import opened Records
  import opened Payloads
  import opened ReverbSchema
  import opened Host
  import opened ListenerCore
  import S = SourceSchema
  import opened Filter
  import opened BufferCore
  import E3 = Eax3
  import E2 = Eax2
  import E1 = Eax1

  /** The listener part of a DSPrimary. */
  class Primary {
    /** The preset tables and helper functions the handlers call. */
    const externals: Externals
    /** effect[0] != 0. */
    var effectPresent: bool
    /** deferred.fxslot[0].effect_type == FXSLOT_EFFECT_REVERB. */
    var slotIsReverb: bool
    /** deferred.fxslot[0].fx.reverb. */
    var deferredReverb: ReverbProps
    /** deferred.eax1_volume and deferred.eax1_dampening. */
    var eax1Volume: real
    var eax1Dampening: real
    /** Slot 0's FXSLOT_EFFECT_BIT in dirty.bit. */
    var effectDirty: bool
    /** Every push made to effect[0], oldest first. */
    ghost var pushes: seq<EffectPush>

    /** The collaborators behave as assumed, and the deferred environment
        indexes the EAX 1 tables. */
    ghost predicate Valid()
      reads this
    {
      Host.Valid(externals) && deferredReverb.environment < EnvironmentUndefined
    }

    function State(): (s: ListenerState)
      reads this
      ensures s.reverb == deferredReverb && s.effectDirty == effectDirty
    {
      ListenerState(effectPresent, slotIsReverb, deferredReverb, eax1Volume, eax1Dampening, effectDirty)
    }

    constructor(x: Externals, initial: ListenerState)
      requires Host.Valid(x) && EnvironmentInRange(initial)
      ensures Valid() && externals == x && State() == initial && pushes == []
    {
      externals := x;
      effectPresent := initial.effectPresent;
      slotIsReverb := initial.slotIsReverb;
      deferredReverb := initial.reverb;
      eax1Volume := initial.eax1Volume;
      eax1Dampening := initial.eax1Dampening;
      effectDirty := initial.effectDirty;
      pushes := [];
    }

    /** Replace the deferred record, push it whole and mark the effect dirty. */
    method LoadReverb(r: ReverbProps)
      modifies this
      ensures State() == old(State()).(reverb := r, effectDirty := true)
      ensures pushes == old(pushes) + [ApplyReverbParams(r)]
    {
      deferredReverb := r;
      pushes := pushes + [ApplyReverbParams(r)];
      effectDirty := true;
    }

    /** Store one field, push it and mark the effect dirty. */
    method StoreField(f: ReverbField, v: Value)
      requires KindOf(v) == FieldKind(f)
      modifies this
      ensures State() == old(State()).(reverb := WithField(old(deferredReverb), f, v), effectDirty := true)
      ensures pushes == old(pushes) + [FieldPush(f, deferredReverb)]
    {
      deferredReverb := WithField(deferredReverb, f, v);
      pushes := pushes + [FieldPush(f, deferredReverb)];
      effectDirty := true;
    }

    /** EAX3_Query. */
    method Eax3Query(id: PropId<E3.ListenerProp>) returns (hr: HResult, support: Option<set<Support>>)
      ensures QueryOutcome(hr, support) == E3.ListenerQuery(State(), id)
    {
      support := None;
      if !effectPresent { return PropIdUnsupported, None; }
      if id.name.None? { return PropIdUnsupported, None; }
      hr, support := DsOk, Some({SupportGet, SupportSet});
    }

    /** EAX3_Set. */
    method Eax3Set(id: PropId<E3.ListenerProp>, p: Payload) returns (hr: HResult)
      requires Valid() && E3.ListenerPayloadFits(id, p)
      modifies this
      ensures Valid()
      ensures var o := E3.ListenerSet(old(State()), id, p, externals);
              hr == o.hr && State() == o.state && pushes == old(pushes) + o.pushes
    {
      if !effectPresent { return PropIdUnsupported; }
      if !slotIsReverb { return InvalidCall; }
      hr := InvalidParam;
      if Routed(id).None? { return PropIdUnsupported; }
      match Routed(id).value {
        case ListenerNone =>
          hr := DsOk;
        case ListenerAllParameters =>
          if p.cb >= SizeOf(ReverbKind) {
            pushes := pushes + [ApplyReverbParams(p.value.reverbProps)];
            effectDirty := true;
            hr := DsOk;
          }
        case ListenerEnvironment =>
          if p.cb >= 4 && p.value.dw < EnvironmentUndefined {
            LoadReverb(externals.environmentDefaults[p.value.dw as int]);
            hr := DsOk;
          }
        case ListenerEnvironmentSize =>
          if p.cb >= 4 {
            LoadReverb(externals.rescaleEnvSize(deferredReverb, ClampF(p.value.fl, 1.0, 100.0)));
            hr := DsOk;
          }
        case ListenerField(f) =>
          if p.cb >= SizeOf(FieldKind(f)) {
            StoreField(f, p.value);
            hr := DsOk;
          }
      }
    }

    /** EAX3_Get: `data` is what is written through pPropData and `returned`
        what is written to *pcbReturned (None: left untouched). */
    method Eax3Get(id: PropId<E3.ListenerProp>, cb: nat)
      returns (hr: HResult, data: Option<Value>, returned: Option<nat>)
      ensures GetOutcome(hr, data, returned) == E3.ListenerGet(State(), id, cb)
    {
      data, returned := None, None;
      if !effectPresent { return PropIdUnsupported, None, None; }
      if !slotIsReverb { return InvalidCall, None, None; }
      if Routed(id).None? { return PropIdUnsupported, None, None; }
      var v: Value;
      match Routed(id).value {
        case ListenerNone => return DsOk, None, Some(0);
        case ListenerAllParameters => v := ReverbValue(deferredReverb);
        case ListenerEnvironment => v := DwordValue(deferredReverb.environment);
        case ListenerEnvironmentSize => v := FloatValue(deferredReverb.environmentSize);
        case ListenerField(f) => v := FieldValue(deferredReverb, f);
      }
      hr := InvalidParam;
      if cb >= SizeOf(KindOf(v)) {
        hr, data, returned := DsOk, Some(v), Some(SizeOf(KindOf(v)));
      }
    }

    /** EAX2_Query. */
    method Eax2Query(id: PropId<E2.ListenerProp>) returns (hr: HResult, support: Option<set<Support>>)
      ensures QueryOutcome(hr, support) == E2.ListenerQuery(State(), id)
    {
      support := None;
      if !effectPresent { return PropIdUnsupported, None; }
      if id.name.None? { return PropIdUnsupported, None; }
      hr, support := DsOk, Some({SupportGet, SupportSet});
    }

    /** EAX2_Set. */
    method Eax2Set(id: PropId<E2.ListenerProp>, p: Payload) returns (hr: HResult)
      requires Valid() && E2.ListenerPayloadFits(id, p)
      modifies this
      ensures Valid()
      ensures var o := E2.ListenerSet(old(State()), id, p, externals);
              hr == o.hr && State() == o.state && pushes == old(pushes) + o.pushes
    {
      if !effectPresent { return PropIdUnsupported; }
      if !slotIsReverb { return InvalidCall; }
      hr := InvalidParam;
      if Routed(id).None? { return PropIdUnsupported; }
      match Routed(id).value {
        case ListenerNone =>
          hr := DsOk;
        case ListenerAllParameters =>
          if p.cb >= SizeOf(Listener2Kind) {
            var v := p.value.listener2;
            var props := externals.presetGeneric;
            if v.environment < EnvironmentUndefined {
              props := externals.environmentDefaults[v.environment as int];
              props := props.(environment := v.environment);
            }
            props := Eax2Overlay(props, v);
            LoadReverb(props);
            hr := DsOk;
          }
        case ListenerEnvironment =>
          if p.cb >= 4 && p.value.dw < EnvironmentUndefined {
            LoadReverb(externals.environmentDefaults[p.value.dw as int]);
            hr := DsOk;
          }
        case ListenerEnvironmentSize =>
          if p.cb >= 4 {
            LoadReverb(externals.rescaleEnvSize(deferredReverb, ClampF(p.value.fl, 1.0, 100.0)));
            hr := DsOk;
          }
        case ListenerField(f) =>
          if p.cb >= SizeOf(FieldKind(f)) {
            StoreField(f, p.value);
            hr := DsOk;
          }
      }
    }

    /** EAX2_Get. */
    method Eax2Get(id: PropId<E2.ListenerProp>, cb: nat)
      returns (hr: HResult, data: Option<Value>, returned: Option<nat>)
      ensures GetOutcome(hr, data, returned) == E2.ListenerGet(State(), id, cb)
    {
      data, returned := None, None;
      if !effectPresent { return PropIdUnsupported, None, None; }
      if !slotIsReverb { return InvalidCall, None, None; }
      if Routed(id).None? { return PropIdUnsupported, None, None; }
      var v: Value;
      match Routed(id).value {
        case ListenerNone => return DsOk, None, Some(0);
        case ListenerAllParameters => v := Listener2Value(EAXRevTo2(deferredReverb));
        case ListenerEnvironment => v := DwordValue(deferredReverb.environment);
        case ListenerEnvironmentSize => v := FloatValue(deferredReverb.environmentSize);
        case ListenerField(f) =>
          if f == Flags {
            v := FlagsValue(deferredReverb.flags & Eax2ListenerFlagsMask);
          } else {
            v := FieldValue(deferredReverb, f);
          }
      }
      hr := InvalidParam;
      if cb >= SizeOf(KindOf(v)) {
        hr, data, returned := DsOk, Some(v), Some(SizeOf(KindOf(v)));
      }
    }

    /** EAX1_Query. */
    method Eax1Query(id: PropId<E1.ListenerProp>) returns (hr: HResult, support: Option<set<Support>>)
      ensures QueryOutcome(hr, support) == E1.ListenerQuery(State(), id)
    {
      support := None;
      if !effectPresent { return PropIdUnsupported, None; }
      if Routed(id).None? { return PropIdUnsupported, None; }
      hr, support := DsOk, Some({SupportGet, SupportSet});
    }

    /** EAX1_Set. */
    method Eax1Set(id: PropId<E1.ListenerProp>, p: Payload) returns (hr: HResult)
      requires Valid() && E1.ListenerPayloadFits(id, p)
      modifies this
      ensures Valid()
      ensures var o := E1.ListenerSet(old(State()), id, p, externals);
              hr == o.hr && State() == o.state && pushes == old(pushes) + o.pushes
    {
      if !effectPresent { return PropIdUnsupported; }
      if !slotIsReverb { return InvalidCall; }
      hr := InvalidParam;
      if Routed(id).None? { return PropIdUnsupported; }
      E1.TablesWellFormed();
      match Routed(id).value {
        case ListenerAll =>
          var v := p.value.listener1;
          if p.cb >= SizeOf(Listener1Kind) && v.environment < EnvironmentUndefined {
            var i := v.environment as int;
            var env := externals.environmentDefaults[i];
            var dbVol := ClampI(externals.gainToMb(v.volume / E1.Eax1EnvVolume[i]), -10000, 10000);
            env := env.(room := ClampI(env.room + dbVol, -10000, 0));
            env := env.(decayTime := v.decayTime);
            deferredReverb := env;
            eax1Volume := v.volume;
            eax1Dampening := v.damping;
            pushes := pushes + [ApplyReverbParams(env)];
            effectDirty := true;
            hr := DsOk;
          }
        case ListenerEnvironment =>
          if p.cb >= 4 && p.value.dw < EnvironmentUndefined {
            var i := p.value.dw as int;
            deferredReverb := externals.environmentDefaults[i];
            eax1Volume := E1.Eax1EnvVolume[i];
            eax1Dampening := E1.Eax1EnvDampening[i];
            pushes := pushes + [ApplyReverbParams(deferredReverb)];
            effectDirty := true;
            hr := DsOk;
          }
        case ListenerVolume =>
          if p.cb >= 4 {
            var i := deferredReverb.environment as int;
            var dbVol := ClampI(externals.gainToMb(p.value.fl / E1.Eax1EnvVolume[i]), -10000, 10000);
            var roomVol := ClampI(externals.environmentDefaults[i].room + dbVol, -10000, 0);
            deferredReverb := deferredReverb.(room := roomVol);
            eax1Volume := p.value.fl;
            pushes := pushes + [EffectGain(AlGain, roomVol as real)];
            effectDirty := true;
            hr := DsOk;
          }
        case ListenerDecayTime =>
          if p.cb >= 4 {
            StoreField(DecayTime, p.value);
            hr := DsOk;
          }
        case ListenerDamping =>
          if p.cb >= 4 {
            eax1Dampening := p.value.fl;
            hr := DsOk;
          }
      }
    }

    /** EAX1_Get. */
    method Eax1Get(id: PropId<E1.ListenerProp>, cb: nat)
      returns (hr: HResult, data: Option<Value>, returned: Option<nat>)
      ensures GetOutcome(hr, data, returned) == E1.ListenerGet(State(), id, cb)
    {
      data, returned := None, None;
      if !effectPresent { return PropIdUnsupported, None, None; }
      if !slotIsReverb { return InvalidCall, None, None; }
      if Routed(id).None? { return PropIdUnsupported, None, None; }
      var v: Value;
      match Routed(id).value {
        case ListenerAll =>
          v := Listener1Value(Listener1Props(deferredReverb.environment, eax1Volume,
                                             deferredReverb.decayTime, eax1Dampening));
        case ListenerEnvironment => v := DwordValue(deferredReverb.environment);
        case ListenerVolume => v := FloatValue(eax1Volume);
        case ListenerDecayTime => v := FloatValue(deferredReverb.decayTime);
        case ListenerDamping => v := FloatValue(eax1Dampening);
      }
      hr := InvalidParam;
      if cb >= SizeOf(KindOf(v)) {
        hr, data, returned := DsOk, Some(v), Some(SizeOf(KindOf(v)));
      }
    }
  }

  /** The EAX part of a DSBuffer. */
  class Buffer {
    /** deferred.eax and current.eax. */
    var deferredEax: SourceProps
    var currentEax: SourceProps
    /** deferred.eax1_reverbmix and current.eax1_reverbmix. */
    var deferredMix: real
    var currentMix: real
    /** filter[0] != 0 (dry) and filter[1] != 0 (send 0). */
    const hasDryFilter: bool
    const hasWetFilter: bool
    /** filter_mBLimit. */
    const mBLimit: real
    /** The bits of dirty.bit raised so far. */
    var dirty: set<S.DirtyBit>
    /** Every push made to the two filters, oldest first. */
    ghost var pushes: seq<FilterPush>

    function State(): (s: BufferState)
      reads this
      ensures s.deferred == deferredEax && s.current == currentEax && s.dirty == dirty
    {
      BufferState(deferredEax, currentEax, deferredMix, currentMix, hasDryFilter, hasWetFilter, mBLimit, dirty)
    }

    constructor(initial: BufferState)
      ensures State() == initial && pushes == []
    {
      deferredEax := initial.deferred;
      currentEax := initial.current;
      deferredMix := initial.deferredMix;
      currentMix := initial.currentMix;
      hasDryFilter := initial.hasDryFilter;
      hasWetFilter := initial.hasWetFilter;
      mBLimit := initial.mBLimit;
      dirty := initial.dirty;
      pushes := [];
    }

    /** ApplyFilterParams(buf, &buf->deferred.eax, apply). */
    method ApplyFilter(apply: S.Sides)
      modifies this
      ensures State() == old(State())
      ensures pushes == old(pushes) + ApplyFilterParams(deferredEax, apply, hasDryFilter, hasWetFilter, mBLimit)
    {
      pushes := pushes + ApplyFilterParams(deferredEax, apply, hasDryFilter, hasWetFilter, mBLimit);
    }

    /** A single-field Set: store, refilter the sides the field feeds, raise
        its bits. */
    method StoreField(f: S.SourceField, v: Value)
      requires KindOf(v) == S.FieldKind(f)
      modifies this
      ensures State() == old(State()).(deferred := S.WithField(old(deferredEax), f, v),
                                       dirty := old(dirty) + S.FieldDirty(f))
      ensures pushes == old(pushes)
                        + ApplyFilterParams(deferredEax, S.FieldSides(f), hasDryFilter, hasWetFilter, mBLimit)
    {
      deferredEax := S.WithField(deferredEax, f, v);
      ApplyFilter(S.FieldSides(f));
      dirty := dirty + S.FieldDirty(f);
    }

    /** EAX 3 ALLPARAMETERS: the whole record, both sides, every bit. */
    method StoreAll(props: SourceProps)
      modifies this
      ensures var o := Store(old(State()), props, S.BothSides, AllDirtyBits);
              State() == o.state && pushes == old(pushes) + o.pushes
    {
      deferredEax := props;
      ApplyFilter(S.BothSides);
      dirty := dirty + AllDirtyBits;
    }

    /** OBSTRUCTIONPARAMETERS: the two obstruction fields, the dry side. */
    method StoreObstruction(o: ObstructionProps)
      modifies this
      ensures var r := Store(old(State()), S.WithObstruction(old(deferredEax), o), S.DryOnly, {S.DryFilter});
              State() == r.state && pushes == old(pushes) + r.pushes
    {
      deferredEax := deferredEax.(obstruction := o.obstruction);
      deferredEax := deferredEax.(obstructionLFRatio := o.obstructionLFRatio);
      ApplyFilter(S.DryOnly);
      dirty := dirty + {S.DryFilter};
    }

    /** OCCLUSIONPARAMETERS: the four occlusion fields, both sides. */
    method StoreOcclusion(o: OcclusionProps)
      modifies this
      ensures var r := Store(old(State()), S.WithOcclusion(old(deferredEax), o), S.BothSides,
                             {S.DryFilter, S.Send0Filter});
              State() == r.state && pushes == old(pushes) + r.pushes
    {
      deferredEax := deferredEax.(occlusion := o.occlusion);
      deferredEax := deferredEax.(occlusionLFRatio := o.occlusionLFRatio);
      deferredEax := deferredEax.(occlusionRoomRatio := o.occlusionRoomRatio);
      deferredEax := deferredEax.(occlusionDirectRatio := o.occlusionDirectRatio);
      ApplyFilter(S.BothSides);
      dirty := dirty + {S.DryFilter, S.Send0Filter};
    }

    /** EXCLUSIONPARAMETERS: the two exclusion fields, the wet side. */
    method StoreExclusion(e: ExclusionProps)
      modifies this
      ensures var r := Store(old(State()), S.WithExclusion(old(deferredEax), e), S.WetOnly, {S.Send0Filter});
              State() == r.state && pushes == old(pushes) + r.pushes
    {
      deferredEax := deferredEax.(exclusion := e.exclusion);
      deferredEax := deferredEax.(exclusionLFRatio := e.exclusionLFRatio);
      ApplyFilter(S.WetOnly);
      dirty := dirty + {S.Send0Filter};
    }

    /** EAX3Buffer_Query. */
    method Eax3Query(id: PropId<E3.BufferProp>) returns (hr: HResult, support: Option<set<Support>>)
      ensures QueryOutcome(hr, support) == E3.BufferQuery(id)
    {
      if id.name.None? { return PropIdUnsupported, None; }
      hr, support := DsOk, Some({SupportGet, SupportSet});
    }

    /** EAX3Buffer_Set. */
    method Eax3Set(id: PropId<E3.BufferProp>, p: Payload) returns (hr: HResult)
      requires E3.BufferPayloadFits(id, p)
      modifies this
      ensures var o := E3.BufferSet(old(State()), id, p);
              hr == o.hr && State() == o.state && pushes == old(pushes) + o.pushes
    {
      hr := InvalidParam;
      if Routed(id).None? { return PropIdUnsupported; }
      match Routed(id).value {
        case BufferNone =>
          hr := DsOk;
        case BufferAllParameters =>
          if p.cb >= SizeOf(SourceKind) {
            StoreAll(p.value.source);
            hr := DsOk;
          }
        case ObstructionParameters =>
          if p.cb >= SizeOf(ObstructionKind) {
            StoreObstruction(p.value.obstructionProps);
            hr := DsOk;
          }
        case OcclusionParameters =>
          if p.cb >= SizeOf(OcclusionKind) {
            StoreOcclusion(p.value.occlusionProps);
            hr := DsOk;
          }
        case ExclusionParameters =>
          if p.cb >= SizeOf(ExclusionKind) {
            StoreExclusion(p.value.exclusionProps);
            hr := DsOk;
          }
        case BufferField(f) =>
          if p.cb >= SizeOf(S.FieldKind(f)) {
            StoreField(f, p.value);
            hr := DsOk;
          }
      }
    }

    /** EAX3Buffer_Get. */
    method Eax3Get(id: PropId<E3.BufferProp>, cb: nat)
      returns (hr: HResult, data: Option<Value>, returned: Option<nat>)
      ensures GetOutcome(hr, data, returned) == E3.BufferGet(State(), id, cb)
    {
      data, returned := None, None;
      if Routed(id).None? { return PropIdUnsupported, None, None; }
      var v: Value;
      match Routed(id).value {
        case BufferNone => return DsOk, None, Some(0);
        case BufferAllParameters => v := SourceValue(currentEax);
        case ObstructionParameters => v := ObstructionValue(S.EAXSourceObstruction(currentEax));
        case OcclusionParameters => v := OcclusionValue(S.EAXSourceOcclusion(currentEax));
        case ExclusionParameters => v := ExclusionValue(S.EAXSourceExclusion(currentEax));
        case BufferField(f) => v := S.FieldValue(currentEax, f);
      }
      hr := InvalidParam;
      if cb >= SizeOf(KindOf(v)) {
        hr, data, returned := DsOk, Some(v), Some(SizeOf(KindOf(v)));
      }
    }

    /** EAX2Buffer_Query. */
    method Eax2Query(id: PropId<E2.BufferProp>) returns (hr: HResult, support: Option<set<Support>>)
      ensures QueryOutcome(hr, support) == E2.BufferQuery(id)
    {
      if id.name.None? { return PropIdUnsupported, None; }
      hr, support := DsOk, Some({SupportGet, SupportSet});
    }

    /** EAX2Buffer_Set. */
    method Eax2Set(id: PropId<E2.BufferProp>, p: Payload) returns (hr: HResult)
      requires E2.BufferPayloadFits(id, p)
      modifies this
      ensures var o := E2.BufferSet(old(State()), id, p);
              hr == o.hr && State() == o.state && pushes == old(pushes) + o.pushes
    {
      hr := InvalidParam;
      if Routed(id).None? { return PropIdUnsupported; }
      match Routed(id).value {
        case BufferNone =>
          hr := DsOk;
        case BufferAllParameters =>
          if p.cb >= SizeOf(Source2Kind) {
            var v := p.value.source2;
            deferredEax := deferredEax.(direct := v.direct, directHF := v.directHF);
            deferredEax := deferredEax.(room := v.room, roomHF := v.roomHF);
            deferredEax := deferredEax.(roomRolloffFactor := v.roomRolloffFactor);
            deferredEax := deferredEax.(obstruction := v.obstruction,
                                        obstructionLFRatio := v.obstructionLFRatio);
            deferredEax := deferredEax.(occlusion := v.occlusion, occlusionLFRatio := v.occlusionLFRatio,
                                        occlusionRoomRatio := v.occlusionRoomRatio);
            deferredEax := deferredEax.(outsideVolumeHF := v.outsideVolumeHF);
            deferredEax := deferredEax.(airAbsorptionFactor := v.airAbsorptionFactor);
            deferredEax := deferredEax.(flags := v.flags);
            ApplyFilter(S.BothSides);
            dirty := dirty + E2.Eax2AllDirtyBits;
            hr := DsOk;
          }
        case BufferField(f) =>
          if p.cb >= SizeOf(S.FieldKind(f)) {
            StoreField(f, p.value);
            hr := DsOk;
          }
      }
    }

    /** EAX2Buffer_Get. */
    method Eax2Get(id: PropId<E2.BufferProp>, cb: nat)
      returns (hr: HResult, data: Option<Value>, returned: Option<nat>)
      ensures GetOutcome(hr, data, returned) == E2.BufferGet(State(), id, cb)
    {
      data, returned := None, None;
      if Routed(id).None? { return PropIdUnsupported, None, None; }
      var v: Value;
      match Routed(id).value {
        case BufferNone => return DsOk, None, Some(0);
        case BufferAllParameters => v := Source2Value(S.EAXSourceTo2(currentEax));
        case BufferField(f) => v := S.FieldValue(currentEax, f);
      }
      hr := InvalidParam;
      if cb >= SizeOf(KindOf(v)) {
        hr, data, returned := DsOk, Some(v), Some(SizeOf(KindOf(v)));
      }
    }

    /** EAX1Buffer_Query. */
    method Eax1Query(id: PropId<E1.BufferProp>) returns (hr: HResult, support: Option<set<Support>>)
      ensures QueryOutcome(hr, support) == E1.BufferQuery(id)
    {
      if Routed(id).None? { return PropIdUnsupported, None; }
      hr, support := DsOk, Some({SupportGet, SupportSet});
    }

    /** EAX1Buffer_Set. */
    method Eax1Set(id: PropId<E1.BufferProp>, p: Payload, x: Externals) returns (hr: HResult)
      requires E1.BufferPayloadFits(id, p)
      modifies this
      ensures var o := E1.BufferSet(old(State()), id, p, x);
              hr == o.hr && State() == o.state && pushes == old(pushes) + o.pushes
    {
      hr := InvalidParam;
      if Routed(id).None? { return PropIdUnsupported; }
      if p.cb >= 4 {
        deferredEax := deferredEax.(room := x.gainToMb(p.value.fl));
        deferredMix := p.value.fl;
        ApplyFilter(S.WetOnly);
        dirty := dirty + {S.Send0Filter};
        hr := DsOk;
      }
    }

    /** EAX1Buffer_Get. */
    method Eax1Get(id: PropId<E1.BufferProp>, cb: nat)
      returns (hr: HResult, data: Option<Value>, returned: Option<nat>)
      ensures GetOutcome(hr, data, returned) == E1.BufferGet(State(), id, cb)
    {
      data, returned := None, None;
      if Routed(id).None? { return PropIdUnsupported, None, None; }
      hr := InvalidParam;
      if cb >= 4 {
        hr, data, returned := DsOk, Some(FloatValue(currentMix)), Some(4);
      }
    }
  }
}
