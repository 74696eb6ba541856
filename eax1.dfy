/** EAX 1.0: EAX1_Query/Set/Get on the listener (eax.c:2050-2308) and
    EAX1Buffer_Query/Set/Get on a buffer (eax.c:2311-2389). EAX 1 has no
    deferred modifier: every handler, Query included, switches on the raw id. */
module Eax1 {
  import opened Base
  import opened Records
  import opened Payloads
  import opened ReverbSchema
  import opened Host
  import opened ListenerCore
  import S = SourceSchema
  import opened Filter
  import opened BufferCore

  /** DSPROPERTY_EAX10LISTENER_*. */
  datatype ListenerProp =
    | ListenerAll
    | ListenerEnvironment
    | ListenerVolume
    | ListenerDecayTime
    | ListenerDamping

  /** The C type each listener property carries. */
  function ListenerKind(q: ListenerProp): (k: Kind)
    ensures q == ListenerAll <==> k == Listener1Kind
    ensures q == ListenerEnvironment <==> k == DwordKind
  {
    match q
    case ListenerAll => Listener1Kind
    case ListenerEnvironment => DwordKind
    case ListenerVolume => FloatKind
    case ListenerDecayTime => FloatKind
    case ListenerDamping => FloatKind
  }

  /** The caller passes data of the type the property it names expects. */
  predicate ListenerPayloadFits(id: PropId<ListenerProp>, p: Payload)
  {
    Routed(id).None? || KindOf(p.value) == ListenerKind(Routed(id).value)
  }

  /** eax1_env_volume (eax.c:2073-2077): each environment's default EAX 1
      volume. */
  const Eax1EnvVolume: seq<real> := [
    0.5, 0.25, 0.417, 0.653, 0.208, 0.5, 0.403, 0.5, 0.5,
    0.361, 0.5, 0.153, 0.361, 0.444, 0.25, 0.111, 0.111,
    0.194, 1.0, 0.097, 0.208, 0.652, 1.0, 0.875, 0.139, 0.486]

  /** eax1_env_dampening (eax.c:2078-2082): each environment's default EAX 1
      damping. */
  const Eax1EnvDampening: seq<real> := [
    0.5, 0.0, 0.666, 0.166, 0.0, 0.888, 0.5, 0.5, 1.304,
    0.332, 0.3, 2.0, 0.0, 0.638, 0.776, 0.472, 0.224, 0.472,
    0.5, 0.224, 1.5, 0.25, 0.0, 1.388, 0.666, 0.806]

  /** Both tables have one entry per environment, and every default volume is
      positive, so dividing by it is defined. */
  lemma TablesWellFormed()
    ensures |Eax1EnvVolume| == EnvironmentUndefined as int
    ensures |Eax1EnvDampening| == EnvironmentUndefined as int
    ensures forall i :: 0 <= i < |Eax1EnvVolume| ==> Eax1EnvVolume[i] > 0.0
  {
  }

  /** The room level an EAX 1 volume stands for in environment `env`: the
      volume's offset from the environment's default EAX 1 volume, in
      millibels and clamped to +-10000, added to the preset's room level,
      with the sum clamped to [-10000, 0] (eax.c:2124-2130, 2165-2172). */
  function RoomForVolume(volume: real, env: u32, x: Externals): (room: int)
    requires Valid(x) && env < EnvironmentUndefined
    ensures -10000 <= room <= 0
  {
    TablesWellFormed();
    var dbVol := ClampI(x.gainToMb(volume / Eax1EnvVolume[env as int]), -10000, 10000);
    ClampI(x.environmentDefaults[env as int].room + dbVol, -10000, 0)
  }

  /** EAX1_Query (eax.c:2050-2069): needs an effect; an id carrying any
      modifier bit is unknown. */
  function ListenerQuery(s: ListenerState, id: PropId<ListenerProp>): (r: QueryOutcome)
    ensures r.hr == DsOk <==> s.effectPresent && id.name.Some? && !id.deferred
    ensures r.hr == DsOk ==> r.support == Some({SupportGet, SupportSet})
    ensures r.hr != DsOk ==> r == QueryOutcome(PropIdUnsupported, None)
  {
    QueryListener(s, Routed(id))
  }

  /** EAX1_Set (eax.c:2071-2218). VOLUME reads the stored environment, so it
      needs that environment to index the tables. */
  function ListenerSet(s: ListenerState, id: PropId<ListenerProp>, p: Payload, x: Externals)
    : (r: ListenerOutcome)
    requires Valid(x) && ListenerPayloadFits(id, p)
    requires Routed(id) == Some(ListenerVolume) ==> EnvironmentInRange(s)
    ensures Guard(s).Some? ==> r == Rejected(s, Guard(s).value)
    ensures Guard(s).None? && Routed(id).None? ==> r == Rejected(s, PropIdUnsupported)
    ensures r.hr != DsOk ==> r.state == s && r.pushes == []
    ensures r.hr == DsOk ==> Guard(s).None? && Routed(id).Some?
    // the guards' inputs never change, and the dirty bit is never cleared
    ensures r.state.effectPresent == s.effectPresent && r.state.slotIsReverb == s.slotIsReverb
    ensures s.effectDirty ==> r.state.effectDirty
    ensures r.hr == DsOk && Routed(id) != Some(ListenerDamping) ==> r.state.effectDirty
    // ALL: an in-range environment loads its preset, with the room level
    // derived from the volume and the decay time taken from the caller
    ensures Guard(s).None? && Routed(id) == Some(ListenerAll) ==>
              (r.hr == DsOk <==> p.cb >= SizeOf(Listener1Kind)
                                 && p.value.listener1.environment < EnvironmentUndefined)
    ensures Routed(id) == Some(ListenerAll) && r.hr == DsOk ==>
              var v := p.value.listener1;
              && r.state.reverb == x.environmentDefaults[v.environment as int].(
                                     room := RoomForVolume(v.volume, v.environment, x),
                                     decayTime := v.decayTime)
              && r.state.eax1Volume == v.volume && r.state.eax1Dampening == v.damping
              && r.pushes == [ApplyReverbParams(r.state.reverb)]
    // ENVIRONMENT: the preset plus the environment's default volume and
    // damping
    ensures Guard(s).None? && Routed(id) == Some(ListenerEnvironment) ==>
              (r.hr == DsOk <==> p.cb >= 4 && p.value.dw < EnvironmentUndefined)
    ensures Routed(id) == Some(ListenerEnvironment) && r.hr == DsOk ==>
              && r.state.reverb == x.environmentDefaults[p.value.dw as int]
              && r.state.eax1Volume == Eax1EnvVolume[p.value.dw as int]
              && r.state.eax1Dampening == Eax1EnvDampening[p.value.dw as int]
              && r.pushes == [ApplyReverbParams(r.state.reverb)]
    // VOLUME: only the room level changes, to a level in [-10000, 0]
    // computed afresh from the preset, and the volume is kept as given
    ensures Routed(id) == Some(ListenerVolume) && r.hr == DsOk ==>
              var room := RoomForVolume(p.value.fl, s.reverb.environment, x);
              && r.state.reverb == s.reverb.(room := room)
              && r.state.eax1Volume == p.value.fl
              && r.state.eax1Dampening == s.eax1Dampening
              && r.pushes == [EffectGain(AlGain, room as real)]
    ensures Routed(id) == Some(ListenerDecayTime) && r.hr == DsOk ==>
              && r.state.reverb == s.reverb.(decayTime := p.value.fl)
              && r.state.eax1Volume == s.eax1Volume && r.state.eax1Dampening == s.eax1Dampening
              && r.pushes == [EffectFloat(AlDecayTime, p.value.fl)]
    // DAMPING: stored, nothing pushed, nothing marked dirty
    ensures Routed(id) == Some(ListenerDamping) && r.hr == DsOk ==>
              r.state == s.(eax1Dampening := p.value.fl) && r.pushes == []
    ensures Guard(s).None? && Routed(id).Some? && Routed(id).value in {ListenerVolume, ListenerDecayTime, ListenerDamping} ==>
              (r.hr == DsOk <==> p.cb >= 4)
    ensures EnvironmentInRange(s) ==> EnvironmentInRange(r.state)
  {
    if Guard(s).Some? then Rejected(s, Guard(s).value)
    else
      if Routed(id).None? then Rejected(s, PropIdUnsupported)
      else match Routed(id).value
      case ListenerAll =>
        var v := p.value.listener1;
        if p.cb >= SizeOf(Listener1Kind) && v.environment < EnvironmentUndefined then
          var env := x.environmentDefaults[v.environment as int].(
                       room := RoomForVolume(v.volume, v.environment, x),
                       decayTime := v.decayTime);
          SetOutcome(DsOk,
                     s.(reverb := env, eax1Volume := v.volume, eax1Dampening := v.damping,
                        effectDirty := true),
                     [ApplyReverbParams(env)])
        else Rejected(s, InvalidParam)
      case ListenerEnvironment =>
        if p.cb >= 4 && p.value.dw < EnvironmentUndefined then
          var i := p.value.dw as int;
          var env := x.environmentDefaults[i];
          SetOutcome(DsOk,
                     s.(reverb := env, eax1Volume := Eax1EnvVolume[i],
                        eax1Dampening := Eax1EnvDampening[i], effectDirty := true),
                     [ApplyReverbParams(env)])
        else Rejected(s, InvalidParam)
      case ListenerVolume =>
        if p.cb >= 4 then
          var room := RoomForVolume(p.value.fl, s.reverb.environment, x);
          SetOutcome(DsOk,
                     s.(reverb := s.reverb.(room := room), eax1Volume := p.value.fl,
                        effectDirty := true),
                     [EffectGain(AlGain, room as real)])
        else Rejected(s, InvalidParam)
      case ListenerDecayTime => SetReverbField(s, DecayTime, p)
      case ListenerDamping =>
        if p.cb >= 4 then SetOutcome(DsOk, s.(eax1Dampening := p.value.fl), [])
        else Rejected(s, InvalidParam)
  }

  /** The EAX 1 view of the listener: the environment and decay time of the
      deferred record, and the deferred EAX 1 volume and damping. */
  function Eax1View(s: ListenerState): (v: Listener1Props)
    ensures v.environment == s.reverb.environment && v.decayTime == s.reverb.decayTime
    ensures v.volume == s.eax1Volume && v.damping == s.eax1Dampening
  {
    Listener1Props(s.reverb.environment, s.eax1Volume, s.reverb.decayTime, s.eax1Dampening)
  }

  /** EAX1_Get (eax.c:2220-2308): reads the deferred state. */
  function ListenerGet(s: ListenerState, id: PropId<ListenerProp>, cb: nat): (r: GetOutcome)
    ensures Guard(s).Some? ==> r == Untouched(Guard(s).value)
    ensures Guard(s).None? && Routed(id).None? ==> r == Untouched(PropIdUnsupported)
    ensures r.hr != DsOk ==> r.data.None? && r.returned.None?
    ensures r.hr == DsOk ==>
              && Guard(s).None? && Routed(id).Some? && r.data.Some?
              && KindOf(r.data.value) == ListenerKind(Routed(id).value)
              && r.returned == Some(SizeOf(KindOf(r.data.value)))
    ensures Guard(s).None? && Routed(id).Some? ==>
              (r.hr == DsOk <==> cb >= SizeOf(ListenerKind(Routed(id).value)))
    ensures r.hr == DsOk && Routed(id) == Some(ListenerAll) ==>
              r.data == Some(Listener1Value(Eax1View(s)))
    ensures r.hr == DsOk && Routed(id) == Some(ListenerEnvironment) ==>
              r.data == Some(DwordValue(s.reverb.environment))
    ensures r.hr == DsOk && Routed(id) == Some(ListenerVolume) ==>
              r.data == Some(FloatValue(s.eax1Volume))
    ensures r.hr == DsOk && Routed(id) == Some(ListenerDecayTime) ==>
              r.data == Some(FloatValue(s.reverb.decayTime))
    ensures r.hr == DsOk && Routed(id) == Some(ListenerDamping) ==>
              r.data == Some(FloatValue(s.eax1Dampening))
  {
    if Guard(s).Some? then Untouched(Guard(s).value)
    else
      if Routed(id).None? then Untouched(PropIdUnsupported)
      else match Routed(id).value
      case ListenerAll => GetProp(Listener1Value(Eax1View(s)), cb)
      case ListenerEnvironment => GetProp(DwordValue(s.reverb.environment), cb)
      case ListenerVolume => GetProp(FloatValue(s.eax1Volume), cb)
      case ListenerDecayTime => GetProp(FloatValue(s.reverb.decayTime), cb)
      case ListenerDamping => GetProp(FloatValue(s.eax1Dampening), cb)
  }

  /** DSPROPERTY_EAX10BUFFER_ALL and _REVERBMIX. ALL's record holds nothing
      but the reverb mix, so both carry one float. */
  datatype BufferProp = BufferAll | BufferReverbMix

  /** The caller passes a float for either property. */
  predicate BufferPayloadFits(id: PropId<BufferProp>, p: Payload)
  {
    Routed(id).None? || p.value.FloatValue?
  }

  /** EAX1Buffer_Query (eax.c:2311-2326): no guard; an id carrying any
      modifier bit is unknown. */
  function BufferQuery(id: PropId<BufferProp>): (r: QueryOutcome)
    ensures r.hr == DsOk <==> id.name.Some? && !id.deferred
    ensures r.hr == DsOk ==> r.support == Some({SupportGet, SupportSet})
    ensures r.hr != DsOk ==> r == QueryOutcome(PropIdUnsupported, None)
  {
    QueryBuffer(Routed(id))
  }

  /** EAX1Buffer_Set (eax.c:2328-2361): ALL and REVERBMIX do the same thing.
      The mix is kept as given, the deferred room level becomes its millibel
      equivalent, and the wet filter is recomputed. */
  function BufferSet(b: BufferState, id: PropId<BufferProp>, p: Payload, x: Externals)
    : (r: BufferOutcome)
    requires BufferPayloadFits(id, p)
    ensures Routed(id).None? ==> r == Rejected(b, PropIdUnsupported)
    ensures r.hr != DsOk ==> r.state == b && r.pushes == []
    ensures Routed(id).Some? ==> (r.hr == DsOk <==> p.cb >= 4)
    ensures r.hr == DsOk ==>
              && r.state.deferredMix == p.value.fl
              && r.state.deferred.room == x.gainToMb(p.value.fl)
              && S.AgreeOutside(b.deferred, r.state.deferred, {S.Room})
              && r.state.dirty == b.dirty + {S.Send0Filter}
              && r.state == b.(deferred := r.state.deferred, deferredMix := r.state.deferredMix,
                               dirty := r.state.dirty)
              && r.pushes == ApplyFilterParams(r.state.deferred, S.WetOnly,
                                               b.hasDryFilter, b.hasWetFilter, b.mBLimit)
    ensures forall q :: q in r.pushes && q.LowpassGain? ==> q.mb <= b.mBLimit
  {
    if Routed(id).None? then Rejected(b, PropIdUnsupported)
    else if p.cb >= 4 then
      var mix := p.value.fl;
      Store(b.(deferredMix := mix), S.WithField(b.deferred, S.Room, LongValue(x.gainToMb(mix))),
            S.WetOnly, {S.Send0Filter})
    else Rejected(b, InvalidParam)
  }

  /** EAX1Buffer_Get (eax.c:2363-2389): reads the current mix. */
  function BufferGet(b: BufferState, id: PropId<BufferProp>, cb: nat): (r: GetOutcome)
    ensures Routed(id).None? ==> r == Untouched(PropIdUnsupported)
    ensures r.hr != DsOk ==> r.data.None? && r.returned.None?
    ensures Routed(id).Some? ==> (r.hr == DsOk <==> cb >= 4)
    ensures r.hr == DsOk ==> r.data == Some(FloatValue(b.currentMix)) && r.returned == Some(4)
  {
    if Routed(id).None? then Untouched(PropIdUnsupported)
    else GetProp(FloatValue(b.currentMix), cb)
  }
}
