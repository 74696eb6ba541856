/** EAX 3.0: EAX3_Query/Set/Get on the listener (eax.c:114-714) and
    EAX3Buffer_Query/Set/Get on a buffer (eax.c:717-1221), as functions from
    the state before the call to what the call returns and leaves behind. */
module Eax3 {
  import opened Base
  import opened Records
  import opened Payloads
  import opened ReverbSchema
  import opened Host
  import opened ListenerCore
  import S = SourceSchema
  import opened Filter
  import opened BufferCore

  /** DSPROPERTY_EAX30LISTENER_*: NONE, ALLPARAMETERS, ENVIRONMENT,
      ENVIRONMENTSIZE, and one id per remaining field of the reverb record. */
  datatype ListenerProp =
    | ListenerNone
    | ListenerAllParameters
    | ListenerEnvironment
    | ListenerEnvironmentSize
    | ListenerField(field: ReverbField)

  /** The C type each listener property carries (None: NONE carries none). */
  function ListenerKind(q: ListenerProp): (k: Option<Kind>)
    ensures k.None? <==> q == ListenerNone
  {
    match q
    case ListenerNone => None
    case ListenerAllParameters => Some(ReverbKind)
    case ListenerEnvironment => Some(DwordKind)
    case ListenerEnvironmentSize => Some(FloatKind)
    case ListenerField(f) => Some(FieldKind(f))
  }

  /** The caller passes data of the type the property it names expects. */
  predicate ListenerPayloadFits(id: PropId<ListenerProp>, p: Payload)
  {
    Routed(id).None? || Fits(ListenerKind(Routed(id).value), p.value)
  }

  /** EAX3_Query (eax.c:114-154): needs an effect; the deferred bit is
      ignored; every listener property can be read and written. */
  function ListenerQuery(s: ListenerState, id: PropId<ListenerProp>): (r: QueryOutcome)
    ensures r.hr == DsOk <==> s.effectPresent && id.name.Some?
    ensures r.hr == DsOk ==> r.support == Some({SupportGet, SupportSet})
    ensures r.hr != DsOk ==> r == QueryOutcome(PropIdUnsupported, None)
  {
    QueryListener(s, id.name)
  }

  /** EAX3_Set (eax.c:156-587). */
  function ListenerSet(s: ListenerState, id: PropId<ListenerProp>, p: Payload, x: Externals)
    : (r: ListenerOutcome)
    requires Valid(x) && ListenerPayloadFits(id, p)
    // the guards come first, then the routing on the raw id
    ensures Guard(s).Some? ==> r == Rejected(s, Guard(s).value)
    ensures Guard(s).None? && Routed(id).None? ==> r == Rejected(s, PropIdUnsupported)
    // a failed Set changes nothing and pushes nothing
    ensures r.hr != DsOk ==> r.state == s && r.pushes == []
    ensures r.hr == DsOk ==> Guard(s).None? && Routed(id).Some?
    // only the reverb record and the dirty bit can change, and the bit is
    // never cleared; a successful Set of anything but NONE raises it
    ensures r.state == s.(reverb := r.state.reverb, effectDirty := r.state.effectDirty)
    ensures s.effectDirty ==> r.state.effectDirty
    ensures r.hr == DsOk && Routed(id) != Some(ListenerNone) ==> r.state.effectDirty
    ensures Guard(s).None? && Routed(id) == Some(ListenerNone) ==> r == SetOutcome(DsOk, s, [])
    // ALLPARAMETERS pushes the caller's record but does not store it
    ensures Guard(s).None? && Routed(id) == Some(ListenerAllParameters) ==>
              (r.hr == DsOk <==> p.cb >= SizeOf(ReverbKind))
    ensures Routed(id) == Some(ListenerAllParameters) ==> r.state.reverb == s.reverb
    ensures Routed(id) == Some(ListenerAllParameters) && r.hr == DsOk ==>
              r.pushes == [ApplyReverbParams(p.value.reverbProps)]
    // ENVIRONMENT loads a preset, or is refused when out of range
    ensures Guard(s).None? && Routed(id) == Some(ListenerEnvironment) ==>
              (r.hr == DsOk <==> p.cb >= 4 && p.value.dw < EnvironmentUndefined)
    ensures Routed(id) == Some(ListenerEnvironment) && r.hr == DsOk ==>
              && r.state.reverb == x.environmentDefaults[p.value.dw as int]
              && r.pushes == [ApplyReverbParams(r.state.reverb)]
    // ENVIRONMENTSIZE rescales the record to the size clamped to [1, 100]
    ensures Guard(s).None? && Routed(id) == Some(ListenerEnvironmentSize) ==>
              (r.hr == DsOk <==> p.cb >= 4)
    ensures Routed(id) == Some(ListenerEnvironmentSize) && r.hr == DsOk ==>
              && r.state.reverb == x.rescaleEnvSize(s.reverb, ClampF(p.value.fl, 1.0, 100.0))
              && r.pushes == [ApplyReverbParams(r.state.reverb)]
    // a single field changes that field and no other, and pushes it alone
    ensures Guard(s).None? && Routed(id).Some? && Routed(id).value.ListenerField? ==>
              (r.hr == DsOk <==> p.cb >= SizeOf(FieldKind(Routed(id).value.field)))
    ensures Routed(id).Some? && Routed(id).value.ListenerField? && r.hr == DsOk ==>
              var f := Routed(id).value.field;
              && FieldValue(r.state.reverb, f) == p.value
              && (forall g :: g != f ==> FieldValue(r.state.reverb, g) == FieldValue(s.reverb, g))
              && r.state.reverb.environment == s.reverb.environment
              && r.state.reverb.environmentSize == s.reverb.environmentSize
              && r.pushes == [FieldPush(f, r.state.reverb)]
    ensures EnvironmentInRange(s) ==> EnvironmentInRange(r.state)
  {
    if Guard(s).Some? then Rejected(s, Guard(s).value)
    else
      if Routed(id).None? then Rejected(s, PropIdUnsupported)
      else match Routed(id).value
      case ListenerNone => SetOutcome(DsOk, s, [])
      case ListenerAllParameters =>
        if p.cb >= SizeOf(ReverbKind)
        then SetOutcome(DsOk, s.(effectDirty := true), [ApplyReverbParams(p.value.reverbProps)])
        else Rejected(s, InvalidParam)
      case ListenerEnvironment => SetEnvironment(s, p, x)
      case ListenerEnvironmentSize => SetEnvironmentSize(s, p, x)
      case ListenerField(f) => SetReverbField(s, f, p)
  }

  /** EAX3_Get (eax.c:589-714): reads the deferred record. */
  function ListenerGet(s: ListenerState, id: PropId<ListenerProp>, cb: nat): (r: GetOutcome)
    ensures Guard(s).Some? ==> r == Untouched(Guard(s).value)
    ensures Guard(s).None? && Routed(id).None? ==> r == Untouched(PropIdUnsupported)
    ensures r.hr != DsOk ==> r.data.None? && r.returned.None?
    ensures r.hr == DsOk ==> Guard(s).None? && Routed(id).Some? && r.returned.Some?
    ensures Guard(s).None? && Routed(id) == Some(ListenerNone) ==> r == GetOutcome(DsOk, None, Some(0))
    // what comes back has the property's type, its size is reported, and
    // the caller's buffer was large enough for it
    ensures r.data.Some? ==>
              && Routed(id).Some?
              && ListenerKind(Routed(id).value) == Some(KindOf(r.data.value))
              && r.returned == Some(SizeOf(KindOf(r.data.value)))
              && cb >= SizeOf(KindOf(r.data.value))
    ensures Guard(s).None? && Routed(id).Some? && Routed(id).value != ListenerNone ==>
              (r.hr == DsOk <==> cb >= SizeOf(ListenerKind(Routed(id).value).value))
    // the values read are the deferred record's
    ensures r.hr == DsOk && Routed(id) == Some(ListenerAllParameters) ==>
              r.data == Some(ReverbValue(s.reverb))
    ensures r.hr == DsOk && Routed(id) == Some(ListenerEnvironment) ==>
              r.data == Some(DwordValue(s.reverb.environment))
    ensures r.hr == DsOk && Routed(id) == Some(ListenerEnvironmentSize) ==>
              r.data == Some(FloatValue(s.reverb.environmentSize))
    ensures r.hr == DsOk && Routed(id).Some? && Routed(id).value.ListenerField? ==>
              r.data == Some(FieldValue(s.reverb, Routed(id).value.field))
  {
    if Guard(s).Some? then Untouched(Guard(s).value)
    else
      if Routed(id).None? then Untouched(PropIdUnsupported)
      else match Routed(id).value
      case ListenerNone => GetOutcome(DsOk, None, Some(0))
      case ListenerAllParameters => GetProp(ReverbValue(s.reverb), cb)
      case ListenerEnvironment => GetProp(DwordValue(s.reverb.environment), cb)
      case ListenerEnvironmentSize => GetProp(FloatValue(s.reverb.environmentSize), cb)
      case ListenerField(f) => GetProp(FieldValue(s.reverb, f), cb)
  }

  /** DSPROPERTY_EAX30BUFFER_*: NONE, ALLPARAMETERS, the three grouped
      properties, and one id per field of the source record. */
  datatype BufferProp =
    | BufferNone
    | BufferAllParameters
    | ObstructionParameters
    | OcclusionParameters
    | ExclusionParameters
    | BufferField(field: S.SourceField)

  /** The C type each buffer property carries (None: NONE carries none). */
  function BufferKind(q: BufferProp): (k: Option<Kind>)
    ensures k.None? <==> q == BufferNone
  {
    match q
    case BufferNone => None
    case BufferAllParameters => Some(SourceKind)
    case ObstructionParameters => Some(ObstructionKind)
    case OcclusionParameters => Some(OcclusionKind)
    case ExclusionParameters => Some(ExclusionKind)
    case BufferField(f) => Some(S.FieldKind(f))
  }

  /** The caller passes data of the type the property it names expects. */
  predicate BufferPayloadFits(id: PropId<BufferProp>, p: Payload)
  {
    Routed(id).None? || Fits(BufferKind(Routed(id).value), p.value)
  }

  /** EAX3Buffer_Query (eax.c:717-753): no guard; the deferred bit is
      ignored. */
  function BufferQuery(id: PropId<BufferProp>): (r: QueryOutcome)
    ensures r.hr == DsOk <==> id.name.Some?
    ensures r.hr == DsOk ==> r.support == Some({SupportGet, SupportSet})
    ensures r.hr != DsOk ==> r == QueryOutcome(PropIdUnsupported, None)
  {
    QueryBuffer(id.name)
  }

  /** EAX3Buffer_Set (eax.c:756-1113): writes the deferred record only. */
  function BufferSet(b: BufferState, id: PropId<BufferProp>, p: Payload): (r: BufferOutcome)
    requires BufferPayloadFits(id, p)
    ensures Routed(id).None? ==> r == Rejected(b, PropIdUnsupported)
    ensures r.hr != DsOk ==> r.state == b && r.pushes == []
    ensures Routed(id) == Some(BufferNone) ==> r == SetOutcome(DsOk, b, [])
    ensures Routed(id).Some? && Routed(id).value != BufferNone ==>
              (r.hr == DsOk <==> p.cb >= SizeOf(BufferKind(Routed(id).value).value))
    // only the deferred record and the dirty bits change; no bit is cleared
    ensures r.state == b.(deferred := r.state.deferred, dirty := r.state.dirty)
    ensures b.dirty <= r.state.dirty
    // every low-frequency gain pushed respects the buffer's cap
    ensures forall q :: q in r.pushes && q.LowpassGain? ==> q.mb <= b.mBLimit
    ensures Routed(id) == Some(BufferAllParameters) && r.hr == DsOk ==>
              && r.state.deferred == p.value.source && r.state.dirty == b.dirty + AllDirtyBits
              && r.pushes == ApplyFilterParams(r.state.deferred, S.BothSides,
                                               b.hasDryFilter, b.hasWetFilter, b.mBLimit)
    ensures Routed(id) == Some(ObstructionParameters) && r.hr == DsOk ==>
              && S.EAXSourceObstruction(r.state.deferred) == p.value.obstructionProps
              && S.AgreeOutside(b.deferred, r.state.deferred, {S.Obstruction, S.ObstructionLFRatio})
              && r.state.dirty == b.dirty + {S.DryFilter}
              && r.pushes == ApplyFilterParams(r.state.deferred, S.DryOnly,
                                               b.hasDryFilter, b.hasWetFilter, b.mBLimit)
    ensures Routed(id) == Some(OcclusionParameters) && r.hr == DsOk ==>
              && S.EAXSourceOcclusion(r.state.deferred) == p.value.occlusionProps
              && S.AgreeOutside(b.deferred, r.state.deferred,
                                {S.Occlusion, S.OcclusionLFRatio, S.OcclusionRoomRatio, S.OcclusionDirectRatio})
              && r.state.dirty == b.dirty + {S.DryFilter, S.Send0Filter}
              && r.pushes == ApplyFilterParams(r.state.deferred, S.BothSides,
                                               b.hasDryFilter, b.hasWetFilter, b.mBLimit)
    ensures Routed(id) == Some(ExclusionParameters) && r.hr == DsOk ==>
              && S.EAXSourceExclusion(r.state.deferred) == p.value.exclusionProps
              && S.AgreeOutside(b.deferred, r.state.deferred, {S.Exclusion, S.ExclusionLFRatio})
              && r.state.dirty == b.dirty + {S.Send0Filter}
              && r.pushes == ApplyFilterParams(r.state.deferred, S.WetOnly,
                                               b.hasDryFilter, b.hasWetFilter, b.mBLimit)
    ensures Routed(id).Some? && Routed(id).value.BufferField? && r.hr == DsOk ==>
              var f := Routed(id).value.field;
              && S.FieldValue(r.state.deferred, f) == p.value
              && S.AgreeOutside(b.deferred, r.state.deferred, {f})
              && r.state.dirty == b.dirty + S.FieldDirty(f)
              && r.pushes == ApplyFilterParams(r.state.deferred, S.FieldSides(f),
                                               b.hasDryFilter, b.hasWetFilter, b.mBLimit)
  {
    if Routed(id).None? then Rejected(b, PropIdUnsupported)
    else match Routed(id).value
    case BufferNone => SetOutcome(DsOk, b, [])
    case BufferAllParameters =>
      if p.cb >= SizeOf(SourceKind)
      then Store(b, p.value.source, S.BothSides, AllDirtyBits)
      else Rejected(b, InvalidParam)
    case ObstructionParameters =>
      if p.cb >= SizeOf(ObstructionKind)
      then Store(b, S.WithObstruction(b.deferred, p.value.obstructionProps), S.DryOnly, {S.DryFilter})
      else Rejected(b, InvalidParam)
    case OcclusionParameters =>
      if p.cb >= SizeOf(OcclusionKind)
      then Store(b, S.WithOcclusion(b.deferred, p.value.occlusionProps), S.BothSides,
                 {S.DryFilter, S.Send0Filter})
      else Rejected(b, InvalidParam)
    case ExclusionParameters =>
      if p.cb >= SizeOf(ExclusionKind)
      then Store(b, S.WithExclusion(b.deferred, p.value.exclusionProps), S.WetOnly, {S.Send0Filter})
      else Rejected(b, InvalidParam)
    case BufferField(f) => SetSourceField(b, f, p)
  }

  /** EAX3Buffer_Get (eax.c:1115-1221): reads the current record, not the
      deferred one. */
  function BufferGet(b: BufferState, id: PropId<BufferProp>, cb: nat): (r: GetOutcome)
    ensures Routed(id).None? ==> r == Untouched(PropIdUnsupported)
    ensures r.hr != DsOk ==> r.data.None? && r.returned.None?
    ensures Routed(id) == Some(BufferNone) ==> r == GetOutcome(DsOk, None, Some(0))
    ensures r.data.Some? ==>
              && Routed(id).Some?
              && BufferKind(Routed(id).value) == Some(KindOf(r.data.value))
              && r.returned == Some(SizeOf(KindOf(r.data.value)))
              && cb >= SizeOf(KindOf(r.data.value))
    ensures Routed(id).Some? && Routed(id).value != BufferNone ==>
              (r.hr == DsOk <==> cb >= SizeOf(BufferKind(Routed(id).value).value))
    ensures r.hr == DsOk && Routed(id) == Some(BufferAllParameters) ==>
              r.data == Some(SourceValue(b.current))
    ensures r.hr == DsOk && Routed(id) == Some(ObstructionParameters) ==>
              r.data == Some(ObstructionValue(S.EAXSourceObstruction(b.current)))
    ensures r.hr == DsOk && Routed(id) == Some(OcclusionParameters) ==>
              r.data == Some(OcclusionValue(S.EAXSourceOcclusion(b.current)))
    ensures r.hr == DsOk && Routed(id) == Some(ExclusionParameters) ==>
              r.data == Some(ExclusionValue(S.EAXSourceExclusion(b.current)))
    ensures r.hr == DsOk && Routed(id).Some? && Routed(id).value.BufferField? ==>
              r.data == Some(S.FieldValue(b.current, Routed(id).value.field))
  {
    if Routed(id).None? then Untouched(PropIdUnsupported)
    else match Routed(id).value
    case BufferNone => GetOutcome(DsOk, None, Some(0))
    case BufferAllParameters => GetProp(SourceValue(b.current), cb)
    case ObstructionParameters => GetProp(ObstructionValue(S.EAXSourceObstruction(b.current)), cb)
    case OcclusionParameters => GetProp(OcclusionValue(S.EAXSourceOcclusion(b.current)), cb)
    case ExclusionParameters => GetProp(ExclusionValue(S.EAXSourceExclusion(b.current)), cb)
    case BufferField(f) => GetProp(S.FieldValue(b.current, f), cb)
  }
}
