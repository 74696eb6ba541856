/** EAX 2.0: EAX2_Query/Set/Get on the listener (eax.c:1275-1691) and
    EAX2Buffer_Query/Set/Get on a buffer (eax.c:1694-2043). EAX 2 sees a
    subset of the EAX 3 records; its single-field cases are those of EAX 3. */
module Eax2 {
  import opened Base
  import opened Records
  import opened Payloads
  import opened ReverbSchema
  import opened Host
  import opened ListenerCore
  import S = SourceSchema
  import opened Filter
  import opened BufferCore

  /** DSPROPERTY_EAX20LISTENER_*: NONE, ALLPARAMETERS, ENVIRONMENT,
      ENVIRONMENTSIZE, and one id per other field EAX 2 can express. */
  datatype ListenerProp =
    | ListenerNone
    | ListenerAllParameters
    | ListenerEnvironment
    | ListenerEnvironmentSize
    | ListenerField(field: Eax2ReverbField)

  /** The C type each listener property carries (None: NONE carries none). */
  function ListenerKind(q: ListenerProp): (k: Option<Kind>)
    ensures k.None? <==> q == ListenerNone
  {
    match q
    case ListenerNone => None
    case ListenerAllParameters => Some(Listener2Kind)
    case ListenerEnvironment => Some(DwordKind)
    case ListenerEnvironmentSize => Some(FloatKind)
    case ListenerField(f) => Some(FieldKind(f))
  }

  /** The caller passes data of the type the property it names expects. */
  predicate ListenerPayloadFits(id: PropId<ListenerProp>, p: Payload)
  {
    Routed(id).None? || Fits(ListenerKind(Routed(id).value), p.value)
  }

  /** EAX2_Query (eax.c:1275-1305): needs an effect; the deferred bit is
      ignored. */
  function ListenerQuery(s: ListenerState, id: PropId<ListenerProp>): (r: QueryOutcome)
    ensures r.hr == DsOk <==> s.effectPresent && id.name.Some?
    ensures r.hr == DsOk ==> r.support == Some({SupportGet, SupportSet})
    ensures r.hr != DsOk ==> r == QueryOutcome(PropIdUnsupported, None)
  {
    QueryListener(s, id.name)
  }

  /** The record EAX 2 ALLPARAMETERS starts from: the preset of the requested
      environment, stamped with that environment, when it is in range; the
      generic preset otherwise. Either way its environment is in range. */
  function AllParametersBase(env: u32, x: Externals): (r: ReverbProps)
    requires Valid(x)
    ensures r.environment < EnvironmentUndefined
    ensures env < EnvironmentUndefined ==>
              r == x.environmentDefaults[env as int].(environment := env)
    ensures env >= EnvironmentUndefined ==> r == x.presetGeneric
  {
    if env < EnvironmentUndefined
    then x.environmentDefaults[env as int].(environment := env)
    else x.presetGeneric
  }

  /** EAX2_Set (eax.c:1307-1597). */
  function ListenerSet(s: ListenerState, id: PropId<ListenerProp>, p: Payload, x: Externals)
    : (r: ListenerOutcome)
    requires Valid(x) && ListenerPayloadFits(id, p)
    ensures Guard(s).Some? ==> r == Rejected(s, Guard(s).value)
    ensures Guard(s).None? && Routed(id).None? ==> r == Rejected(s, PropIdUnsupported)
    ensures r.hr != DsOk ==> r.state == s && r.pushes == []
    ensures r.hr == DsOk ==> Guard(s).None? && Routed(id).Some?
    ensures r.state == s.(reverb := r.state.reverb, effectDirty := r.state.effectDirty)
    ensures s.effectDirty ==> r.state.effectDirty
    ensures r.hr == DsOk && Routed(id) != Some(ListenerNone) ==> r.state.effectDirty
    ensures Guard(s).None? && Routed(id) == Some(ListenerNone) ==> r == SetOutcome(DsOk, s, [])
    // ALLPARAMETERS never refuses an environment: it falls back to the
    // generic preset, then overwrites what EAX 2 can express
    ensures Guard(s).None? && Routed(id) == Some(ListenerAllParameters) ==>
              (r.hr == DsOk <==> p.cb >= SizeOf(Listener2Kind))
    ensures Routed(id) == Some(ListenerAllParameters) && r.hr == DsOk ==>
              && r.state.reverb == Eax2Overlay(AllParametersBase(p.value.listener2.environment, x),
                                               p.value.listener2)
              && r.pushes == [ApplyReverbParams(r.state.reverb)]
    ensures Guard(s).None? && Routed(id) == Some(ListenerEnvironment) ==>
              (r.hr == DsOk <==> p.cb >= 4 && p.value.dw < EnvironmentUndefined)
    ensures Routed(id) == Some(ListenerEnvironment) && r.hr == DsOk ==>
              && r.state.reverb == x.environmentDefaults[p.value.dw as int]
              && r.pushes == [ApplyReverbParams(r.state.reverb)]
    ensures Guard(s).None? && Routed(id) == Some(ListenerEnvironmentSize) ==>
              (r.hr == DsOk <==> p.cb >= 4)
    ensures Routed(id) == Some(ListenerEnvironmentSize) && r.hr == DsOk ==>
              && r.state.reverb == x.rescaleEnvSize(s.reverb, ClampF(p.value.fl, 1.0, 100.0))
              && r.pushes == [ApplyReverbParams(r.state.reverb)]
    ensures Guard(s).None? && Routed(id).Some? && Routed(id).value.ListenerField? ==>
              (r.hr == DsOk <==> p.cb >= SizeOf(FieldKind(Routed(id).value.field)))
    ensures Routed(id).Some? && Routed(id).value.ListenerField? && r.hr == DsOk ==>
              var f := Routed(id).value.field;
              && FieldValue(r.state.reverb, f) == p.value
              && (forall g :: g != f ==> FieldValue(r.state.reverb, g) == FieldValue(s.reverb, g))
              && r.state.reverb.environment == s.reverb.environment
              && r.state.reverb.environmentSize == s.reverb.environmentSize
              && r.pushes == [FieldPush(f, r.state.reverb)]
    ensures EnvironmentInRange(s) ==> EnvironmentInRange(r.state)
    ensures r.hr == DsOk && Routed(id) == Some(ListenerAllParameters) ==> EnvironmentInRange(r.state)
  {
    if Guard(s).Some? then Rejected(s, Guard(s).value)
    else
      if Routed(id).None? then Rejected(s, PropIdUnsupported)
      else match Routed(id).value
      case ListenerNone => SetOutcome(DsOk, s, [])
      case ListenerAllParameters =>
        if p.cb >= SizeOf(Listener2Kind) then
          var v := p.value.listener2;
          var r := Eax2Overlay(AllParametersBase(v.environment, x), v);
          StoreReverb(s, r, ApplyReverbParams(r))
        else Rejected(s, InvalidParam)
      case ListenerEnvironment => SetEnvironment(s, p, x)
      case ListenerEnvironmentSize => SetEnvironmentSize(s, p, x)
      case ListenerField(f) => SetReverbField(s, f, p)
  }

  /** What an EAX 2 Get of a single field reads: the stored value, except
      that the flags are masked to the EAX 2 bits. */
  function Eax2FieldView(r: ReverbProps, f: Eax2ReverbField): (v: Value)
    ensures KindOf(v) == FieldKind(f)
    ensures f != Flags ==> v == FieldValue(r, f)
    ensures f == Flags ==> v == FlagsValue(EAXRevTo2(r).flags)
  {
    if f == Flags then FlagsValue(r.flags & Eax2ListenerFlagsMask) else FieldValue(r, f)
  }

  /** EAX2_Get (eax.c:1599-1691): reads the deferred record through the EAX 2
      view, whose flags are masked. */
  function ListenerGet(s: ListenerState, id: PropId<ListenerProp>, cb: nat): (r: GetOutcome)
    ensures Guard(s).Some? ==> r == Untouched(Guard(s).value)
    ensures Guard(s).None? && Routed(id).None? ==> r == Untouched(PropIdUnsupported)
    ensures r.hr != DsOk ==> r.data.None? && r.returned.None?
    ensures r.hr == DsOk ==> Guard(s).None? && Routed(id).Some? && r.returned.Some?
    ensures Guard(s).None? && Routed(id) == Some(ListenerNone) ==> r == GetOutcome(DsOk, None, Some(0))
    ensures r.data.Some? ==>
              && Routed(id).Some?
              && ListenerKind(Routed(id).value) == Some(KindOf(r.data.value))
              && r.returned == Some(SizeOf(KindOf(r.data.value)))
              && cb >= SizeOf(KindOf(r.data.value))
    ensures Guard(s).None? && Routed(id).Some? && Routed(id).value != ListenerNone ==>
              (r.hr == DsOk <==> cb >= SizeOf(ListenerKind(Routed(id).value).value))
    ensures r.hr == DsOk && Routed(id) == Some(ListenerAllParameters) ==>
              r.data == Some(Listener2Value(EAXRevTo2(s.reverb)))
    ensures r.hr == DsOk && Routed(id) == Some(ListenerEnvironment) ==>
              r.data == Some(DwordValue(s.reverb.environment))
    ensures r.hr == DsOk && Routed(id) == Some(ListenerEnvironmentSize) ==>
              r.data == Some(FloatValue(s.reverb.environmentSize))
    // FLAGS reads the stored flags masked to the EAX 2 bits, so no flag
    // outside the EAX 2 mask is ever reported
    ensures r.hr == DsOk && Routed(id) == Some(ListenerField(Flags)) ==>
              r.data.Some? && r.data.value.FlagsValue? && r.data.value.bits & !Eax2ListenerFlagsMask == 0
    ensures r.hr == DsOk && Routed(id) == Some(ListenerField(Flags)) ==>
              r.data == Some(FlagsValue(s.reverb.flags & Eax2ListenerFlagsMask))
    ensures r.hr == DsOk && Routed(id).Some? && Routed(id).value.ListenerField?
            && Routed(id).value.field != Flags ==>
              r.data == Some(FieldValue(s.reverb, Routed(id).value.field))
  {
    if Guard(s).Some? then Untouched(Guard(s).value)
    else
      if Routed(id).None? then Untouched(PropIdUnsupported)
      else match Routed(id).value
      case ListenerNone => GetOutcome(DsOk, None, Some(0))
      case ListenerAllParameters => GetProp(Listener2Value(EAXRevTo2(s.reverb)), cb)
      case ListenerEnvironment => GetProp(DwordValue(s.reverb.environment), cb)
      case ListenerEnvironmentSize => GetProp(FloatValue(s.reverb.environmentSize), cb)
      case ListenerField(f) => GetProp(Eax2FieldView(s.reverb, f), cb)
  }

  /** DSPROPERTY_EAX20BUFFER_*: NONE, ALLPARAMETERS, and one id per field EAX
      2 can express. */
  datatype BufferProp =
    | BufferNone
    | BufferAllParameters
    | BufferField(field: S.Eax2SourceField)

  /** The C type each buffer property carries (None: NONE carries none). */
  function BufferKind(q: BufferProp): (k: Option<Kind>)
    ensures k.None? <==> q == BufferNone
  {
    match q
    case BufferNone => None
    case BufferAllParameters => Some(Source2Kind)
    case BufferField(f) => Some(S.FieldKind(f))
  }

  /** The caller passes data of the type the property it names expects. */
  predicate BufferPayloadFits(id: PropId<BufferProp>, p: Payload)
  {
    Routed(id).None? || Fits(BufferKind(Routed(id).value), p.value)
  }

  /** The bits EAX 2 ALLPARAMETERS raises: all but doppler and rolloff. */
  const Eax2AllDirtyBits: set<S.DirtyBit> :=
    {S.DryFilter, S.Send0Filter, S.RoomRolloff, S.ConeOutsideVolumeHF, S.AirAbsorb, S.FlagsBit}

  /** EAX2Buffer_Query (eax.c:1694-1722): no guard; the deferred bit is
      ignored. */
  function BufferQuery(id: PropId<BufferProp>): (r: QueryOutcome)
    ensures r.hr == DsOk <==> id.name.Some?
    ensures r.hr == DsOk ==> r.support == Some({SupportGet, SupportSet})
    ensures r.hr != DsOk ==> r == QueryOutcome(PropIdUnsupported, None)
  {
    QueryBuffer(id.name)
  }

  /** EAX2Buffer_Set (eax.c:1724-1961). */
  function BufferSet(b: BufferState, id: PropId<BufferProp>, p: Payload): (r: BufferOutcome)
    requires BufferPayloadFits(id, p)
    ensures Routed(id).None? ==> r == Rejected(b, PropIdUnsupported)
    ensures r.hr != DsOk ==> r.state == b && r.pushes == []
    ensures Routed(id) == Some(BufferNone) ==> r == SetOutcome(DsOk, b, [])
    ensures Routed(id).Some? && Routed(id).value != BufferNone ==>
              (r.hr == DsOk <==> p.cb >= SizeOf(BufferKind(Routed(id).value).value))
    ensures r.state == b.(deferred := r.state.deferred, dirty := r.state.dirty)
    ensures b.dirty <= r.state.dirty
    ensures forall q :: q in r.pushes && q.LowpassGain? ==> q.mb <= b.mBLimit
    // ALLPARAMETERS writes the EAX 2 fields, keeps the EAX 3-only ones and
    // raises every bit but doppler and rolloff
    ensures Routed(id) == Some(BufferAllParameters) && r.hr == DsOk ==>
              && S.EAXSourceTo2(r.state.deferred) == p.value.source2
              && (forall g :: g in S.Eax3OnlyFields ==>
                    S.FieldValue(r.state.deferred, g) == S.FieldValue(b.deferred, g))
              && r.state.dirty == b.dirty + Eax2AllDirtyBits
              && r.pushes == ApplyFilterParams(r.state.deferred, S.BothSides,
                                               b.hasDryFilter, b.hasWetFilter, b.mBLimit)
    ensures Routed(id).Some? && Routed(id).value.BufferField? && r.hr == DsOk ==>
              var f := Routed(id).value.field;
              && S.FieldValue(r.state.deferred, f) == p.value
              && S.AgreeOutside(b.deferred, r.state.deferred, {f})
              && r.state.dirty == b.dirty + S.FieldDirty(f)
              && r.pushes == ApplyFilterParams(r.state.deferred, S.FieldSides(f),
                                               b.hasDryFilter, b.hasWetFilter, b.mBLimit)
  {
    if Routed(id).None? then Rejected(b, PropIdUnsupported)
    else match Routed(id).value
    case BufferNone => SetOutcome(DsOk, b, [])
    case BufferAllParameters =>
      if p.cb >= SizeOf(Source2Kind)
      then
        S.SourceTo2AfterOverlay(b.deferred, p.value.source2);
        Store(b, S.Eax2SourceOverlay(b.deferred, p.value.source2), S.BothSides, Eax2AllDirtyBits)
      else Rejected(b, InvalidParam)
    case BufferField(f) => SetSourceField(b, f, p)
  }

  /** EAX2Buffer_Get (eax.c:1963-2043): reads the current record through the
      EAX 2 view. */
  function BufferGet(b: BufferState, id: PropId<BufferProp>, cb: nat): (r: GetOutcome)
    ensures Routed(id).None? ==> r == Untouched(PropIdUnsupported)
    ensures r.hr != DsOk ==> r.data.None? && r.returned.None?
    ensures Routed(id) == Some(BufferNone) ==> r == GetOutcome(DsOk, None, Some(0))
    ensures r.data.Some? ==>
              && Routed(id).Some?
              && BufferKind(Routed(id).value) == Some(KindOf(r.data.value))
              && r.returned == Some(SizeOf(KindOf(r.data.value)))
              && cb >= SizeOf(KindOf(r.data.value))
    ensures Routed(id).Some? && Routed(id).value != BufferNone ==>
              (r.hr == DsOk <==> cb >= SizeOf(BufferKind(Routed(id).value).value))
    ensures r.hr == DsOk && Routed(id) == Some(BufferAllParameters) ==>
              r.data == Some(Source2Value(S.EAXSourceTo2(b.current)))
    ensures r.hr == DsOk && Routed(id).Some? && Routed(id).value.BufferField? ==>
              r.data == Some(S.FieldValue(b.current, Routed(id).value.field))
  {
    if Routed(id).None? then Untouched(PropIdUnsupported)
    else match Routed(id).value
    case BufferNone => GetOutcome(DsOk, None, Some(0))
    case BufferAllParameters => GetProp(Source2Value(S.EAXSourceTo2(b.current)), cb)
    case BufferField(f) => GetProp(S.FieldValue(b.current, f), cb)
  }
}
