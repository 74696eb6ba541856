/** The listener side shared by the EAX 1, 2 and 3 handlers: the part of the
    primary buffer they read and write, the guards every listener Set and Get
    starts with, and the steps the EAX 2 and EAX 3 handlers have in common
    (their single-field, ENVIRONMENT and ENVIRONMENTSIZE cases are the same
    code). */
module ListenerCore {
  import opened Base
  import opened Records
  import opened Payloads
  import opened ReverbSchema
  import opened Host

  /** What the listener handlers see of a DSPrimary: whether effect[0]
      exists, whether slot 0 holds a reverb, the deferred reverb record, the
      deferred EAX1 volume and dampening, and slot 0's effect dirty bit. */
  datatype ListenerState = ListenerState(
    effectPresent: bool,
    slotIsReverb: bool,
    reverb: ReverbProps,
    eax1Volume: real,
    eax1Dampening: real,
    effectDirty: bool)

  type ListenerOutcome = SetOutcome<ListenerState, EffectPush>

  /** The invariant the EAX1 VOLUME case relies on: the deferred environment
      indexes the 26-entry tables. */
  predicate EnvironmentInRange(s: ListenerState)
  {
    s.reverb.environment < EnvironmentUndefined
  }

  /** The two checks every listener Set and Get makes first: no effect object
      means the property set is unsupported, and a slot holding something
      other than a reverb refuses the call. */
  function Guard(s: ListenerState): (r: Option<HResult>)
    ensures r.None? <==> s.effectPresent && s.slotIsReverb
    ensures !s.effectPresent ==> r == Some(PropIdUnsupported)
    ensures s.effectPresent && !s.slotIsReverb ==> r == Some(InvalidCall)
  {
    if !s.effectPresent then Some(PropIdUnsupported)
    else if !s.slotIsReverb then Some(InvalidCall)
    else None
  }

  /** The common query: with an effect present, every property of the set is
      readable and writable; without one, none is. */
  function QueryListener<P>(s: ListenerState, name: Option<P>): (r: QueryOutcome)
    ensures r.hr == DsOk <==> s.effectPresent && name.Some?
    ensures r.hr == DsOk ==> r.support == Some({SupportGet, SupportSet})
    ensures r.hr != DsOk ==> r == QueryOutcome(PropIdUnsupported, None)
  {
    if s.effectPresent && name.Some? then QueryOutcome(DsOk, Some({SupportGet, SupportSet}))
    else QueryOutcome(PropIdUnsupported, None)
  }

  /** Replace the deferred reverb record, push it and mark the effect dirty.
      The guards' inputs and the EAX 1 values are left alone. */
  function StoreReverb(s: ListenerState, r: ReverbProps, push: EffectPush): (o: ListenerOutcome)
    ensures o.hr == DsOk && o.state.reverb == r && o.state.effectDirty
    ensures o.state.effectPresent == s.effectPresent && o.state.slotIsReverb == s.slotIsReverb
    ensures o.state.eax1Volume == s.eax1Volume && o.state.eax1Dampening == s.eax1Dampening
  {
    SetOutcome(DsOk, s.(reverb := r, effectDirty := true), [push])
  }

  /** Set one field of the deferred reverb record (EAX 2 and EAX 3). With too
      small a payload nothing happens; otherwise exactly that field changes,
      its value is pushed and the effect is marked dirty. */
  function SetReverbField(s: ListenerState, f: ReverbField, p: Payload): (o: ListenerOutcome)
    requires KindOf(p.value) == FieldKind(f)
    ensures o.hr == DsOk <==> p.cb >= SizeOf(FieldKind(f))
    ensures o.hr != DsOk ==> o == Rejected(s, InvalidParam)
    ensures o.hr == DsOk ==>
              && FieldValue(o.state.reverb, f) == p.value
              && (forall g :: g != f ==> FieldValue(o.state.reverb, g) == FieldValue(s.reverb, g))
              && o.state.reverb.environment == s.reverb.environment
              && o.state.reverb.environmentSize == s.reverb.environmentSize
              && o.state == s.(reverb := o.state.reverb, effectDirty := true)
              && o.pushes == [FieldPush(f, o.state.reverb)]
  {
    if p.cb >= SizeOf(FieldKind(f)) then
      var r := WithField(s.reverb, f, p.value);
      StoreReverb(s, r, FieldPush(f, r))
    else
      Rejected(s, InvalidParam)
  }

  /** ENVIRONMENT (EAX 2 and EAX 3): an index below EAX_ENVIRONMENT_UNDEFINED
      replaces the whole record by that preset; anything else is refused. */
  function SetEnvironment(s: ListenerState, p: Payload, x: Externals): (o: ListenerOutcome)
    requires Valid(x)
    requires p.value.DwordValue?
    ensures o.hr == DsOk <==> p.cb >= 4 && p.value.dw < EnvironmentUndefined
    ensures o.hr != DsOk ==> o == Rejected(s, InvalidParam)
    ensures o.hr == DsOk ==>
              && o.state == s.(reverb := x.environmentDefaults[p.value.dw as int], effectDirty := true)
              && o.pushes == [ApplyReverbParams(o.state.reverb)]
              && EnvironmentInRange(o.state)
  {
    if p.cb >= 4 && p.value.dw < EnvironmentUndefined then
      var r := x.environmentDefaults[p.value.dw as int];
      StoreReverb(s, r, ApplyReverbParams(r))
    else
      Rejected(s, InvalidParam)
  }

  /** ENVIRONMENTSIZE (EAX 2 and EAX 3): the record is rescaled to the
      requested size clamped to [1, 100]. */
  function SetEnvironmentSize(s: ListenerState, p: Payload, x: Externals): (o: ListenerOutcome)
    requires Valid(x)
    requires p.value.FloatValue?
    ensures o.hr == DsOk <==> p.cb >= 4
    ensures o.hr != DsOk ==> o == Rejected(s, InvalidParam)
    ensures o.hr == DsOk ==>
              && o.state == s.(reverb := x.rescaleEnvSize(s.reverb, ClampF(p.value.fl, 1.0, 100.0)),
                               effectDirty := true)
              && o.pushes == [ApplyReverbParams(o.state.reverb)]
              && (EnvironmentInRange(s) ==> EnvironmentInRange(o.state))
  {
    if p.cb >= 4 then
      var r := x.rescaleEnvSize(s.reverb, ClampF(p.value.fl, 1.0, 100.0));
      StoreReverb(s, r, ApplyReverbParams(r))
    else
      Rejected(s, InvalidParam)
  }
}
