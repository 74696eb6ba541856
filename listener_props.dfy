/** Properties of the listener handlers that relate several calls: what a Get
    returns after a Set, how the three EAX versions see each other's writes,
    the EAX 1 volume rule, the deferred-bit behaviour, and what a whole
    sequence of Sets preserves. */
module ListenerProperties {
  import opened Base
  import opened Records
  import opened Payloads
  import opened ReverbSchema
  import opened Host
  import opened ListenerCore
  import E3 = Eax3
  import E2 = Eax2
  import E1 = Eax1

  /** An EAX 3 single-field Set followed by a Get of the same field returns
      the value written, since listener Gets read the deferred record. */
  lemma Eax3FieldReadBack(s: ListenerState, f: ReverbField, v: Value, cbSet: nat, cbGet: nat, x: Externals)
    requires Valid(x) && Guard(s).None? && KindOf(v) == FieldKind(f)
    requires cbSet >= SizeOf(FieldKind(f)) && cbGet >= SizeOf(FieldKind(f))
    ensures var id := Plain(E3.ListenerField(f));
            var o := E3.ListenerSet(s, id, Payload(v, cbSet), x);
            && o.hr == DsOk
            && E3.ListenerGet(o.state, id, cbGet) == GetOutcome(DsOk, Some(v), Some(SizeOf(FieldKind(f))))
  {
  }

  /** The EAX 2 version of the same round trip, except that the flags come
      back masked to the EAX 2 bits. */
  lemma Eax2FieldReadBack(s: ListenerState, f: Eax2ReverbField, v: Value, cbSet: nat, cbGet: nat, x: Externals)
    requires Valid(x) && Guard(s).None? && KindOf(v) == FieldKind(f)
    requires cbSet >= SizeOf(FieldKind(f)) && cbGet >= SizeOf(FieldKind(f))
    ensures var id := Plain(E2.ListenerField(f));
            var o := E2.ListenerSet(s, id, Payload(v, cbSet), x);
            && o.hr == DsOk
            && E2.ListenerGet(o.state, id, cbGet).data
               == Some(if f == Flags then FlagsValue(v.bits & Eax2ListenerFlagsMask) else v)
  {
  }

  /** EAX 2 stores the flags unmasked: an EAX 3 Get sees every bit an EAX 2
      Set wrote, though an EAX 2 Get would not. */
  lemma Eax2FlagsStoredUnmasked(s: ListenerState, bits: bv32, cb: nat, x: Externals)
    requires Valid(x) && Guard(s).None? && cb >= 4
    ensures var o := E2.ListenerSet(s, Plain(E2.ListenerField(Flags)), Payload(FlagsValue(bits), cb), x);
            && E3.ListenerGet(o.state, Plain(E3.ListenerField(Flags)), cb).data == Some(FlagsValue(bits))
            && E2.ListenerGet(o.state, Plain(E2.ListenerField(Flags)), cb).data
               == Some(FlagsValue(bits & Eax2ListenerFlagsMask))
  {
  }

  /** EAX 3 ALLPARAMETERS pushes the caller's record but never stores it: a
      Get of ALLPARAMETERS afterwards still returns the record from before. */
  lemma Eax3AllParametersNotStored(s: ListenerState, v: ReverbProps, cb: nat, x: Externals)
    requires Valid(x) && Guard(s).None? && cb >= SizeOf(ReverbKind)
    ensures var id := Plain(E3.ListenerAllParameters);
            var o := E3.ListenerSet(s, id, Payload(ReverbValue(v), cb), x);
            && o.hr == DsOk && o.state.effectDirty
            && o.pushes == [ApplyReverbParams(v)]
            && E3.ListenerGet(o.state, id, cb).data == Some(ReverbValue(s.reverb))
  {
  }

  /** EAX 2 ALLPARAMETERS with an in-range environment reads back as
      written, flags masked; with an out-of-range one it is not refused but
      reads back the generic preset's environment. */
  lemma Eax2AllParametersReadBack(s: ListenerState, v: Listener2Props, cb: nat, x: Externals)
    requires Valid(x) && Guard(s).None? && cb >= SizeOf(Listener2Kind)
    ensures var id := Plain(E2.ListenerAllParameters);
            var o := E2.ListenerSet(s, id, Payload(Listener2Value(v), cb), x);
            && o.hr == DsOk
            && E2.ListenerGet(o.state, id, cb).data
               == Some(Listener2Value(v.(environment := if v.environment < EnvironmentUndefined
                                                        then v.environment
                                                        else x.presetGeneric.environment,
                                         flags := v.flags & Eax2ListenerFlagsMask)))
  {
    var base := E2.AllParametersBase(v.environment, x);
    RevTo2AfterOverlay(base, v);
  }

  /** EAX 2 ALLPARAMETERS keeps the fields EAX 2 cannot express from the
      preset it starts from, not from the record it replaces. */
  lemma Eax2AllParametersKeepsPresetFields(s: ListenerState, v: Listener2Props, cb: nat, x: Externals)
    requires Valid(x) && Guard(s).None? && cb >= SizeOf(Listener2Kind)
    requires v.environment < EnvironmentUndefined
    ensures var o := E2.ListenerSet(s, Plain(E2.ListenerAllParameters), Payload(Listener2Value(v), cb), x);
            var preset := x.environmentDefaults[v.environment as int];
            && o.state.reverb.roomLF == preset.roomLF
            && o.state.reverb.decayLFRatio == preset.decayLFRatio
            && o.state.reverb.reflectionsPan == preset.reflectionsPan
            && o.state.reverb.reverbPan == preset.reverbPan
            && o.state.reverb.echoTime == preset.echoTime && o.state.reverb.echoDepth == preset.echoDepth
            && o.state.reverb.modulationTime == preset.modulationTime
            && o.state.reverb.modulationDepth == preset.modulationDepth
            && o.state.reverb.hfReference == preset.hfReference
            && o.state.reverb.lfReference == preset.lfReference
            && o.state.reverb.flags == v.flags
  {
  }

  /** ENVIRONMENT through any of the three versions reads back, through any
      of them, as the index written, provided each preset records its own
      index. */
  lemma EnvironmentReadBackAcrossVersions(s: ListenerState, env: u32, cb: nat, x: Externals)
    requires Valid(x) && PresetsSelfIndexed(x) && Guard(s).None?
    requires env < EnvironmentUndefined && cb >= 4
    ensures var p := Payload(DwordValue(env), cb);
            var s3 := E3.ListenerSet(s, Plain(E3.ListenerEnvironment), p, x).state;
            var s2 := E2.ListenerSet(s, Plain(E2.ListenerEnvironment), p, x).state;
            var s1 := E1.ListenerSet(s, Plain(E1.ListenerEnvironment), p, x).state;
            && s3.reverb == s2.reverb == s1.reverb
            && E3.ListenerGet(s1, Plain(E3.ListenerEnvironment), cb).data == Some(DwordValue(env))
            && E2.ListenerGet(s3, Plain(E2.ListenerEnvironment), cb).data == Some(DwordValue(env))
            && E1.ListenerGet(s2, Plain(E1.ListenerEnvironment), cb).data == Some(DwordValue(env))
  {
  }

  /** Without assuming anything about the presets, what an ENVIRONMENT Get
      returns after ENVIRONMENT is the loaded preset's own dwEnvironment,
      since the Set copies the preset without stamping the index on it. */
  lemma EnvironmentReadsBackPresetIndex(s: ListenerState, env: u32, cb: nat, x: Externals)
    requires Valid(x) && Guard(s).None? && env < EnvironmentUndefined && cb >= 4
    ensures var p := Payload(DwordValue(env), cb);
            var s3 := E3.ListenerSet(s, Plain(E3.ListenerEnvironment), p, x).state;
            var s1 := E1.ListenerSet(s, Plain(E1.ListenerEnvironment), p, x).state;
            && E3.ListenerGet(s3, Plain(E3.ListenerEnvironment), cb).data
               == Some(DwordValue(x.environmentDefaults[env as int].environment))
            && E1.ListenerGet(s1, Plain(E1.ListenerEnvironment), cb).data
               == Some(DwordValue(x.environmentDefaults[env as int].environment))
  {
  }

  /** An environment index outside the table is refused by ENVIRONMENT in
      every version and by EAX 1 ALL, and nothing changes. */
  lemma OutOfRangeEnvironmentRefused(s: ListenerState, env: u32, cb: nat, v: Listener1Props, x: Externals)
    requires Valid(x) && Guard(s).None? && env >= EnvironmentUndefined && cb >= 16
    requires v.environment >= EnvironmentUndefined
    ensures var p := Payload(DwordValue(env), cb);
            && E3.ListenerSet(s, Plain(E3.ListenerEnvironment), p, x) == Rejected(s, InvalidParam)
            && E2.ListenerSet(s, Plain(E2.ListenerEnvironment), p, x) == Rejected(s, InvalidParam)
            && E1.ListenerSet(s, Plain(E1.ListenerEnvironment), p, x) == Rejected(s, InvalidParam)
            && E1.ListenerSet(s, Plain(E1.ListenerAll), Payload(Listener1Value(v), cb), x)
               == Rejected(s, InvalidParam)
  {
  }

  /** EAX 1 ALL with an in-range environment reads back exactly as written,
      provided each preset records its own index. */
  lemma Eax1AllReadBack(s: ListenerState, v: Listener1Props, cb: nat, x: Externals)
    requires Valid(x) && PresetsSelfIndexed(x) && Guard(s).None?
    requires v.environment < EnvironmentUndefined && cb >= SizeOf(Listener1Kind)
    ensures var id := Plain(E1.ListenerAll);
            var o := E1.ListenerSet(s, id, Payload(Listener1Value(v), cb), x);
            && o.hr == DsOk
            && -10000 <= o.state.reverb.room <= 0
            && E1.ListenerGet(o.state, id, cb).data == Some(Listener1Value(v))
  {
  }

  /** EAX 1 VOLUME keeps the volume as given (a Get returns it), puts the room
      level in [-10000, 0], and leaves every other reverb field alone. */
  lemma Eax1VolumeReadBack(s: ListenerState, vol: real, cb: nat, x: Externals)
    requires Valid(x) && EnvironmentInRange(s) && Guard(s).None? && cb >= 4
    ensures var o := E1.ListenerSet(s, Plain(E1.ListenerVolume), Payload(FloatValue(vol), cb), x);
            && o.hr == DsOk
            && E1.ListenerGet(o.state, Plain(E1.ListenerVolume), cb).data == Some(FloatValue(vol))
            && -10000 <= o.state.reverb.room <= 0
            && (forall g :: g != Room ==> FieldValue(o.state.reverb, g) == FieldValue(s.reverb, g))
  {
  }

  /** EAX 1 VOLUME is absolute, not cumulative: the room level it produces
      depends only on the volume and the environment, not on the room level
      before, so setting the same volume twice is the same as once. */
  lemma Eax1VolumeAbsolute(s: ListenerState, t: ListenerState, vol: real, cb: nat, x: Externals)
    requires Valid(x) && EnvironmentInRange(s) && Guard(s).None? && Guard(t).None? && cb >= 4
    requires t.reverb.environment == s.reverb.environment
    ensures var id := Plain(E1.ListenerVolume);
            var p := Payload(FloatValue(vol), cb);
            var o := E1.ListenerSet(s, id, p, x);
            && E1.ListenerSet(t, id, p, x).state.reverb.room == o.state.reverb.room
            && E1.ListenerSet(o.state, id, p, x).state == o.state
  {
  }

  /** The EAX 1 volume formula at the environment's own default volume:
      the offset is gain_to_mB(1), so with gain_to_mB(1) == 0 the room level
      is the preset's, clamped to [-10000, 0]. */
  lemma Eax1DefaultVolumeKeepsPresetRoom(env: u32, x: Externals)
    requires Valid(x) && env < EnvironmentUndefined && x.gainToMb(1.0) == 0
    ensures E1.RoomForVolume(E1.Eax1EnvVolume[env as int], env, x)
            == ClampI(x.environmentDefaults[env as int].room, -10000, 0)
  {
    E1.TablesWellFormed();
    assert E1.Eax1EnvVolume[env as int] / E1.Eax1EnvVolume[env as int] == 1.0;
  }

  /** EAX 1 DAMPING only stores the damping: no push, no dirty bit, and an
      EAX 1 Get returns it. */
  lemma Eax1DampingOnlyStores(s: ListenerState, d: real, cb: nat, x: Externals)
    requires Valid(x) && Guard(s).None? && cb >= 4
    ensures var o := E1.ListenerSet(s, Plain(E1.ListenerDamping), Payload(FloatValue(d), cb), x);
            && o.hr == DsOk && o.pushes == [] && o.state.effectDirty == s.effectDirty
            && o.state.reverb == s.reverb
            && E1.ListenerGet(o.state, Plain(E1.ListenerDamping), cb).data == Some(FloatValue(d))
  {
  }

  /** EAX 2 and EAX 3 Query ignore the deferred bit, but Set and Get switch
      on the raw id: a deferred id is reported supported and then refused. */
  lemma DeferredBitQuirk(s: ListenerState, q: E3.ListenerProp, q2: E2.ListenerProp, p: Payload, cb: nat, x: Externals)
    requires Valid(x) && Guard(s).None?
    ensures var id := PropId(Some(q), true);
            && E3.ListenerQuery(s, id).hr == DsOk
            && E3.ListenerSet(s, id, p, x) == Rejected(s, PropIdUnsupported)
            && E3.ListenerGet(s, id, cb) == Untouched(PropIdUnsupported)
    ensures var id := PropId(Some(q2), true);
            && E2.ListenerQuery(s, id).hr == DsOk
            && E2.ListenerSet(s, id, p, x) == Rejected(s, PropIdUnsupported)
            && E2.ListenerGet(s, id, cb) == Untouched(PropIdUnsupported)
  {
  }

  /** The listener guards in all three versions: no effect gives
      E_PROP_ID_UNSUPPORTED from Query, Set and Get; a non-reverb slot makes
      Set and Get fail with DSERR_INVALIDCALL while Query still succeeds. */
  lemma GuardsAgree(s: ListenerState, q: E3.ListenerProp, p: Payload,
                    q2: E2.ListenerProp, p2: Payload, q1: E1.ListenerProp, p1: Payload,
                    cb: nat, x: Externals)
    requires Valid(x) && E3.ListenerPayloadFits(Plain(q), p)
    requires E2.ListenerPayloadFits(Plain(q2), p2) && E1.ListenerPayloadFits(Plain(q1), p1)
    requires q1 == E1.ListenerVolume ==> EnvironmentInRange(s)
    ensures !s.effectPresent ==>
              && E3.ListenerQuery(s, Plain(q)).hr == PropIdUnsupported
              && E3.ListenerSet(s, Plain(q), p, x) == Rejected(s, PropIdUnsupported)
              && E3.ListenerGet(s, Plain(q), cb) == Untouched(PropIdUnsupported)
              && E2.ListenerQuery(s, Plain(q2)).hr == PropIdUnsupported
              && E2.ListenerSet(s, Plain(q2), p2, x) == Rejected(s, PropIdUnsupported)
              && E2.ListenerGet(s, Plain(q2), cb) == Untouched(PropIdUnsupported)
              && E1.ListenerQuery(s, Plain(q1)).hr == PropIdUnsupported
              && E1.ListenerSet(s, Plain(q1), p1, x) == Rejected(s, PropIdUnsupported)
              && E1.ListenerGet(s, Plain(q1), cb) == Untouched(PropIdUnsupported)
    ensures s.effectPresent && !s.slotIsReverb ==>
              && E3.ListenerQuery(s, Plain(q)).hr == DsOk
              && E3.ListenerSet(s, Plain(q), p, x) == Rejected(s, InvalidCall)
              && E3.ListenerGet(s, Plain(q), cb) == Untouched(InvalidCall)
              && E2.ListenerQuery(s, Plain(q2)).hr == DsOk
              && E2.ListenerSet(s, Plain(q2), p2, x) == Rejected(s, InvalidCall)
              && E2.ListenerGet(s, Plain(q2), cb) == Untouched(InvalidCall)
              && E1.ListenerQuery(s, Plain(q1)).hr == DsOk
              && E1.ListenerSet(s, Plain(q1), p1, x) == Rejected(s, InvalidCall)
              && E1.ListenerGet(s, Plain(q1), cb) == Untouched(InvalidCall)
  {
  }

  /** One listener Set call, through any of the three versions. */
  datatype ListenerCall =
    | Set3(id3: PropId<E3.ListenerProp>, p3: Payload)
    | Set2(id2: PropId<E2.ListenerProp>, p2: Payload)
    | Set1(id1: PropId<E1.ListenerProp>, p1: Payload)

  /** The caller passes each call data of the type its property expects. */
  predicate CallFits(c: ListenerCall)
  {
    match c
    case Set3(id, p) => E3.ListenerPayloadFits(id, p)
    case Set2(id, p) => E2.ListenerPayloadFits(id, p)
    case Set1(id, p) => E1.ListenerPayloadFits(id, p)
  }

  /** What one call does. */
  function Step(s: ListenerState, c: ListenerCall, x: Externals): (o: ListenerOutcome)
    requires Valid(x) && EnvironmentInRange(s) && CallFits(c)
    ensures EnvironmentInRange(o.state)
    ensures o.state.effectPresent == s.effectPresent && o.state.slotIsReverb == s.slotIsReverb
    ensures s.effectDirty ==> o.state.effectDirty
    ensures o.hr != DsOk ==> o.state == s && o.pushes == []
  {
    match c
    case Set3(id, p) => E3.ListenerSet(s, id, p, x)
    case Set2(id, p) => E2.ListenerSet(s, id, p, x)
    case Set1(id, p) => E1.ListenerSet(s, id, p, x)
  }

  /** A sequence of listener Sets, mixing versions freely, applied in order:
      the deferred environment stays in range (so EAX 1 VOLUME is always
      defined), the guards' inputs never change, the dirty bit is never
      cleared, and a listener the guards block is left as it was, with
      nothing pushed. */
  function Run(s: ListenerState, calls: seq<ListenerCall>, x: Externals): (r: ListenerOutcome)
    requires Valid(x) && EnvironmentInRange(s)
    requires forall i :: 0 <= i < |calls| ==> CallFits(calls[i])
    ensures EnvironmentInRange(r.state)
    ensures r.state.effectPresent == s.effectPresent && r.state.slotIsReverb == s.slotIsReverb
    ensures s.effectDirty ==> r.state.effectDirty
    ensures Guard(s).Some? ==> r.state == s && r.pushes == []
    decreases |calls|
  {
    if calls == [] then SetOutcome(DsOk, s, [])
    else
      var o := Step(s, calls[0], x);
      var rest := Run(o.state, calls[1..], x);
      SetOutcome(rest.hr, rest.state, o.pushes + rest.pushes)
  }
}
