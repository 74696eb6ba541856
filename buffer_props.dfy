/** Properties of the buffer handlers that relate several calls. Buffer Sets
    write the deferred record and buffer Gets read the current one; the step
    that copies deferred into current belongs to the buffer's commit code,
    which is not part of this model, so it appears here as `Commit`. */
module BufferProperties {
  import opened Base
  import opened Records
  import opened Payloads
  import opened Host
  import opened SourceSchema
  import opened Filter
  import opened BufferCore
  import E3 = Eax3
  import E2 = Eax2
  import E1 = Eax1

  /** The commit of deferred settings: current becomes deferred. */
  function Commit(b: BufferState): (c: BufferState)
    ensures c.current == b.deferred && c.currentMix == b.deferredMix
    ensures c.deferred == b.deferred && c.deferredMix == b.deferredMix && c.dirty == b.dirty
  {
    b.(current := b.deferred, currentMix := b.deferredMix)
  }

  /** Buffer Gets of every version depend only on the current record and
      mix. */
  lemma GetsReadOnlyCurrent(b: BufferState, c: BufferState, id3: PropId<E3.BufferProp>,
                            id2: PropId<E2.BufferProp>, id1: PropId<E1.BufferProp>, cb: nat)
    requires b.current == c.current && b.currentMix == c.currentMix
    ensures E3.BufferGet(b, id3, cb) == E3.BufferGet(c, id3, cb)
    ensures E2.BufferGet(b, id2, cb) == E2.BufferGet(c, id2, cb)
    ensures E1.BufferGet(b, id1, cb) == E1.BufferGet(c, id1, cb)
  {
  }

  /** No buffer Set of any version is visible to a Get of any version before
      the commit: Gets read the current record, Sets write the deferred one. */
  lemma SetsInvisibleBeforeCommit(b: BufferState, id3: PropId<E3.BufferProp>, p: Payload,
                                  id2: PropId<E2.BufferProp>, id1: PropId<E1.BufferProp>,
                                  x: Externals, cb: nat)
    requires E3.BufferPayloadFits(id3, p) && E2.BufferPayloadFits(id2, p) && E1.BufferPayloadFits(id1, p)
    ensures var b3 := E3.BufferSet(b, id3, p).state;
            && E3.BufferGet(b3, id3, cb) == E3.BufferGet(b, id3, cb)
            && E2.BufferGet(b3, id2, cb) == E2.BufferGet(b, id2, cb)
            && E1.BufferGet(b3, id1, cb) == E1.BufferGet(b, id1, cb)
    ensures var b2 := E2.BufferSet(b, id2, p).state;
            && E3.BufferGet(b2, id3, cb) == E3.BufferGet(b, id3, cb)
            && E2.BufferGet(b2, id2, cb) == E2.BufferGet(b, id2, cb)
            && E1.BufferGet(b2, id1, cb) == E1.BufferGet(b, id1, cb)
    ensures var b1 := E1.BufferSet(b, id1, p, x).state;
            && E3.BufferGet(b1, id3, cb) == E3.BufferGet(b, id3, cb)
            && E2.BufferGet(b1, id2, cb) == E2.BufferGet(b, id2, cb)
            && E1.BufferGet(b1, id1, cb) == E1.BufferGet(b, id1, cb)
  {
    GetsReadOnlyCurrent(E3.BufferSet(b, id3, p).state, b, id3, id2, id1, cb);
    GetsReadOnlyCurrent(E2.BufferSet(b, id2, p).state, b, id3, id2, id1, cb);
    GetsReadOnlyCurrent(E1.BufferSet(b, id1, p, x).state, b, id3, id2, id1, cb);
  }

  /** An EAX 3 single-field Set, committed, reads back through EAX 3, and
      through EAX 2 when EAX 2 knows the field. */
  lemma Eax3FieldReadBackAfterCommit(b: BufferState, f: SourceField, v: Value, cbSet: nat, cbGet: nat)
    requires KindOf(v) == FieldKind(f)
    requires cbSet >= SizeOf(FieldKind(f)) && cbGet >= SizeOf(FieldKind(f))
    ensures var o := E3.BufferSet(b, Plain(E3.BufferField(f)), Payload(v, cbSet));
            && o.hr == DsOk
            && E3.BufferGet(Commit(o.state), Plain(E3.BufferField(f)), cbGet).data == Some(v)
            && (InEax2(f) ==>
                  E2.BufferGet(Commit(o.state), Plain(E2.BufferField(f)), cbGet).data == Some(v))
  {
  }

  /** OBSTRUCTIONPARAMETERS, committed, reads back as written and leaves the
      occlusion and exclusion groups as they were. */
  lemma ObstructionReadBackAfterCommit(b: BufferState, ob: ObstructionProps, cb: nat)
    requires cb >= SizeOf(ObstructionKind)
    ensures var o := E3.BufferSet(b, Plain(E3.ObstructionParameters), Payload(ObstructionValue(ob), cb));
            var c := Commit(o.state);
            && E3.BufferGet(c, Plain(E3.ObstructionParameters), cb).data == Some(ObstructionValue(ob))
            && EAXSourceOcclusion(c.current) == EAXSourceOcclusion(b.deferred)
            && EAXSourceExclusion(c.current) == EAXSourceExclusion(b.deferred)
  {
    var o := E3.BufferSet(b, Plain(E3.ObstructionParameters), Payload(ObstructionValue(ob), cb));
    SlicesAgree(b.deferred, o.state.deferred, {Obstruction, ObstructionLFRatio});
  }

  /** OCCLUSIONPARAMETERS, committed, reads back as written and leaves the
      obstruction and exclusion groups as they were. */
  lemma OcclusionReadBackAfterCommit(b: BufferState, oc: OcclusionProps, cb: nat)
    requires cb >= SizeOf(OcclusionKind)
    ensures var o := E3.BufferSet(b, Plain(E3.OcclusionParameters), Payload(OcclusionValue(oc), cb));
            var c := Commit(o.state);
            && E3.BufferGet(c, Plain(E3.OcclusionParameters), cb).data == Some(OcclusionValue(oc))
            && EAXSourceObstruction(c.current) == EAXSourceObstruction(b.deferred)
            && EAXSourceExclusion(c.current) == EAXSourceExclusion(b.deferred)
  {
    var o := E3.BufferSet(b, Plain(E3.OcclusionParameters), Payload(OcclusionValue(oc), cb));
    SlicesAgree(b.deferred, o.state.deferred,
                {Occlusion, OcclusionLFRatio, OcclusionRoomRatio, OcclusionDirectRatio});
  }

  /** EXCLUSIONPARAMETERS, committed, reads back as written and leaves the
      obstruction and occlusion groups as they were. */
  lemma ExclusionReadBackAfterCommit(b: BufferState, ex: ExclusionProps, cb: nat)
    requires cb >= SizeOf(ExclusionKind)
    ensures var o := E3.BufferSet(b, Plain(E3.ExclusionParameters), Payload(ExclusionValue(ex), cb));
            var c := Commit(o.state);
            && E3.BufferGet(c, Plain(E3.ExclusionParameters), cb).data == Some(ExclusionValue(ex))
            && EAXSourceObstruction(c.current) == EAXSourceObstruction(b.deferred)
            && EAXSourceOcclusion(c.current) == EAXSourceOcclusion(b.deferred)
  {
    var o := E3.BufferSet(b, Plain(E3.ExclusionParameters), Payload(ExclusionValue(ex), cb));
    SlicesAgree(b.deferred, o.state.deferred, {Exclusion, ExclusionLFRatio});
  }

  /** Two records that agree outside `changed` have the same slices for every
      group whose fields all lie outside `changed`. */
  lemma SlicesAgree(s: SourceProps, t: SourceProps, changed: set<SourceField>)
    requires AgreeOutside(s, t, changed)
    ensures Obstruction !in changed && ObstructionLFRatio !in changed ==>
              EAXSourceObstruction(s) == EAXSourceObstruction(t)
    ensures Occlusion !in changed && OcclusionLFRatio !in changed
            && OcclusionRoomRatio !in changed && OcclusionDirectRatio !in changed ==>
              EAXSourceOcclusion(s) == EAXSourceOcclusion(t)
    ensures Exclusion !in changed && ExclusionLFRatio !in changed ==>
              EAXSourceExclusion(s) == EAXSourceExclusion(t)
  {
    assert FieldValue(s, Obstruction) == FieldValue(t, Obstruction) || Obstruction in changed;
    assert FieldValue(s, ObstructionLFRatio) == FieldValue(t, ObstructionLFRatio) || ObstructionLFRatio in changed;
    assert FieldValue(s, Occlusion) == FieldValue(t, Occlusion) || Occlusion in changed;
    assert FieldValue(s, OcclusionLFRatio) == FieldValue(t, OcclusionLFRatio) || OcclusionLFRatio in changed;
    assert FieldValue(s, OcclusionRoomRatio) == FieldValue(t, OcclusionRoomRatio) || OcclusionRoomRatio in changed;
    assert FieldValue(s, OcclusionDirectRatio) == FieldValue(t, OcclusionDirectRatio) || OcclusionDirectRatio in changed;
    assert FieldValue(s, Exclusion) == FieldValue(t, Exclusion) || Exclusion in changed;
    assert FieldValue(s, ExclusionLFRatio) == FieldValue(t, ExclusionLFRatio) || ExclusionLFRatio in changed;
  }

  /** EAX 3 ALLPARAMETERS, committed, reads back as written through EAX 3,
      and through EAX 2 as its EAX 2 view. */
  lemma Eax3AllReadBackAfterCommit(b: BufferState, v: SourceProps, cb: nat)
    requires cb >= SizeOf(SourceKind)
    ensures var o := E3.BufferSet(b, Plain(E3.BufferAllParameters), Payload(SourceValue(v), cb));
            var c := Commit(o.state);
            && o.hr == DsOk && o.state.dirty == b.dirty + AllDirtyBits
            && E3.BufferGet(c, Plain(E3.BufferAllParameters), cb).data == Some(SourceValue(v))
            && E2.BufferGet(c, Plain(E2.BufferAllParameters), cb).data == Some(Source2Value(EAXSourceTo2(v)))
  {
  }

  /** EAX 2 ALLPARAMETERS, committed, reads back as written through EAX 2,
      and EAX 3 sees the EAX 3-only fields of the record it replaced. */
  lemma Eax2AllReadBackAfterCommit(b: BufferState, v: Source2Props, cb: nat)
    requires cb >= SizeOf(Source2Kind)
    ensures var o := E2.BufferSet(b, Plain(E2.BufferAllParameters), Payload(Source2Value(v), cb));
            var c := Commit(o.state);
            && o.hr == DsOk
            && E2.BufferGet(c, Plain(E2.BufferAllParameters), cb).data == Some(Source2Value(v))
            && (forall g :: g in Eax3OnlyFields && SizeOf(FieldKind(g)) <= cb ==>
                  E3.BufferGet(c, Plain(E3.BufferField(g)), cb).data == Some(FieldValue(b.deferred, g)))
  {
  }

  /** EAX 1 ALL and REVERBMIX are the same operation. */
  lemma Eax1AllIsReverbMix(b: BufferState, p: Payload, x: Externals)
    requires p.value.FloatValue?
    ensures E1.BufferSet(b, Plain(E1.BufferAll), p, x) == E1.BufferSet(b, Plain(E1.BufferReverbMix), p, x)
    ensures forall cb: nat :: E1.BufferGet(b, Plain(E1.BufferAll), cb) == E1.BufferGet(b, Plain(E1.BufferReverbMix), cb)
  {
  }

  /** The EAX 1 reverb mix, committed, reads back as given through EAX 1, and
      EAX 3 sees it as the room level gain_to_mB(mix). */
  lemma Eax1MixReadBackAfterCommit(b: BufferState, mix: real, cb: nat, x: Externals)
    requires cb >= 4
    ensures var o := E1.BufferSet(b, Plain(E1.BufferReverbMix), Payload(FloatValue(mix), cb), x);
            var c := Commit(o.state);
            && o.hr == DsOk
            && E1.BufferGet(c, Plain(E1.BufferReverbMix), cb).data == Some(FloatValue(mix))
            && E3.BufferGet(c, Plain(E3.BufferField(Room)), cb).data == Some(LongValue(x.gainToMb(mix)))
  {
  }

  /** A single-field Set recomputes the filters the field feeds and no
      other: a field outside every filter formula pushes nothing. */
  lemma FieldSetPushesOnlyItsSides(b: BufferState, f: SourceField, v: Value, cb: nat)
    requires KindOf(v) == FieldKind(f) && cb >= SizeOf(FieldKind(f))
    ensures var o := E3.BufferSet(b, Plain(E3.BufferField(f)), Payload(v, cb));
            && (FieldSides(f) == NoSides ==> o.pushes == [])
            && (forall q :: q in o.pushes && q.side == DryPath ==> FieldSides(f).dry && b.hasDryFilter)
            && (forall q :: q in o.pushes && q.side == WetPath ==> FieldSides(f).wet && b.hasWetFilter)
  {
  }

  /** One buffer Set call, through any of the three versions. */
  datatype BufferCall =
    | Set3(id3: PropId<E3.BufferProp>, p3: Payload)
    | Set2(id2: PropId<E2.BufferProp>, p2: Payload)
    | Set1(id1: PropId<E1.BufferProp>, p1: Payload)

  /** The caller passes each call data of the type its property expects. */
  predicate CallFits(c: BufferCall)
  {
    match c
    case Set3(id, p) => E3.BufferPayloadFits(id, p)
    case Set2(id, p) => E2.BufferPayloadFits(id, p)
    case Set1(id, p) => E1.BufferPayloadFits(id, p)
  }

  /** What one call does. */
  function Step(b: BufferState, c: BufferCall, x: Externals): (o: BufferOutcome)
    requires CallFits(c)
    ensures o.state == b.(deferred := o.state.deferred, deferredMix := o.state.deferredMix,
                          dirty := o.state.dirty)
    ensures b.dirty <= o.state.dirty
    ensures forall q :: q in o.pushes && q.LowpassGain? ==> q.mb <= b.mBLimit
    ensures o.hr != DsOk ==> o.state == b && o.pushes == []
  {
    match c
    case Set3(id, p) => E3.BufferSet(b, id, p)
    case Set2(id, p) => E2.BufferSet(b, id, p)
    case Set1(id, p) => E1.BufferSet(b, id, p, x)
  }

  /** A sequence of buffer Sets, mixing versions freely: the current record
      and mix, the filters and their cap are never touched, no dirty bit is
      ever cleared, and no pushed low-frequency gain exceeds the cap. */
  function Run(b: BufferState, calls: seq<BufferCall>, x: Externals): (r: BufferOutcome)
    requires forall i :: 0 <= i < |calls| ==> CallFits(calls[i])
    ensures r.state == b.(deferred := r.state.deferred, deferredMix := r.state.deferredMix,
                          dirty := r.state.dirty)
    ensures b.dirty <= r.state.dirty
    ensures forall q :: q in r.pushes && q.LowpassGain? ==> q.mb <= b.mBLimit
    decreases |calls|
  {
    if calls == [] then SetOutcome(DsOk, b, [])
    else
      var o := Step(b, calls[0], x);
      var rest := Run(o.state, calls[1..], x);
      SetOutcome(rest.hr, rest.state, o.pushes + rest.pushes)
  }
}
