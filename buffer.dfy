/** The buffer side shared by the EAX 1, 2 and 3 handlers: the part of a
    DSBuffer they read and write, and the store-and-refilter step every
    buffer Set that changes the deferred record ends with. */
module BufferCore {
  import opened Base
  import opened Records
  import opened Payloads
  import opened SourceSchema
  import opened Filter

  /** What the buffer handlers see of a DSBuffer: the deferred and current
      source records, the deferred and current EAX1 reverb mix, which of the
      two filters exist, the low-pass cap filter_mBLimit, and the dirty bits
      raised so far. */
  datatype BufferState = BufferState(
    deferred: SourceProps,
    current: SourceProps,
    deferredMix: real,
    currentMix: real,
    hasDryFilter: bool,
    hasWetFilter: bool,
    mBLimit: real,
    dirty: set<DirtyBit>)

  type BufferOutcome = SetOutcome<BufferState, FilterPush>

  /** Every dirty bit (EAX3 ALLPARAMETERS raises them all). */
  const AllDirtyBits: set<DirtyBit> :=
    {DryFilter, Send0Filter, Doppler, Rolloff, RoomRolloff, ConeOutsideVolumeHF, AirAbsorb, FlagsBit}

  /** The buffer Query: no guard, every property of the set is readable and
      writable. */
  function QueryBuffer<P>(name: Option<P>): (r: QueryOutcome)
    ensures r.hr == DsOk <==> name.Some?
    ensures r.hr == DsOk ==> r.support == Some({SupportGet, SupportSet})
    ensures r.hr != DsOk ==> r == QueryOutcome(PropIdUnsupported, None)
  {
    if name.Some? then QueryOutcome(DsOk, Some({SupportGet, SupportSet}))
    else QueryOutcome(PropIdUnsupported, None)
  }

  /** Store a new deferred record, recompute the requested filter sides from
      it and raise `bits`. What a Get reads (the current record and mix) is
      untouched, no bit is cleared, only the requested sides are pushed and
      no low-frequency gain exceeds the cap. */
  function Store(b: BufferState, props: SourceProps, sides: Sides, bits: set<DirtyBit>): (o: BufferOutcome)
    ensures o.hr == DsOk && o.state.deferred == props
    ensures o.state.current == b.current && o.state.currentMix == b.currentMix
    ensures b.dirty <= o.state.dirty && bits <= o.state.dirty
    ensures forall q :: q in o.pushes && q.side == DryPath ==> sides.dry
    ensures forall q :: q in o.pushes && q.side == WetPath ==> sides.wet
    ensures forall q :: q in o.pushes && q.LowpassGain? ==> q.mb <= b.mBLimit
  {
    SetOutcome(DsOk, b.(deferred := props, dirty := b.dirty + bits),
               ApplyFilterParams(props, sides, b.hasDryFilter, b.hasWetFilter, b.mBLimit))
  }

  /** Set one field of the deferred source record (EAX 2 and EAX 3). With too
      small a payload nothing happens; otherwise exactly that field changes,
      the filters it feeds are recomputed and its dirty bits are raised. */
  function SetSourceField(b: BufferState, f: SourceField, p: Payload): (o: BufferOutcome)
    requires KindOf(p.value) == FieldKind(f)
    ensures o.hr == DsOk <==> p.cb >= SizeOf(FieldKind(f))
    ensures o.hr != DsOk ==> o == Rejected(b, InvalidParam)
    ensures o.hr == DsOk ==>
              && FieldValue(o.state.deferred, f) == p.value
              && AgreeOutside(b.deferred, o.state.deferred, {f})
              && o.state == b.(deferred := o.state.deferred, dirty := b.dirty + FieldDirty(f))
              && o.pushes == ApplyFilterParams(o.state.deferred, FieldSides(f),
                                               b.hasDryFilter, b.hasWetFilter, b.mBLimit)
  {
    if p.cb >= SizeOf(FieldKind(f)) then
      Store(b, WithField(b.deferred, f, p.value), FieldSides(f), FieldDirty(f))
    else
      Rejected(b, InvalidParam)
  }
}
