/** The sound buffer's source record: its single-valued properties, which
    filter each one feeds, which dirty bits a Set of it raises, the
    obstruction/occlusion/exclusion slices and the EAX 2 view. */
module SourceSchema {
  import opened Base
  import opened Records
  import opened Payloads

  /** The source properties that EAX 2 and 3 set and get one field at a time. */
  datatype SourceField =
    | Direct | DirectHF | Room | RoomHF
    | Obstruction | ObstructionLFRatio
    | Occlusion | OcclusionLFRatio | OcclusionRoomRatio | OcclusionDirectRatio
    | Exclusion | ExclusionLFRatio
    | OutsideVolumeHF | DopplerFactor | RolloffFactor | RoomRolloffFactor | AirAbsorptionFactor
    | Flags

  /** The fields EAX 2 exposes one at a time (DSPROPERTY_EAX20BUFFER_*). */
  predicate InEax2(f: SourceField)
  {
    f in {Direct, DirectHF, Room, RoomHF, RoomRolloffFactor, Obstruction, ObstructionLFRatio,
          Occlusion, OcclusionLFRatio, OcclusionRoomRatio, OutsideVolumeHF, AirAbsorptionFactor, Flags}
  }

  type Eax2SourceField = f: SourceField | InEax2(f) witness Direct

  /** The C type of each field: LONG for levels, DWORD for the flags, float
      for ratios and factors. */
  function FieldKind(f: SourceField): Kind
  {
    match f
    case Direct | DirectHF | Room | RoomHF | Obstruction | Occlusion | Exclusion | OutsideVolumeHF => LongKind
    case Flags => FlagsKind
    case _ => FloatKind
  }

  /** The value a Get of field `f` copies out of `s`. */
  function FieldValue(s: SourceProps, f: SourceField): (v: Value)
    ensures KindOf(v) == FieldKind(f)
  {
    match f
    case Direct => LongValue(s.direct)
    case DirectHF => LongValue(s.directHF)
    case Room => LongValue(s.room)
    case RoomHF => LongValue(s.roomHF)
    case Obstruction => LongValue(s.obstruction)
    case ObstructionLFRatio => FloatValue(s.obstructionLFRatio)
    case Occlusion => LongValue(s.occlusion)
    case OcclusionLFRatio => FloatValue(s.occlusionLFRatio)
    case OcclusionRoomRatio => FloatValue(s.occlusionRoomRatio)
    case OcclusionDirectRatio => FloatValue(s.occlusionDirectRatio)
    case Exclusion => LongValue(s.exclusion)
    case ExclusionLFRatio => FloatValue(s.exclusionLFRatio)
    case OutsideVolumeHF => LongValue(s.outsideVolumeHF)
    case DopplerFactor => FloatValue(s.dopplerFactor)
    case RolloffFactor => FloatValue(s.rolloffFactor)
    case RoomRolloffFactor => FloatValue(s.roomRolloffFactor)
    case AirAbsorptionFactor => FloatValue(s.airAbsorptionFactor)
    case Flags => FlagsValue(s.flags)
  }

  /** The store a single-field Set does into `buf->deferred.eax`: reading the
      field back yields what was written and every other field keeps its value. */
  function WithField(s: SourceProps, f: SourceField, v: Value): (s': SourceProps)
    requires KindOf(v) == FieldKind(f)
    ensures FieldValue(s', f) == v
    ensures forall g :: g != f ==> FieldValue(s', g) == FieldValue(s, g)
  {
    match f
    case Direct => s.(direct := v.l)
    case DirectHF => s.(directHF := v.l)
    case Room => s.(room := v.l)
    case RoomHF => s.(roomHF := v.l)
    case Obstruction => s.(obstruction := v.l)
    case ObstructionLFRatio => s.(obstructionLFRatio := v.fl)
    case Occlusion => s.(occlusion := v.l)
    case OcclusionLFRatio => s.(occlusionLFRatio := v.fl)
    case OcclusionRoomRatio => s.(occlusionRoomRatio := v.fl)
    case OcclusionDirectRatio => s.(occlusionDirectRatio := v.fl)
    case Exclusion => s.(exclusion := v.l)
    case ExclusionLFRatio => s.(exclusionLFRatio := v.fl)
    case OutsideVolumeHF => s.(outsideVolumeHF := v.l)
    case DopplerFactor => s.(dopplerFactor := v.fl)
    case RolloffFactor => s.(rolloffFactor := v.fl)
    case RoomRolloffFactor => s.(roomRolloffFactor := v.fl)
    case AirAbsorptionFactor => s.(airAbsorptionFactor := v.fl)
    case Flags => s.(flags := v.bits)
  }

  /** Every field of a source record, as a set. */
  function AllFields(): set<SourceField>
  {
    {Direct, DirectHF, Room, RoomHF, Obstruction, ObstructionLFRatio,
     Occlusion, OcclusionLFRatio, OcclusionRoomRatio, OcclusionDirectRatio,
     Exclusion, ExclusionLFRatio, OutsideVolumeHF, DopplerFactor, RolloffFactor,
     RoomRolloffFactor, AirAbsorptionFactor, Flags}
  }

  /** Two records agree on every field outside `changed`. */
  predicate AgreeOutside(s: SourceProps, t: SourceProps, changed: set<SourceField>)
  {
    forall g :: g !in changed ==> FieldValue(s, g) == FieldValue(t, g)
  }

  /** The bits of `buf->dirty.bit`. */
  datatype DirtyBit =
    | DryFilter | Send0Filter | Doppler | Rolloff | RoomRolloff
    | ConeOutsideVolumeHF | AirAbsorb | FlagsBit

  /** The `apply` argument of ApplyFilterParams: APPLY_DRY_PARAMS and
      APPLY_WET_PARAMS. */
  datatype Sides = Sides(dry: bool, wet: bool)

  const NoSides := Sides(false, false)
  const DryOnly := Sides(true, false)
  const WetOnly := Sides(false, true)
  const BothSides := Sides(true, true)

  /** Which filters a single-field Set recomputes (eax.c:865-1104). */
  function FieldSides(f: SourceField): Sides
  {
    match f
    case Direct | DirectHF | Obstruction | ObstructionLFRatio | OcclusionDirectRatio => DryOnly
    case Room | RoomHF | Exclusion | ExclusionLFRatio | OcclusionRoomRatio => WetOnly
    case Occlusion | OcclusionLFRatio => BothSides
    case _ => NoSides
  }

  /** The dirty bits a single-field Set raises (eax.c:865-1104). */
  function FieldDirty(f: SourceField): (bits: set<DirtyBit>)
    ensures bits != {}
  {
    match f
    case Direct | DirectHF | Obstruction | ObstructionLFRatio | OcclusionDirectRatio => {DryFilter}
    case Room | RoomHF | Exclusion | ExclusionLFRatio | OcclusionRoomRatio => {Send0Filter}
    case Occlusion | OcclusionLFRatio => {DryFilter, Send0Filter}
    case OutsideVolumeHF => {ConeOutsideVolumeHF}
    case DopplerFactor => {Doppler}
    case RolloffFactor => {Rolloff}
    case RoomRolloffFactor => {RoomRolloff}
    case AirAbsorptionFactor => {AirAbsorb}
    case Flags => {FlagsBit}
  }

  /** A filter's dirty bit is raised exactly when its parameters are
      recomputed, and a field that feeds no filter raises one bit of its own. */
  lemma DirtyMatchesRecompute(f: SourceField)
    ensures DryFilter in FieldDirty(f) <==> FieldSides(f).dry
    ensures Send0Filter in FieldDirty(f) <==> FieldSides(f).wet
    ensures FieldSides(f) == NoSides ==> |FieldDirty(f)| == 1
    ensures FieldDirty(f) <= {DryFilter, Send0Filter} || FieldSides(f) == NoSides
  {
  }

  /** EAXSourceObstruction (eax.c:88-94). */
  function EAXSourceObstruction(s: SourceProps): (r: ObstructionProps)
    ensures WithObstruction(s, r) == s
  {
    ObstructionProps(s.obstruction, s.obstructionLFRatio)
  }

  /** EAXSourceOcclusion (eax.c:96-104). */
  function EAXSourceOcclusion(s: SourceProps): (r: OcclusionProps)
    ensures WithOcclusion(s, r) == s
  {
    OcclusionProps(s.occlusion, s.occlusionLFRatio, s.occlusionRoomRatio, s.occlusionDirectRatio)
  }

  /** EAXSourceExclusion (eax.c:106-112). */
  function EAXSourceExclusion(s: SourceProps): (r: ExclusionProps)
    ensures WithExclusion(s, r) == s
  {
    ExclusionProps(s.exclusion, s.exclusionLFRatio)
  }

  /** The store of OBSTRUCTIONPARAMETERS: the two obstruction fields and no
      other. */
  function WithObstruction(s: SourceProps, o: ObstructionProps): (s': SourceProps)
    ensures AgreeOutside(s, s', {Obstruction, ObstructionLFRatio})
  {
    s.(obstruction := o.obstruction, obstructionLFRatio := o.obstructionLFRatio)
  }

  /** The store of OCCLUSIONPARAMETERS: the four occlusion fields and no other. */
  function WithOcclusion(s: SourceProps, o: OcclusionProps): (s': SourceProps)
    ensures AgreeOutside(s, s', {Occlusion, OcclusionLFRatio, OcclusionRoomRatio, OcclusionDirectRatio})
  {
    s.(occlusion := o.occlusion, occlusionLFRatio := o.occlusionLFRatio,
       occlusionRoomRatio := o.occlusionRoomRatio, occlusionDirectRatio := o.occlusionDirectRatio)
  }

  /** The store of EXCLUSIONPARAMETERS: the two exclusion fields and no other. */
  function WithExclusion(s: SourceProps, e: ExclusionProps): (s': SourceProps)
    ensures AgreeOutside(s, s', {Exclusion, ExclusionLFRatio})
  {
    s.(exclusion := e.exclusion, exclusionLFRatio := e.exclusionLFRatio)
  }

  /** Storing a slice and reading the same slice back returns it. */
  lemma SlicesRoundTrip(s: SourceProps, o: ObstructionProps, c: OcclusionProps, e: ExclusionProps)
    ensures EAXSourceObstruction(WithObstruction(s, o)) == o
    ensures EAXSourceOcclusion(WithOcclusion(s, c)) == c
    ensures EAXSourceExclusion(WithExclusion(s, e)) == e
  {
  }

  /** EAXSourceTo2 (eax.c:1255-1272): the EAX 2 buffer's view of the source. */
  function EAXSourceTo2(s: SourceProps): (r: Source2Props)
    ensures Eax2SourceOverlay(s, r) == s
  {
    Source2Props(
      direct := s.direct,
      directHF := s.directHF,
      room := s.room,
      roomHF := s.roomHF,
      roomRolloffFactor := s.roomRolloffFactor,
      obstruction := s.obstruction,
      obstructionLFRatio := s.obstructionLFRatio,
      occlusion := s.occlusion,
      occlusionLFRatio := s.occlusionLFRatio,
      occlusionRoomRatio := s.occlusionRoomRatio,
      outsideVolumeHF := s.outsideVolumeHF,
      airAbsorptionFactor := s.airAbsorptionFactor,
      flags := s.flags)
  }

  /** The fields of a source record that EAX 2 cannot express. */
  const Eax3OnlyFields: set<SourceField> :=
    {Exclusion, ExclusionLFRatio, OcclusionDirectRatio, DopplerFactor, RolloffFactor}

  /** The store of EAX 2 buffer ALLPARAMETERS (eax.c:1754-1766): the thirteen
      EAX 2 fields, leaving the EAX 3-only ones as they were. */
  function Eax2SourceOverlay(s: SourceProps, v: Source2Props): (s': SourceProps)
    ensures forall g :: g in Eax3OnlyFields ==> FieldValue(s', g) == FieldValue(s, g)
  {
    s.(direct := v.direct,
       directHF := v.directHF,
       room := v.room,
       roomHF := v.roomHF,
       roomRolloffFactor := v.roomRolloffFactor,
       obstruction := v.obstruction,
       obstructionLFRatio := v.obstructionLFRatio,
       occlusion := v.occlusion,
       occlusionLFRatio := v.occlusionLFRatio,
       occlusionRoomRatio := v.occlusionRoomRatio,
       outsideVolumeHF := v.outsideVolumeHF,
       airAbsorptionFactor := v.airAbsorptionFactor,
       flags := v.flags)
  }

  /** Writing an EAX 2 record and reading the EAX 2 view back returns exactly
      what was written. */
  lemma SourceTo2AfterOverlay(s: SourceProps, v: Source2Props)
    ensures EAXSourceTo2(Eax2SourceOverlay(s, v)) == v
  {
  }
}
