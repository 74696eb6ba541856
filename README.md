# EAX property sets of the DirectSound-over-OpenAL driver, in Dafny

`eax.c` implements the EAX 1.0, 2.0 and 3.0 property sets of a DirectSound
driver that renders through OpenAL. An application reaches them through
`IKsPropertySet`: a **Query** reports whether a property id is supported, a
**Set** writes a property and a **Get** reads it. There are two targets:

- **The listener**, on the primary buffer (`DSPrimary`). Its state is a
  deferred reverb record in effect slot 0, plus two EAX 1-only values, the
  volume and the damping.
- **Each sound buffer** (`DSBuffer`). Its state is a deferred and a current
  source record, a deferred and a current EAX 1 reverb mix, two low-pass
  filters (dry and wet), and a set of dirty bits.

A Set checks its guards and the size of the caller's data, stores into the
deferred state, raises dirty bits, and pushes derived values to OpenAL. A
listener Get reads the deferred record. A buffer Get reads the current
record, which is filled from the deferred one by a commit that lives outside
`eax.c`.

The model has two layers.

- **Specification functions.** Modules `Eax3`, `Eax2` and `Eax1` state each
  handler as a function from a snapshot (`ListenerCore.ListenerState` or
  `BufferCore.BufferState`) and the call's arguments to an outcome. A Set's
  outcome is the result code, the new state, and the pushes in order. A
  Get's outcome is the result code and what it writes through `pPropData`
  and `pcbReturned`.
- **Imperative handlers.** Module `DSound` has the classes `Primary` and
  `Buffer`. Their fields are the ones the handlers assign. Each handler is a
  method whose body assigns those fields step by step. Each is proved to
  leave exactly the state, result and push log that its specification
  function gives.

The shared pieces live in their own modules:

- `ReverbSchema` and `SourceSchema` give field-by-field access to the two
  records.
- `Filter` is the millibel arithmetic of `ApplyFilterParams`.
- `Host` holds what `eax.c` uses but does not define: the environment
  presets, `gain_to_mB` and `RescaleEnvSize`.

`ListenerProperties` and `BufferProperties` prove what holds across calls:

- read-back after a Set, across versions;
- the quirks of each version;
- what any sequence of Sets preserves.

## Model

| member | source | states |
|---|---|---|
| `Base.MinF` | eax.c:29-30 | the result is the smaller argument |
| `Base.MaxF` | eax.c:31-32 | the result is the larger argument |
| `Base.Routed` | eax.c:170 | a `switch` on the raw id reaches a case exactly when the id names a property and carries no deferred bit |
| `Base.ClampI` | eax.c:2124-2128 | the result lies in [lo, hi], equals v inside, and saturates to the nearer bound outside |
| `Base.ClampF` | eax.c:231 | the same saturating clamp over reals |
| `Payloads.GetProp` | eax.c:601-609 | GET_PROP copies the value and reports its size exactly when the caller's buffer is large enough; otherwise DSERR_INVALIDPARAM and nothing is written |
| `ReverbSchema.EAXRevTo2` | eax.c:1235-1253 | the EAX 2 view never shows a flag outside EAX2LISTENERFLAGS_MASK, and those bits together with the masked-off ones rebuild the stored flags |
| `ReverbSchema.Eax2Overlay` | eax.c:1350-1362 | the thirteen EAX 2 fields replace the base's, the flags unmasked; the environment and every EAX 3-only field keep the base's values |
| `ReverbSchema.RevTo2AfterOverlay` | eax.c:1350-1362 | reading the EAX 2 view of an overlaid record returns what was written, with the base's environment and the flags masked |
| `ReverbSchema.OverlayOfRevTo2` | eax.c:1235-1253 | writing a record's own EAX 2 view back changes nothing but the flags, which lose their EAX 3-only bits |
| `SourceSchema.EAXSourceObstruction` | eax.c:88-94 | the obstruction slice, written back, leaves the record unchanged |
| `SourceSchema.EAXSourceOcclusion` | eax.c:96-104 | the occlusion slice, written back, leaves the record unchanged |
| `SourceSchema.EAXSourceExclusion` | eax.c:106-112 | the exclusion slice, written back, leaves the record unchanged |
| `SourceSchema.WithObstruction` | eax.c:804-821 | the store of OBSTRUCTIONPARAMETERS changes no field but the two obstruction fields |
| `SourceSchema.WithOcclusion` | eax.c:822-845 | the store of OCCLUSIONPARAMETERS changes no field but the four occlusion fields |
| `SourceSchema.WithExclusion` | eax.c:846-863 | the store of EXCLUSIONPARAMETERS changes no field but the two exclusion fields |
| `SourceSchema.SlicesRoundTrip` | eax.c:88-112 | storing any of the three slices and reading the same slice back returns it |
| `SourceSchema.EAXSourceTo2` | eax.c:1255-1272 | the EAX 2 view of a source, written back over the record, leaves the record unchanged |
| `SourceSchema.Eax2SourceOverlay` | eax.c:1754-1766 | EAX 2 ALLPARAMETERS leaves exclusion, its LF ratio, the occlusion direct ratio, doppler and rolloff as they were |
| `SourceSchema.SourceTo2AfterOverlay` | eax.c:1754-1766 | writing an EAX 2 source record and reading its EAX 2 view back returns exactly what was written |
| `SourceSchema.FieldDirty` | eax.c:865-1104 | every single-field buffer Set raises at least one dirty bit |
| `SourceSchema.DirtyMatchesRecompute` | eax.c:865-1104 | dry_filter is raised exactly when the dry side is recomputed, send0_filter exactly when the wet side is; a field that feeds no filter raises a single bit of its own |
| `Filter.OcclusionBlend` | eax.c:60-61 | the occlusion factor is the larger of the ratios' product and their sum minus one |
| `Filter.DryGainMb` | eax.c:53-61 | the dry LF level is the direct level when there is neither obstruction nor occlusion; with both LF ratios at 1 the low frequencies lose exactly what the high ones lose |
| `Filter.DryGainHFMb` | eax.c:54-62 | without occlusion, the dry HF level is the direct HF level with the obstruction applied in full |
| `Filter.WetGainMb` | eax.c:69-72 | the wet LF level is the room level when there is neither exclusion nor occlusion; with both LF ratios at 1 the low frequencies lose exactly what the high ones lose |
| `Filter.WetGainHFMb` | eax.c:70-73 | without occlusion, the wet HF level is the room HF level with the exclusion applied in full |
| `Filter.HighFrequenciesIgnoreLFRatios` | eax.c:38-49 | no LF ratio changes either HF level: the HF filter applies obstruction, occlusion and exclusion in full |
| `Filter.ApplyFilterParams` | eax.c:36-78 | a side is pushed only when requested and its filter exists, and then both its gains are; both LF gains are capped at filter_mBLimit; the HF gains are pushed as computed, uncapped |
| `Filter.OcclusionBlendBounds` | eax.c:60-61 | with both ratios in [0, 1] the factor lies between 0 and the smaller ratio |
| `Filter.OcclusionBlendAtFullRatio` | eax.c:60-61 | with one ratio at 1 the factor equals the other ratio |
| `Filter.OcclusionSparesLowFrequencies` | eax.c:51-73 | an attenuating occlusion takes no more off the LF gain than off the HF gain, on either path |
| `Filter.UnrequestedSideUnaffected` | eax.c:865-1104 | a single field that does not request a side cannot change either gain of that side, so skipping its recompute is sound |
| `Filter.DryOcclusionExample` | eax.c:51-62 | occlusion -1000 mB with LF ratio 0.25 and direct ratio 0.5 gives -125 mB low and -500 mB high on the dry path |
| `ListenerCore.Guard` | eax.c:160-167 | a listener Set or Get proceeds exactly when the effect exists and slot 0 holds a reverb; otherwise E_PROP_ID_UNSUPPORTED or DSERR_INVALIDCALL, in that order |
| `ListenerCore.QueryListener` | eax.c:114-154 | a listener Query succeeds with get and set support exactly when the effect exists and the id is known |
| `ListenerCore.StoreReverb` | eax.c:217-219 | storing a record makes it the deferred record and marks the effect dirty, and leaves the guards' inputs and the EAX 1 volume and damping alone |
| `ListenerCore.SetReverbField` | eax.c:238-586 | a single-field listener Set succeeds exactly when the data is large enough; it then changes that field and no other, raises the effect dirty bit and pushes that field's value |
| `ListenerCore.SetEnvironment` | eax.c:210-224 | ENVIRONMENT succeeds exactly when the data is large enough and the index is below EAX_ENVIRONMENT_UNDEFINED; it then loads that preset whole and pushes it |
| `ListenerCore.SetEnvironmentSize` | eax.c:225-237 | ENVIRONMENTSIZE rescales the record to the requested size clamped to [1, 100] and keeps the environment in range |
| `BufferCore.QueryBuffer` | eax.c:717-753 | a buffer Query has no guard: it succeeds exactly when the id is known |
| `BufferCore.Store` | eax.c:790-791 | storing a record makes it the deferred record, leaves the current record and mix alone, raises the given bits without clearing any, pushes only the requested sides, and caps every LF gain |
| `BufferCore.SetSourceField` | eax.c:865-1104 | a single-field buffer Set succeeds exactly when the data is large enough; it then changes that field and no other, raises exactly that field's dirty bits and recomputes exactly that field's sides |
| `Eax3.ListenerQuery` | eax.c:114-154 | EAX3_Query strips the deferred bit and needs an effect |
| `Eax3.ListenerSet` | eax.c:156-587 | EAX3_Set: guards first; a failure changes nothing; only the reverb record and the dirty bit change; ALLPARAMETERS pushes the caller's record without storing it; ENVIRONMENT loads the preset and pushes it whole, or refuses an out-of-range index; ENVIRONMENTSIZE succeeds exactly when 4 bytes are given, rescales the record to the size clamped to [1, 100] and pushes it whole; a field succeeds exactly when its size is given, changes that field only and pushes that field alone; the environment stays in range |
| `Eax3.ListenerGet` | eax.c:589-714 | EAX3_Get: guards first; returns the deferred record, environment, size or field, with its size, exactly when the buffer is large enough; nothing written on failure |
| `Eax3.BufferQuery` | eax.c:717-753 | EAX3Buffer_Query strips the deferred bit and has no guard |
| `Eax3.BufferSet` | eax.c:756-1113 | EAX3Buffer_Set: only the deferred record and the dirty bits change, and no bit is cleared; each group or field lands in its slice and nothing else; exact dirty bits per property; the pushes are the filter gains of the new record for both sides (ALLPARAMETERS, OCCLUSIONPARAMETERS), the dry side (OBSTRUCTIONPARAMETERS), the wet side (EXCLUSIONPARAMETERS) or the field's own sides; every LF gain pushed respects the cap |
| `Eax3.BufferGet` | eax.c:1115-1221 | EAX3Buffer_Get returns the current record, slice or field, with its size, exactly when the buffer is large enough |
| `Eax2.ListenerQuery` | eax.c:1275-1305 | EAX2_Query strips the deferred bit and needs an effect |
| `Eax2.AllParametersBase` | eax.c:1333-1349 | the record EAX 2 ALLPARAMETERS starts from is preset env stamped with env when env is in range, and the generic preset otherwise; its environment is in range either way |
| `Eax2.ListenerSet` | eax.c:1307-1597 | EAX2_Set: ALLPARAMETERS never rejects an environment, starts from the preset or the generic one, overlays the EAX 2 fields and pushes the result whole; ENVIRONMENT, ENVIRONMENTSIZE and the fields change, succeed and push exactly as in EAX 3 |
| `Eax2.Eax2FieldView` | eax.c:1679-1680 | the EAX 2 view of one field masks the flags and is the raw field otherwise |
| `Eax2.ListenerGet` | eax.c:1599-1691 | EAX2_Get returns the EAX 2 view of the deferred record, with FLAGS and ALLPARAMETERS masked |
| `Eax2.BufferQuery` | eax.c:1694-1722 | EAX2Buffer_Query strips the deferred bit and has no guard |
| `Eax2.BufferSet` | eax.c:1724-1961 | EAX2Buffer_Set: ALLPARAMETERS makes the record's EAX 2 view equal the data, keeps the five EAX 3-only fields, raises every dirty bit but doppler and rolloff, and pushes both sides' gains of the new record; a field is stored, flagged and pushed on its own sides as in EAX 3 |
| `Eax2.BufferGet` | eax.c:1963-2043 | EAX2Buffer_Get returns the EAX 2 view of the current record, or one field |
| `Eax1.TablesWellFormed` | eax.c:2073-2082 | both EAX 1 tables have one entry per environment, and every default volume is positive |
| `Eax1.RoomForVolume` | eax.c:2165-2172 | the room level an EAX 1 volume produces lies in [-10000, 0] |
| `Eax1.ListenerQuery` | eax.c:2050-2069 | EAX1_Query needs an effect and does not strip the deferred bit |
| `Eax1.ListenerSet` | eax.c:2071-2218 | EAX1_Set: ALL and ENVIRONMENT refuse an out-of-range environment; ALL loads the preset with the volume-derived room level and the given decay time; ENVIRONMENT also loads the two EAX 1 defaults, and both push the record whole; VOLUME changes only the room level and the volume and pushes that level as the gain; DECAYTIME stores and pushes the decay time; DAMPING stores only the damping, with no push and no dirty bit |
| `Eax1.Eax1View` | eax.c:2235-2250 | the EAX 1 record is the environment and decay time of the deferred reverb, and the deferred EAX 1 volume and damping |
| `Eax1.ListenerGet` | eax.c:2220-2308 | EAX1_Get returns that view, or one of its four members, from the deferred state |
| `Eax1.BufferQuery` | eax.c:2311-2326 | EAX1Buffer_Query has no guard and does not strip the deferred bit |
| `Eax1.BufferSet` | eax.c:2328-2361 | EAX1Buffer_Set stores the mix as given and the room level as gain_to_mB(mix), changes no other field, raises send0_filter, and pushes exactly the wet-side gains of the new record, under the cap |
| `Eax1.BufferGet` | eax.c:2363-2389 | EAX1Buffer_Get returns the current mix |
| `ListenerProperties.Eax3FieldReadBack` | eax.c:254-267 | an EAX 3 single-field Set followed by a Get of the same id returns the value written |
| `ListenerProperties.Eax2FieldReadBack` | eax.c:1372-1385 | the same through EAX 2, except that FLAGS comes back masked |
| `ListenerProperties.Eax2FlagsStoredUnmasked` | eax.c:1573-1587 | EAX 2 stores the flags unmasked: EAX 3 sees every bit written while EAX 2 sees them masked |
| `ListenerProperties.Eax3AllParametersNotStored` | eax.c:177-208 | EAX 3 ALLPARAMETERS pushes the caller's record and marks the effect dirty, but a Get afterwards returns the old record |
| `ListenerProperties.Eax2AllParametersReadBack` | eax.c:1326-1370 | EAX 2 ALLPARAMETERS reads back as written with the flags masked; an out-of-range environment reads back as the generic preset's |
| `ListenerProperties.Eax2AllParametersKeepsPresetFields` | eax.c:1345-1364 | roomLF, decayLFRatio, the pans, echo, modulation and the references come from the preset, and the flags are stored unmasked |
| `ListenerProperties.EnvironmentReadBackAcrossVersions` | eax.c:210-224 | ENVIRONMENT in any version loads the same record; provided every preset records its own index (`Host.PresetsSelfIndexed`), any other version reads the index back |
| `ListenerProperties.EnvironmentReadsBackPresetIndex` | eax.c:215-218 | with no assumption on the presets, an ENVIRONMENT Get after ENVIRONMENT returns the loaded preset's own dwEnvironment, because the Set copies the preset without stamping the index |
| `ListenerProperties.OutOfRangeEnvironmentRefused` | eax.c:2108-2141 | an index at or past EAX_ENVIRONMENT_UNDEFINED is refused with DSERR_INVALIDPARAM by every ENVIRONMENT and by EAX 1 ALL, and nothing changes |
| `ListenerProperties.Eax1AllReadBack` | eax.c:2096-2141 | EAX 1 ALL with an in-range environment succeeds with the room level in [-10000, 0]; provided every preset records its own index (`Host.PresetsSelfIndexed`), it reads back exactly |
| `ListenerProperties.Eax1VolumeReadBack` | eax.c:2161-2182 | the volume is stored verbatim and read back, the room level is in [-10000, 0], and no other reverb field changes |
| `ListenerProperties.Eax1VolumeAbsolute` | eax.c:2165-2172 | the room level VOLUME sets depends only on the volume and the environment, so setting the same volume twice is the same as once |
| `ListenerProperties.Eax1DefaultVolumeKeepsPresetRoom` | eax.c:2165-2172 | at the environment's default volume the room level is the preset's, when gain_to_mB(1) is 0 |
| `ListenerProperties.Eax1DampingOnlyStores` | eax.c:2199-2209 | DAMPING stores the damping and nothing else: no push, no dirty bit, and a Get returns it |
| `ListenerProperties.DeferredBitQuirk` | eax.c:119 | with the deferred bit, EAX 2 and EAX 3 Query succeed while Set and Get return E_PROP_ID_UNSUPPORTED and change nothing |
| `ListenerProperties.GuardsAgree` | eax.c:593-599 | in EAX 3, EAX 2 and EAX 1 alike: without an effect, Query, Set and Get all return E_PROP_ID_UNSUPPORTED; on a non-reverb slot, Query succeeds while Set and Get return DSERR_INVALIDCALL |
| `ListenerProperties.Step` | eax.c:156-587 | one listener Set of any version keeps the environment in range, never changes the guards' inputs, never clears the dirty bit, and changes nothing when it fails |
| `ListenerProperties.Run` | eax.c:2161-2172 | any sequence of listener Sets, mixing versions, keeps the environment in range, so EAX 1 VOLUME always indexes its table; a blocked listener is never changed |
| `BufferProperties.GetsReadOnlyCurrent` | eax.c:1115-1221 | buffer Gets of every version depend only on the current record and the current mix |
| `BufferProperties.SetsInvisibleBeforeCommit` | eax.c:1136-1137 | no buffer Set of any version changes what a buffer Get of any version returns until a commit |
| `BufferProperties.Eax3FieldReadBackAfterCommit` | eax.c:892-904 | an EAX 3 single-field Set reads back after a commit, through EAX 3 and through EAX 2 when EAX 2 knows the field |
| `BufferProperties.ObstructionReadBackAfterCommit` | eax.c:804-821 | OBSTRUCTIONPARAMETERS reads back after a commit, and the occlusion and exclusion slices are unchanged |
| `BufferProperties.OcclusionReadBackAfterCommit` | eax.c:822-845 | OCCLUSIONPARAMETERS reads back after a commit, and the obstruction and exclusion slices are unchanged |
| `BufferProperties.ExclusionReadBackAfterCommit` | eax.c:846-863 | EXCLUSIONPARAMETERS reads back after a commit, and the obstruction and occlusion slices are unchanged |
| `BufferProperties.SlicesAgree` | eax.c:88-112 | two records that differ only in the given fields have the same obstruction, occlusion and exclusion slices wherever the slice reads none of those fields |
| `BufferProperties.Eax3AllReadBackAfterCommit` | eax.c:767-803 | EAX 3 ALLPARAMETERS raises every dirty bit and reads back after a commit, through EAX 2 as its EAX 2 view |
| `BufferProperties.Eax2AllReadBackAfterCommit` | eax.c:1735-1778 | EAX 2 ALLPARAMETERS reads back after a commit, and EAX 3 still sees the EAX 3-only fields of the record it replaced |
| `BufferProperties.Eax1AllIsReverbMix` | eax.c:2338-2346 | EAX 1 buffer ALL and REVERBMIX are the same Set and the same Get |
| `BufferProperties.Eax1MixReadBackAfterCommit` | eax.c:2338-2346 | the mix reads back through EAX 1 after a commit, and EAX 3 sees the room level gain_to_mB(mix) |
| `BufferProperties.FieldSetPushesOnlyItsSides` | eax.c:1028-1040 | a single-field Set pushes only to the sides the field feeds, and nothing at all for a field outside every filter formula |
| `BufferProperties.Step` | eax.c:756-1113 | one buffer Set of any version changes only the deferred record, the deferred mix and the dirty bits, clears no bit, and pushes no LF gain over the cap |
| `BufferProperties.Run` | eax.c:65-76 | any sequence of buffer Sets never touches the current state, the filters or their cap, clears no dirty bit, and pushes no LF gain over the cap |
| `DSound.Primary.LoadReverb` | eax.c:217-219 | the deferred record becomes the given one, it is pushed whole, and the effect is marked dirty; nothing else changes |
| `DSound.Primary.StoreField` | eax.c:244-249 | one field of the deferred record is replaced, that field alone is pushed, and the effect is marked dirty; nothing else changes |
| `DSound.Primary.Eax3Query` | eax.c:114-154 | the handler's result and support are those of `Eax3.ListenerQuery` on its current state |
| `DSound.Primary.Eax3Set` | eax.c:156-587 | the handler leaves exactly the state, result and pushes of `Eax3.ListenerSet`, and keeps the environment in range |
| `DSound.Primary.Eax3Get` | eax.c:589-714 | the handler writes exactly what `Eax3.ListenerGet` returns |
| `DSound.Primary.Eax2Query` | eax.c:1275-1305 | as `Eax2.ListenerQuery` |
| `DSound.Primary.Eax2Set` | eax.c:1307-1597 | exactly the state, result and pushes of `Eax2.ListenerSet`; environment kept in range |
| `DSound.Primary.Eax2Get` | eax.c:1599-1691 | as `Eax2.ListenerGet` |
| `DSound.Primary.Eax1Query` | eax.c:2050-2069 | as `Eax1.ListenerQuery` |
| `DSound.Primary.Eax1Set` | eax.c:2071-2218 | exactly the state, result and pushes of `Eax1.ListenerSet`; environment kept in range |
| `DSound.Primary.Eax1Get` | eax.c:2220-2308 | as `Eax1.ListenerGet` |
| `DSound.Buffer.ApplyFilter` | eax.c:36-78 | appends exactly `Filter.ApplyFilterParams` of the deferred record to the push log and changes no state |
| `DSound.Buffer.StoreField` | eax.c:871-874 | one field of the deferred record is replaced, the field's own sides are refiltered from the new record, and its dirty bits are raised |
| `DSound.Buffer.StoreAll` | eax.c:790-800 | the deferred record is replaced whole, both sides are refiltered, and every dirty bit is raised, as `BufferCore.Store` gives |
| `DSound.Buffer.StoreObstruction` | eax.c:814-818 | the two obstruction fields are stored, the dry side is refiltered and dry_filter is raised, as `BufferCore.Store` gives |
| `DSound.Buffer.StoreOcclusion` | eax.c:835-842 | the four occlusion fields are stored, both sides are refiltered and both filter bits are raised, as `BufferCore.Store` gives |
| `DSound.Buffer.StoreExclusion` | eax.c:856-860 | the two exclusion fields are stored, the wet side is refiltered and send0_filter is raised, as `BufferCore.Store` gives |
| `DSound.Buffer.Eax3Query` | eax.c:717-753 | as `Eax3.BufferQuery` |
| `DSound.Buffer.Eax3Set` | eax.c:756-1113 | exactly the state, result and pushes of `Eax3.BufferSet` |
| `DSound.Buffer.Eax3Get` | eax.c:1115-1221 | as `Eax3.BufferGet` |
| `DSound.Buffer.Eax2Query` | eax.c:1694-1722 | as `Eax2.BufferQuery` |
| `DSound.Buffer.Eax2Set` | eax.c:1724-1961 | exactly the state, result and pushes of `Eax2.BufferSet` |
| `DSound.Buffer.Eax2Get` | eax.c:1963-2043 | as `Eax2.BufferGet` |
| `DSound.Buffer.Eax1Query` | eax.c:2311-2326 | as `Eax1.BufferQuery` |
| `DSound.Buffer.Eax1Set` | eax.c:2328-2361 | exactly the state, result and pushes of `Eax1.BufferSet` |
| `DSound.Buffer.Eax1Get` | eax.c:2363-2389 | as `Eax1.BufferGet` |

## Left out

- OpenAL calls (`alEffectf`, `alEffecti`, `alEffectfv`, `alFilterf`) are not made. Each appears as an entry in a ghost push log carrying the parameter and the value, in millibels where the source passes `mB_to_gain` of it. `checkALError` and the TRACE/FIXME/ERR logging are left out.
- `ApplyReverbParams` is recorded as one push carrying the whole record. What it sends to OpenAL is defined in a header that is not part of this model.
- `gain_to_mB`, `RescaleEnvSize`, `EnvironmentDefaults` and `REVERB_PRESET_GENERIC` are defined in headers that are not part of this model. They are parameters (`Host.Externals`). `Host.Valid` assumes 26 presets, an in-range environment in every preset and in the generic one, and that rescaling keeps the environment in range. The source needs these facts for EAX 1 VOLUME's table lookup to be defined.
- ListenerProperties.EnvironmentReadBackAcrossVersions and ListenerProperties.Eax1AllReadBack assume `Host.PresetsSelfIndexed`: every preset's dwEnvironment is its own index. ENVIRONMENT in every version and EAX 1 ALL copy the preset without stamping the index, unlike EAX 2 ALLPARAMETERS. `EnvironmentDefaults` is defined in a header that is not part of this model, so the assumption is not checked. Without it, the environment read back is the preset's own dwEnvironment (`ListenerProperties.EnvironmentReadsBackPresetIndex`).
- `clampI` and `clampF` are taken to be the usual saturating clamps.
- `FXSLOT_SET_DIRTY` on slot 0's effect bit is one boolean, `effectDirty`. The other slots and bits are not modelled.
- Floating point: all arithmetic is over `real`, so float rounding and single-precision limits are not modelled. LONG fields are unbounded `int`.
- Byte-level union casting is replaced by typed payloads plus a length. Structure sizes are taken as four bytes per scalar, with no padding. Each handler's `requires` that the payload has the type its property expects is the caller's side of the property-set convention; C does not check it.
- Eax3.ListenerSet: requires a payload of the property's type; with a mistyped payload the C code reinterprets the bytes, which is not modelled.
- Eax2.ListenerSet: requires a payload of the property's type, for the same reason.
- Eax1.ListenerSet: requires a payload of the property's type. VOLUME also requires an in-range stored environment. Out of range, the C code reads past the 26-entry table. Every Set keeps the environment in range (`ListenerProperties.Run`, `DSound.Primary.Valid`), so no reachable state violates this.
- Eax3.BufferSet: requires a payload of the property's type.
- Eax2.BufferSet: requires a payload of the property's type.
- Eax1.BufferSet: requires a float payload.
- The commit that copies the deferred buffer state into the current one is in the buffer code, which is not part of this model. `BufferProperties.Commit` stands in for it in the read-back lemmas.
- The buffer's filters and `filter_mBLimit` are set when the buffer is created, which is not part of this model. Here they are constants of a `Buffer`.
- Effect slots other than slot 0, and the choice between slot 0 and the primary slot, are not modelled. All listener handlers use slot 0, as the source does.
