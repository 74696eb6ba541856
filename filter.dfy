/** ApplyFilterParams (eax.c:34-78): the millibel arithmetic that turns a
    source record into low-pass gains for the dry filter (filter[0]) and the
    send-0 / wet filter (filter[1]). The arithmetic is done over reals; each
    value pushed stands for mB_to_gain of it. */
module Filter {
  import opened Base
  import opened Records
  import opened Payloads
  import opened SourceSchema

  /** buf->filter[0] (dry path) and buf->filter[1] (wet path). */
  datatype FilterSide = DryPath | WetPath

  /** alFilterf(filter, AL_LOWPASS_GAIN / AL_LOWPASS_GAINHF, mB_to_gain(mb)). */
  datatype FilterPush =
    | LowpassGain(side: FilterSide, mb: real)
    | LowpassGainHF(side: FilterSide, mb: real)

  /** How an occlusion LF ratio and a path ratio combine: their product as a
      baseline, their sum minus one when that is larger. */
  function OcclusionBlend(lfRatio: real, pathRatio: real): (r: real)
    ensures r >= lfRatio * pathRatio && r >= lfRatio + pathRatio - 1.0
    ensures r == lfRatio * pathRatio || r == lfRatio + pathRatio - 1.0
  {
    MaxF(lfRatio + pathRatio - 1.0, lfRatio * pathRatio)
  }

  /** Dry-path low-frequency level, before the cap (eax.c:53, 60-61). With
      neither obstruction nor occlusion it is the direct level; with both LF
      ratios at 1 the low frequencies lose exactly what the high ones lose. */
  function DryGainMb(p: SourceProps): (mb: real)
    ensures p.obstruction == 0 && p.occlusion == 0 ==> mb == p.direct as real
    ensures p.obstructionLFRatio == 1.0 && p.occlusionLFRatio == 1.0 ==>
              mb - p.direct as real == DryGainHFMb(p) - p.directHF as real
  {
    p.direct as real + p.obstruction as real * p.obstructionLFRatio
    + OcclusionBlend(p.occlusionLFRatio, p.occlusionDirectRatio) * p.occlusion as real
  }

  /** Dry-path high-frequency level (eax.c:54, 62). Obstruction applies in
      full, whatever its LF ratio. */
  function DryGainHFMb(p: SourceProps): (mb: real)
    ensures p.occlusion == 0 ==> mb == p.directHF as real + p.obstruction as real
  {
    (p.directHF + p.obstruction) as real + p.occlusion as real * p.occlusionDirectRatio
  }

  /** Wet-path low-frequency level, before the cap (eax.c:69-72). With
      neither exclusion nor occlusion it is the room level; with both LF
      ratios at 1 the low frequencies lose exactly what the high ones lose. */
  function WetGainMb(p: SourceProps): (mb: real)
    ensures p.exclusion == 0 && p.occlusion == 0 ==> mb == p.room as real
    ensures p.exclusionLFRatio == 1.0 && p.occlusionLFRatio == 1.0 ==>
              mb - p.room as real == WetGainHFMb(p) - p.roomHF as real
  {
    p.room as real + p.exclusion as real * p.exclusionLFRatio
    + OcclusionBlend(p.occlusionLFRatio, p.occlusionRoomRatio) * p.occlusion as real
  }

  /** Wet-path high-frequency level (eax.c:70, 73). Exclusion applies in
      full, whatever its LF ratio. */
  function WetGainHFMb(p: SourceProps): (mb: real)
    ensures p.occlusion == 0 ==> mb == p.roomHF as real + p.exclusion as real
  {
    (p.roomHF + p.exclusion) as real + p.occlusion as real * p.occlusionRoomRatio
  }

  /** The pushes ApplyFilterParams makes. A side is pushed only when the caller
      asked for it and its filter exists; when it is, both its gains are. Both
      low-frequency gains are capped at the buffer's filter limit; the
      high-frequency gains are pushed as computed, uncapped. */
  function ApplyFilterParams(p: SourceProps, apply: Sides, hasDry: bool, hasWet: bool, limit: real)
    : (r: seq<FilterPush>)
    ensures forall q :: q in r && q.side == DryPath ==> apply.dry && hasDry
    ensures forall q :: q in r && q.side == WetPath ==> apply.wet && hasWet
    ensures apply.dry && hasDry ==>
              LowpassGain(DryPath, MinF(DryGainMb(p), limit)) in r
              && LowpassGainHF(DryPath, DryGainHFMb(p)) in r
    ensures apply.wet && hasWet ==>
              LowpassGain(WetPath, MinF(WetGainMb(p), limit)) in r
              && LowpassGainHF(WetPath, WetGainHFMb(p)) in r
    ensures forall q :: q in r && q.LowpassGain? ==> q.mb <= limit
    ensures forall q :: q in r && q.LowpassGainHF? && q.side == DryPath ==> q.mb == DryGainHFMb(p)
    ensures forall q :: q in r && q.LowpassGainHF? && q.side == WetPath ==> q.mb == WetGainHFMb(p)
    ensures |r| == (if apply.dry && hasDry then 2 else 0) + (if apply.wet && hasWet then 2 else 0)
  {
    (if apply.dry && hasDry
     then [LowpassGain(DryPath, MinF(DryGainMb(p), limit)), LowpassGainHF(DryPath, DryGainHFMb(p))]
     else [])
    + (if apply.wet && hasWet
       then [LowpassGain(WetPath, MinF(WetGainMb(p), limit)), LowpassGainHF(WetPath, WetGainHFMb(p))]
       else [])
  }

  /** With both ratios in [0, 1] the blend stays in [0, min(lfRatio, pathRatio)]. */
  lemma OcclusionBlendBounds(lfRatio: real, pathRatio: real)
    requires 0.0 <= lfRatio <= 1.0 && 0.0 <= pathRatio <= 1.0
    ensures 0.0 <= OcclusionBlend(lfRatio, pathRatio)
    ensures OcclusionBlend(lfRatio, pathRatio) <= lfRatio
    ensures OcclusionBlend(lfRatio, pathRatio) <= pathRatio
  {
    assert lfRatio * pathRatio <= 1.0 * pathRatio by {
      assert (1.0 - lfRatio) * pathRatio >= 0.0;
    }
    assert lfRatio * pathRatio <= lfRatio * 1.0 by {
      assert lfRatio * (1.0 - pathRatio) >= 0.0;
    }
  }

  /** With a full LF ratio the path ratio applies linearly, and vice versa. */
  lemma OcclusionBlendAtFullRatio(ratio: real)
    ensures OcclusionBlend(1.0, ratio) == ratio
    ensures OcclusionBlend(ratio, 1.0) == ratio
  {
  }

  /** For an attenuating occlusion (level <= 0) and ratios in [0, 1], the
      occlusion takes no more off the low frequencies than off the high ones,
      on either path. */
  lemma OcclusionSparesLowFrequencies(p: SourceProps)
    requires p.occlusion <= 0
    requires 0.0 <= p.occlusionLFRatio <= 1.0
    requires 0.0 <= p.occlusionDirectRatio <= 1.0 && 0.0 <= p.occlusionRoomRatio <= 1.0
    ensures OcclusionBlend(p.occlusionLFRatio, p.occlusionDirectRatio) * p.occlusion as real
            >= p.occlusion as real * p.occlusionDirectRatio
    ensures OcclusionBlend(p.occlusionLFRatio, p.occlusionRoomRatio) * p.occlusion as real
            >= p.occlusion as real * p.occlusionRoomRatio
  {
    var occ := p.occlusion as real;
    var bd := OcclusionBlend(p.occlusionLFRatio, p.occlusionDirectRatio);
    var br := OcclusionBlend(p.occlusionLFRatio, p.occlusionRoomRatio);
    OcclusionBlendBounds(p.occlusionLFRatio, p.occlusionDirectRatio);
    OcclusionBlendBounds(p.occlusionLFRatio, p.occlusionRoomRatio);
    assert (p.occlusionDirectRatio - bd) * occ <= 0.0;
    assert (p.occlusionRoomRatio - br) * occ <= 0.0;
  }

  /** The high-frequency levels do not depend on any LF ratio: the HF filter
      applies obstruction, occlusion and exclusion in full. */
  lemma HighFrequenciesIgnoreLFRatios(p: SourceProps, obstructionLF: real, occlusionLF: real,
                                      exclusionLF: real)
    ensures var q := p.(obstructionLFRatio := obstructionLF, occlusionLFRatio := occlusionLF,
                        exclusionLFRatio := exclusionLF);
            DryGainHFMb(q) == DryGainHFMb(p) && WetGainHFMb(q) == WetGainHFMb(p)
  {
  }

  /** A single-field Set recomputes only the sides FieldSides names, and this
      is sound: a field that does not request a side cannot change that side's
      gains, so the filter that is not refreshed is never stale. */
  lemma UnrequestedSideUnaffected(p: SourceProps, f: SourceField, v: Value)
    requires KindOf(v) == FieldKind(f)
    ensures !FieldSides(f).dry ==>
              DryGainMb(WithField(p, f, v)) == DryGainMb(p)
              && DryGainHFMb(WithField(p, f, v)) == DryGainHFMb(p)
    ensures !FieldSides(f).wet ==>
              WetGainMb(WithField(p, f, v)) == WetGainMb(p)
              && WetGainHFMb(WithField(p, f, v)) == WetGainHFMb(p)
  {
  }

  /** The worked example: occlusion -1000 mB with LF ratio 0.25 and direct
      ratio 0.5, everything else neutral, gives -125 mB low and -500 mB high
      on the dry path. */
  lemma DryOcclusionExample(p: SourceProps)
    requires p.direct == 0 && p.directHF == 0 && p.obstruction == 0 && p.obstructionLFRatio == 0.0
    requires p.occlusion == -1000 && p.occlusionLFRatio == 0.25 && p.occlusionDirectRatio == 0.5
    ensures DryGainMb(p) == -125.0
    ensures DryGainHFMb(p) == -500.0
  {
  }
}
