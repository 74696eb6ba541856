/** What eax.c uses but does not define: the environment preset table and the
    generic preset (eax-presets.h), gain_to_mB and RescaleEnvSize (the
    driver's private header). They are given to the model as values. */
module Host {
  import opened Base
  import opened Records

  /** EAX_ENVIRONMENT_UNDEFINED: the number of environment presets. */
  const EnvironmentUndefined: u32 := 26

  datatype Externals = Externals(
    /** EnvironmentDefaults[], indexed by environment. */
    environmentDefaults: seq<ReverbProps>,
    /** REVERB_PRESET_GENERIC. */
    presetGeneric: ReverbProps,
    /** gain_to_mB, as the whole number of millibels its callers store. */
    gainToMb: real -> int,
    /** RescaleEnvSize(props, newSize), returning the rescaled record. */
    rescaleEnvSize: (ReverbProps, real) -> ReverbProps)

  /** What the model assumes of the collaborators: there is one preset per
      environment, every preset (and the generic one) names an environment in
      range, and rescaling the size keeps the environment in range. */
  ghost predicate Valid(x: Externals)
  {
    && |x.environmentDefaults| == EnvironmentUndefined as int
    && (forall i :: 0 <= i < |x.environmentDefaults| ==>
          x.environmentDefaults[i].environment < EnvironmentUndefined)
    && x.presetGeneric.environment < EnvironmentUndefined
    && (forall r: ReverbProps, size: real :: r.environment < EnvironmentUndefined ==>
          x.rescaleEnvSize(r, size).environment < EnvironmentUndefined)
  }

  /** The preset for environment i records i as its environment. Only the
      read-back properties rely on this. */
  predicate PresetsSelfIndexed(x: Externals)
  {
    forall i :: 0 <= i < |x.environmentDefaults| ==> x.environmentDefaults[i].environment as int == i
  }
}
