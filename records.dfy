/** The property structures exchanged with EAX 1, 2 and 3 callers. `long`
    fields are whole millibels (or plain integers), `float` fields are reals,
    DWORD environments are u32 and DWORD flag words are bv32. */
module Records {
  import opened Base

  /** EAXREVERBPROPERTIES, which is also the EAX 3 listener's
      ALLPARAMETERS structure (EAX30LISTENERPROPERTIES). */
  datatype ReverbProps = ReverbProps(
    environment: u32,
    environmentSize: real,
    environmentDiffusion: real,
    room: int,
    roomHF: int,
    roomLF: int,
    decayTime: real,
    decayHFRatio: real,
    decayLFRatio: real,
    reflections: int,
    reflectionsDelay: real,
    reflectionsPan: Vector,
    reverb: int,
    reverbDelay: real,
    reverbPan: Vector,
    echoTime: real,
    echoDepth: real,
    modulationTime: real,
    modulationDepth: real,
    airAbsorptionHF: real,
    hfReference: real,
    lfReference: real,
    roomRolloffFactor: real,
    flags: bv32)

  /** EAX20LISTENERPROPERTIES: the EAX 2 listener's view of the reverb. */
  datatype Listener2Props = Listener2Props(
    room: int,
    roomHF: int,
    roomRolloffFactor: real,
    decayTime: real,
    decayHFRatio: real,
    reflections: int,
    reflectionsDelay: real,
    reverb: int,
    reverbDelay: real,
    environment: u32,
    environmentSize: real,
    environmentDiffusion: real,
    airAbsorptionHF: real,
    flags: bv32)

  /** EAX10LISTENERPROPERTIES. */
  datatype Listener1Props = Listener1Props(
    environment: u32,
    volume: real,
    decayTime: real,
    damping: real)

  /** EAXSOURCEPROPERTIES, which is also the EAX 3 buffer's ALLPARAMETERS
      structure (EAX30BUFFERPROPERTIES). */
  datatype SourceProps = SourceProps(
    direct: int,
    directHF: int,
    room: int,
    roomHF: int,
    obstruction: int,
    obstructionLFRatio: real,
    occlusion: int,
    occlusionLFRatio: real,
    occlusionRoomRatio: real,
    occlusionDirectRatio: real,
    exclusion: int,
    exclusionLFRatio: real,
    outsideVolumeHF: int,
    dopplerFactor: real,
    rolloffFactor: real,
    roomRolloffFactor: real,
    airAbsorptionFactor: real,
    flags: bv32)

  /** EAX20BUFFERPROPERTIES: the EAX 2 buffer's view of the source. */
  datatype Source2Props = Source2Props(
    direct: int,
    directHF: int,
    room: int,
    roomHF: int,
    roomRolloffFactor: real,
    obstruction: int,
    obstructionLFRatio: real,
    occlusion: int,
    occlusionLFRatio: real,
    occlusionRoomRatio: real,
    outsideVolumeHF: int,
    airAbsorptionFactor: real,
    flags: bv32)

  /** EAXOBSTRUCTIONPROPERTIES. */
  datatype ObstructionProps = ObstructionProps(obstruction: int, obstructionLFRatio: real)

  /** EAXOCCLUSIONPROPERTIES. */
  datatype OcclusionProps = OcclusionProps(
    occlusion: int,
    occlusionLFRatio: real,
    occlusionRoomRatio: real,
    occlusionDirectRatio: real)

  /** EAXEXCLUSIONPROPERTIES. */
  datatype ExclusionProps = ExclusionProps(exclusion: int, exclusionLFRatio: real)
}
