/** Property payloads. The C handlers receive `void *pPropData` and a byte
    count `cbPropData` and reinterpret the bytes as the property's type; here a
    payload is a typed value plus the byte count the caller claimed. */
module Payloads {
  import opened Base
  import opened Records

  /** The C type a property reads or writes. */
  datatype Kind =
    | LongKind | FloatKind | DwordKind | FlagsKind | VectorKind
    | ReverbKind | Listener2Kind | Listener1Kind
    | SourceKind | Source2Kind
    | ObstructionKind | OcclusionKind | ExclusionKind

  datatype Value =
    | LongValue(l: int)
    | FloatValue(fl: real)
    | DwordValue(dw: u32)
    | FlagsValue(bits: bv32)
    | VectorValue(vec: Vector)
    | ReverbValue(reverbProps: ReverbProps)
    | Listener2Value(listener2: Listener2Props)
    | Listener1Value(listener1: Listener1Props)
    | SourceValue(source: SourceProps)
    | Source2Value(source2: Source2Props)
    | ObstructionValue(obstructionProps: ObstructionProps)
    | OcclusionValue(occlusionProps: OcclusionProps)
    | ExclusionValue(exclusionProps: ExclusionProps)

  function KindOf(v: Value): Kind
  {
    match v
    case LongValue(_) => LongKind
    case FloatValue(_) => FloatKind
    case DwordValue(_) => DwordKind
    case FlagsValue(_) => FlagsKind
    case VectorValue(_) => VectorKind
    case ReverbValue(_) => ReverbKind
    case Listener2Value(_) => Listener2Kind
    case Listener1Value(_) => Listener1Kind
    case SourceValue(_) => SourceKind
    case Source2Value(_) => Source2Kind
    case ObstructionValue(_) => ObstructionKind
    case OcclusionValue(_) => OcclusionKind
    case ExclusionValue(_) => ExclusionKind
  }

  /** sizeof of each C type: every scalar (LONG, float, DWORD) is four bytes
      and the structures are those scalars in sequence. */
  function SizeOf(k: Kind): (n: nat)
    ensures n % 4 == 0 && n >= 4
  {
    match k
    case LongKind => 4
    case FloatKind => 4
    case DwordKind => 4
    case FlagsKind => 4
    case VectorKind => 12
    case ReverbKind => 112
    case Listener2Kind => 56
    case Listener1Kind => 16
    case SourceKind => 72
    case Source2Kind => 52
    case ObstructionKind => 8
    case OcclusionKind => 16
    case ExclusionKind => 8
  }

  /** pPropData as a typed value, and cbPropData. */
  datatype Payload = Payload(value: Value, cb: nat)

  /** The payload has the type the property expects (None: the property reads
      no payload). This is the caller's side of the property-set convention:
      C cannot check it, it simply reinterprets the bytes. */
  predicate Fits(expected: Option<Kind>, v: Value)
  {
    expected.None? || KindOf(v) == expected.value
  }

  /** What a Get writes: the result code, *pPropData (None: untouched) and
      *pcbReturned (None: untouched). */
  datatype GetOutcome = GetOutcome(hr: HResult, data: Option<Value>, returned: Option<nat>)

  /** A Get that writes nothing through its out-pointers. */
  function Untouched(hr: HResult): GetOutcome
  {
    GetOutcome(hr, None, None)
  }

  /** The GET_PROP macro of eax.c: copy `v` out when the caller's buffer can
      hold it, otherwise fail with DSERR_INVALIDPARAM and write nothing. */
  function GetProp(v: Value, cb: nat): (r: GetOutcome)
    ensures r.hr == DsOk <==> cb >= SizeOf(KindOf(v))
    ensures r.hr == DsOk ==> r.data == Some(v) && r.returned == Some(SizeOf(KindOf(v)))
    ensures r.hr != DsOk ==> r == Untouched(InvalidParam)
  {
    if cb >= SizeOf(KindOf(v)) then GetOutcome(DsOk, Some(v), Some(SizeOf(KindOf(v))))
    else Untouched(InvalidParam)
  }
}
