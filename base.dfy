/** Basic vocabulary shared by the EAX property-set model: fixed-width DWORDs,
    the property id as the dispatchers see it, result codes, and the small
    numeric helpers (minF/maxF from eax.c, clampI/clampF from the driver's
    private header). */
module Base {

  /** A Win32 DWORD / ULONG. */
  newtype u32 = x: int | 0 <= x < 0x1_0000_0000

  datatype Option<T> = None | Some(value: T)

  /** A property id as passed by the caller: the property of this set it names
      (None when the code is none of this set's properties) and whether the
      caller or-ed the "deferred" modifier bit into it. */
  datatype PropId<P> = PropId(name: Option<P>, deferred: bool)

  /** The case label a `switch(propid)` on the raw id reaches: an id carrying
      the deferred bit equals none of the labels. */
  function Routed<P>(id: PropId<P>): (r: Option<P>)
    ensures r.Some? <==> id.name.Some? && !id.deferred
    ensures r.Some? ==> r == id.name
  {
    if id.deferred then None else id.name
  }

  /** The id of property q with no modifier bit set. */
  function Plain<P>(q: P): (id: PropId<P>)
    ensures Routed(id) == Some(q) && id.name == Some(q)
  {
    PropId(Some(q), false)
  }

  /** The HRESULTs the property handlers return. */
  datatype HResult = DsOk | PropIdUnsupported | InvalidParam | InvalidCall

  /** KSPROPERTY_SUPPORT_GET / KSPROPERTY_SUPPORT_SET. */
  datatype Support = SupportGet | SupportSet

  /** What a Query writes: the result code and, on success, *pTypeSupport
      (None: left untouched). */
  datatype QueryOutcome = QueryOutcome(hr: HResult, support: Option<set<Support>>)

  /** What a Set does: the result code, the new state and the pushes it
      makes to the audio library, in order. */
  datatype SetOutcome<S, P> = SetOutcome(hr: HResult, state: S, pushes: seq<P>)

  /** A Set that fails with `hr` and changes nothing. */
  function Rejected<S, P>(s: S, hr: HResult): SetOutcome<S, P>
  {
    SetOutcome(hr, s, [])
  }

  /** An EAXVECTOR. */
  datatype Vector = Vector(x: real, y: real, z: real)

  /** minF (eax.c:29-30). */
  function MinF(a: real, b: real): (r: real)
    ensures r <= a && r <= b
    ensures r == a || r == b
  {
    if a <= b then a else b
  }

  /** maxF (eax.c:31-32). */
  function MaxF(a: real, b: real): (r: real)
    ensures r >= a && r >= b
    ensures r == a || r == b
  {
    if a >= b then a else b
  }

  /** clampI, taken to be the usual saturating clamp. */
  function ClampI(v: int, lo: int, hi: int): (r: int)
    requires lo <= hi
    ensures lo <= r <= hi
    ensures lo <= v <= hi ==> r == v
    ensures v < lo ==> r == lo
    ensures v > hi ==> r == hi
  {
    if v < lo then lo else if v > hi then hi else v
  }

  /** clampF, taken to be the usual saturating clamp. */
  function ClampF(v: real, lo: real, hi: real): (r: real)
    requires lo <= hi
    ensures lo <= r <= hi
    ensures lo <= v <= hi ==> r == v
    ensures v < lo ==> r == lo
    ensures v > hi ==> r == hi
  {
    if v < lo then lo else if v > hi then hi else v
  }
}
