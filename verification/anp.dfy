/** The ANP message envelope (`AnpMsg` of kwmlib) as far as the command driver
    uses it: a 32-bit type tag and an ordered list of typed elements, built by
    appending elements and read back by index with a typed accessor. */
module Anp {

  type U8 = x: int | 0 <= x < 0x100
  type U32 = x: int | 0 <= x < 0x1_0000_0000
  type U64 = x: int | 0 <= x < 0x1_0000_0000_0000_0000

  /** Some/None, standing for a nullable reference or a read that throws. */
  datatype Option<+T> = None | Some(value: T)

  /** One typed element of a message. */
  datatype Element =
    | UInt32(u32: U32)
    | UInt64(u64: U64)
    | Str(text: string)
    | Bin(bytes: seq<U8>)

  datatype Msg = Msg(msgType: U32, elements: seq<Element>)

  /** `AddUInt32`, `AddUInt64`, `AddString`, `AddBin`: append one element. */
  function AddElement(m: Msg, e: Element): (r: Msg)
    ensures r.msgType == m.msgType
    ensures |r.elements| == |m.elements| + 1
    ensures r.elements[..|m.elements|] == m.elements
    ensures r.elements[|m.elements|] == e
  {
    Msg(m.msgType, m.elements + [e])
  }

  /** A run of `Add*` calls, one element at a time, in call order. */
  function AddElements(m: Msg, es: seq<Element>): (r: Msg)
    ensures r.msgType == m.msgType
    ensures r.elements == m.elements + es
    decreases |es|
  {
    if |es| == 0 then m
    else
      var m' := AddElement(m, es[0]);
      assert m'.elements + es[1..] == m.elements + es;
      AddElements(m', es[1..])
  }

  /** `m.Elements[i].UInt32`: None exactly where that accessor throws, because
      the index is out of range or the element is not a 32-bit integer. */
  function ElementU32(m: Msg, i: nat): (r: Option<U32>)
    ensures r.Some? <==> i < |m.elements| && m.elements[i].UInt32?
    ensures r.Some? ==> m.elements[i] == UInt32(r.value)
  {
    if i < |m.elements| then
      match m.elements[i]
      case UInt32(v) => Some(v)
      case _ => None
    else None
  }

  /** `m.Elements[i].String`: None exactly where that accessor throws, because
      the index is out of range or the element is not a string. */
  function ElementString(m: Msg, i: nat): (r: Option<string>)
    ensures r.Some? <==> i < |m.elements| && m.elements[i].Str?
    ensures r.Some? ==> m.elements[i] == Str(r.value)
  {
    if i < |m.elements| then
      match m.elements[i]
      case Str(s) => Some(s)
      case _ => None
    else None
  }

  /** The payload of a `Failure` result: the failure kind, then its message. */
  datatype FailureInfo = FailureInfo(kind: U32, text: string)

  /** Reads element 0 as the failure kind and element 1 as the message; None
      when either read throws. */
  function FailurePayload(m: Msg): (r: Option<FailureInfo>)
    ensures r.Some? <==> |m.elements| >= 2 && m.elements[0].UInt32? && m.elements[1].Str?
    ensures r.Some? ==> m.elements[0] == UInt32(r.value.kind) && m.elements[1] == Str(r.value.text)
  {
    match ElementU32(m, 0)
    case None => None
    case Some(k) =>
      match ElementString(m, 1)
      case None => None
      case Some(t) => Some(FailureInfo(k, t))
  }

  /** Reading back what was appended: the new element is found at the old
      length and every earlier element reads as before. */
  lemma AddThenRead(m: Msg, e: Element)
    ensures e.UInt32? ==> ElementU32(AddElement(m, e), |m.elements|) == Some(e.u32)
    ensures e.Str? ==> ElementString(AddElement(m, e), |m.elements|) == Some(e.text)
    ensures forall i :: 0 <= i < |m.elements| ==>
      ElementU32(AddElement(m, e), i) == ElementU32(m, i) &&
      ElementString(AddElement(m, e), i) == ElementString(m, i)
  {
  }

  /** A message built with a kind then a text always yields that failure
      payload back, whatever elements follow. */
  lemma FailurePayloadRoundTrip(t: U32, kind: U32, text: string, rest: seq<Element>)
    ensures FailurePayload(AddElements(Msg(t, []), [UInt32(kind), Str(text)] + rest))
         == Some(FailureInfo(kind, text))
  {
  }
}
