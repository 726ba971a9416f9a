/** lib/returnvalue.cpp: the result of a call, a copy-on-write value in the original. */
module ReturnValues {
  import opened QtTypes
  import opened DataStream

  // ReturnValueData::ReturnValueType. A number off the wire is not checked, so `kind` may be any.
  const VARIANT: UInt32 := 0
  const ERROR: UInt32 := 1
  const SERVICE: UInt32 := 2
  const ASYNCRONOUS: UInt32 := 3

  datatype ReturnValue = ReturnValue(kind: UInt32, value: QVariant, number: UInt32, text: QString, serviceId: UInt32)
  {
    predicate IsError() { kind == ERROR }

    predicate IsService() { kind == SERVICE }

    predicate IsAsyncronous() { kind == ASYNCRONOUS }

    function SetServiceId(id: UInt32): ReturnValue {
      this.(kind := SERVICE, serviceId := id)
    }
  }

  const DEFAULT_RETURN: ReturnValue := ReturnValue(VARIANT, Null, 0, [], 0xFFFF_FFFF)

  function FromVariant(v: QVariant): ReturnValue {
    DEFAULT_RETURN.(value := v)
  }

  function FromError(number: int, text: QString): ReturnValue {
    DEFAULT_RETURN.(kind := ERROR, number := ToUInt32(number), text := text)
  }

  ghost predicate FitsReturn(r: ReturnValue) {
    FitsVariant(r.value) && FitsString(r.text)
  }

  function PutReturn(r: ReturnValue): seq<Byte>
    requires FitsReturn(r)
  {
    PutU32(r.kind) +
    if r.kind == SERVICE then PutU32(r.serviceId)
    else if r.kind == ERROR then PutU32(r.number) + PutString(r.text)
    else PutVariant(r.value)
  }

  function GetReturn(s: seq<Byte>): (g: Got<ReturnValue>)
    ensures |g.rest| <= |s|
  {
    var k := GetU32(s);
    var r := DEFAULT_RETURN.(kind := k.value);
    if k.value == SERVICE then
      var id := GetU32(k.rest);
      Got(r.(serviceId := id.value), id.rest)
    else if k.value == ERROR then
      var number := GetU32(k.rest);
      var text := GetString(number.rest);
      Got(r.(number := number.value, text := text.value), text.rest)
    else
      var v := GetVariant(k.rest);
      Got(r.(value := v.value), v.rest)
  }

  /** What survives the wire: the fields of its kind. */
  function ReturnOnWire(r: ReturnValue): ReturnValue {
    var d := DEFAULT_RETURN.(kind := r.kind);
    if r.kind == SERVICE then d.(serviceId := r.serviceId)
    else if r.kind == ERROR then d.(number := r.number, text := r.text)
    else d.(value := r.value)
  }

  lemma ReturnRoundTrip(r: ReturnValue, rest: seq<Byte>)
    requires FitsReturn(r)
    ensures GetReturn(PutReturn(r) + rest) == Got(ReturnOnWire(r), rest)
  {
    hide GetU32, PutU32, GetString, PutString, GetVariant, PutVariant;
    if r.kind == SERVICE {
      TaggedRoundTrip(SERVICE, PutU32(r.serviceId), rest);
      U32RoundTrip(r.serviceId, rest);
    } else if r.kind == ERROR {
      TaggedRoundTrip(ERROR, PutU32(r.number) + PutString(r.text), rest);
      TaggedRoundTrip(r.number, PutString(r.text), rest);
      StringRoundTrip(r.text, rest);
    } else {
      TaggedRoundTrip(r.kind, PutVariant(r.value), rest);
      VariantRoundTrip(r.value, rest);
    }
  }

  method ReadReturn(s: Stream) returns (r: ReturnValue)
    modifies s
    ensures Got(r, s.data) == GetReturn(old(s.data))
  {
    var kind := s.ReadU32();
    r := DEFAULT_RETURN.(kind := kind);
    if kind == SERVICE {
      var id := s.ReadU32();
      r := r.(serviceId := id);
    } else if kind == ERROR {
      var number := s.ReadU32();
      var text := s.ReadString();
      r := r.(number := number, text := text);
    } else {
      var v := s.ReadVariant();
      r := r.(value := v);
    }
  }
}
