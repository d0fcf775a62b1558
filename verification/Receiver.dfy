// The CoAP-to-MQTT receiver (coap-receiver/handler.go).
module Receiver {
  import opened Wrappers
  import opened Events

  type Bytes = seq<bv8>

  // CoAP response codes: class in the upper three bits, detail in the lower five
  // (RFC 7252, section 3).
  type Code = c: nat | c < 256 witness 0
  const CHANGED: Code := 68               // 2.04
  const BAD_REQUEST: Code := 128          // 4.00
  const METHOD_NOT_ALLOWED: Code := 133   // 4.05
  const INTERNAL_SERVER_ERROR: Code := 160 // 5.00
  const SERVICE_UNAVAILABLE: Code := 163  // 5.03

  // What the agent takes as acceptance: response class 2.
  predicate IsSuccess(code: Code) {
    code / 32 == 2
  }

  datatype Format = Cbor | Json | Other

  datatype Decoders = Decoders(
    json: Bytes -> Option<Event>,
    cbor: Bytes -> Option<Event>,
    marshals: Event -> bool)   // json.Marshal refuses NaN and infinities

  function DecodeEvent(d: Decoders, body: Bytes, format: Option<Format>): Option<Event> {
    match format
    case Some(Cbor) => d.cbor(body)
    case Some(Json) => d.json(body)
    case Some(Other) => None
    case None => if d.json(body).Some? then d.json(body) else d.cbor(body)
  }

  predicate IsTopicSafe(c: char) {
    c != '/' && c != '+' && c != '#' && c != '\0'
  }

  // A machine id that forms one level of an MQTT topic.
  predicate Acceptable(ev: Event) {
    ev.machineId != "" && forall i :: 0 <= i < |ev.machineId| ==> IsTopicSafe(ev.machineId[i])
  }

  // The source's scan for a forbidden character.
  method Validate(ev: Event) returns (ok: bool)
    ensures ok == Acceptable(ev)
  {
    if ev.machineId == "" {
      return false;
    }
    var i := 0;
    while i < |ev.machineId|
      invariant 0 <= i <= |ev.machineId|
      invariant forall k :: 0 <= k < i ==> IsTopicSafe(ev.machineId[k])
    {
      if !IsTopicSafe(ev.machineId[i]) {
        return false;
      }
      i := i + 1;
    }
    return true;
  }

  datatype Request = Request(isPost: bool, body: Option<Bytes>, format: Option<Format>)

  // The event in the body of a request, if it decodes and can form a topic.
  function Carried(d: Decoders, r: Request): Option<Event> {
    if r.body.None? || r.body.value == [] then None
    else
      var ev := DecodeEvent(d, r.body.value, r.format);
      if ev.Some? && Acceptable(ev.value) then ev else None
  }

  // The event a request asks the receiver to republish, if it is well formed.
  function Wanted(d: Decoders, r: Request): Option<Event> {
    var ev := Carried(d, r);
    if r.isPost && ev.Some? && d.marshals(ev.value) then ev else None
  }

  class EventsHandler {
    var received: nat
    var rejected: nat
    var republished: nat
    var failures: nat

    // Every POST ends in exactly one of the three outcome counters.
    ghost predicate Valid()
      reads this
    {
      received == rejected + republished + failures
    }

    constructor ()
      ensures Valid() && received == 0
    {
      received, rejected, republished, failures := 0, 0, 0, 0;
    }

    // `brokerAcks` is the outcome of the publish call, if it is made; `published`
    // is the event handed to it.
    method Handle(d: Decoders, r: Request, brokerAcks: bool) returns (code: Code, published: Option<Event>)
      requires Valid()
      modifies this
      ensures Valid()
      ensures published == Wanted(d, r)
      ensures IsSuccess(code) <==> published.Some? && brokerAcks
      ensures code == CHANGED <==> published.Some? && brokerAcks
      ensures code == SERVICE_UNAVAILABLE <==> published.Some? && !brokerAcks
      ensures code == METHOD_NOT_ALLOWED <==> !r.isPost
      ensures code == BAD_REQUEST <==> r.isPost && Carried(d, r).None?
      ensures code == INTERNAL_SERVER_ERROR <==> r.isPost && Carried(d, r).Some? && published.None?
      ensures received == old(received) + (if r.isPost then 1 else 0)
      ensures rejected == old(rejected) + (if r.isPost && published.None? then 1 else 0)
      ensures republished == old(republished) + (if IsSuccess(code) then 1 else 0)
      ensures failures == old(failures) + (if published.Some? && !brokerAcks then 1 else 0)
    {
      if !r.isPost {
        return METHOD_NOT_ALLOWED, None;
      }
      received := received + 1;
      if r.body.None? || r.body.value == [] {
        rejected := rejected + 1;
        return BAD_REQUEST, None;
      }
      var ev := DecodeEvent(d, r.body.value, r.format);
      var ok := false;
      if ev.Some? {
        ok := Validate(ev.value);
      }
      if !ok {
        rejected := rejected + 1;
        return BAD_REQUEST, None;
      }
      if !d.marshals(ev.value) {
        rejected := rejected + 1;
        return INTERNAL_SERVER_ERROR, None;
      }
      if !brokerAcks {
        failures := failures + 1;
        return SERVICE_UNAVAILABLE, ev;
      }
      republished := republished + 1;
      return CHANGED, ev;
    }
  }
}
