// Which requests the receiver republishes (coap-receiver/handler.go).
module ReceiverProofs {
  import opened Wrappers
  import opened Events
  import Utf8
  import Topics
  import opened Receiver

  // Response class 2 is 2.00 to 2.31.
  lemma SuccessIff(code: Code)
    ensures IsSuccess(code) <==> 64 <= code < 96
  {
  }

  // A declared format is decoded by its own decoder and by no other; without one a body
  // that is JSON is taken as JSON, and only others as CBOR.
  predicate Decodes(d: Decoders, body: Bytes, format: Option<Format>, ev: Event) {
    || (d.json(body) == Some(ev) && (format == Some(Json) || format == None))
    || (d.cbor(body) == Some(ev) && (format == Some(Cbor) || (format == None && d.json(body) == None)))
  }

  // Exactly which event a request carries.
  lemma CarriedIff(d: Decoders, r: Request, ev: Event)
    ensures Carried(d, r) == Some(ev)
            <==> r.body.Some? && r.body.value != [] && Decodes(d, r.body.value, r.format, ev) && Acceptable(ev)
  {
  }

  lemma WantedIff(d: Decoders, r: Request, ev: Event)
    ensures Wanted(d, r) == Some(ev) <==> r.isPost && Carried(d, r) == Some(ev) && d.marshals(ev)
  {
  }

  // A request with a declared format does not depend on the decoder of the other one,
  // and one with a format that the receiver does not know carries nothing.
  lemma DeclaredFormat(d: Decoders, r: Request, json: Bytes -> Option<Event>, cbor: Bytes -> Option<Event>)
    ensures r.format == Some(Cbor) ==> Wanted(d, r) == Wanted(d.(json := json), r)
    ensures r.format == Some(Json) ==> Wanted(d, r) == Wanted(d.(cbor := cbor), r)
    ensures r.format == Some(Other) ==> Carried(d, r).None?
  {
  }

  // The accepted machine ids are exactly those that are one level of a topic: some
  // characters, all of them allowed in a topic, and no level separator.
  lemma AcceptableIff(ev: Event)
    ensures Acceptable(ev) <==> ev.machineId != "" && Topics.TopicChars(ev.machineId) && '/' !in ev.machineId
  {
    var id := ev.machineId;
    if id != "" && Topics.TopicChars(id) && '/' !in id {
      forall i | 0 <= i < |id|
        ensures IsTopicSafe(id[i])
      {
        assert Topics.IsTopicChar(id[i]) && id[i] in id;
      }
    }
  }

  // An accepted event goes to a topic that MQTT allows, unless its id is too long for
  // any, and the topic gives the id back.
  lemma AcceptedTopic(ev: Event)
    requires Acceptable(ev)
    ensures var topic := Topics.EventTopic(Topics.Flat, ev.machineId);
            && (Topics.LegalTopic(topic) <==> Utf8.Bytes(ev.machineId) <= Topics.TOPIC_LIMIT - 17)
            && Topics.MachineId(topic) == ev.machineId
  {
    AcceptableIff(ev);
    Topics.EventTopicIff(Topics.Flat, ev.machineId);
    Topics.FlatPrefix(Topics.Prefix(Topics.Flat));
    Topics.FlatMachineIff(ev.machineId);
  }
}
