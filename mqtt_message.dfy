/** The MQTT message the broker passes around, with its two builder methods. The
    random UUID and the clock reading that `new` takes from the system are the
    parameters `id` and `now`. */
module MqttMessage {
  import opened Wrappers

  /** `u8`. */
  newtype U8 = x: int | 0 <= x < 256

  datatype Message = Message(
    id: string, topic: string, payload: seq<U8>, qos: U8, retain: bool, timestamp: nat, clientId: Option<string>)

  /** `MqttMessage::new`: keeps topic, payload and QoS, not retained, no client. */
  function New(topic: string, payload: seq<U8>, qos: U8, id: string, now: nat): (m: Message)
    ensures m.topic == topic && m.payload == payload && m.qos == qos
    ensures !m.retain && m.clientId.None?
    ensures m.id == id && m.timestamp == now
  {
    Message(id, topic, payload, qos, false, now, None)
  }

  /** `with_client_id`: sets the client and nothing else. */
  function WithClientId(m: Message, clientId: string): (r: Message)
    ensures r.clientId == Some(clientId)
    ensures r == m.(clientId := r.clientId)
  {
    m.(clientId := Some(clientId))
  }

  /** `with_retain`: sets the retain flag and nothing else. */
  function WithRetain(m: Message, retain: bool): (r: Message)
    ensures r.retain == retain
    ensures r == m.(retain := r.retain)
  {
    m.(retain := retain)
  }

  /** The builders touch different fields, so their order does not matter, and
      applying one twice keeps only the last value. */
  lemma BuildersCommute(m: Message, clientId: string, retain: bool)
    ensures WithRetain(WithClientId(m, clientId), retain) == WithClientId(WithRetain(m, retain), clientId)
    ensures WithRetain(WithRetain(m, !retain), retain) == WithRetain(m, retain)
    ensures WithClientId(WithClientId(m, "") , clientId) == WithClientId(m, clientId)
  {
  }

  /** A fully built message keeps everything `new` was given. */
  lemma BuiltMessageKeepsContent(topic: string, payload: seq<U8>, qos: U8, id: string, now: nat,
                                 clientId: string, retain: bool)
    ensures var m := WithRetain(WithClientId(New(topic, payload, qos, id, now), clientId), retain);
            m == Message(id, topic, payload, qos, retain, now, Some(clientId))
  {
  }
}
