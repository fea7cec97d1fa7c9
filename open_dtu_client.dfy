/**
 * The OpenDTU relay: an MQTT message on `solar/<serial>/<channel>/<field>` becomes
 * one InfluxDB point, published as an `InfluxWriteEvent` for org "home" and
 * bucket "solar".
 */
module OpenDtuClient {
  import opened Wrappers
  import opened Json
  import opened Text
  import opened InfluxWriteEvents

  /**
   * What handling one message leads to: an event published, nothing done, or
   * an exception raised inside the handler and logged (nothing published).
   */
  datatype Outcome = Published(event: InfluxWriteEvent) | Ignored | Failed

  /** The point record `{"measurement": m, "tags": {}, "fields": {field: value}}`. */
  function PointRecord(measurement: string, field: string, value: Json): Json {
    JObject([("measurement", JStr(measurement)), ("tags", JObject([])), ("fields", JObject([(field, value)]))])
  }

  /**
   * The guard `parts[1].isdigit() and parts[2].isdigit() and parts[3] != "name"`,
   * evaluated left to right with short-circuit; `None` when an index that is
   * evaluated is out of range (Python raises IndexError).
   */
  function TopicGuard(parts: seq<string>): (r: Option<bool>)
    ensures r == Some(true) <==>
      |parts| >= 4 && IsDigits(parts[1]) && IsDigits(parts[2]) && parts[3] != "name"
    ensures r.None? <==>
      || |parts| < 2
      || (IsDigits(parts[1]) && |parts| < 3)
      || (IsDigits(parts[1]) && IsDigits(parts[2]) && |parts| < 4)
  {
    if |parts| < 2 then None
    else if !IsDigits(parts[1]) then Some(false)
    else if |parts| < 3 then None
    else if !IsDigits(parts[2]) then Some(false)
    else if |parts| < 4 then None
    else Some(parts[3] != "name")
  }

  /** `mqtt_message_received_event`, up to the publish (the MQTT call itself is left out). */
  function MessageReceived(data: Dict): (o: Outcome)
    ensures !Truthy(GetOrNull(data, "topic")) ==> o == Ignored
    ensures o.Published? ==> o.event.org == "home" && o.event.bucket == "solar"
  {
    var topic := GetOrNull(data, "topic");
    if !Truthy(topic) then Ignored
    // unreachable once a topic is present; kept as the handler has it
    else if |data| == 0 then Ignored
    // a non-string topic has no `split`: AttributeError, caught and logged
    else if !topic.JStr? then Failed
    else
      var parts := Split(topic.s, '/');
      match TopicGuard(parts)
      case None => Failed
      case Some(false) => Ignored
      case Some(true) =>
        var record := PointRecord(parts[2], parts[3], GetOrNull(data, "payload"));
        Published(InfluxWriteEvent("home", "solar", JArray([record])))
  }

  /**
   * A string topic leads to a publish exactly when it is non-empty and its
   * second and third segments are digit strings and its fourth is not "name";
   * the event then holds exactly one point built from those segments and the payload.
   */
  lemma PublishedIff(data: Dict, topic: string)
    requires GetOrNull(data, "topic") == JStr(topic)
    ensures var parts := Split(topic, '/');
      MessageReceived(data).Published? <==>
        topic != "" && |parts| >= 4 && IsDigits(parts[1]) && IsDigits(parts[2]) && parts[3] != "name"
    ensures var parts := Split(topic, '/');
      MessageReceived(data).Published? ==>
        |parts| >= 4 &&
        MessageReceived(data).event ==
          InfluxWriteEvent("home", "solar", JArray([PointRecord(parts[2], parts[3], GetOrNull(data, "payload"))]))
  {
    var parts := Split(topic, '/');
    if topic != "" {
      assert Get(data, "topic").Some? && |data| != 0;
      var guard := TopicGuard(parts);
      if guard == Some(true) {
        var record := PointRecord(parts[2], parts[3], GetOrNull(data, "payload"));
        assert MessageReceived(data) == Published(InfluxWriteEvent("home", "solar", JArray([record])));
      } else {
        assert !MessageReceived(data).Published?;
      }
    }
  }

  /**
   * A string topic whose evaluated index runs past the end raises inside the
   * handler: the exception is caught and nothing is published.
   */
  lemma ShortTopicFails(data: Dict, topic: string)
    requires GetOrNull(data, "topic") == JStr(topic) && topic != ""
    requires TopicGuard(Split(topic, '/')).None?
    ensures MessageReceived(data) == Failed
  {
    assert Get(data, "topic").Some?;
  }
}
