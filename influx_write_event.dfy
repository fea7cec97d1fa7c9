/** The `InfluxWriteEvent` record exchanged over MQTT and its dict conversions. */
module InfluxWriteEvents {
  import opened Wrappers
  import opened Json

  datatype InfluxWriteEvent = InfluxWriteEvent(org: string, bucket: string, data: Json)

  /** `from_dict`: org and bucket are coerced with `str`, data is passed through. */
  function FromDict(obj: Dict): (e: InfluxWriteEvent)
    ensures e.data == GetOrNull(obj, "data")
    ensures Get(obj, "org").None? ==> e.org == "None"
    ensures Get(obj, "bucket").None? ==> e.bucket == "None"
    ensures forall s :: Get(obj, "org") == Some(JStr(s)) ==> e.org == s
    ensures forall s :: Get(obj, "bucket") == Some(JStr(s)) ==> e.bucket == s
  {
    InfluxWriteEvent(PyStr(GetOrNull(obj, "org")), PyStr(GetOrNull(obj, "bucket")), GetOrNull(obj, "data"))
  }

  /** `to_dict`: exactly the keys org, bucket and data, in that order. */
  function ToDict(e: InfluxWriteEvent): (d: Dict)
    ensures Keys(d) == ["org", "bucket", "data"]
    ensures UniqueKeys(d)
    ensures Get(d, "org") == Some(JStr(e.org))
    ensures Get(d, "bucket") == Some(JStr(e.bucket))
    ensures Get(d, "data") == Some(e.data)
  {
    var d := [("org", JStr(e.org)), ("bucket", JStr(e.bucket)), ("data", e.data)];
    assert d[1..][1..] == [("data", e.data)];
    assert "data"[0] != "org"[0] && "data"[0] != "bucket"[0];
    assert Get(d[1..][1..], "data") == Some(e.data);
    assert Get(d[1..], "data") == Some(e.data);
    d
  }

  /** Converting an event to a dict and back gives the same event. */
  lemma FromDictToDict(e: InfluxWriteEvent)
    ensures FromDict(ToDict(e)) == e
  {
  }

  /** A dict with string org and bucket survives `from_dict` then `to_dict`, up to key order and extra keys. */
  lemma ToDictFromDict(obj: Dict, org: string, bucket: string)
    requires Get(obj, "org") == Some(JStr(org)) && Get(obj, "bucket") == Some(JStr(bucket))
    ensures Get(ToDict(FromDict(obj)), "org") == Get(obj, "org")
    ensures Get(ToDict(FromDict(obj)), "bucket") == Get(obj, "bucket")
    ensures Get(ToDict(FromDict(obj)), "data") == Some(GetOrNull(obj, "data"))
  {
  }
}
