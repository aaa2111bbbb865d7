/**
 * Events, client metadata and the record built from them for the sink. The
 * record's key names are the wire contract with the sink.
 */
module Events {
  import opened Wrappers
  import opened Timestamps

  /** One occurrence to log; the timestamp is optional on the wire. */
  datatype Event = Event(
    eventType: string,
    group: string,
    action: string,
    amount: int,
    timestamp: Option<WireTimestamp>)

  /** Metadata about the producer, shared by every event of a request. */
  datatype Client = Client(
    name: string,
    version: string,
    platform: string,
    platformVersion: string,
    deviceName: string,
    experiment: string)

  /** A value in the record handed to the sink: a string, a number or a nested object. */
  datatype Value = Str(str: string) | Int(num: int) | Object(fields: map<string, Value>)

  type Record = map<string, Value>

  const EventKeys: set<string> := {"type", "group", "action", "amount"}
  const ClientKeys: set<string> :=
    {"name", "version", "platform", "platform_version", "device_name", "experiment"}
  const RecordKeys: set<string> :=
    {"event", "client", "browser_uuid", "request_uuid", "user_agent", "referer"}

  /** The part of an event that the record carries: everything but the timestamp. */
  datatype EventBody = EventBody(eventType: string, group: string, action: string, amount: int)

  /** Everything a record carries, as typed fields. */
  datatype Fields = Fields(
    body: EventBody,
    client: Client,
    browserUuid: string,
    requestUuid: string,
    userAgent: string,
    referer: string)

  function Body(e: Event): (b: EventBody) {
    EventBody(e.eventType, e.group, e.action, e.amount)
  }

  /** The nested `event` object: its keys are exactly EventKeys, strings and a number. */
  predicate EventShaped(v: Value) {
    && v.Object?
    && v.fields.Keys == EventKeys
    && v.fields["type"].Str? && v.fields["group"].Str? && v.fields["action"].Str?
    && v.fields["amount"].Int?
  }

  /** The nested `client` object: its keys are exactly ClientKeys, all strings. */
  predicate ClientShaped(v: Value) {
    && v.Object?
    && v.fields.Keys == ClientKeys
    && v.fields["name"].Str? && v.fields["version"].Str? && v.fields["platform"].Str?
    && v.fields["platform_version"].Str? && v.fields["device_name"].Str?
    && v.fields["experiment"].Str?
  }

  /** The record shape the sink expects: exactly RecordKeys at the top level. */
  predicate WellShaped(m: Record) {
    && m.Keys == RecordKeys
    && EventShaped(m["event"])
    && ClientShaped(m["client"])
    && m["browser_uuid"].Str? && m["request_uuid"].Str?
    && m["user_agent"].Str? && m["referer"].Str?
  }

  /** The record `post` builds from an event, its client and four correlation strings. */
  function Normalize(
    event: Event, client: Client,
    browserUuid: string, requestUuid: string, userAgent: string, referer: string): (m: Record)
  {
    map[
      "event" := Object(map[
        "type" := Str(event.eventType),
        "group" := Str(event.group),
        "action" := Str(event.action),
        "amount" := Int(event.amount)]),
      "client" := Object(map[
        "name" := Str(client.name),
        "version" := Str(client.version),
        "platform" := Str(client.platform),
        "platform_version" := Str(client.platformVersion),
        "device_name" := Str(client.deviceName),
        "experiment" := Str(client.experiment)]),
      "browser_uuid" := Str(browserUuid),
      "request_uuid" := Str(requestUuid),
      "user_agent" := Str(userAgent),
      "referer" := Str(referer)]
  }

  /** Reads a record back into typed fields; None for a record of any other shape. */
  function Denormalize(m: Record): (r: Option<Fields>)
    ensures r.Some? <==> WellShaped(m)
  {
    if !WellShaped(m) then None
    else
      var ev := m["event"].fields;
      var cl := m["client"].fields;
      Some(Fields(
        EventBody(ev["type"].str, ev["group"].str, ev["action"].str, ev["amount"].num),
        Client(cl["name"].str, cl["version"].str, cl["platform"].str,
               cl["platform_version"].str, cl["device_name"].str, cl["experiment"].str),
        m["browser_uuid"].str, m["request_uuid"].str, m["user_agent"].str, m["referer"].str))
  }

  /**
   * The record has exactly the expected keys at every level, and the event's
   * timestamp is not among them: it travels beside the record, not in it.
   */
  lemma NormalizeShape(
    event: Event, client: Client,
    browserUuid: string, requestUuid: string, userAgent: string, referer: string)
    ensures var m := Normalize(event, client, browserUuid, requestUuid, userAgent, referer);
      && WellShaped(m)
      && "timestamp" !in m && "timestamp" !in m["event"].fields
  {
  }

  /** Every input field reaches the record unchanged under its own key. */
  lemma NormalizeRoundTrip(
    event: Event, client: Client,
    browserUuid: string, requestUuid: string, userAgent: string, referer: string)
    ensures Denormalize(Normalize(event, client, browserUuid, requestUuid, userAgent, referer))
         == Some(Fields(Body(event), client, browserUuid, requestUuid, userAgent, referer))
  {
  }

  /** Every record of the expected shape is the record of the fields read back from it. */
  lemma DenormalizeRoundTrip(m: Record)
    requires WellShaped(m)
    ensures var f := Denormalize(m).value;
      Normalize(
        Event(f.body.eventType, f.body.group, f.body.action, f.body.amount, None),
        f.client, f.browserUuid, f.requestUuid, f.userAgent, f.referer) == m
  {
    var f := Denormalize(m).value;
    var n := Normalize(
      Event(f.body.eventType, f.body.group, f.body.action, f.body.amount, None),
      f.client, f.browserUuid, f.requestUuid, f.userAgent, f.referer);
    assert n["event"].fields == m["event"].fields;
    assert n["client"].fields == m["client"].fields;
    assert n.Keys == m.Keys;
  }

  /** Two inputs give the same record exactly when they agree on everything but the timestamp. */
  lemma NormalizeInjective(
    e1: Event, c1: Client, b1: string, r1: string, u1: string, f1: string,
    e2: Event, c2: Client, b2: string, r2: string, u2: string, f2: string)
    ensures Normalize(e1, c1, b1, r1, u1, f1) == Normalize(e2, c2, b2, r2, u2, f2)
        <==> Fields(Body(e1), c1, b1, r1, u1, f1) == Fields(Body(e2), c2, b2, r2, u2, f2)
  {
    NormalizeRoundTrip(e1, c1, b1, r1, u1, f1);
    NormalizeRoundTrip(e2, c2, b2, r2, u2, f2);
  }
}
