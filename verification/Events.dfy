/** Domain events and their JSON form (serde's derived serialisation). */
module Events {
  import opened Prelude

  datatype Json =
    | Null
    | Bool(b: bool)
    | Num(n: int)
    | Str(s: string)
    | Arr(items: seq<Json>)
    | Obj(fields: map<string, Json>)

  /** The 32 hexadecimal digits of a UUID. */
  type Uuid = u: seq<nat> | |u| == 32 && forall i :: 0 <= i < 32 ==> u[i] < 16 witness seq(32, _ => 0)

  datatype Event = Event(id: Uuid, eventType: string, timestamp: string, data: Option<Json>, source: string)

  // ---- UUID text, hyphenated 8-4-4-4-12 --------------------------------------------------------

  predicate IsHyphen(k: nat) {
    k == 8 || k == 13 || k == 18 || k == 23
  }

  /** Which digit stands at position `k` of the text. */
  function DigitAt(k: nat): (i: nat)
    requires k < 36 && !IsHyphen(k)
    ensures i < 32
  {
    if k < 8 then k else if k < 13 then k - 1 else if k < 18 then k - 2 else if k < 23 then k - 3 else k - 4
  }

  /** Where digit `i` stands in the text. */
  function PositionOf(i: nat): (k: nat)
    requires i < 32
    ensures k < 36 && !IsHyphen(k) && DigitAt(k) == i
  {
    if i < 8 then i else if i < 12 then i + 1 else if i < 16 then i + 2 else if i < 20 then i + 3 else i + 4
  }

  function HexDigit(d: nat): char
    requires d < 16
  {
    if d < 10 then '0' + d as char else 'a' + (d - 10) as char
  }

  /** Reads either case, as the UUID parser does; 16 stands for "not a hexadecimal digit". */
  function HexValue(c: char): nat {
    if '0' <= c <= '9' then (c - '0') as nat
    else if 'a' <= c <= 'f' then (c - 'a') as nat + 10
    else if 'A' <= c <= 'F' then (c - 'A') as nat + 10
    else 16
  }

  function FormatUuid(u: Uuid): string {
    seq(36, k requires 0 <= k < 36 => if IsHyphen(k) then '-' else HexDigit(u[DigitAt(k)]))
  }

  function ParseUuid(s: string): Option<Uuid> {
    if |s| == 36
       && (forall k :: 0 <= k < 36 && IsHyphen(k) ==> s[k] == '-')
       && (forall i :: 0 <= i < 32 ==> HexValue(s[PositionOf(i)]) < 16)
    then
      Some(seq(32, i requires 0 <= i < 32 && |s| == 36 => HexValue(s[PositionOf(i)])))
    else None
  }

  /** Hexadecimal digits as text, in lower case. */
  function Hex(digits: seq<nat>): string
    requires forall i :: 0 <= i < |digits| ==> digits[i] < 16
  {
    seq(|digits|, i requires 0 <= i < |digits| && digits[i] < 16 => "0123456789abcdef"[digits[i]])
  }

  /** The text of a UUID is its digits in groups of 8, 4, 4, 4 and 12. */
  lemma UuidGroups(u: Uuid)
    ensures FormatUuid(u) == Hex(u[..8]) + "-" + Hex(u[8..12]) + "-" + Hex(u[12..16]) + "-" + Hex(u[16..20]) + "-" + Hex(u[20..])
  {
    var s := Hex(u[..8]) + "-" + Hex(u[8..12]) + "-" + Hex(u[12..16]) + "-" + Hex(u[16..20]) + "-" + Hex(u[20..]);
    assert |s| == 36;
    forall k | 0 <= k < 36
      ensures s[k] == FormatUuid(u)[k]
    {
      if !IsHyphen(k) {
        assert s[k] == "0123456789abcdef"[u[DigitAt(k)]];
      }
    }
  }

  lemma HexRoundTrip(d: nat)
    requires d < 16
    ensures HexValue(HexDigit(d)) == d
  {
  }

  lemma UuidRoundTrip(u: Uuid)
    ensures ParseUuid(FormatUuid(u)) == Some(u)
  {
    var s := FormatUuid(u);
    forall i | 0 <= i < 32
      ensures HexValue(s[PositionOf(i)]) == u[i]
    {
      HexRoundTrip(u[i]);
    }
    assert ParseUuid(s).value == u;
  }

  // ---- Events ---------------------------------------------------------------------------------

  /** `serde_json::to_value`: an absent payload is left out rather than written as null. */
  function Encode(e: Event): Json {
    var base := map["id" := Str(FormatUuid(e.id)), "event_type" := Str(e.eventType),
                    "timestamp" := Str(e.timestamp), "source" := Str(e.source)];
    Obj(if e.data.Some? then base["data" := e.data.value] else base)
  }

  /** The fields on the wire: four texts, and the payload exactly when there is one. */
  lemma WireForm(e: Event)
    ensures Encode(e).Obj?
    ensures var f := Encode(e).fields;
            && f.Keys == {"id", "event_type", "timestamp", "source"} + (if e.data.Some? then {"data"} else {})
            && f["id"] == Str(FormatUuid(e.id)) && f["event_type"] == Str(e.eventType)
            && f["timestamp"] == Str(e.timestamp) && f["source"] == Str(e.source)
            && (e.data.Some? ==> f["data"] == e.data.value)
  {
  }

  /** An optional field reads null and absence alike. */
  function OptionalField(f: map<string, Json>, name: string): Option<Json> {
    if name in f && f[name] != Null then Some(f[name]) else None
  }

  function EventOf(id: Json, eventType: Json, timestamp: Json, data: Option<Json>, source: Json): Option<Event> {
    if id.Str? && ParseUuid(id.s).Some? && eventType.Str? && timestamp.Str? && source.Str?
    then Some(Event(ParseUuid(id.s).value, eventType.s, timestamp.s, data, source.s))
    else None
  }

  /** `serde_json::from_value::<Event>`: an object with the named fields, or an array in field order. */
  function Decode(j: Json): Option<Event> {
    match j
    case Obj(f) =>
      if {"id", "event_type", "timestamp", "source"} <= f.Keys
      then EventOf(f["id"], f["event_type"], f["timestamp"], OptionalField(f, "data"), f["source"])
      else None
    case Arr(a) =>
      if |a| == 5 then EventOf(a[0], a[1], a[2], if a[3] == Null then None else Some(a[3]), a[4]) else None
    case _ => None
  }

  /** What is left of an event after a trip through JSON: an explicit null payload is forgotten. */
  function Normal(e: Event): Event {
    if e.data == Some(Null) then e.(data := None) else e
  }

  /** Every encoded event decodes, and decodes to itself exactly when its payload is not an explicit null. */
  lemma EventRoundTrip(e: Event)
    ensures Decode(Encode(e)) == Some(Normal(e))
    ensures Decode(Encode(e)) == Some(e) <==> e.data != Some(Null)
  {
    UuidRoundTrip(e.id);
    var f := Encode(e).fields;
    assert "id" in f && "event_type" in f && "timestamp" in f && "source" in f;
    assert f["id"] == Str(FormatUuid(e.id));
  }

  /** What a sequence of events is written as, and what it is read back as. */
  function Encoded(events: seq<Event>): seq<Json> {
    seq(|events|, i requires 0 <= i < |events| => Encode(events[i]))
  }

  function Normalised(events: seq<Event>): seq<Event> {
    seq(|events|, i requires 0 <= i < |events| => Normal(events[i]))
  }
}
