/**
 * A geofence record of the Geotify app: a circle on the map (centre and
 * radius), an identifier, a free-text note and the crossing direction that
 * triggers a notification. The record is persisted as a property-list
 * dictionary with six scalar entries and can be turned into a monitoring
 * region.
 */
module Geotify {
  import opened Wrappers

  // ---------------------------------------------------------------------------
  // Event type and its raw-value labels
  // ---------------------------------------------------------------------------

  /** The crossing direction that triggers a notification. */
  datatype EventType = OnEntry | OnExit

  /** The raw-value label of each event type, as persisted. */
  function Label(e: EventType): (s: string)
    ensures s == "On Entry" <==> e == OnEntry
    ensures s == "On Exit" <==> e == OnExit
  {
    match e
    case OnEntry => "On Entry"
    case OnExit => "On Exit"
  }

  /** The failable raw-value initialiser: `nil` for any string that is not a label. */
  function ParseLabel(s: string): (r: Option<EventType>)
    ensures forall e :: r == Some(e) <==> Label(e) == s
  {
    if s == "On Entry" then Some(OnEntry)
    else if s == "On Exit" then Some(OnExit)
    else None
  }

  /** Labels of distinct event types differ, so parsing a label gives back its event type. */
  lemma LabelRoundTrip(e: EventType)
    ensures ParseLabel(Label(e)) == Some(e)
  {
  }

  /**
   * The lossy decoding of a stored label: an unrecognised string falls back
   * to `OnEntry` instead of failing.
   */
  function EventTypeFromLabel(s: string): (e: EventType)
    ensures e == OnExit <==> s == "On Exit"
    ensures ParseLabel(s).None? ==> e == OnEntry
  {
    ParseLabel(s).GetOr(OnEntry)
  }

  // ---------------------------------------------------------------------------
  // Values carried by a record
  // ---------------------------------------------------------------------------

  /** A latitude/longitude pair in degrees; carried, never computed with. */
  datatype Coordinate = Coordinate(latitude: real, longitude: real)

  /** The five stored fields of a geotification, as a value. */
  datatype Record = Record(
    coordinate: Coordinate,
    radius: real,
    identifier: string,
    note: string,
    eventType: EventType)

  /** The monitoring region handed to the location service. */
  datatype CircularRegion = CircularRegion(
    center: Coordinate,
    radius: real,
    identifier: string,
    notifyOnEntry: bool,
    notifyOnExit: bool)

  /** The placeholder title of a record whose note is empty. */
  const NoNote: string := "No Note"

  /** Swift's `min` on two distances: the second argument when it is strictly smaller. */
  function Min(a: real, b: real): (r: real)
    ensures r <= a && r <= b
    ensures r == a || r == b
  {
    if b < a then b else a
  }

  /** Clamping a radius twice with one bound is the same as clamping it once. */
  lemma ClampIdempotent(radius: real, maxRadius: real)
    ensures Min(Min(radius, maxRadius), maxRadius) == Min(radius, maxRadius)
  {
  }

  // ---------------------------------------------------------------------------
  // The keyed (property-list) representation
  // ---------------------------------------------------------------------------

  /** A scalar property-list value: a number or a string. */
  datatype Value = Num(num: real) | Str(str: string)

  /** The coding keys, in the order the decoder reads them. */
  const CodingKeys: seq<string> := ["latitude", "longitude", "radius", "identifier", "note", "eventType"]

  /** The keys whose entries must be numbers; the other coding keys hold strings. */
  predicate IsNumericKey(key: string) {
    key == "latitude" || key == "longitude" || key == "radius"
  }

  /**
   * The string a property-list encoder writes for `nil`; the property-list
   * decoder reads this string back as a missing value, whatever type it is
   * asked for.
   */
  const NullSentinel: string := "$null"

  /** `m` holds an entry for `key` that is neither the null sentinel nor of another type than the decoder asks for. */
  predicate WellTyped(m: map<string, Value>, key: string) {
    key in m && m[key] != Str(NullSentinel) && (if IsNumericKey(key) then m[key].Num? else m[key].Str?)
  }

  /** Why a keyed decode threw. */
  datatype DecodeError = KeyNotFound(key: string) | ValueNotFound(key: string) | TypeMismatch(key: string)

  /** Decoding a `Double` for `key`. */
  function DecodeNum(m: map<string, Value>, key: string): Result<real, DecodeError> {
    if key !in m then Failure(KeyNotFound(key))
    else if m[key] == Str(NullSentinel) then Failure(ValueNotFound(key))
    else if m[key].Num? then Success(m[key].num)
    else Failure(TypeMismatch(key))
  }

  /** Decoding a `String` for `key`. */
  function DecodeStr(m: map<string, Value>, key: string): Result<string, DecodeError> {
    if key !in m then Failure(KeyNotFound(key))
    else if m[key] == Str(NullSentinel) then Failure(ValueNotFound(key))
    else if m[key].Str? then Success(m[key].str)
    else Failure(TypeMismatch(key))
  }

  /**
   * The keyed decoder: reads the six entries in key order, stopping at the
   * first missing, null or mistyped one; the event label is decoded
   * leniently. It succeeds exactly when every coding key holds a non-null
   * value of its type, and otherwise reports the first coding key that does
   * not.
   */
  function DecodeRecord(m: map<string, Value>): (r: Result<Record, DecodeError>)
    ensures r.Success? <==> forall i :: 0 <= i < |CodingKeys| ==> WellTyped(m, CodingKeys[i])
    ensures r.Failure? ==>
      exists i :: 0 <= i < |CodingKeys| && CodingKeys[i] == r.error.key && !WellTyped(m, CodingKeys[i])
        && (forall j :: 0 <= j < i ==> WellTyped(m, CodingKeys[j]))
    ensures r.Failure? ==> (r.error.KeyNotFound? <==> r.error.key !in m)
    ensures r.Failure? ==> (r.error.ValueNotFound? <==> r.error.key in m && m[r.error.key] == Str(NullSentinel))
    ensures r.Success? ==>
      && "latitude" in m && m["latitude"] == Num(r.value.coordinate.latitude)
      && "longitude" in m && m["longitude"] == Num(r.value.coordinate.longitude)
      && "radius" in m && m["radius"] == Num(r.value.radius)
      && "identifier" in m && m["identifier"] == Str(r.value.identifier) && r.value.identifier != NullSentinel
      && "note" in m && m["note"] == Str(r.value.note) && r.value.note != NullSentinel
      && "eventType" in m && m["eventType"].Str?
      && r.value.eventType == EventTypeFromLabel(m["eventType"].str)
  {
    assert CodingKeys[0] == "latitude" && CodingKeys[1] == "longitude" && CodingKeys[2] == "radius";
    assert CodingKeys[3] == "identifier" && CodingKeys[4] == "note" && CodingKeys[5] == "eventType";
    var latitude :- DecodeNum(m, "latitude");
    var longitude :- DecodeNum(m, "longitude");
    var radius :- DecodeNum(m, "radius");
    var identifier :- DecodeStr(m, "identifier");
    var note :- DecodeStr(m, "note");
    var event :- DecodeStr(m, "eventType");
    Success(Record(Coordinate(latitude, longitude), radius, identifier, note, EventTypeFromLabel(event)))
  }

  /** The keyed encoder: the coordinate is flattened and the event type stored as its label. */
  function EncodeRecord(g: Record): (m: map<string, Value>)
    ensures m.Keys == set k | k in CodingKeys
    ensures forall k :: k in m ==> if IsNumericKey(k) then m[k].Num? else m[k].Str?
    ensures m["eventType"] == Str(Label(g.eventType))
  {
    map[
      "latitude" := Num(g.coordinate.latitude),
      "longitude" := Num(g.coordinate.longitude),
      "radius" := Num(g.radius),
      "identifier" := Str(g.identifier),
      "note" := Str(g.note),
      "eventType" := Str(Label(g.eventType))]
  }

  /**
   * Decoding the encoding of a record gives back all five fields, unless
   * its identifier or note is the null sentinel.
   */
  lemma EncodeDecodeRoundTrip(g: Record)
    requires g.identifier != NullSentinel && g.note != NullSentinel
    ensures DecodeRecord(EncodeRecord(g)) == Success(g)
  {
  }

  /**
   * A record whose identifier or note is the null sentinel is encoded, but
   * its encoding no longer decodes: the decoder reads that entry as nil.
   */
  lemma NullSentinelBreaksRoundTrip(g: Record)
    requires g.identifier == NullSentinel || g.note == NullSentinel
    ensures DecodeRecord(EncodeRecord(g)).Failure?
    ensures DecodeRecord(EncodeRecord(g)).error ==
      ValueNotFound(if g.identifier == NullSentinel then "identifier" else "note")
  {
  }

  /**
   * A dictionary holding exactly the six coding keys, each well typed and
   * the event entry a known label, is re-encoded unchanged after decoding.
   */
  lemma DecodeEncodeRoundTrip(m: map<string, Value>)
    requires m.Keys == set k | k in CodingKeys
    requires DecodeRecord(m).Success?
    requires ParseLabel(m["eventType"].str).Some?
    ensures EncodeRecord(DecodeRecord(m).value) == m
  {
  }

  /**
   * An unrecognised event label does not make the decode fail: it yields
   * `OnEntry`, and re-encoding then no longer reproduces the stored entry.
   */
  lemma UnknownLabelFallsBack(m: map<string, Value>)
    requires DecodeRecord(m).Success?
    requires ParseLabel(m["eventType"].str).None?
    ensures DecodeRecord(m).value.eventType == OnEntry
    ensures EncodeRecord(DecodeRecord(m).value)["eventType"] != m["eventType"]
  {
  }

  /** Entries under keys other than the six coding keys are ignored by the decoder. */
  lemma DecodeIgnoresOtherKeys(m: map<string, Value>, key: string, v: Value)
    requires key !in CodingKeys
    ensures DecodeRecord(m[key := v]) == DecodeRecord(m)
  {
  }

  // ---------------------------------------------------------------------------
  // Decoding the bundled list
  // ---------------------------------------------------------------------------

  /** Decoding an array of records: all of them, or the first error. */
  function DecodeAll(ms: seq<map<string, Value>>): (r: Result<seq<Record>, DecodeError>)
    ensures r.Success? <==> forall i :: 0 <= i < |ms| ==> DecodeRecord(ms[i]).Success?
    ensures r.Success? ==> |r.value| == |ms| && forall i :: 0 <= i < |ms| ==> DecodeRecord(ms[i]) == Success(r.value[i])
  {
    if ms == [] then Success([])
    else
      var first :- DecodeRecord(ms[0]);
      var rest :- DecodeAll(ms[1..]);
      Success([first] + rest)
  }

  /**
   * The records loaded from the bundle's decoded array: every one of them
   * when all decode, and none at all when any one fails.
   */
  function AllGeotifications(ms: seq<map<string, Value>>): (gs: seq<Record>)
    ensures (exists i :: 0 <= i < |ms| && DecodeRecord(ms[i]).Failure?) ==> gs == []
    ensures (forall i :: 0 <= i < |ms| ==> DecodeRecord(ms[i]).Success?) ==>
      |gs| == |ms| && forall i :: 0 <= i < |ms| ==> DecodeRecord(ms[i]) == Success(gs[i])
  {
    match DecodeAll(ms)
    case Success(gs) => gs
    case Failure(_) => []
  }

  /**
   * Saving records and loading them back gives the same records, provided
   * no identifier or note is the null sentinel.
   */
  lemma AllGeotificationsRoundTrip(gs: seq<Record>)
    requires forall i :: 0 <= i < |gs| ==> gs[i].identifier != NullSentinel && gs[i].note != NullSentinel
    ensures AllGeotifications(seq(|gs|, i requires 0 <= i < |gs| => EncodeRecord(gs[i]))) == gs
  {
    var ms := seq(|gs|, i requires 0 <= i < |gs| => EncodeRecord(gs[i]));
    forall i | 0 <= i < |ms|
      ensures DecodeRecord(ms[i]) == Success(gs[i])
    {
      EncodeDecodeRoundTrip(gs[i]);
    }
    var loaded := AllGeotifications(ms);
    forall i | 0 <= i < |gs|
      ensures loaded[i] == gs[i]
    {
      assert DecodeRecord(ms[i]) == Success(loaded[i]);
    }
  }

  // ---------------------------------------------------------------------------
  // The record object
  // ---------------------------------------------------------------------------

  /** A geotification whose fields are updated in place. */
  class Geotification {
    var coordinate: Coordinate
    var radius: real
    var identifier: string
    var note: string
    var eventType: EventType

    /** The current fields as a value. */
    function Fields(): Record
      reads this
    {
      Record(coordinate, radius, identifier, note, eventType)
    }

    /** Stores the five arguments verbatim; in particular the radius is not clamped. */
    constructor (coordinate: Coordinate, radius: real, identifier: string, note: string, eventType: EventType)
      ensures this.coordinate == coordinate && this.radius == radius
      ensures this.identifier == identifier && this.note == note && this.eventType == eventType
    {
      this.coordinate := coordinate;
      this.radius := radius;
      this.identifier := identifier;
      this.note := note;
      this.eventType := eventType;
    }

    /**
     * The display title: the note itself, or the placeholder when the note
     * is empty. A note that already reads "No Note" cannot be told apart
     * from an empty one.
     */
    function Title(): (t: string)
      reads this
      ensures t != ""
      ensures note != "" ==> t == note
      ensures t == NoNote <==> note == "" || note == NoNote
    {
      if note == "" then NoNote else note
    }

    /**
     * The monitoring region: the record's circle and identifier, notifying
     * on exactly one kind of crossing, the one the event type names.
     */
    function Region(): (r: CircularRegion)
      reads this
      ensures r.center == coordinate && r.radius == radius && r.identifier == identifier
      ensures r.notifyOnEntry != r.notifyOnExit
      ensures r.notifyOnEntry <==> eventType == OnEntry
      ensures r.notifyOnExit <==> eventType == OnExit
    {
      var entry := eventType == OnEntry;
      CircularRegion(coordinate, radius, identifier, entry, !entry)
    }

    /** Lowers the radius to at most `maxRadius`; no other field changes. */
    method ClampRadius(maxRadius: real)
      modifies this`radius
      ensures radius == Min(old(radius), maxRadius)
      ensures radius <= maxRadius && radius <= old(radius)
      ensures Fields() == old(Fields()).(radius := radius)
    {
      radius := Min(radius, maxRadius);
    }

    /** Fills a keyed container with the six entries, one key at a time. */
    method Encode() returns (m: map<string, Value>)
      ensures m == EncodeRecord(Fields())
      ensures identifier != NullSentinel && note != NullSentinel ==> DecodeRecord(m) == Success(Fields())
    {
      m := map[];
      m := m["latitude" := Num(coordinate.latitude)];
      m := m["longitude" := Num(coordinate.longitude)];
      m := m["radius" := Num(radius)];
      m := m["identifier" := Str(identifier)];
      m := m["note" := Str(note)];
      m := m["eventType" := Str(Label(eventType))];
      if identifier != NullSentinel && note != NullSentinel {
        EncodeDecodeRoundTrip(Fields());
      }
    }

    /**
     * The decoding initialiser: throws the keyed decoder's error, or stores
     * the decoded fields in a new record.
     */
    static method Decode(m: map<string, Value>) returns (r: Result<Geotification, DecodeError>)
      ensures r.Success? <==> DecodeRecord(m).Success?
      ensures r.Success? ==> fresh(r.value) && r.value.Fields() == DecodeRecord(m).value
      ensures r.Failure? ==> r.error == DecodeRecord(m).error
    {
      var rec :- DecodeRecord(m);
      var g := new Geotification(rec.coordinate, rec.radius, rec.identifier, rec.note, rec.eventType);
      r := Success(g);
    }
  }

  /**
   * A client of the record: a stored "On Exit" geofence with an empty note
   * decodes, shows the placeholder title, notifies only on exit, is
   * re-encoded unchanged, and clamping its radius twice keeps the first
   * clamp's result.
   */
  method StoredExitRecordScenario() {
    var m: map<string, Value> := map[
      "latitude" := Num(37.33), "longitude" := Num(-122.03), "radius" := Num(50.0),
      "identifier" := Str("home"), "note" := Str(""), "eventType" := Str("On Exit")];
    var r := Geotification.Decode(m);
    assert r.Success?;
    var g := r.value;
    assert g.eventType == OnExit && g.note == "";
    var title := g.Title();
    assert title == NoNote;
    var region := g.Region();
    assert !region.notifyOnEntry && region.notifyOnExit;
    var encoded := g.Encode();
    DecodeEncodeRoundTrip(m);
    assert encoded == m;
    g.ClampRadius(20.0);
    var once := g.radius;
    assert once == 20.0;
    g.ClampRadius(20.0);
    assert g.radius == once && g.Fields() == Record(Coordinate(37.33, -122.03), 20.0, "home", "", OnExit);
  }
}
