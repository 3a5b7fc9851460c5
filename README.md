# Geotify geofence record, modelled in Dafny

Geotify is a small iOS demo app that posts a notification when the device
enters or leaves a circle on the map. Each circle is a `Geotification`: a
centre coordinate, a radius in metres, an identifier, a free-text note and an
event type (`On Entry` or `On Exit`). A record is persisted as a property-list
dictionary with six scalar entries (`latitude`, `longitude`, `radius`,
`identifier`, `note`, `eventType`). It is turned into a circular monitoring
region whose two notify flags follow the event type.

The model has two files:

- `wrappers.dfy` (module `Wrappers`): `Option` for Swift's optionals and
  `Result` for throwing calls. `Result` works with `:-`, which plays the part
  of `try`.
- `geotification.dfy` (module `Geotify`):
  - `EventType` and its raw-value labels. `ParseLabel` is the failable
    raw-value initialiser. `EventTypeFromLabel` is the lenient `?? .onEntry`
    fallback.
  - `Record` is the five stored fields as a value. `Value` is a scalar
    property-list entry (number or string). `DecodeRecord` and
    `EncodeRecord` are the keyed decoder and encoder on
    `map<string, Value>`.
  - `DecodeAll` and `AllGeotifications` model the all-or-nothing decoding of
    the bundled array.
  - `Geotification` is a class whose fields are updated in place.
    `ClampRadius` assigns `radius`. `Encode` fills the container one key at a
    time. The static `Decode` stands for the throwing `init(from:)`.
    `Title` and `Region` are the derived properties.
  - `StoredExitRecordScenario` is a client walk-through of one stored record.
    It is decoded, given a title and a region, re-encoded, and clamped twice.

Latitude, longitude and radius are carried as `real`. The only operation on
them is `min`.

The property-list encoder writes `nil` as the string `"$null"`, and the
decoder reads that string back as a missing value, whatever type it was asked
for. The model carries this sentinel as `NullSentinel`. A stored `"$null"`
makes decoding throw "value not found". So a record whose identifier or note
is `"$null"` is encoded but does not decode again, and the encode/decode round
trip holds for every other record.

The title is the placeholder "No Note" when the note is empty or when the
note is itself "No Note". So "the title is the placeholder exactly when the
note is empty" does not hold for that one note, and `Title`'s contract states
the condition the code actually gives.

## Model

| member | source | states |
|---|---|---|
| `Geotify.Label` | Geotification.swift:38-41 | `onEntry` is stored as "On Entry" and `onExit` as "On Exit", and neither label belongs to the other case |
| `Geotify.ParseLabel` | Geotification.swift:38-41 | the raw-value initialiser gives `e` exactly when the string is `e`'s label, and `nil` for every other string |
| `Geotify.LabelRoundTrip` | Geotification.swift:38-41 | parsing the label of either event type gives that event type back |
| `Geotify.EventTypeFromLabel` | Geotification.swift:90-91 | the decoded event type is `onExit` exactly for "On Exit"; every unrecognised string becomes `onEntry` instead of an error |
| `Geotify.Min` | Geotification.swift:69-71 | the clamped radius is at most both the old radius and the bound, and equals one of them |
| `Geotify.ClampIdempotent` | Geotification.swift:69-71 | clamping twice with the same bound gives the same radius as clamping once |
| `Geotify.DecodeRecord` | Geotification.swift:82-92 | decoding succeeds exactly when each of the six coding keys holds a non-null value of its type. A failure names the first key, in decoding order, that does not. It is "key not found" exactly when the key is absent, and "value not found" exactly when the entry is the `"$null"` sentinel. On success the record carries the stored numbers and strings, none of them the sentinel, with the event type decoded leniently |
| `Geotify.EncodeRecord` | Geotification.swift:94-102 | encoding writes exactly the six coding keys, each entry a number or a string as the decoder expects, and stores the event type as its raw label |
| `Geotify.EncodeDecodeRoundTrip` | Geotification.swift:82-102 | decoding the encoding of a record whose identifier and note are not `"$null"` gives back the same coordinate, radius, identifier, note and event type |
| `Geotify.NullSentinelBreaksRoundTrip` | Geotification.swift:88-89 | a record whose identifier or note is `"$null"` is encoded, but the encoding fails to decode with "value not found" on that key |
| `Geotify.DecodeEncodeRoundTrip` | Geotification.swift:82-102 | a dictionary with exactly the six keys that decodes, and whose event label is known, is re-encoded to the same dictionary |
| `Geotify.UnknownLabelFallsBack` | Geotification.swift:90-91 | an unrecognised event label still decodes, to `onEntry`, and re-encoding does not reproduce the stored label |
| `Geotify.DecodeIgnoresOtherKeys` | Geotification.swift:43-45 | an entry under any key that is not a coding key does not change the outcome of decoding |
| `Geotify.DecodeAll` | Geotification.swift:110 | decoding the array succeeds exactly when every element decodes, and then yields, position by position, the decoded records |
| `Geotify.AllGeotifications` | Geotification.swift:110-113 | when any element fails to decode the loaded list is empty; otherwise it holds every element's decoded record, in order |
| `Geotify.AllGeotificationsRoundTrip` | Geotification.swift:94-113 | loading the encodings of a list of records, none with a `"$null"` identifier or note, gives back that list |
| `Geotify.Geotification.constructor` | Geotification.swift:73-79 | the initialiser stores its five arguments verbatim; the radius is not clamped |
| `Geotify.Geotification.Title` | Geotification.swift:53-58 | the title is never empty. It is the note when the note is non-empty, and it is "No Note" exactly when the note is empty or is "No Note" |
| `Geotify.Geotification.Region` | Geotification.swift:120-130 | the region has the record's centre, radius and identifier. Exactly one notify flag is set: on entry for `onEntry`, on exit for `onExit` |
| `Geotify.Geotification.ClampRadius` | Geotification.swift:69-71 | the new radius is `min(old radius, maxRadius)`, so at most both. Only `radius` is assigned; every other field is unchanged |
| `Geotify.Geotification.Encode` | Geotification.swift:94-102 | the container filled key by key equals the record's encoding. Unless the identifier or note is `"$null"`, it decodes back to the record's current fields |
| `Geotify.Geotification.Decode` | Geotification.swift:82-92 | the decoding initialiser succeeds exactly when the keyed decoder does, and then returns a new object holding the decoded fields. Otherwise it throws the decoder's error |

## Left out

- `subtitle` (Geotification.swift:60-67) is not modelled. Its text comes from a locale- and unit-aware measurement formatter whose output has no fixed form.
- `allGeotifications`: reading the bundled `Locations.plist` is not modelled. Neither are the force-unwraps that abort when the file is missing, nor the parsing of the bytes into an array of dictionaries. The model starts from that array, decodes it to `Record` values, and does not allocate objects.
- A parse failure of the whole file, which also yields `[]` in the source, is not modelled, because the model's input is the already-parsed array.
- The MapKit and CoreLocation machinery is not modelled: the `MKAnnotation` conformance, `CLCircularRegion` construction and `CLLocationCoordinate2DMake`. Only the region's field copying and notify flags are modelled. `title` is an optional `String` in the source that is never `nil`, so it is modelled as a plain string.
- Floating point is not modelled (NaN, infinities, rounding). Coordinates and radius are opaque reals compared only by `min`.
- Property-list values are modelled only as numbers and strings. Other value kinds, and a top-level value that is not a dictionary, are not represented. Every type mismatch the decoder reports is between a number and a string.
- The decoding errors carry only the key and its kind: missing, null or mistyped. The coding path and debug description of Swift's `DecodingError` are left out.
- Encoding is modelled as total. Writing number and string scalars into a keyed property-list container does not throw.
