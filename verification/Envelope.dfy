/** What travels with a message besides the message (src/acemq_amqp/envelope.py, headers.py). */
module Envelopes {
  import opened Retry
  import Naming

  /** The thirteen reserved names this library writes and understands. */
  datatype Field =
    | Id | Type | Version | Correlation | Attempt | FirstSeen
    | Causation | Origin | Error | Claim | Route | RoutePosition | RouteId

  /** A header name, sorted the way `is_reserved` and `RESERVED` sort the strings: a name this
      library knows, another name under the reserved prefix, or a name of the application's. */
  datatype Name = Known(field: Field) | Foreign(suffix: string) | Application(text: string)

  /** A header value: `Raw` is bytes with what they decode to, `Other` anything with its `str`. */
  datatype Value =
    | Nothing | Flag(b: bool) | Number(n: int) | Text(s: string) | Raw(decoded: string) | Other(rendered: string)

  type Headers = map<Name, Value>

  /** `int(text)`, which this model does not look inside. */
  type Parser = string -> Option<int>

  const DEFAULT_TYPE := "message"

  datatype Envelope = Envelope(
    id: string, kind: string, version: int, correlationId: string, causationId: string,
    attempt: int, firstSeen: Micros, origin: string, error: string, claim: string,
    route: string, routePosition: int, routeId: string,
    headers: Headers, extensions: Headers)

  function IntText(n: int): string { if n < 0 then "-" + Naming.Decimal(-n) else Naming.Decimal(n) }

  function TextOf(raw: Headers, field: Field): string {
    if Known(field) !in raw then "" else
    match raw[Known(field)]
    case Nothing => ""
    case Flag(b) => if b then "True" else "False"
    case Number(n) => IntText(n)
    case Text(s) => s
    case Raw(decoded) => decoded
    case Other(rendered) => rendered
  }

  function NumberOf(raw: Headers, field: Field, fallback: int, parse: Parser): int {
    if Known(field) in raw && raw[Known(field)].Flag? then fallback
    else if Known(field) in raw && raw[Known(field)].Number? then raw[Known(field)].n
    else var parsed := parse(TextOf(raw, field)); if parsed.Some? then parsed.value else fallback
  }

  function Or(first: string, second: string): string { if first != "" then first else second }

  /** `__post_init__`: the defaults, or a refusal when the application sets a reserved name. */
  function Built(e: Envelope): (r: Option<Envelope>) {
    if exists name :: name in e.headers && !name.Application? then None else
    Some(e.(correlationId := Or(e.correlationId, e.id),
            attempt := Max(e.attempt, 1),
            version := Max(e.version, 1),
            routePosition := Max(e.routePosition, 0)))
  }

  function Unless(value: string): Option<Value> { if value == "" then None else Some(Text(value)) }

  /** What is written under a reserved name, if anything is: absent rather than empty. */
  function FieldValue(e: Envelope, routingKey: string, field: Field): Option<Value> {
    match field
    case Id => Some(Text(e.id))
    case Type => Some(Text(Or(Or(e.kind, routingKey), DEFAULT_TYPE)))
    case Version => Some(Number(e.version))
    case Correlation => Some(Text(Or(e.correlationId, e.id)))
    case Attempt => Some(Number(e.attempt))
    case FirstSeen => Some(Number(RoundHalfEven(e.firstSeen, 1000)))
    case Causation => Unless(e.causationId)
    case Origin => Unless(e.origin)
    case Error => Unless(e.error)
    case Claim => Unless(e.claim)
    case Route => Unless(e.route)
    case RoutePosition => if e.route == "" then None else Some(Number(e.routePosition))
    case RouteId => if e.route == "" then None else Unless(e.routeId)
  }

  /** What the wire form says under a name: the application's own headers, then the fields this
      library knows, then the extensions it carries on without reading. */
  function Written(e: Envelope, routingKey: string, name: Name): Option<Value> {
    if name in e.headers then Some(e.headers[name])
    else if name.Known? then FieldValue(e, routingKey, name.field)
    else if name in e.extensions then Some(e.extensions[name])
    else None
  }

  const KNOWN: set<Name> := set field: Field | true :: Known(field)

  /** `to_headers`. */
  function ToHeaders(e: Envelope, routingKey: string): Headers {
    map name | name in KNOWN + e.headers.Keys + e.extensions.Keys && Written(e, routingKey, name).Some?
      :: Written(e, routingKey, name).value
  }

  ghost predicate Filled(written: Headers, under: Headers, e: Envelope, routingKey: string, fields: seq<Field>) {
    forall name: Name ::
      if name.Known? && name.field in fields && FieldValue(e, routingKey, name.field).Some?
      then name in written && written[name] == FieldValue(e, routingKey, name.field).value
      else (name in written <==> name in under) && (name in under ==> written[name] == under[name])
  }

  /** Writes the fields that have something to say, one after the other. */
  method Fill(under: Headers, e: Envelope, routingKey: string, fields: seq<Field>) returns (written: Headers)
    ensures Filled(written, under, e, routingKey, fields)
  {
    written := under;
    for i := 0 to |fields|
      invariant Filled(written, under, e, routingKey, fields[..i])
    {
      var value := FieldValue(e, routingKey, fields[i]);
      if value.Some? {
        written := written[Known(fields[i]) := value.value];
      }
    }
    assert fields[..|fields|] == fields;
  }

  const ALWAYS := [Id, Type, Version, Correlation, Attempt, FirstSeen]
  const OPTIONAL := [Causation, Origin, Error, Claim, Route, RoutePosition, RouteId]

  lemma EveryField(field: Field)
    ensures field in ALWAYS || field in OPTIONAL
  {
    match field
    case Id => assert ALWAYS[0] == field;
    case Type => assert ALWAYS[1] == field;
    case Version => assert ALWAYS[2] == field;
    case Correlation => assert ALWAYS[3] == field;
    case Attempt => assert ALWAYS[4] == field;
    case FirstSeen => assert ALWAYS[5] == field;
    case Causation => assert OPTIONAL[0] == field;
    case Origin => assert OPTIONAL[1] == field;
    case Error => assert OPTIONAL[2] == field;
    case Claim => assert OPTIONAL[3] == field;
    case Route => assert OPTIONAL[4] == field;
    case RoutePosition => assert OPTIONAL[5] == field;
    case RouteId => assert OPTIONAL[6] == field;
  }

  lemma FilledIsWritten(written: Headers, half: Headers, e: Envelope, routingKey: string,
                        always: seq<Field>, optional: seq<Field>)
    requires forall field :: field in always || field in optional
    requires Filled(half, map name | name in e.extensions && !name.Known? :: e.extensions[name], e, routingKey, always)
    requires Filled(written, half, e, routingKey, optional)
    ensures written + e.headers == ToHeaders(e, routingKey)
  {
    forall name: Name
      ensures name in written + e.headers <==> Written(e, routingKey, name).Some?
      ensures name in written + e.headers ==> (written + e.headers)[name] == Written(e, routingKey, name).value
    {
      if name.Known? {
        assert name in KNOWN;
      }
    }
  }

  /** `to_headers` as it fills its dictionary: the six fields always present over the extensions,
      the optional ones, the route, and the application's own last. */
  method WriteHeaders(e: Envelope, routingKey: string) returns (written: Headers)
    ensures written == ToHeaders(e, routingKey)
  {
    var carried := map name | name in e.extensions && !name.Known? :: e.extensions[name];
    var half := Fill(carried, e, routingKey, ALWAYS);
    var whole := Fill(half, e, routingKey, OPTIONAL);
    forall field ensures field in ALWAYS || field in OPTIONAL { EveryField(field); }
    FilledIsWritten(whole, half, e, routingKey, ALWAYS, OPTIONAL);
    written := whole + e.headers;
  }

  /** What a delivery brings besides its headers, and what is made up when they are missing. */
  datatype Arrival = Arrival(routingKey: string, messageId: string, freshId: string, now: Micros)

  /** The fields `from_headers` hands to the constructor, from the texts and numbers it reads. */
  function Assembled(text: Field -> string, number: (Field, int) -> int, at: Arrival,
                     headers: Headers, extensions: Headers): Envelope {
    var identifier := Or(Or(text(Id), at.messageId), at.freshId);
    Envelope(
      identifier,
      Or(Or(text(Type), at.routingKey), DEFAULT_TYPE),
      number(Version, 1),
      Or(text(Correlation), identifier),
      text(Causation),
      number(Attempt, 1),
      1000 * number(FirstSeen, RoundHalfEven(at.now, 1000)),
      text(Origin), text(Error), text(Claim),
      text(Route), number(RoutePosition, 0), text(RouteId),
      headers, extensions)
  }

  function ReadText(raw: Headers): Field -> string { (field: Field) => TextOf(raw, field) }

  function ReadNumber(raw: Headers, parse: Parser): (Field, int) -> int {
    (field: Field, fallback: int) => NumberOf(raw, field, fallback, parse)
  }

  function ReadFields(raw: Headers, at: Arrival, parse: Parser): Envelope {
    Assembled(ReadText(raw), ReadNumber(raw, parse), at,
              map name | name in raw && name.Application? :: raw[name],
              map name | name in raw && name.Foreign? :: raw[name])
  }

  function FromHeaders(raw: Headers, at: Arrival, parse: Parser): (e: Envelope)
    ensures Built(ReadFields(raw, at, parse)) == Some(e)
  {
    Built(ReadFields(raw, at, parse)).value
  }

  /** The envelopes the wire carries without loss. */
  predicate Normal(e: Envelope) {
    && e.id != "" && e.kind != "" && e.correlationId != ""
    && e.version >= 1 && e.attempt >= 1 && e.routePosition >= 0
    && e.firstSeen % 1000 == 0
    && (e.route == "" ==> e.routePosition == 0 && e.routeId == "")
    && (forall name :: name in e.headers ==> name.Application?)
    && (forall name :: name in e.extensions ==> name.Foreign?)
  }

  /** What `int` makes of no text at all: an error. */
  predicate Sensible(parse: Parser) { parse("") == None }

  /** A message from a publisher that writes no envelope reads as a first attempt of version one, seen now,
      under the broker's message id and the key it came by, with its headers sorted. */
  lemma ForeignReads(raw: Headers, at: Arrival, parse: Parser)
    requires Sensible(parse) && forall name :: name in raw ==> !name.Known?
    ensures var e := FromHeaders(raw, at, parse);
            && e.id == (if at.messageId != "" then at.messageId else at.freshId)
            && e.kind == (if at.routingKey != "" then at.routingKey else "message")
            && e.correlationId == e.id && e.causationId == ""
            && e.version == 1 && e.attempt == 1 && e.firstSeen == 1000 * RoundHalfEven(at.now, 1000)
            && e.origin == "" && e.error == "" && e.claim == ""
            && e.route == "" && e.routePosition == 0 && e.routeId == ""
            && e.headers.Keys + e.extensions.Keys == raw.Keys && e.headers.Keys !! e.extensions.Keys
            && (forall name :: name in e.headers ==> name.Application? && e.headers[name] == raw[name])
            && (forall name :: name in e.extensions ==> name.Foreign? && e.extensions[name] == raw[name])
  {
    assert forall field: Field :: Known(field) !in raw;
    var text, number := ReadText(raw), ReadNumber(raw, parse);
    assert forall field :: text(field) == "";
    assert forall field, fallback :: number(field, fallback) == fallback;
  }

  /** What a publisher wrote in another shape counts as not written: a number that is a flag, or a text that
      is none, is the default, and no number is less than the least it can be. */
  lemma OddNumbersRead(raw: Headers, at: Arrival, parse: Parser, field: Field)
    requires Known(field) in raw
    requires raw[Known(field)].Flag? || (!raw[Known(field)].Number? && parse(TextOf(raw, field)).None?)
    ensures var e := FromHeaders(raw, at, parse);
            && (field.Attempt? ==> e.attempt == 1) && (field.Version? ==> e.version == 1)
            && (field.RoutePosition? ==> e.routePosition == 0)
            && (field.FirstSeen? ==> e.firstSeen == 1000 * RoundHalfEven(at.now, 1000))
            && e.attempt >= 1 && e.version >= 1 && e.routePosition >= 0
  {
  }

  function Trip(e: Envelope, routingKey: string, at: Arrival, parse: Parser): Envelope {
    FromHeaders(ToHeaders(e, routingKey), at, parse)
  }

  lemma WrittenUnder(e: Envelope, routingKey: string, field: Field)
    requires forall name :: name in e.headers ==> name.Application?
    ensures Known(field) in ToHeaders(e, routingKey) <==> FieldValue(e, routingKey, field).Some?
    ensures Known(field) in ToHeaders(e, routingKey) ==>
              ToHeaders(e, routingKey)[Known(field)] == FieldValue(e, routingKey, field).value
  {
    assert Known(field) in KNOWN;
  }

  /** A wire form whose reserved half is the envelope's. */
  ghost predicate Carries(raw: Headers, e: Envelope, routingKey: string) {
    forall field: Field ::
      && (Known(field) in raw <==> FieldValue(e, routingKey, field).Some?)
      && (Known(field) in raw ==> raw[Known(field)] == FieldValue(e, routingKey, field).value)
  }

  /** What `e` reads as once it has been written: its own fields, defaults filled in. */
  function Settled(e: Envelope, routingKey: string): Envelope {
    e.(kind := Or(Or(e.kind, routingKey), DEFAULT_TYPE),
       correlationId := Or(e.correlationId, e.id),
       version := Max(e.version, 1),
       attempt := Max(e.attempt, 1),
       firstSeen := 1000 * RoundHalfEven(e.firstSeen, 1000),
       routePosition := if e.route == "" then 0 else Max(e.routePosition, 0),
       routeId := if e.route == "" then "" else e.routeId,
       extensions := map name | name in e.extensions && name.Foreign? :: e.extensions[name])
  }

  function WrittenText(e: Envelope, routingKey: string, field: Field): string {
    var value := FieldValue(e, routingKey, field); if value.Some? && value.value.Text? then value.value.s else ""
  }

  function WrittenNumber(e: Envelope, routingKey: string, field: Field, fallback: int): int {
    var value := FieldValue(e, routingKey, field);
    if value.Some? && value.value.Number? then value.value.n else fallback
  }

  predicate IsNumber(field: Field) { field.Version? || field.Attempt? || field.RoutePosition? || field.FirstSeen? }

  lemma TextsSettled(text: Field -> string, e: Envelope, routingKey: string)
    requires forall field :: !IsNumber(field) ==> text(field) == WrittenText(e, routingKey, field)
    ensures text(Id) == e.id && text(Type) == Or(Or(e.kind, routingKey), DEFAULT_TYPE)
    ensures text(Correlation) == Or(e.correlationId, e.id) && text(Causation) == e.causationId
    ensures text(Origin) == e.origin && text(Error) == e.error && text(Claim) == e.claim
    ensures text(Route) == e.route && text(RouteId) == if e.route == "" then "" else e.routeId
  {
  }

  lemma NumbersSettled(number: (Field, int) -> int, e: Envelope, routingKey: string)
    requires forall field, fallback ::
               IsNumber(field) ==> number(field, fallback) == WrittenNumber(e, routingKey, field, fallback)
    ensures forall fallback :: number(Version, fallback) == e.version && number(Attempt, fallback) == e.attempt
    ensures forall fallback :: number(FirstSeen, fallback) == RoundHalfEven(e.firstSeen, 1000)
    ensures forall fallback :: number(RoutePosition, fallback) == if e.route == "" then fallback else e.routePosition
  {
  }

  lemma AssemblesSettled(text: Field -> string, number: (Field, int) -> int, e: Envelope, routingKey: string,
                         at: Arrival)
    requires e.id != "" && forall name :: name in e.headers ==> name.Application?
    requires forall field :: !IsNumber(field) ==> text(field) == WrittenText(e, routingKey, field)
    requires forall field, fallback ::
               IsNumber(field) ==> number(field, fallback) == WrittenNumber(e, routingKey, field, fallback)
    ensures Built(Assembled(text, number, at, e.headers, Settled(e, routingKey).extensions)) ==
              Some(Settled(e, routingKey))
  {
    TextsSettled(text, e, routingKey);
    NumbersSettled(number, e, routingKey);
  }

  lemma ReadsSettled(raw: Headers, e: Envelope, routingKey: string, at: Arrival, parse: Parser)
    requires Sensible(parse) && e.id != "" && Carries(raw, e, routingKey)
    requires forall name :: name in e.headers ==> name.Application?
    requires (map name | name in raw && name.Application? :: raw[name]) == e.headers
    requires (map name | name in raw && name.Foreign? :: raw[name]) == Settled(e, routingKey).extensions
    ensures Built(ReadFields(raw, at, parse)) == Some(Settled(e, routingKey))
  {
    var text, number := ReadText(raw), ReadNumber(raw, parse);
    forall field: Field | !IsNumber(field) ensures text(field) == WrittenText(e, routingKey, field) {
    }
    forall field: Field, fallback | IsNumber(field)
      ensures number(field, fallback) == WrittenNumber(e, routingKey, field, fallback)
    {
    }
    AssemblesSettled(text, number, e, routingKey, at);
  }

  /** Everything one trip over the wire does to an envelope. */
  lemma TripSettles(e: Envelope, routingKey: string, at: Arrival, parse: Parser)
    requires Sensible(parse) && e.id != ""
    requires forall name :: name in e.headers ==> name.Application?
    requires forall name :: name in e.extensions ==> !name.Application?
    ensures Trip(e, routingKey, at, parse) == Settled(e, routingKey)
  {
    forall field: Field { WrittenUnder(e, routingKey, field); }
    UnreservedBack(e, routingKey);
    ReadsSettled(ToHeaders(e, routingKey), e, routingKey, at, parse);
  }

  lemma UnreservedBack(e: Envelope, routingKey: string)
    requires forall name :: name in e.headers ==> name.Application?
    requires forall name :: name in e.extensions ==> !name.Application?
    ensures var raw := ToHeaders(e, routingKey);
            && (map name | name in raw && name.Application? :: raw[name]) == e.headers
            && (map name | name in raw && name.Foreign? :: raw[name])
               == map name | name in e.extensions && name.Foreign? :: e.extensions[name]
  {
  }

  lemma SettledIsNormal(e: Envelope, routingKey: string)
    requires e.id != "" && forall name :: name in e.headers ==> name.Application?
    ensures Normal(Settled(e, routingKey))
    ensures Settled(e, routingKey) == e <==> Normal(e)
  {
    if Normal(e) {
      assert Settled(e, routingKey).extensions == e.extensions;
      assert e.firstSeen == 1000 * (e.firstSeen / 1000);
    }
    if Settled(e, routingKey) == e {
      assert forall name :: name in Settled(e, routingKey).extensions ==> name.Foreign?;
    }
  }

  lemma NormalTrips(e: Envelope, routingKey: string, at: Arrival, parse: Parser)
    requires Normal(e) && Sensible(parse)
    ensures Trip(e, routingKey, at, parse) == e
  {
    TripSettles(e, routingKey, at, parse);
    SettledIsNormal(e, routingKey);
  }

  /** What `from_headers` can read: normal, but perhaps for a position or a run that has no route. */
  predicate Readable(e: Envelope) { Normal(OnWire(e)) && e.routePosition >= 0 }

  /** The envelope without a position or a run that has no route, which is what is written of it. */
  function OnWire(e: Envelope): Envelope { if e.route == "" then e.(routePosition := 0, routeId := "") else e }

  lemma ReadIsReadable(raw: Headers, at: Arrival, parse: Parser)
    requires at.freshId != ""
    ensures Readable(FromHeaders(raw, at, parse))
  {
  }

  /** However odd its headers, one trip gives back what was read but for a position without a route. */
  lemma ReadableTrips(e: Envelope, routingKey: string, at: Arrival, parse: Parser)
    requires Readable(e) && Sensible(parse)
    ensures Trip(e, routingKey, at, parse) == OnWire(e)
  {
    TripSettles(e, routingKey, at, parse);
    SettledIsNormal(OnWire(e), routingKey);
    assert Settled(e, routingKey) == Settled(OnWire(e), routingKey);
  }

  /** One trip over the wire gives back an envelope, however it was made, exactly when it is in normal
      form. */
  lemma LosslessExactlyWhenNormal(e: Envelope, routingKey: string, at: Arrival, parse: Parser)
    requires Sensible(parse) && at.freshId != ""
    ensures Trip(e, routingKey, at, parse) == e <==> Normal(e)
  {
    if Normal(e) {
      NormalTrips(e, routingKey, at, parse);
    } else if Trip(e, routingKey, at, parse) == e {
      ReadIsReadable(ToHeaders(e, routingKey), at, parse);
      ReadableTrips(e, routingKey, at, parse);
    }
  }

  /** Whatever arrives, the form it is read in reaches normal form after one more trip. */
  lemma OneTripNormalizes(raw: Headers, first: Arrival, routingKey: string, later: Arrival, parse: Parser)
    requires Sensible(parse) && first.freshId != ""
    ensures Normal(Trip(FromHeaders(raw, first, parse), routingKey, later, parse))
  {
    ReadIsReadable(raw, first, parse);
    ReadableTrips(FromHeaders(raw, first, parse), routingKey, later, parse);
  }

  /** An envelope dated within a millisecond does not come back: its time is rounded. */
  lemma HalfAMillisecondIsLost(at: Arrival, parse: Parser)
    requires Sensible(parse)
    ensures var e := Envelope("id", "type", 1, "id", "", 1, 1500, "", "", "", "", 0, "", map[], map[]);
            Trip(e, "key", at, parse) != e && Trip(e, "key", at, parse) == e.(firstSeen := 2000)
  {
    var e := Envelope("id", "type", 1, "id", "", 1, 1500, "", "", "", "", 0, "", map[], map[]);
    TripSettles(e, "key", at, parse);
    assert RoundHalfEven(1500, 1000) == 2;
    assert Settled(e, "key").extensions == map[];
  }

  /** Any number of hops, each writing the envelope on with the attempt advanced and reading it back. */
  function Hops(e: Envelope, n: nat, trip: Envelope -> Envelope): Envelope {
    if n == 0 then e
    else var before := Hops(e, n - 1, trip); trip(before.(attempt := before.attempt + 1))
  }

  lemma {:induction false} LosslessHops(e: Envelope, n: nat, trip: Envelope -> Envelope)
    requires Normal(e) && forall x :: Normal(x) ==> trip(x) == x
    ensures Hops(e, n, trip) == e.(attempt := e.attempt + n)
  {
    if n > 0 {
      LosslessHops(e, n - 1, trip);
      assert Normal(e.(attempt := e.attempt + n));
    }
  }

  /** Retry hops change the attempt and nothing else, however many there are. */
  lemma HopsChangeOnlyTheAttempt(e: Envelope, n: nat, routingKey: string, at: Arrival, parse: Parser)
    requires Normal(e) && Sensible(parse)
    ensures Hops(e, n, x => Trip(x, routingKey, at, parse)) == e.(attempt := e.attempt + n)
  {
    var trip := (x: Envelope) => Trip(x, routingKey, at, parse);
    forall x | Normal(x) ensures trip(x) == x {
      NormalTrips(x, routingKey, at, parse);
    }
    LosslessHops(e, n, trip);
  }

  /** Nothing an envelope carries beside its own fields can change what a reader takes for one. */
  lemma ExtensionsNeverOverride(e: Envelope, headers: Headers, extensions: Headers, routingKey: string, field: Field)
    requires forall name :: name in e.headers + headers ==> name.Application?
    ensures var bare := ToHeaders(e, routingKey);
            var laden := ToHeaders(e.(headers := headers, extensions := extensions), routingKey);
            && (Known(field) in laden <==> Known(field) in bare)
            && (Known(field) in bare ==> laden[Known(field)] == bare[Known(field)])
  {
    assert forall name :: name in headers ==> name in e.headers + headers;
    assert forall name :: name in e.headers ==> name in e.headers + headers;
    WrittenUnder(e, routingKey, field);
    WrittenUnder(e.(headers := headers, extensions := extensions), routingKey, field);
  }
}
