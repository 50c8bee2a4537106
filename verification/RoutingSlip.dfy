/** A message that carries its own itinerary (src/acemq_amqp/patterns/routingslip.py): two wire forms
    of one slip, and the hop from one stop to the next. */
module RoutingSlips {
  import opened Retry
  import opened Envelopes

  datatype Form = Json | StepNames

  /** One stop; `completedAt` is when it was done, if it is. */
  datatype Step = Step(exchange: string, routingKey: string, name: string, completedAt: string)

  datatype Slip = Slip(steps: seq<Step>, done: seq<Step>, runId: string, form: Form)

  const HEADER := Application("acemq-routing-slip")

  /** A step as an object on the wire, where what is empty is left out, and the two lists of them. */
  datatype Fields = Fields(exchange: string, routingKey: string, name: Option<string>, completedAt: Option<string>)
  datatype Itinerary = Itinerary(steps: seq<Fields>, done: seq<Fields>)

  /** The text functions this model does not look inside: JSON out and in, what counts as white space,
      and `int`. */
  datatype Texts = Texts(dumps: Itinerary -> string, loads: string -> Option<Itinerary>, space: char -> bool,
                         parse: Parser)

  ghost predicate Faithful(texts: Texts) {
    Sensible(texts.parse) && forall i :: texts.loads(texts.dumps(i)) == Some(i)
  }

  // ---------------------------------------------------------------- moving along a slip

  function Advance(slip: Slip, now: string): Slip {
    if slip.steps == [] then slip
    else slip.(steps := slip.steps[1..], done := slip.done + [slip.steps[0].(completedAt := now)])
  }

  /** The whole itinerary, without the times. */
  function Plain(steps: seq<Step>): seq<Step> {
    seq(|steps|, i requires 0 <= i < |steps| => steps[i].(completedAt := ""))
  }

  function Every(slip: Slip): seq<Step> { slip.done + slip.steps }

  /** Advancing conserves the itinerary, takes one step off what is left, and stamps that one. */
  lemma AdvanceConserves(slip: Slip, now: string)
    requires slip.steps != []
    ensures var next := Advance(slip, now);
            && Plain(Every(next)) == Plain(Every(slip))
            && |next.steps| == |slip.steps| - 1 && |next.done| == |slip.done| + 1
            && next.done[..|slip.done|] == slip.done && next.done[|slip.done|].completedAt == now
            && next.runId == slip.runId && next.form == slip.form
  {
    var next := Advance(slip, now);
    assert forall i :: 0 <= i < |Every(slip)| ==>
             Every(next)[i].(completedAt := "") == Every(slip)[i].(completedAt := "");
  }

  // ---------------------------------------------------------------- the declared form

  function NameOf(step: Step): string { Or(step.name, step.routingKey) }

  /** Whether a step can be written as a name on a route of this exchange. */
  predicate Nameable(step: Step, exchange: string) {
    && step.exchange == exchange
    && NameOf(step) != "" && ',' !in NameOf(step)
    && (step.name != "" && step.routingKey != "" ==> step.name == step.routingKey)
  }

  function Names(steps: seq<Step>): seq<string> { seq(|steps|, i requires 0 <= i < |steps| => NameOf(steps[i])) }

  /** `step_names`, `None` being the error. */
  function NamesOf(slip: Slip): Option<seq<string>> {
    var every := Every(slip);
    if every != [] && forall i :: 0 <= i < |every| ==> Nameable(every[i], every[0].exchange)
    then Some(Names(every)) else None
  }

  /** The loop over the steps, which stops at the first that cannot be written. */
  method ComputeNames(slip: Slip) returns (names: Option<seq<string>>)
    ensures names == NamesOf(slip)
  {
    var every := slip.done + slip.steps;
    if every == [] { return None; }
    var soFar: seq<string> := [];
    for i := 0 to |every|
      invariant forall j :: 0 <= j < i ==> Nameable(every[j], every[0].exchange)
      invariant soFar == Names(every[..i])
    {
      var step := every[i];
      if step.exchange != every[0].exchange { return None; }
      var name := if step.name != "" then step.name else step.routingKey;
      if name == "" { return None; }
      if step.name != "" && step.routingKey != "" && step.name != step.routingKey { return None; }
      if ',' in name { return None; }
      soFar := soFar + [name];
      assert every[..i + 1] == every[..i] + [step];
    }
    assert every[..|every|] == every;
    names := Some(soFar);
  }

  /** A step that one word, without the comma that separates them, can stand for. */
  predicate GoesBy(step: Step, exchange: string, word: string) {
    && step.exchange == exchange && word != "" && ',' !in word
    && (step.name == word || step.routingKey == word)
    && step.name in {"", word} && step.routingKey in {"", word}
  }

  /** A slip is written as names exactly when it has steps, all on one exchange, and each goes by one word. */
  lemma NamedExactlyWhen(slip: Slip, names: seq<string>)
    ensures NamesOf(slip) == Some(names) <==>
              && names != [] && |names| == |Every(slip)|
              && forall i :: 0 <= i < |names| ==> GoesBy(Every(slip)[i], Every(slip)[0].exchange, names[i])
  {
    var every := Every(slip);
    forall i | 0 <= i < |every|
      ensures Nameable(every[i], every[0].exchange) <==> GoesBy(every[i], every[0].exchange, NameOf(every[i]))
      ensures forall word :: GoesBy(every[i], every[0].exchange, word) ==> word == NameOf(every[i])
    {
    }
    if |names| == |every| && names != [] &&
      forall i :: 0 <= i < |names| ==> GoesBy(every[i], every[0].exchange, names[i])
    {
      assert forall i :: 0 <= i < |names| ==> names[i] == NameOf(every[i]);
      assert names == Names(every);
    }
  }

  function Join(names: seq<string>): string {
    if names == [] then "" else if |names| == 1 then names[0] else names[0] + "," + Join(names[1..])
  }

  /** `split(",")`. */
  function Split(text: string): (parts: seq<string>)
    ensures parts != []
  {
    if text == "" then [""]
    else
      var rest := Split(text[1..]);
      if text[0] == ',' then [""] + rest else [[text[0]] + rest[0]] + rest[1..]
  }

  lemma {:induction false} SplitOne(name: string)
    requires ',' !in name
    ensures Split(name) == [name]
  {
    if name != "" {
      SplitOne(name[1..]);
      assert name == [name[0]] + name[1..];
    }
  }

  lemma {:induction false} SplitFirst(name: string, rest: string)
    requires ',' !in name
    ensures Split(name + "," + rest) == [name] + Split(rest)
  {
    var text := name + "," + rest;
    if name == "" {
      assert text == "," + rest && text[1..] == rest;
    } else {
      SplitFirst(name[1..], rest);
      assert text[1..] == name[1..] + "," + rest;
      assert name == [name[0]] + name[1..];
    }
  }

  predicate NoCommas(names: seq<string>) { forall i :: 0 <= i < |names| ==> ',' !in names[i] }

  lemma {:induction false} SplitJoins(names: seq<string>)
    requires names != [] && NoCommas(names)
    ensures Split(Join(names)) == names
  {
    if |names| == 1 {
      SplitOne(names[0]);
    } else {
      SplitFirst(names[0], Join(names[1..]));
      SplitJoins(names[1..]);
    }
  }

  function StripLeft(text: string, space: char -> bool): string {
    if text != "" && space(text[0]) then StripLeft(text[1..], space) else text
  }

  function StripRight(text: string, space: char -> bool): string {
    if text != "" && space(text[|text| - 1]) then StripRight(text[..|text| - 1], space) else text
  }

  function Strip(text: string, space: char -> bool): string { StripRight(StripLeft(text, space), space) }

  /** The names of a route as they are read: trimmed, and the empty ones dropped. */
  function Trimmed(parts: seq<string>, space: char -> bool): seq<string> {
    if parts == [] then []
    else (if Strip(parts[0], space) == "" then [] else [Strip(parts[0], space)]) + Trimmed(parts[1..], space)
  }

  predicate AllTrim(names: seq<string>, space: char -> bool) {
    forall i :: 0 <= i < |names| ==> names[i] != "" && Strip(names[i], space) == names[i]
  }

  lemma {:induction false} TrimmedIsShorter(parts: seq<string>, space: char -> bool)
    ensures |Trimmed(parts, space)| <= |parts|
  {
    if parts != [] {
      TrimmedIsShorter(parts[1..], space);
    }
  }

  /** Trimming leaves a list of names as it is exactly when there is nothing to trim. */
  lemma {:induction false} TrimmedExactlyWhen(names: seq<string>, space: char -> bool)
    ensures Trimmed(names, space) == names <==> AllTrim(names, space)
  {
    if names != [] {
      var head, rest := Strip(names[0], space), names[1..];
      TrimmedExactlyWhen(rest, space);
      TrimmedIsShorter(rest, space);
      assert names == [names[0]] + rest;
      assert forall i :: 1 <= i < |names| ==> names[i] == rest[i - 1];
      assert forall i :: 0 <= i < |rest| ==> rest[i] == names[i + 1];
      if head != "" {
        assert ([head] + Trimmed(rest, space))[1..] == Trimmed(rest, space);
      }
    }
  }

  // ---------------------------------------------------------------- onto an envelope, and back

  function Absent(text: string): Option<string> { if text == "" then None else Some(text) }

  function ToFields(step: Step): Fields {
    Fields(step.exchange, step.routingKey, Absent(step.name), Absent(step.completedAt))
  }

  function FromFields(f: Fields): Step {
    Step(f.exchange, f.routingKey, if f.name.Some? then f.name.value else "",
         if f.completedAt.Some? then f.completedAt.value else "")
  }

  function AllToFields(steps: seq<Step>): seq<Fields> {
    seq(|steps|, i requires 0 <= i < |steps| => ToFields(steps[i]))
  }

  function AllFromFields(fields: seq<Fields>): seq<Step> {
    seq(|fields|, i requires 0 <= i < |fields| => FromFields(fields[i]))
  }

  /** `onto`, `None` being the error; `made` is the run identifier made up when there is none. */
  function Onto(slip: Slip, e: Envelope, texts: Texts, made: string): Option<Envelope> {
    if slip.form.Json? then
      Some(e.(headers :=
          e.headers[HEADER := Text(texts.dumps(Itinerary(AllToFields(slip.steps), AllToFields(slip.done))))]))
    else
      var names := NamesOf(slip);
      if names.None? then None
      else Some(e.(route := Join(names.value), routePosition := |slip.done|, routeId := Or(slip.runId, made)))
  }

  datatype Reading = NoSlip | Found(slip: Slip) | CannotRead

  function Declared(pipeline: string, names: seq<string>): seq<Step> {
    seq(|names|, i requires 0 <= i < |names| => Step(pipeline, names[i], names[i], ""))
  }

  /** `_declared_route`. */
  function DeclaredRoute(e: Envelope, pipeline: string, texts: Texts): Reading {
    var names := Trimmed(Split(e.route), texts.space);
    if names == [] then NoSlip
    else
      var at := if e.routePosition <= |names| then Max(e.routePosition, 0) else |names|;
      Found(Slip(Declared(pipeline, names)[at..], Declared(pipeline, names)[..at], e.routeId, StepNames))
  }

  /** A declared route is read when it has a name, and says how far it has got: a position past its end is a
      route that is finished. */
  lemma PositionsRead(e: Envelope, pipeline: string, texts: Texts)
    ensures var names, reading := Trimmed(Split(e.route), texts.space), DeclaredRoute(e, pipeline, texts);
            && (reading.Found? <==> names != []) && (reading.NoSlip? <==> names == [])
            && (reading.Found? ==>
                  && |reading.slip.done| + |reading.slip.steps| == |names|
                  && (reading.slip.steps == [] <==> e.routePosition >= |names|)
                  && (0 <= e.routePosition <= |names| ==> |reading.slip.done| == e.routePosition)
                  && (e.routePosition < 0 ==> reading.slip.done == []))
  {
  }

  function FromText(text: string, texts: Texts): Reading {
    var read := texts.loads(text);
    if read.None? then CannotRead
    else Found(Slip(AllFromFields(read.value.steps), AllFromFields(read.value.done), "", Json))
  }

  predicate NoJsonOn(e: Envelope) { HEADER !in e.headers || e.headers[HEADER].Nothing? }

  /** `slip_from`: the JSON slip if there is one, and otherwise the declared route. */
  function SlipFrom(e: Envelope, pipeline: string, texts: Texts): Reading {
    if NoJsonOn(e) then DeclaredRoute(e, pipeline, texts)
    else match e.headers[HEADER]
      case Text(s) => FromText(s, texts)
      case Raw(decoded) => FromText(decoded, texts)
      case _ => CannotRead
  }

  /** The JSON form carries everything but the run identifier. */
  lemma JsonReadsBack(slip: Slip, e: Envelope, pipeline: string, texts: Texts, made: string)
    requires slip.form.Json? && Faithful(texts)
    ensures Onto(slip, e, texts, made).Some?
    ensures SlipFrom(Onto(slip, e, texts, made).value, pipeline, texts) == Found(slip.(runId := ""))
  {
    var itinerary := Itinerary(AllToFields(slip.steps), AllToFields(slip.done));
    assert texts.loads(texts.dumps(itinerary)) == Some(itinerary);
  }

  /** What a declared route read back says: the names, the position and the run. */
  predicate ReadsBackAs(reading: Reading, names: seq<string>, position: nat, runId: string) {
    && reading.Found? && reading.slip.form.StepNames?
    && Names(Every(reading.slip)) == names && |reading.slip.done| == position && reading.slip.runId == runId
  }

  lemma NamesAreDeclared(pipeline: string, names: seq<string>, at: nat)
    requires at <= |names| && forall i :: 0 <= i < |names| ==> names[i] != ""
    ensures var steps := Declared(pipeline, names); Names(steps[..at] + steps[at..]) == names
  {
    var steps := Declared(pipeline, names);
    assert steps[..at] + steps[at..] == steps;
  }

  lemma RouteReadsExactlyWhen(names: seq<string>, out: Envelope, pipeline: string, texts: Texts)
    requires names != [] && NoCommas(names) && out.route == Join(names) && 0 <= out.routePosition <= |names|
    ensures ReadsBackAs(DeclaredRoute(out, pipeline, texts), names, out.routePosition, out.routeId)
            <==> AllTrim(names, texts.space)
  {
    SplitJoins(names);
    TrimmedExactlyWhen(names, texts.space);
    TrimmedAreNames(names, texts.space);
    var read := Trimmed(names, texts.space);
    if read != [] {
      NamesAreDeclared(pipeline, read, if out.routePosition <= |read| then out.routePosition else |read|);
    }
  }

  /** Read back, the declared form of a slip gives the same names, position and run exactly when none
      of its names has white space to trim and the envelope it was written on had no JSON slip on it. */
  lemma DeclaredReadsBackExactlyWhen(slip: Slip, e: Envelope, pipeline: string, texts: Texts, made: string)
    requires slip.form.StepNames? && NamesOf(slip).Some?
    ensures Onto(slip, e, texts, made).Some?
    ensures ReadsBackAs(SlipFrom(Onto(slip, e, texts, made).value, pipeline, texts),
                        NamesOf(slip).value, |slip.done|, Or(slip.runId, made))
            <==> AllTrim(NamesOf(slip).value, texts.space) && NoJsonOn(e)
  {
    var out := Onto(slip, e, texts, made).value;
    if NoJsonOn(e) {
      RouteReadsExactlyWhen(NamesOf(slip).value, out, pipeline, texts);
    } else {
    }
  }

  /** A name with a space in front comes back without it. */
  lemma ASpaceIsLost(e: Envelope, texts: Texts)
    requires NoJsonOn(e) && texts.space(' ') && !texts.space('a')
    ensures var slip := Slip([Step("", " a", " a", "")], [], "run", StepNames);
            && NamesOf(slip) == Some([" a"])
            && SlipFrom(Onto(slip, e, texts, "made").value, "", texts) ==
                 Found(Slip([Step("", "a", "a", "")], [], "run", StepNames))
  {
    var slip := Slip([Step("", " a", " a", "")], [], "run", StepNames);
    assert Every(slip) == slip.steps && Names(slip.steps) == [" a"];
    SplitJoins([" a"]);
    assert StripLeft(" a", texts.space) == "a" by { assert " a"[1..] == "a"; }
    assert StripRight("a", texts.space) == "a";
    assert Trimmed([" a"], texts.space) == ["a"] by { assert [" a"][1..] == []; }
    assert Declared("", ["a"]) == [Step("", "a", "a", "")];
  }

  /** A JSON slip already on the envelope a declared route is written on stays there, and is the one that
      is read: the message follows the other itinerary. */
  lemma AStaleSlipIsFollowed(slip: Slip, stale: Slip, e: Envelope, pipeline: string, texts: Texts, made: string)
    requires slip.form.StepNames? && NamesOf(slip).Some? && stale.form.Json? && Faithful(texts)
    ensures Onto(stale, e, texts, made).Some? && Onto(slip, Onto(stale, e, texts, made).value, texts, made).Some?
    ensures SlipFrom(Onto(slip, Onto(stale, e, texts, made).value, texts, made).value, pipeline, texts)
            == Found(stale.(runId := ""))
  {
    JsonReadsBack(stale, e, pipeline, texts, made);
  }

  lemma {:induction false} TrimmedAreNames(parts: seq<string>, space: char -> bool)
    ensures forall i :: 0 <= i < |Trimmed(parts, space)| ==> Trimmed(parts, space)[i] != ""
  {
    if parts != [] {
      TrimmedAreNames(parts[1..], space);
    }
  }

  // ---------------------------------------------------------------- from one stop to the next

  /** What the work at a stop ends in. */
  datatype Result = Payload | Early | Unfixable | Failing

  /** What this stop adds of its own: the time, the identifiers it makes and its origin. */
  datatype Stop = Stop(now: string, freshId: string, freshRun: string, origin: string)

  datatype Onward =
    | Rejected
    | Retried
    | Finished(early: bool)
    | SentTo(step: Step, envelope: Envelope)

  function WrittenAs(slip: Slip, form: Option<Form>, made: string): Option<Slip> {
    if form.None? then Some(slip)
    else if form.value.Json? then Some(slip.(form := Json))
    else
      var switched := slip.(form := StepNames, runId := Or(slip.runId, made));
      if NamesOf(switched).None? then None else Some(switched)
  }

  /** A fresh envelope for the hop, with what goes on from the one that arrived. */
  function Derived(e: Envelope, stop: Stop): Envelope {
    Envelope(stop.freshId, "", 1, e.correlationId, e.id, 1, e.firstSeen, stop.origin, "", "", "", 0, "",
             map name | name in e.headers && name != HEADER :: e.headers[name], e.extensions)
  }

  /** `travel`, up to the publish: it accepts the message at the end of the itinerary or, for what is
      sent on, once that publish was routed and confirmed. */
  function Travel(e: Envelope, result: Result, pipeline: string, form: Option<Form>, texts: Texts, stop: Stop): Onward {
    var reading := SlipFrom(e, pipeline, texts);
    if !reading.Found? then Rejected
    else if result.Unfixable? then Rejected
    else if result.Failing? then Retried
    else
      var advanced := Advance(reading.slip, stop.now);
      if advanced.steps == [] then Finished(false)
      else if result.Early? then Finished(true)
      else
        var written := WrittenAs(advanced, form, stop.freshRun);
        if written.None? then Rejected
        else
          var out := Onto(written.value, Derived(e, stop), texts, stop.freshRun);
          if out.None? then Rejected else SentTo(advanced.steps[0], out.value)
  }

  lemma {:induction false} StripRightIs(text: string, space: char -> bool)
    ensures StripRight(StripRight(text, space), space) == StripRight(text, space)
    ensures |StripRight(text, space)| <= |text| && StripRight(text, space) == text[..|StripRight(text, space)|]
  {
    if text != "" && space(text[|text| - 1]) {
      StripRightIs(text[..|text| - 1], space);
    }
  }

  lemma {:induction false} StripLeftIs(text: string, space: char -> bool)
    ensures var left := StripLeft(text, space);
            && |left| <= |text| && left == text[|text| - |left|..]
            && (left != "" ==> !space(left[0]))
  {
    if text != "" && space(text[0]) {
      StripLeftIs(text[1..], space);
    }
  }

  /** What has been trimmed has nothing left to trim, and no comma it did not have. */
  lemma StripIs(text: string, space: char -> bool)
    ensures Strip(Strip(text, space), space) == Strip(text, space)
    ensures ',' !in text ==> ',' !in Strip(text, space)
  {
    var left := StripLeft(text, space);
    StripLeftIs(text, space);
    StripRightIs(left, space);
    var both := StripRight(left, space);
    if both != "" {
      assert both[0] == left[0];
    }
  }

  lemma {:induction false} SplitHasNoCommas(text: string)
    ensures NoCommas(Split(text))
  {
    if text != "" {
      SplitHasNoCommas(text[1..]);
    }
  }

  lemma {:induction false} TrimmedAreClean(parts: seq<string>, space: char -> bool)
    requires NoCommas(parts)
    ensures NoCommas(Trimmed(parts, space)) && AllTrim(Trimmed(parts, space), space)
  {
    if parts != [] {
      assert NoCommas(parts[1..]);
      TrimmedAreClean(parts[1..], space);
      StripIs(parts[0], space);
    }
  }

  /** A slip read off a declared route can always be written on, and is read there as it was here. */
  lemma DeclaredGoesOn(e: Envelope, pipeline: string, texts: Texts)
    requires SlipFrom(e, pipeline, texts).Found? && SlipFrom(e, pipeline, texts).slip.form.StepNames?
    ensures var slip := SlipFrom(e, pipeline, texts).slip;
            exists names :: names != [] && NoCommas(names) && AllTrim(names, texts.space) &&
                Every(slip) == Declared(pipeline, names)
  {
    var names := Trimmed(Split(e.route), texts.space);
    SplitHasNoCommas(e.route);
    TrimmedAreClean(Split(e.route), texts.space);
    assert Every(SlipFrom(e, pipeline, texts).slip) == Declared(pipeline, names);
  }

  lemma NamedByNames(slip: Slip, names: seq<string>, pipeline: string)
    requires names != [] && NoCommas(names) && forall i :: 0 <= i < |names| ==> names[i] != ""
    requires Plain(Every(slip)) == Declared(pipeline, names)
    ensures NamesOf(slip) == Some(names)
  {
    var every, plain := Every(slip), Plain(Every(slip));
    forall i | 0 <= i < |every| ensures Nameable(every[i], pipeline) && NameOf(every[i]) == names[i] {
      assert every[i].(completedAt := "") == plain[i] == Step(pipeline, names[i], names[i], "");
    }
    assert Names(every) == names;
  }

  lemma DeclaredSplits(slip: Slip, names: seq<string>, pipeline: string)
    requires Plain(Every(slip)) == Declared(pipeline, names)
    ensures |slip.done| <= |names|
    ensures Declared(pipeline, names)[|slip.done|..] == Plain(slip.steps)
    ensures Declared(pipeline, names)[..|slip.done|] == Plain(slip.done)
  {
  }

  /** A declared slip over clean names comes back from the wire as it went, but for the times. */
  lemma DeclaredHop(slip: Slip, names: seq<string>, e: Envelope, pipeline: string, texts: Texts, made: string)
    requires slip.form.StepNames? && names != [] && NoCommas(names) && AllTrim(names, texts.space)
    requires Plain(Every(slip)) == Declared(pipeline, names) && NoJsonOn(e)
    ensures Onto(slip, e, texts, made).Some?
    ensures SlipFrom(Onto(slip, e, texts, made).value, pipeline, texts)
            == Found(Slip(Plain(slip.steps), Plain(slip.done), Or(slip.runId, made), StepNames))
  {
    NamedByNames(slip, names, pipeline);
    SplitJoins(names);
    TrimmedExactlyWhen(names, texts.space);
    DeclaredSplits(slip, names, pipeline);
  }

  /** What the next stop finds on the message when it has been over the wire. */
  function Arrived(out: Envelope, routingKey: string, at: Arrival, texts: Texts): Envelope {
    Trip(out, routingKey, at, texts.parse)
  }

  lemma SlipReadsOnly(e: Envelope, out: Envelope, pipeline: string, texts: Texts)
    requires e.headers == out.headers && e.route == out.route && e.routePosition == out.routePosition &&
               e.routeId == out.routeId
    ensures SlipFrom(e, pipeline, texts) == SlipFrom(out, pipeline, texts)
  {
  }

  /** Who a message is, whom it follows, and how it stands. */
  predicate SameStanding(a: Envelope, b: Envelope) {
    && a.id == b.id && a.correlationId == b.correlationId && a.causationId == b.causationId && a.origin == b.origin
    && a.version == b.version && a.attempt == b.attempt && a.error == b.error && a.claim == b.claim
  }

  predicate Whole(e: Envelope) { e.correlationId != "" && e.version >= 1 && e.attempt >= 1 }

  lemma SettledKeeps(out: Envelope, routingKey: string)
    requires out.routePosition >= 0 && (out.route == "" ==> out.routePosition == 0 && out.routeId == "")
    requires forall name :: name in out.extensions ==> name.Foreign?
    ensures var e := Settled(out, routingKey);
            && e.headers == out.headers && e.route == out.route && e.routePosition == out.routePosition &&
                 e.routeId == out.routeId
            && e.extensions == out.extensions
            && (out.firstSeen % 1000 == 0 ==> e.firstSeen == out.firstSeen)
            && (Whole(out) ==> SameStanding(e, out))
  {
    if out.firstSeen % 1000 == 0 {
      assert out.firstSeen == 1000 * (out.firstSeen / 1000);
    }
  }

  /** The envelope that arrives reads as the one that was sent, as far as slips go. */
  lemma WireKeepsTheSlip(out: Envelope, routingKey: string, at: Arrival, pipeline: string, texts: Texts)
    requires Faithful(texts) && out.id != "" && out.routePosition >= 0
    requires forall name :: name in out.headers ==> name.Application?
    requires forall name :: name in out.extensions ==> name.Foreign?
    requires out.route == "" ==> out.routePosition == 0 && out.routeId == ""
    ensures var e := Arrived(out, routingKey, at, texts);
            && SlipFrom(e, pipeline, texts) == SlipFrom(out, pipeline, texts)
            && Normal(e) && e.headers == out.headers && e.extensions == out.extensions
            && (out.firstSeen % 1000 == 0 ==> e.firstSeen == out.firstSeen)
            && (Whole(out) ==> SameStanding(e, out))
  {
    TripSettles(out, routingKey, at, texts.parse);
    SettledIsNormal(out, routingKey);
    SettledKeeps(out, routingKey);
    SlipReadsOnly(Settled(out, routingKey), out, pipeline, texts);
  }

  function WithoutSlip(headers: Headers): Headers { map name | name in headers && name != HEADER :: headers[name] }

  /** A message this stop made because of one that arrived: its own identifier and origin, a first attempt
      without an error, in the same conversation, caused by the other. */
  predicate Follows(e: Envelope, next: Envelope, stop: Stop) {
    && next.id == stop.freshId && next.origin == stop.origin
    && next.correlationId == e.correlationId && next.causationId == e.id
    && next.version == 1 && next.attempt == 1 && next.error == "" && next.claim == ""
  }

  /** What one hop keeps: the form, the itinerary with one step fewer to go, the run, the message's
      age, the application's headers, and the extensions nobody here knows. */
  predicate HopKeeps(e: Envelope, slip: Slip, next: Envelope, read: Slip, made: string) {
    && read.form == slip.form
    && |read.steps| == |slip.steps| - 1
    && Plain(read.steps) == Plain(slip.steps[1..]) && Plain(Every(read)) == Plain(Every(slip))
    && (slip.form.StepNames? ==> read.runId == Or(slip.runId, made))
    && next.firstSeen == e.firstSeen && next.extensions == e.extensions
    && WithoutSlip(next.headers) == WithoutSlip(e.headers)
    && Normal(next)
  }

  /** The slip the next stop reads: after JSON the very one written, after a declared route the names
      of it; the run identifier goes with the declared form only. */
  function ReadNext(advanced: Slip, made: string): Slip {
    if advanced.form.Json? then advanced.(runId := "")
    else Slip(Plain(advanced.steps), Plain(advanced.done), Or(advanced.runId, made), StepNames)
  }

  lemma ReadNextIs(slip: Slip, now: string, made: string)
    requires slip.steps != []
    ensures var read := ReadNext(Advance(slip, now), made);
            && read.form == slip.form && |read.steps| == |slip.steps| - 1
            && Plain(read.steps) == Plain(slip.steps[1..]) && Plain(Every(read)) == Plain(Every(slip))
            && (slip.form.StepNames? ==> read.runId == Or(slip.runId, made))
  {
    var advanced := Advance(slip, now);
    var read := ReadNext(advanced, made);
    AdvanceConserves(slip, now);
  }

  /** Whatever form the slip on a message is in, it can be written on, and is read there. */
  lemma WrittenOn(e: Envelope, pipeline: string, texts: Texts, stop: Stop)
    requires Faithful(texts) && stop.freshRun != ""
    requires SlipFrom(e, pipeline, texts).Found? && SlipFrom(e, pipeline, texts).slip.steps != []
    ensures var advanced := Advance(SlipFrom(e, pipeline, texts).slip, stop.now);
            var out := Onto(advanced, Derived(e, stop), texts, stop.freshRun);
            && out.Some?
            && SlipFrom(out.value, pipeline, texts) == Found(ReadNext(advanced, stop.freshRun))
            && (out.value.route == "" ==> out.value.routePosition == 0 && out.value.routeId == "")
  {
    var slip := SlipFrom(e, pipeline, texts).slip;
    var advanced := Advance(slip, stop.now);
    AdvanceConserves(slip, stop.now);
    if slip.form.Json? {
      JsonReadsBack(advanced, Derived(e, stop), pipeline, texts, stop.freshRun);
    } else {
      DeclaredGoesOn(e, pipeline, texts);
      var names :| names != [] && NoCommas(names) && AllTrim(names, texts.space) &&
          Every(slip) == Declared(pipeline, names);
      assert Plain(Every(slip)) == Declared(pipeline, names);
      DeclaredHop(advanced, names, Derived(e, stop), pipeline, texts, stop.freshRun);
      SomeNames(Onto(advanced, Derived(e, stop), texts, stop.freshRun).value.route, texts.space);
    }
  }

  lemma SomeNames(route: string, space: char -> bool)
    ensures Trimmed(Split(route), space) != [] ==> route != ""
  {
    if route == "" {
      assert Split(route) == [""] && Strip("", space) == "" && Trimmed([""], space) == Trimmed([""][1..], space);
    }
  }

  lemma OntoKeeps(slip: Slip, e: Envelope, texts: Texts, made: string)
    requires Onto(slip, e, texts, made).Some? && e.routePosition >= 0
    ensures var out := Onto(slip, e, texts, made).value;
            && SameStanding(out, e) && out.extensions == e.extensions && out.firstSeen == e.firstSeen
            && out.routePosition >= 0
            && WithoutSlip(out.headers) == WithoutSlip(e.headers)
            && forall name :: name in out.headers ==> name == HEADER || name in e.headers
  {
  }

  lemma TravelSends(e: Envelope, pipeline: string, texts: Texts, stop: Stop)
    requires SlipFrom(e, pipeline, texts).Found? && |SlipFrom(e, pipeline, texts).slip.steps| > 1
    requires Onto(Advance(SlipFrom(e, pipeline, texts).slip, stop.now), Derived(e, stop), texts, stop.freshRun).Some?
    ensures var slip := SlipFrom(e, pipeline, texts).slip;
            Travel(e, Payload, pipeline, None, texts, stop)
            == SentTo(slip.steps[1], Onto(Advance(slip, stop.now), Derived(e, stop), texts, stop.freshRun).value)
  {
  }

  /** The message as the next stop receives it, if this one sends it on. */
  function NextStop(e: Envelope, pipeline: string, texts: Texts, stop: Stop, at: Arrival): Option<Envelope> {
    var onward := Travel(e, Payload, pipeline, None, texts, stop);
    if onward.SentTo? then Some(Arrived(onward.envelope, onward.step.routingKey, at, texts)) else None
  }

  /** A hop writes, unforced, the form it found, and the next stop reads off it the same itinerary,
      one step further on. */
  lemma OneHop(e: Envelope, pipeline: string, texts: Texts, stop: Stop, at: Arrival)
    requires Faithful(texts) && Normal(e) && stop.freshId != "" && stop.freshRun != ""
    requires SlipFrom(e, pipeline, texts).Found? && |SlipFrom(e, pipeline, texts).slip.steps| > 1
    ensures var slip, next := SlipFrom(e, pipeline, texts).slip, NextStop(e, pipeline, texts, stop, at);
            && next.Some? && Travel(e, Payload, pipeline, None, texts, stop).step == slip.steps[1]
            && SlipFrom(next.value, pipeline, texts).Found?
            && HopKeeps(e, slip, next.value, SlipFrom(next.value, pipeline, texts).slip, stop.freshRun)
            && Follows(e, next.value, stop)
  {
    var slip := SlipFrom(e, pipeline, texts).slip;
    WrittenOn(e, pipeline, texts, stop);
    TravelSends(e, pipeline, texts, stop);
    ReadNextIs(slip, stop.now, stop.freshRun);
    var out := Onto(Advance(slip, stop.now), Derived(e, stop), texts, stop.freshRun).value;
    OntoKeeps(Advance(slip, stop.now), Derived(e, stop), texts, stop.freshRun);
    DerivedKeeps(e, stop);
    WireKeepsTheSlip(out, slip.steps[1].routingKey, at, pipeline, texts);
  }

  lemma DerivedKeeps(e: Envelope, stop: Stop)
    requires Normal(e)
    ensures var d := Derived(e, stop);
            && Follows(e, d, stop) && d.firstSeen == e.firstSeen && d.extensions == e.extensions && d.routePosition == 0
            && WithoutSlip(d.headers) == WithoutSlip(e.headers)
            && (forall name :: name in d.headers ==> name.Application?) &&
                 (forall name :: name in d.extensions ==> name.Foreign?)
  {
  }

  /** What a stop does with a message: it rejects what carries no slip it can read, what its work calls
      unfixable, and what would have to go on in a form it cannot be written in; it retries what its work
      failed on; it ends the run at the last step, and before it when the work says so; and it sends
      everything else to the next step. */
  lemma TravelLeads(e: Envelope, result: Result, pipeline: string, form: Option<Form>, texts: Texts, stop: Stop)
    ensures var reading, onward := SlipFrom(e, pipeline, texts), Travel(e, result, pipeline, form, texts, stop);
            if !reading.Found? then onward == Rejected
            else
              var last := |reading.slip.steps| <= 1;
              && (result.Unfixable? ==> onward == Rejected) && (onward == Retried <==> result.Failing?)
              && (onward == Finished(false) <==> last && (result.Payload? || result.Early?))
              && (onward == Finished(true) <==> !last && result.Early?)
              && (!last && result.Payload? ==> onward == Rejected || onward.SentTo?)
              && (onward.SentTo? ==> !last && result.Payload? && onward.step == reading.slip.steps[1])
  {
  }

  /** A slip that cannot be read is not passed over for a declared route: the message is rejected. Bytes are
      read as the text they decode to. */
  lemma UnreadableSlipIsRejected(e: Envelope, result: Result, pipeline: string, form: Option<Form>, texts: Texts,
                                 stop: Stop)
    requires !NoJsonOn(e)
    ensures var raw := e.headers[HEADER];
            var text := if raw.Text? then Some(raw.s) else if raw.Raw? then Some(raw.decoded) else None;
            if text.None? || texts.loads(text.value).None? then
              Travel(e, result, pipeline, form, texts, stop) == Rejected
            else
              && SlipFrom(e, pipeline, texts) == FromText(text.value, texts)
              && SlipFrom(e, pipeline, texts).slip.form.Json?
  {
  }

  /** A stop told to write another form does, or rejects a route that has no such form: the next stop reads
      the steps that are left, as JSON or, if their names have nothing to trim, as names. */
  lemma FormIsSwitched(e: Envelope, pipeline: string, form: Form, texts: Texts, stop: Stop)
    requires Faithful(texts) && SlipFrom(e, pipeline, texts).Found?
    requires |SlipFrom(e, pipeline, texts).slip.steps| > 1
    ensures var advanced := Advance(SlipFrom(e, pipeline, texts).slip, stop.now);
            var onward := Travel(e, Payload, pipeline, Some(form), texts, stop);
            && (onward.SentTo? <==> form.Json? || NamesOf(advanced).Some?)
            && (onward.SentTo? && form.Json? ==>
                  SlipFrom(onward.envelope, pipeline, texts) == Found(advanced.(form := Json, runId := "")))
            && (onward.SentTo? && form.StepNames? && AllTrim(NamesOf(advanced).value, texts.space) ==>
                  ReadsBackAs(SlipFrom(onward.envelope, pipeline, texts), NamesOf(advanced).value, |advanced.done|,
                              Or(advanced.runId, stop.freshRun)))
  {
    var advanced := Advance(SlipFrom(e, pipeline, texts).slip, stop.now);
    if form.Json? {
      JsonReadsBack(advanced.(form := Json), Derived(e, stop), pipeline, texts, stop.freshRun);
    } else if NamesOf(advanced).Some? {
      var written := advanced.(form := StepNames, runId := Or(advanced.runId, stop.freshRun));
      assert Every(written) == Every(advanced);
      DeclaredReadsBackExactlyWhen(written, Derived(e, stop), pipeline, texts, stop.freshRun);
    }
  }

  // ---------------------------------------------------------------- a whole run

  /** The stops a message visits, given how a slip is read off it and how it gets from the n-th stop to
      the next. */
  function Visits(e: Envelope, read: Envelope -> Reading, next: (Envelope, nat) -> Option<Envelope>, n: nat,
                  fuel: nat): seq<Step>
    decreases fuel
  {
    var reading := read(e);
    if fuel == 0 || !reading.Found? || reading.slip.steps == [] then []
    else
      var onward := next(e, n);
      [reading.slip.steps[0].(completedAt := "")]
      + if onward.Some? then Visits(onward.value, read, next, n + 1, fuel - 1) else []
  }

  /** Taking a step off at each hop visits them all, in order, and then stops. */
  lemma {:induction false} VisitsInOrder(e: Envelope, read: Envelope -> Reading,
                                         next: (Envelope, nat) -> Option<Envelope>,
                                         n: nat, fuel: nat, good: Envelope -> bool)
    requires good(e) && read(e).Found? && fuel >= |read(e).slip.steps|
    requires forall e, n :: good(e) && read(e).Found? && |read(e).slip.steps| > 1 ==>
               && next(e, n).Some? && good(next(e, n).value) && read(next(e, n).value).Found?
               && |read(next(e, n).value).slip.steps| == |read(e).slip.steps| - 1
               && Plain(read(next(e, n).value).slip.steps) == Plain(read(e).slip.steps[1..])
    requires forall e, n :: read(e).Found? && |read(e).slip.steps| == 1 ==> next(e, n).None?
    ensures Visits(e, read, next, n, fuel) == Plain(read(e).slip.steps)
    decreases fuel
  {
    var steps := read(e).slip.steps;
    if |steps| > 1 {
      VisitsInOrder(next(e, n).value, read, next, n + 1, fuel - 1, good);
      assert Plain(steps) == [steps[0].(completedAt := "")] + Plain(steps[1..]);
    } else if |steps| == 1 {
      assert Plain(steps) == [steps[0].(completedAt := "")];
    }
  }

  lemma NextGoesOn(x: Envelope, pipeline: string, texts: Texts, stop: Stop, at: Arrival)
    requires Faithful(texts) && Normal(x) && stop.freshId != "" && stop.freshRun != ""
    requires SlipFrom(x, pipeline, texts).Found? && |SlipFrom(x, pipeline, texts).slip.steps| > 1
    ensures var steps, next := SlipFrom(x, pipeline, texts).slip.steps, NextStop(x, pipeline, texts, stop, at);
            && next.Some? && Normal(next.value) && SlipFrom(next.value, pipeline, texts).Found?
            && |SlipFrom(next.value, pipeline, texts).slip.steps| == |steps| - 1
            && Plain(SlipFrom(next.value, pipeline, texts).slip.steps) == Plain(steps[1..])
  {
    OneHop(x, pipeline, texts, stop, at);
  }

  lemma EveryStopGoesOn(pipeline: string, texts: Texts, stops: nat -> Stop, arrivals: nat -> Arrival,
                        read: Envelope -> Reading, next: (Envelope, nat) -> Option<Envelope>)
    requires Faithful(texts) && forall i :: stops(i).freshId != "" && stops(i).freshRun != ""
    requires forall x :: read(x) == SlipFrom(x, pipeline, texts)
    requires forall x, n: nat :: next(x, n) == NextStop(x, pipeline, texts, stops(n), arrivals(n))
    ensures forall x, n: nat :: Normal(x) && read(x).Found? && |read(x).slip.steps| > 1 ==>
              && next(x, n).Some? && Normal(next(x, n).value) && read(next(x, n).value).Found?
              && |read(next(x, n).value).slip.steps| == |read(x).slip.steps| - 1
              && Plain(read(next(x, n).value).slip.steps) == Plain(read(x).slip.steps[1..])
    ensures forall x, n: nat :: read(x).Found? && |read(x).slip.steps| == 1 ==> next(x, n).None?
  {
    forall x, n: nat | Normal(x) && read(x).Found? && |read(x).slip.steps| > 1
      ensures next(x, n).Some? && Normal(next(x, n).value) && read(next(x, n).value).Found?
      ensures |read(next(x, n).value).slip.steps| == |read(x).slip.steps| - 1
      ensures Plain(read(next(x, n).value).slip.steps) == Plain(read(x).slip.steps[1..])
    {
      NextGoesOn(x, pipeline, texts, stops(n), arrivals(n));
    }
    forall x, n: nat | read(x).Found? && |read(x).slip.steps| == 1 ensures next(x, n).None? {
    }
  }

  /** The stops of the run of a message that arrives at the first of them. */
  function Journey(e: Envelope, pipeline: string, texts: Texts, stops: nat -> Stop, arrivals: nat -> Arrival,
                   fuel: nat): seq<Step>
  {
    Visits(e, x => SlipFrom(x, pipeline, texts), (x, n: nat) => NextStop(x, pipeline, texts, stops(n), arrivals(n)),
           0, fuel)
  }

  /** A run visits the steps of its slip in order, once each, and then ends, however much further it
      would be let go. */
  lemma RunVisitsTheItinerary(e: Envelope, pipeline: string, texts: Texts, stops: nat -> Stop,
                              arrivals: nat -> Arrival, fuel: nat)
    requires Faithful(texts) && Normal(e) && SlipFrom(e, pipeline, texts).Found?
    requires forall i :: stops(i).freshId != "" && stops(i).freshRun != ""
    requires fuel >= |SlipFrom(e, pipeline, texts).slip.steps|
    ensures Journey(e, pipeline, texts, stops, arrivals, fuel) == Plain(SlipFrom(e, pipeline, texts).slip.steps)
  {
    var read := (x: Envelope) => SlipFrom(x, pipeline, texts);
    var next := (x: Envelope, n: nat) => NextStop(x, pipeline, texts, stops(n), arrivals(n));
    EveryStopGoesOn(pipeline, texts, stops, arrivals, read, next);
    VisitsInOrder(e, read, next, 0, fuel, Normal);
  }

  /** `start`: what is published to the first stop, `None` being an error. */
  function Started(slip: Slip, e: Envelope, form: Option<Form>, texts: Texts, made: string): Option<Envelope> {
    if slip.steps == [] || WrittenAs(slip, form, made).None? then None
    else Onto(WrittenAs(slip, form, made).value, e, texts, made)
  }

  /** Where a run that begins with this slip will go: the steps of the slip, on its own exchanges in the
      JSON form and on the pipeline's in the declared one. */
  function Destined(written: Slip, pipeline: string): seq<Step> {
    if written.form.Json? then Plain(written.steps)
    else if NamesOf(written).None? then []
    else Declared(pipeline, NamesOf(written).value)[|written.done|..]
  }

  /** Whether what is written reads back whole: as JSON, or as names with nothing to trim beside which
      there is no JSON. */
  predicate ComesBack(written: Slip, e: Envelope, space: char -> bool) {
    written.form.Json? || (NamesOf(written).Some? && AllTrim(NamesOf(written).value, space) && NoJsonOn(e))
  }

  lemma WrittenReads(written: Slip, e: Envelope, pipeline: string, texts: Texts, made: string)
    requires Faithful(texts) && Onto(written, e, texts, made).Some? && ComesBack(written, e, texts.space)
    ensures var out := Onto(written, e, texts, made).value;
            && SlipFrom(out, pipeline, texts).Found?
            && |SlipFrom(out, pipeline, texts).slip.steps| == |written.steps|
            && Plain(SlipFrom(out, pipeline, texts).slip.steps) == Destined(written, pipeline)
            && (written.form.StepNames? ==> out.route != "")
  {
    if written.form.Json? {
      JsonReadsBack(written, e, pipeline, texts, made);
    } else {
      var names := NamesOf(written).value;
      SplitJoins(names);
      TrimmedExactlyWhen(names, texts.space);
      SomeNames(Join(names), texts.space);
    }
  }

  /** What `start` published arrives at the first stop with the slip on it that it was given. */
  lemma StartedArrives(written: Slip, e: Envelope, first: Envelope, key: string, at: Arrival, pipeline: string,
                       texts: Texts, made: string)
    requires Faithful(texts) && Normal(e) && Onto(written, e, texts, made).Some? && ComesBack(written, e, texts.space)
    requires first == Arrived(Onto(written, e, texts, made).value, key, at, texts)
    ensures Normal(first) && SlipFrom(first, pipeline, texts).Found?
    ensures |SlipFrom(first, pipeline, texts).slip.steps| == |written.steps|
    ensures Plain(SlipFrom(first, pipeline, texts).slip.steps) == Destined(written, pipeline)
  {
    var out := Onto(written, e, texts, made).value;
    WrittenReads(written, e, pipeline, texts, made);
    OntoKeeps(written, e, texts, made);
    WireKeepsTheSlip(out, key, at, pipeline, texts);
  }

  lemma VisitsAll(first: Envelope, steps: seq<Step>, pipeline: string, texts: Texts, stops: nat -> Stop,
                  arrivals: nat -> Arrival, fuel: nat)
    requires Faithful(texts) && Normal(first) && SlipFrom(first, pipeline, texts).Found?
    requires forall i :: stops(i).freshId != "" && stops(i).freshRun != ""
    requires Plain(SlipFrom(first, pipeline, texts).slip.steps) == steps && fuel >= |steps|
    ensures Journey(first, pipeline, texts, stops, arrivals, fuel) == steps
  {
    RunVisitsTheItinerary(first, pipeline, texts, stops, arrivals, fuel);
  }

  lemma StartsAs(slip: Slip, e: Envelope, form: Option<Form>, written: Slip, texts: Texts, made: string)
    requires Started(slip, e, form, texts, made).Some? && WrittenAs(slip, form, made) == Some(written)
    ensures Onto(written, e, texts, made) == Started(slip, e, form, texts, made)
    ensures written.steps == slip.steps
  {
  }

  /** A run that `start` begins visits the steps it was given, in order and once each, and ends, provided
      that what `start` writes reads back whole. */
  lemma StartedRunVisits(slip: Slip, e: Envelope, form: Option<Form>, written: Slip, pipeline: string, texts: Texts,
                         made: string, key: string, at: Arrival, first: Envelope,
                         stops: nat -> Stop, arrivals: nat -> Arrival, fuel: nat)
    requires Faithful(texts) && Normal(e) && forall i :: stops(i).freshId != "" && stops(i).freshRun != ""
    requires Started(slip, e, form, texts, made).Some? && WrittenAs(slip, form, made) == Some(written)
    requires first == Arrived(Started(slip, e, form, texts, made).value, key, at, texts)
    requires ComesBack(written, e, texts.space) && fuel >= |slip.steps|
    ensures Journey(first, pipeline, texts, stops, arrivals, fuel) == Destined(written, pipeline)
  {
    StartsAs(slip, e, form, written, texts, made);
    StartedArrives(written, e, first, key, at, pipeline, texts, made);
    VisitsAll(first, Destined(written, pipeline), pipeline, texts, stops, arrivals, fuel);
  }
}
