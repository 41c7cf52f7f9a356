/**
 * A JSON codec for the log that has the guarantee `Serde.Codec.RoundTrips`
 * asks of serde_json, so that the assumption the model makes of the codec
 * can be met. Its text has the shape of serde's derived serialisation of the
 * log (an array of objects, one member per field in declaration order,
 * `null` for an empty slot, each report tagged by its "class"), but it is not
 * that text: a report here is `{"class":…,"body":"<escaped string>"}` where
 * serde puts the report's own fields beside "class", and only `"` and `\`
 * are escaped.
 *
 * Encoders are written in continuation style: `EmitX(x, rest)` is the text of
 * `x` followed by `rest`, so that each parser's round trip is stated on
 * `EmitX(x, rest)` and leaves `rest` behind.
 */
module Json {
  import opened Wrappers
  import opened Gpsd
  import opened Observations
  import Serde

  // ---- literals ----

  /** Reads the literal `lit` at the front of `t`. */
  function Consume(lit: string, t: string): (r: Option<string>)
    ensures r.Some? <==> |lit| <= |t| && t[..|lit|] == lit
    ensures r.Some? ==> t == lit + r.value
  {
    if |lit| <= |t| && t[..|lit|] == lit then Some(t[|lit|..]) else None
  }

  lemma ConsumeLiteral(lit: string, rest: string)
    ensures Consume(lit, lit + rest) == Some(rest)
  {
    assert (lit + rest)[..|lit|] == lit;
    assert (lit + rest)[|lit|..] == rest;
  }

  /** A literal does not start a text that starts with another character. */
  lemma ConsumeMismatch(lit: string, t: string)
    requires lit != [] && t != [] && lit[0] != t[0]
    ensures Consume(lit, t) == None
  {
  }

  // ---- strings ----

  /** `s` with `"` and `\` escaped by a backslash, followed by `rest`. */
  function EscapeOnto(s: string, rest: string): string
    decreases |s|
  {
    if s == [] then rest
    else if s[0] == '"' || s[0] == '\\' then ['\\', s[0]] + EscapeOnto(s[1..], rest)
    else [s[0]] + EscapeOnto(s[1..], rest)
  }

  /** A JSON string literal holding `s`, followed by `rest`. */
  function EmitString(s: string, rest: string): string {
    ['"'] + EscapeOnto(s, ['"'] + rest)
  }

  /** Reads the body of a string literal, up to and including its closing quote. */
  function ParseStringBody(t: string): (r: Option<(string, string)>)
    ensures r.Some? ==> |r.value.1| < |t|
    decreases |t|
  {
    if t == [] then None
    else if t[0] == '"' then Some(([], t[1..]))
    else if t[0] == '\\' then
      if 2 <= |t| && (t[1] == '"' || t[1] == '\\') then
        match ParseStringBody(t[2..])
        case None => None
        case Some(p) => Some(([t[1]] + p.0, p.1))
      else None
    else
      match ParseStringBody(t[1..])
      case None => None
      case Some(p) => Some(([t[0]] + p.0, p.1))
  }

  function ParseString(t: string): (r: Option<(string, string)>)
    ensures r.Some? ==> |r.value.1| < |t|
  {
    if t != [] && t[0] == '"' then ParseStringBody(t[1..]) else None
  }

  lemma {:induction false} StringBodyRoundTrip(s: string, rest: string)
    ensures ParseStringBody(EscapeOnto(s, ['"'] + rest)) == Some((s, rest))
    decreases |s|
  {
    var t := EscapeOnto(s, ['"'] + rest);
    if s == [] {
      assert t == ['"'] + rest;
      assert t[1..] == rest;
    } else {
      StringBodyRoundTrip(s[1..], rest);
      var tail := EscapeOnto(s[1..], ['"'] + rest);
      if s[0] == '"' || s[0] == '\\' {
        assert t == ['\\', s[0]] + tail;
        assert t[2..] == tail;
      } else {
        assert t == [s[0]] + tail;
        assert t[1..] == tail;
      }
      assert [s[0]] + s[1..] == s;
    }
  }

  lemma StringRoundTrip(s: string, rest: string)
    ensures ParseString(EmitString(s, rest)) == Some((s, rest))
  {
    var t := EmitString(s, rest);
    assert t[1..] == EscapeOnto(s, ['"'] + rest);
    StringBodyRoundTrip(s, rest);
  }

  // ---- reports ----

  /** The "class" a report is tagged with. */
  function ClassName(m: ResponseData): string {
    match m
    case Device(_) => "DEVICE"
    case Tpv(_) => "TPV"
    case Sky(_) => "SKY"
    case Pps(_) => "PPS"
    case Gst(_) => "GST"
  }

  /** The report a class name and a body stand for; `None` for an unknown class. */
  function ReportOf(name: string, body: Fields): (r: Option<ResponseData>)
    ensures r.Some? ==> ClassName(r.value) == name && r.value.body == body
  {
    if name == "DEVICE" then Some(Device(body))
    else if name == "TPV" then Some(Tpv(body))
    else if name == "SKY" then Some(Sky(body))
    else if name == "PPS" then Some(Pps(body))
    else if name == "GST" then Some(Gst(body))
    else None
  }

  function EmitReport(m: ResponseData, rest: string): string {
    "{\"class\":" + EmitString(ClassName(m), ",\"body\":" + EmitString(m.body, "}" + rest))
  }

  function ParseReport(t: string): (r: Option<(ResponseData, string)>)
    ensures r.Some? ==> |r.value.1| < |t|
  {
    var t1 :- Consume("{\"class\":", t);
    var name :- ParseString(t1);
    var t2 :- Consume(",\"body\":", name.1);
    var body :- ParseString(t2);
    var t3 :- Consume("}", body.1);
    var m :- ReportOf(name.0, body.0);
    Some((m, t3))
  }

  lemma ReportRoundTrip(m: ResponseData, rest: string)
    ensures ParseReport(EmitReport(m, rest)) == Some((m, rest))
  {
    var s3 := "}" + rest;
    var s2 := EmitString(m.body, s3);
    var s1 := ",\"body\":" + s2;
    var s0 := EmitString(ClassName(m), s1);
    ConsumeLiteral("{\"class\":", s0);
    StringRoundTrip(ClassName(m), s1);
    ConsumeLiteral(",\"body\":", s2);
    StringRoundTrip(m.body, s3);
    ConsumeLiteral("}", rest);
    assert ReportOf(ClassName(m), m.body) == Some(m) by {
      match m
      case Device(_) =>
      case Tpv(_) =>
      case Sky(_) =>
      case Pps(_) =>
      case Gst(_) =>
    }
  }

  // ---- slots ----

  function EmitSlot(slot: Option<ResponseData>, rest: string): string {
    match slot
    case None => "null" + rest
    case Some(m) => EmitReport(m, rest)
  }

  function ParseSlot(t: string): (r: Option<(Option<ResponseData>, string)>)
    ensures r.Some? ==> |r.value.1| < |t|
  {
    match Consume("null", t)
    case Some(rest) => Some((None, rest))
    case None =>
      var p :- ParseReport(t);
      Some((Some(p.0), p.1))
  }

  lemma SlotRoundTrip(slot: Option<ResponseData>, rest: string)
    ensures ParseSlot(EmitSlot(slot, rest)) == Some((slot, rest))
  {
    match slot
    case None =>
      ConsumeLiteral("null", rest);
    case Some(m) =>
      ConsumeMismatch("null", EmitReport(m, rest));
      ReportRoundTrip(m, rest);
  }

  // ---- observations ----

  /** The member names of the five slots, in declaration order, each with the comma before it. */
  const SlotKeys: seq<string> := [",\"device\":", ",\"tpv\":", ",\"sky\":", ",\"pps\":", ",\"gst\":"]

  /** The five slots of an observation, in declaration order. */
  function SlotsOf(o: Observation): (slots: seq<Option<ResponseData>>)
    ensures |slots| == |SlotKeys|
  {
    [o.device, o.tpv, o.sky, o.pps, o.gst]
  }

  /** Each slot after its key, followed by `rest`. */
  function EmitSlots(keys: seq<string>, slots: seq<Option<ResponseData>>, rest: string): string
    requires |keys| == |slots|
    decreases |keys|
  {
    if keys == [] then rest
    else keys[0] + EmitSlot(slots[0], EmitSlots(keys[1..], slots[1..], rest))
  }

  /** Reads one slot per key. */
  function ParseSlots(keys: seq<string>, t: string): (r: Option<(seq<Option<ResponseData>>, string)>)
    ensures r.Some? ==> |r.value.0| == |keys| && |r.value.1| <= |t|
    decreases |keys|
  {
    if keys == [] then Some(([], t))
    else
      var t1 :- Consume(keys[0], t);
      var slot :- ParseSlot(t1);
      var more :- ParseSlots(keys[1..], slot.1);
      Some(([slot.0] + more.0, more.1))
  }

  lemma {:induction false} SlotsRoundTrip(keys: seq<string>, slots: seq<Option<ResponseData>>, rest: string)
    requires |keys| == |slots|
    ensures ParseSlots(keys, EmitSlots(keys, slots, rest)) == Some((slots, rest))
    decreases |keys|
  {
    if keys != [] {
      var more := EmitSlots(keys[1..], slots[1..], rest);
      ConsumeLiteral(keys[0], EmitSlot(slots[0], more));
      SlotRoundTrip(slots[0], more);
      SlotsRoundTrip(keys[1..], slots[1..], rest);
      assert [slots[0]] + slots[1..] == slots;
    }
  }

  function EmitObservation(o: Observation, rest: string): string {
    "{\"timestamp\":" + EmitString(o.timestamp, EmitSlots(SlotKeys, SlotsOf(o), "}" + rest))
  }

  function ParseObservation(t: string): (r: Option<(Observation, string)>)
    ensures r.Some? ==> |r.value.1| < |t|
  {
    var t0 :- Consume("{\"timestamp\":", t);
    var ts :- ParseString(t0);
    var slots :- ParseSlots(SlotKeys, ts.1);
    var t1 :- Consume("}", slots.1);
    var s := slots.0;
    Some((Observation(ts.0, s[0], s[1], s[2], s[3], s[4]), t1))
  }

  lemma ObservationRoundTrip(o: Observation, rest: string)
    ensures ParseObservation(EmitObservation(o, rest)) == Some((o, rest))
  {
    var slots := EmitSlots(SlotKeys, SlotsOf(o), "}" + rest);
    ConsumeLiteral("{\"timestamp\":", EmitString(o.timestamp, slots));
    StringRoundTrip(o.timestamp, slots);
    SlotsRoundTrip(SlotKeys, SlotsOf(o), "}" + rest);
    ConsumeLiteral("}", rest);
  }

  /** Parsing an observation consumes text. */
  lemma ObservationParserProgresses()
    ensures Progresses(ParseObservation)
  {
  }

  /** Parsing an observation's text gives it back. */
  lemma ObservationParserInverts()
    ensures Inverts(EmitObservation, ParseObservation)
  {
    forall o: Observation, rest: string
      ensures ParseObservation(EmitObservation(o, rest)) == Some((o, rest))
    {
      ObservationRoundTrip(o, rest);
    }
  }

  /** An observation's text starts with an opening brace. */
  lemma ObservationOpensWithBrace()
    ensures OpensWithBrace(EmitObservation)
  {
  }

  // ---- arrays ----

  /** `parse` reads at least one character whenever it succeeds. */
  ghost predicate Progresses<T>(parse: string -> Option<(T, string)>) {
    forall t :: parse(t).Some? ==> |parse(t).value.1| < |t|
  }

  /** `parse` reads back whatever `emit` writes, leaving what follows. */
  ghost predicate Inverts<T(!new)>(emit: (T, string) -> string, parse: string -> Option<(T, string)>) {
    forall x, rest :: parse(emit(x, rest)) == Some((x, rest))
  }

  /** What `emit` writes is a JSON object. */
  ghost predicate OpensWithBrace<T(!new)>(emit: (T, string) -> string) {
    forall x, rest :: emit(x, rest) != [] && emit(x, rest)[0] == '{'
  }

  /** The elements after the first, each preceded by a comma, followed by `rest`. */
  function EmitTail<T>(emit: (T, string) -> string, xs: seq<T>, rest: string): string
    decreases |xs|
  {
    if xs == [] then rest
    else "," + emit(xs[0], EmitTail(emit, xs[1..], rest))
  }

  /** A JSON array of the elements, followed by `rest`. */
  function EmitArray<T>(emit: (T, string) -> string, xs: seq<T>, rest: string): string {
    if xs == [] then "[]" + rest
    else "[" + emit(xs[0], EmitTail(emit, xs[1..], "]" + rest))
  }

  /** Reads the rest of an array: further elements, then the closing bracket. */
  function ParseTail<T>(parse: string -> Option<(T, string)>, t: string): (r: Option<(seq<T>, string)>)
    requires Progresses(parse)
    ensures r.Some? ==> |r.value.1| < |t|
    decreases |t|
  {
    match Consume(",", t)
    case Some(t1) =>
      var x :- parse(t1);
      var more :- ParseTail(parse, x.1);
      Some(([x.0] + more.0, more.1))
    case None =>
      var rest :- Consume("]", t);
      Some(([], rest))
  }

  /** Reads an array. */
  function ParseArray<T>(parse: string -> Option<(T, string)>, t: string): (r: Option<(seq<T>, string)>)
    requires Progresses(parse)
    ensures r.Some? ==> |r.value.1| < |t|
  {
    var t1 :- Consume("[", t);
    match Consume("]", t1)
    case Some(rest) => Some(([], rest))
    case None =>
      var x :- parse(t1);
      var more :- ParseTail(parse, x.1);
      Some(([x.0] + more.0, more.1))
  }

  lemma {:induction false} TailRoundTrip<T(!new)>(emit: (T, string) -> string, parse: string -> Option<(T, string)>,
                                            xs: seq<T>, rest: string)
    requires Progresses(parse) && Inverts(emit, parse)
    ensures ParseTail(parse, EmitTail(emit, xs, "]" + rest)) == Some((xs, rest))
    decreases |xs|
  {
    if xs == [] {
      ConsumeMismatch(",", "]" + rest);
      ConsumeLiteral("]", rest);
    } else {
      var tail := EmitTail(emit, xs[1..], "]" + rest);
      ConsumeLiteral(",", emit(xs[0], tail));
      assert parse(emit(xs[0], tail)) == Some((xs[0], tail));
      TailRoundTrip(emit, parse, xs[1..], rest);
      assert [xs[0]] + xs[1..] == xs;
    }
  }

  lemma ArrayRoundTrip<T(!new)>(emit: (T, string) -> string, parse: string -> Option<(T, string)>,
                          xs: seq<T>, rest: string)
    requires Progresses(parse) && Inverts(emit, parse) && OpensWithBrace(emit)
    ensures ParseArray(parse, EmitArray(emit, xs, rest)) == Some((xs, rest))
  {
    if xs == [] {
      assert "[]" + rest == "[" + ("]" + rest);
      ConsumeLiteral("[", "]" + rest);
      ConsumeLiteral("]", rest);
    } else {
      var tail := EmitTail(emit, xs[1..], "]" + rest);
      var body := emit(xs[0], tail);
      ConsumeLiteral("[", body);
      ConsumeMismatch("]", body);
      assert parse(body) == Some((xs[0], tail));
      TailRoundTrip(emit, parse, xs[1..], rest);
      assert [xs[0]] + xs[1..] == xs;
    }
  }

  // ---- the log ----

  /** `to_json`: the log as a JSON array of observations. */
  function Encode(log: seq<Observation>): (text: string)
    ensures text != [] && text[0] == '['
  {
    EmitArray(EmitObservation, log, [])
  }

  /** `serde_json::from_str`: the log a text encodes, with nothing after it. */
  function Decode(text: string): (r: Result<seq<Observation>, Serde.DecodeError>)
    ensures text == [] || text[0] != '[' ==> r.Err?
  {
    ObservationParserProgresses();
    match ParseArray(ParseObservation, text)
    case Some(p) => if p.1 == [] then Ok(p.0) else Err(Serde.Syntax)
    case None => Err(Serde.Syntax)
  }

  /** Decoding an encoding gives the log back. */
  lemma EncodeRoundTrip(log: seq<Observation>)
    ensures Decode(Encode(log)) == Ok(log)
    ensures Encode(log) != []
  {
    ObservationParserProgresses();
    ObservationParserInverts();
    ObservationOpensWithBrace();
    ArrayRoundTrip(EmitObservation, ParseObservation, log, []);
    assert EmitArray(EmitObservation, log, []) + [] == EmitArray(EmitObservation, log, []);
  }

  /** Distinct logs have distinct texts. */
  lemma EncodeInjective(a: seq<Observation>, b: seq<Observation>)
    requires Encode(a) == Encode(b)
    ensures a == b
  {
    EncodeRoundTrip(a);
    EncodeRoundTrip(b);
  }

  /** The empty text is not an encoding. */
  lemma EmptyTextDoesNotDecode()
    ensures Decode([]).Err?
  {
  }

  /** This module's encoder and decoder as a codec. */
  function Codec(): Serde.Codec {
    Serde.Codec(Encode, Decode)
  }

  /** The codec has the guarantee the logger relies on. */
  lemma CodecRoundTrips()
    ensures Codec().RoundTrips()
  {
    forall log: seq<Observation>
      ensures Codec().decode(Codec().encode(log)) == Ok(log) && Codec().encode(log) != []
    {
      EncodeRoundTrip(log);
    }
  }
}
