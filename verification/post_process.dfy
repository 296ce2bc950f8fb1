/** Turning the assistant's reply into the handler's `response`: the schema
    bypass, the two paragraph-trimming heuristics, and the output-format
    coercion. */
module PostProcess {
  import opened Wrappers
  import opened Text
  import opened Chat
  import opened RequestBuilder

  /** `trim`: with more than two paragraphs, keep all but the first and the
      last two; if what is kept joins to the empty string, fall back to the
      paragraphs joined again, which is the text itself. The result is the
      text unchanged or a stretch of it lying strictly between the first
      paragraph and the last two. */
  function Trim(s: string): (r: string)
    ensures var ps := Split(s, Paragraph);
      && (|ps| <= 3 ==> r == s)
      && (|ps| >= 4 && Join(ps[1..|ps| - 2], Paragraph) == "" ==> r == s)
      && (|ps| >= 4 && Join(ps[1..|ps| - 2], Paragraph) != "" ==>
            s == ps[0] + Paragraph + r + Paragraph + Join(ps[|ps| - 2..], Paragraph))
    ensures |r| <= |s|
  {
    var ps := Split(s, Paragraph);
    JoinSplit(s, Paragraph);
    if |ps| > 2 then
      var kept := Join(ps[1..|ps| - 2], Paragraph);
      if kept == "" then Join(ps, Paragraph)
      else
        TrimDecomposition(ps, Paragraph);
        kept
    else s
  }

  /** With at least four paragraphs, the join of all of them is the first,
      the middle ones and the last two, separated by paragraph breaks. */
  lemma TrimDecomposition(ps: seq<string>, sep: string)
    requires |ps| >= 4
    ensures Join(ps, sep)
            == ps[0] + sep + Join(ps[1..|ps| - 2], sep) + sep + Join(ps[|ps| - 2..], sep)
  {
    var mid := ps[1..|ps| - 2];
    var tail := ps[|ps| - 2..];
    assert ps[1..] == mid + tail;
    JoinConcat(mid, tail, sep);
  }

  /** `trimFront`: with more than two paragraphs, drop the first one. The
      result is exactly the text after the first paragraph break, and its
      paragraphs are the original ones but the first. */
  function TrimFront(s: string): (r: string)
    ensures var ps := Split(s, Paragraph);
      && (|ps| <= 2 ==> r == s)
      && (|ps| > 2 ==>
            && IndexOf(s, Paragraph).Some?
            && r == s[IndexOf(s, Paragraph).value + |Paragraph|..]
            && s == ps[0] + Paragraph + r
            && Split(r, Paragraph) == ps[1..])
  {
    var ps := Split(s, Paragraph);
    if |ps| > 2 then
      var i := IndexOf(s, Paragraph).value;
      var rest := s[i + |Paragraph|..];
      assert ps[1..] == Split(rest, Paragraph);
      JoinSplit(rest, Paragraph);
      assert s[i..i + |Paragraph|] == Paragraph;
      assert s == s[..i] + Paragraph + rest;
      Join(ps[1..], Paragraph)
    else s
  }

  /** A text of one character, a paragraph break and more has its first
      break at index 1. */
  lemma FirstBreakAfterOneChar(s: string)
    requires |s| >= 3 && s[0] != '\n' && s[1] == '\n' && s[2] == '\n'
    ensures IndexOf(s, Paragraph) == Some(1)
    ensures Split(s, Paragraph) == [[s[0]]] + Split(s[3..], Paragraph)
  {
    assert s[..1] == [s[0]];
    assert s[..2] != Paragraph by { assert s[..2][0] == s[0]; }
    assert s[1..][..2] == Paragraph;
  }

  lemma TrimExample()
    ensures Trim("A\n\nB\n\nC\n\nD") == "B"
  {
    var s := "A\n\nB\n\nC\n\nD";
    FirstBreakAfterOneChar(s);
    FirstBreakAfterOneChar(s[3..]);
    FirstBreakAfterOneChar(s[6..]);
    assert IndexOf(s[9..], Paragraph) == None;
    assert s[6..][3..] == s[9..] && s[3..][3..] == s[6..];
    assert Split(s[9..], Paragraph) == ["D"];
    assert Split(s[6..], Paragraph) == ["C", "D"];
    assert Split(s[3..], Paragraph) == ["B", "C", "D"];
    assert Split(s, Paragraph) == ["A", "B", "C", "D"];
  }

  lemma TrimFrontExample()
    ensures TrimFront("A\n\nB\n\nC") == "B\n\nC"
  {
    var s := "A\n\nB\n\nC";
    FirstBreakAfterOneChar(s);
    FirstBreakAfterOneChar(s[3..]);
    assert IndexOf(s[6..], Paragraph) == None;
    assert s[3..][3..] == s[6..];
    assert Split(s, Paragraph) == ["A", "B", "C"];
    assert s[3..] == "B\n\nC";
  }

  /** The error JavaScript raises when a property of null is read. */
  function NullAccess(property: string): Error {
    Error("TypeError", "Cannot read properties of null (reading '" + property + "')", None)
  }

  /** The error `JSON.parse` raises on malformed input. */
  const MalformedJson: Error := Error("SyntaxError", "Unexpected token in JSON", None)

  /** The trimming step on the reply content. `trim` takes precedence over
      `trimFront`; either one on a null content fails on `split`. */
  function Shape(state: State, content: Option<string>): (r: Result<Option<string>, Error>)
    ensures r.Failure? <==> (state.trim || state.trimFront) && content.None?
    ensures state.trim && content.Some? ==> r == Success(Some(Trim(content.value)))
    ensures !state.trim && state.trimFront && content.Some? ==> r == Success(Some(TrimFront(content.value)))
    ensures !state.trim && !state.trimFront ==> r == Success(content)
  {
    if state.trim then
      match content
      case None => Failure(NullAccess("split"))
      case Some(text) => Success(Some(Trim(text)))
    else if state.trimFront then
      match content
      case None => Failure(NullAccess("split"))
      case Some(text) => Success(Some(TrimFront(text)))
    else Success(content)
  }

  /** The `switch` on the lowercased output format. `json` parses the text
      (a null text is read as the string "null") and fails exactly when the
      parse fails; `number` always succeeds, as `Number()` never throws;
      anything else returns the text, failing only on null. */
  function Coerce(state: State, text: Option<string>, parse: string -> Option<Json>): (r: Result<Output, Error>)
    ensures FormatIs(state, "json") ==>
      match parse(text.GetOr("null"))
      case None => r.Failure?
      case Some(j) => r == Success(Parsed(j))
    ensures FormatIs(state, "number") ==> r == Success(Numeric(text))
    ensures !FormatIs(state, "json") && !FormatIs(state, "number") ==>
      (r.Success? <==> text.Some?) && (text.Some? ==> r == Success(Text(text.value)))
  {
    if FormatIs(state, "json") then
      match parse(text.GetOr("null"))
      case None => Failure(MalformedJson)
      case Some(j) => Success(Parsed(j))
    else if FormatIs(state, "number") then Success(Numeric(text))
    else
      match text
      case None => Failure(NullAccess("toString"))
      case Some(t) => Success(Text(t))
  }

  /** The handler's work on a successful reply, before any error is
      classified. With a schema the result is the parsed function-call
      arguments and nothing else is consulted; without one the content is
      shaped and then coerced. */
  function Respond(state: State, reply: Message, parse: string -> Option<Json>): (r: Result<Output, Error>)
    ensures SchemaGiven(state) ==>
      (r.Success? <==> reply.functionCall.Some? && parse(reply.functionCall.value.arguments).Some?)
    ensures SchemaGiven(state) && r.Success? ==> r.value == Parsed(parse(reply.functionCall.value.arguments).value)
    ensures !SchemaGiven(state) && Shape(state, reply.content).Failure? ==>
      r == Failure(Shape(state, reply.content).error)
    ensures !SchemaGiven(state) && Shape(state, reply.content).Success? ==>
      r == Coerce(state, Shape(state, reply.content).value, parse)
  {
    if SchemaGiven(state) then
      match reply.functionCall
      case None => Failure(NullAccess("arguments"))
      case Some(call) =>
        match parse(call.arguments)
        case None => Failure(MalformedJson)
        case Some(j) => Success(Parsed(j))
    else
      var shaped :- Shape(state, reply.content);
      Coerce(state, shaped, parse)
  }

  /** The schema bypass: with a schema, the trimming flags and the output
      format have no effect on the result. */
  lemma SchemaBypass(state: State, reply: Message, parse: string -> Option<Json>,
                     trim: bool, trimFront: bool, outputFormat: Option<string>)
    requires SchemaGiven(state)
    ensures Respond(state.(trim := trim, trimFront := trimFront, outputFormat := outputFormat), reply, parse)
            == Respond(state, reply, parse)
  {
  }

  /** `trim` takes precedence: once it is set, `trimFront` is ignored. */
  lemma TrimTakesPrecedence(state: State, reply: Message, parse: string -> Option<Json>, trimFront: bool)
    requires state.trim
    ensures Respond(state.(trimFront := trimFront), reply, parse) == Respond(state, reply, parse)
  {
  }

  /** With no schema, no trimming and no recognised format, a text reply is
      returned as it is. */
  lemma PlainTextPassesThrough(state: State, reply: Message, parse: string -> Option<Json>)
    requires !SchemaGiven(state) && !state.trim && !state.trimFront
    requires !FormatIs(state, "json") && !FormatIs(state, "number")
    requires reply.content.Some?
    ensures Respond(state, reply, parse) == Success(Text(reply.content.value))
  {
  }
}
