/** The request parser, as far as the server relies on it, and the requests in a stream of octets. */
module RequestStream {
  import opened Messages

  datatype ParseResult = Complete(request: Request, consumed: nat) | Failed | Incomplete

  type Parser = string -> ParseResult

  /** A request that was read took something, and no more than there is. */
  ghost predicate Consumes(parse: Parser, s: string) {
    parse(s).Complete? ==> 0 < parse(s).consumed <= |s|
  }

  /** What is relied on: one request is read off the front, nothing is read from nothing, and a verdict other than
      Incomplete does not change when more octets arrive. */
  ghost predicate Reliable(parse: Parser) {
    && parse("").Incomplete?
    && (forall s {:trigger Consumes(parse, s)} :: Consumes(parse, s))
    && (forall s, more :: !parse(s).Incomplete? ==> parse(s + more) == parse(s))
  }

  datatype Parsed = Parsed(requests: seq<Request>, rest: string)

  /** All the requests at the front of a stream, read one after the other, and what is left. */
  ghost function ParseAll(parse: Parser, stream: string): Parsed
    requires Reliable(parse)
    decreases |stream|
  {
    assert Consumes(parse, stream);
    match parse(stream)
    case Complete(request, consumed) =>
      var later := ParseAll(parse, stream[consumed..]);
      Parsed([request] + later.requests, later.rest)
    case _ => Parsed([], stream)
  }

  /** Reading `requests` one after the other off the front of `stream` leaves `rest`. */
  ghost predicate ReadsAs(parse: Parser, stream: string, requests: seq<Request>, rest: string)
    requires Reliable(parse)
    decreases |requests|
  {
    assert Consumes(parse, stream);
    if requests == [] then rest == stream
    else
      && parse(stream).Complete?
      && parse(stream).request == requests[0]
      && ReadsAs(parse, stream[parse(stream).consumed..], requests[1..], rest)
  }

  lemma {:induction false} ReadsMore(parse: Parser, stream: string, requests: seq<Request>, rest: string, more: string)
    requires Reliable(parse) && ReadsAs(parse, stream, requests, rest)
    ensures ReadsAs(parse, stream + more, requests, rest + more)
    decreases |requests|
  {
    assert Consumes(parse, stream);
    if requests != [] {
      var consumed := parse(stream).consumed;
      assert parse(stream + more) == parse(stream);
      assert (stream + more)[consumed..] == stream[consumed..] + more;
      ReadsMore(parse, stream[consumed..], requests[1..], rest, more);
    }
  }

  lemma {:induction false} ReadsNext(parse: Parser, stream: string, requests: seq<Request>, rest: string)
    requires Reliable(parse) && ReadsAs(parse, stream, requests, rest) && parse(rest).Complete? && Consumes(parse, rest)
    ensures ReadsAs(parse, stream, requests + [parse(rest).request], rest[parse(rest).consumed..])
    decreases |requests|
  {
    assert Consumes(parse, stream);
    var longer := requests + [parse(rest).request];
    if requests == [] {
      assert longer[1..] == [];
    } else {
      assert longer[1..] == requests[1..] + [parse(rest).request];
      ReadsNext(parse, stream[parse(stream).consumed..], requests[1..], rest);
    }
  }

  /** When the parser waits for more, what was read is what the whole stream so far holds. */
  lemma {:induction false} ReadsAll(parse: Parser, stream: string, requests: seq<Request>, rest: string)
    requires Reliable(parse) && ReadsAs(parse, stream, requests, rest) && !parse(rest).Complete?
    ensures ParseAll(parse, stream) == Parsed(requests, rest)
    decreases |requests|
  {
    assert Consumes(parse, stream);
    if requests != [] {
      ReadsAll(parse, stream[parse(stream).consumed..], requests[1..], rest);
    }
  }

  /** What was read is a prefix of the requests in any stream that goes on from here. */
  lemma {:induction false} ReadsPrefix(parse: Parser, stream: string, requests: seq<Request>, rest: string)
    requires Reliable(parse) && ReadsAs(parse, stream, requests, rest)
    ensures requests <= ParseAll(parse, stream).requests
    decreases |requests|
  {
    assert Consumes(parse, stream);
    if requests != [] {
      ReadsPrefix(parse, stream[parse(stream).consumed..], requests[1..], rest);
    }
  }
}
