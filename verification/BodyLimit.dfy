/**
 * The route's own JSON body reader: checks before reading, then an event machine over the request and, for
 * compressed bodies, the decoder. `next` must be called exactly once whatever the events.
 */
module BodyLimit {
  import opened Base

  newtype Byte = x: int | 0 <= x < 256

  datatype Encoding = Identity | Gzip | Deflate | Brotli

  datatype Charset = Utf8 | Utf16le

  /** The parsed request headers; media type, charset and encoding are trimmed and in lower case. */
  datatype Headers = Headers(json: bool, charset: Option<string>, encoding: Option<string>, declared: Option<real>)

  /** How `next` is called: without an error, with a client error, or with the error event's own error. */
  datatype NextCall<E> = Proceed | ClientError(status: int) | Upstream(error: E)

  /** Library behaviour: decoding bytes to text, and parsing text. `B` is the type of a parsed body. */
  datatype Codec<!B> = Codec(text: (seq<Byte>, Charset) -> string, parse: string -> Option<B>, empty: B)

  datatype Event<E> =
    | Data(chunk: seq<Byte>)
    | End
    | Error(error: Option<E>)
    | Aborted
    | Close
    | Decoded(chunk: seq<Byte>)   // the three decoder events occur for compressed bodies only
    | DecoderEnd
    | DecoderError

  // ---------------------------------------------------------------- before reading

  function ResolveCharset(charset: Option<string>): Option<Charset> {
    if charset.None? || charset.value == "utf-8" || charset.value == "utf8" then Some(Utf8)
    else if charset.value == "utf-16le" || charset.value == "utf16le" then Some(Utf16le)
    else None
  }

  function ResolveEncoding(encoding: Option<string>): Option<Encoding> {
    if encoding.None? || encoding.value == "" || encoding.value == "identity" then Some(Identity)
    else if encoding.value == "gzip" then Some(Gzip)
    else if encoding.value == "deflate" then Some(Deflate)
    else if encoding.value == "br" then Some(Brotli)
    else None
  }

  datatype Plan<E> = Answered(call: NextCall<E>) | Read(encoding: Encoding, charset: Charset)

  function Preflight<E>(h: Headers, alreadyParsed: bool, limit: nat): Plan<E> {
    if !h.json || alreadyParsed then Answered(Proceed)
    else if ResolveCharset(h.charset).None? then Answered(ClientError(415))
    else if ResolveEncoding(h.encoding).None? then Answered(ClientError(415))
    else if ResolveEncoding(h.encoding).value.Identity? && h.declared.Some? && h.declared.value > limit as real
      then Answered(ClientError(413))
    else Read(ResolveEncoding(h.encoding).value, ResolveCharset(h.charset).value)
  }

  /** A body is read exactly when it is unparsed JSON in a known charset and encoding, not declared too large unless compressed. */
  lemma ReadsIff<E>(h: Headers, alreadyParsed: bool, limit: nat)
    ensures Preflight<E>(h, alreadyParsed, limit).Read? <==>
      && h.json && !alreadyParsed
      && (h.charset.Some? ==> h.charset.value in {"utf-8", "utf8", "utf-16le", "utf16le"})
      && (h.encoding.Some? ==> h.encoding.value in {"", "identity", "gzip", "deflate", "br"})
      && (h.declared.Some? && h.declared.value > limit as real ==>
            h.encoding.Some? && h.encoding.value in {"gzip", "deflate", "br"})
    ensures var p := Preflight<E>(h, alreadyParsed, limit);
      && (p == Answered(Proceed) <==> !h.json || alreadyParsed)
      && (p == Answered(ClientError(415)) <==>
            h.json && !alreadyParsed
            && ((h.charset.Some? && h.charset.value !in {"utf-8", "utf8", "utf-16le", "utf16le"})
                || (h.encoding.Some? && h.encoding.value !in {"", "identity", "gzip", "deflate", "br"})))
      && (p.Answered? ==> p.call.Proceed? || p.call == ClientError(413) || p.call == ClientError(415))
      && (p.Read? ==>
            && (p.encoding.Gzip? <==> h.encoding == Some("gzip")) && (p.encoding.Deflate? <==> h.encoding == Some("deflate"))
            && (p.encoding.Brotli? <==> h.encoding == Some("br"))
            && (p.charset.Utf16le? <==> h.charset.Some? && h.charset.value in {"utf-16le", "utf16le"}))
  {
  }

  // ---------------------------------------------------------------- the machine

  /** `calls` are the calls of `next` so far, `fed` the chunks written to the decoder. */
  datatype State<E, B> = State(chunks: seq<seq<Byte>>, size: nat, settled: bool, reqEnded: bool, body: Option<B>,
                               calls: seq<NextCall<E>>, fed: seq<seq<Byte>>)

  datatype Setup<!B> = Setup(limit: nat, encoding: Encoding, charset: Charset, codec: Codec<B>)

  function Initial<E, B>(): State<E, B> {
    State([], 0, false, false, None, [], [])
  }

  function Settle<E, B>(s: State<E, B>, call: NextCall<E>): State<E, B> {
    if s.settled then s else s.(settled := true, calls := s.calls + [call])
  }

  function OnDecoded<E, B>(s: State<E, B>, chunk: seq<Byte>, limit: nat): State<E, B> {
    if s.settled then s
    else if s.size + |chunk| > limit then Settle(s.(size := s.size + |chunk|, chunks := []), ClientError(413))
    else s.(size := s.size + |chunk|, chunks := s.chunks + [chunk])
  }

  function Finish<E, B>(s: State<E, B>, u: Setup<B>): State<E, B> {
    if s.settled then s
    else
      var raw := u.codec.text(Flatten(s.chunks), u.charset);
      if raw == "" then Settle(s.(body := Some(u.codec.empty)), Proceed)
      else if u.codec.parse(raw).Some? then Settle(s.(body := u.codec.parse(raw)), Proceed)
      else Settle(s, ClientError(400))
  }

  function Step<E, B>(s: State<E, B>, e: Event<E>, u: Setup<B>): State<E, B> {
    match e
    case Data(chunk) =>
      if s.settled then s
      else if u.encoding.Identity? then OnDecoded(s, chunk, u.limit)
      else s.(fed := s.fed + [chunk])
    case End =>
      var s' := s.(reqEnded := true);
      if s.settled || !u.encoding.Identity? then s' else Finish(s', u)
    case Error(error) => Settle(s, if error.Some? then Upstream(error.value) else Proceed)
    case Aborted => Settle(s, ClientError(400))
    case Close => if s.settled || s.reqEnded then s else Settle(s, ClientError(400))
    case Decoded(chunk) => if u.encoding.Identity? then s else OnDecoded(s, chunk, u.limit)
    case DecoderEnd => if u.encoding.Identity? then s else Finish(s, u)
    case DecoderError => if u.encoding.Identity? then s else Settle(s, ClientError(400))
  }

  function Run<E, B>(es: seq<Event<E>>, u: Setup<B>): State<E, B> {
    if es == [] then Initial() else Step(Run(es[..|es| - 1], u), Last(es), u)
  }

  // ---------------------------------------------------------------- what the events amount to

  /** The decoded bytes an event delivers. */
  function Delivers<E>(e: Event<E>, encoding: Encoding): seq<Byte> {
    match e
    case Data(chunk) => if encoding.Identity? then chunk else []
    case Decoded(chunk) => if encoding.Identity? then [] else chunk
    case _ => []
  }

  function Received<E>(es: seq<Event<E>>, encoding: Encoding): seq<Byte> {
    if es == [] then [] else Received(es[..|es| - 1], encoding) + Delivers(Last(es), encoding)
  }

  /** The chunks handed to the decoder. */
  function Written<E>(es: seq<Event<E>>, encoding: Encoding): seq<seq<Byte>> {
    if es == [] then []
    else Written(es[..|es| - 1], encoding) + (if Last(es).Data? && !encoding.Identity? then [Last(es).chunk] else [])
  }

  predicate RequestEnded<E>(es: seq<Event<E>>) {
    exists i :: 0 <= i < |es| && es[i].End?
  }

  predicate Completes<E>(e: Event<E>, encoding: Encoding) {
    if encoding.Identity? then e.End? else e.DecoderEnd?
  }

  /**
   * The answer an event calls for after the events `before`, none of which called for one: nothing, or the call of
   * `next` and the body set for it.
   */
  datatype Verdict<E, B> = Silent | Answer(call: NextCall<E>, body: Option<B>)

  function Judge<E, B>(before: seq<Event<E>>, e: Event<E>, u: Setup<B>): Verdict<E, B> {
    if Completes(e, u.encoding) then
      var raw := u.codec.text(Received(before, u.encoding), u.charset);
      if raw == "" then Answer(Proceed, Some(u.codec.empty))
      else if u.codec.parse(raw).Some? then Answer(Proceed, u.codec.parse(raw))
      else Answer(ClientError(400), None)
    else if |Received(before, u.encoding) + Delivers(e, u.encoding)| > u.limit then Answer(ClientError(413), None)
    else match e
      case Error(error) => Answer(if error.Some? then Upstream(error.value) else Proceed, None)
      case Aborted => Answer(ClientError(400), None)
      case Close => if RequestEnded(before) then Silent else Answer(ClientError(400), None)
      case DecoderError => if u.encoding.Identity? then Silent else Answer(ClientError(400), None)
      case _ => Silent
  }

  ghost predicate Waiting<E, B>(s: State<E, B>, es: seq<Event<E>>, u: Setup<B>) {
    && !s.settled && s.calls == [] && s.body.None?
    && Flatten(s.chunks) == Received(es, u.encoding) && s.size == |Received(es, u.encoding)| <= u.limit
    && s.fed == Written(es, u.encoding)
    && (s.reqEnded <==> RequestEnded(es))
  }

  lemma EndSeen<E>(es: seq<Event<E>>, e: Event<E>)
    ensures RequestEnded(es + [e]) <==> RequestEnded(es) || e.End?
  {
    var all := es + [e];
    if i :| 0 <= i < |es| && es[i].End? { assert all[i].End?; }
    if e.End? { assert all[|es|].End?; }
    if i :| 0 <= i < |all| && all[i].End? { assert i < |es| ==> es[i].End?; }
  }

  /** While nothing has called for an answer, exactly the delivered bytes are buffered and `next` has not been called. */
  lemma WaitingStep<E, B>(es: seq<Event<E>>, e: Event<E>, u: Setup<B>)
    requires Waiting(Run(es, u), es, u)
    ensures var s, v := Run(es + [e], u), Judge(es, e, u);
      && (v.Silent? ==> Waiting(s, es + [e], u))
      && (v.Answer? ==> s.settled && s.calls == [v.call] && s.body == v.body)
  {
    assert Run(es + [e], u) == Step(Run(es, u), e, u) by { assert (es + [e])[..|es|] == es && Last(es + [e]) == e; }
    StepFromWaiting(es, e, u, Run(es, u));
  }

  lemma StepFromWaiting<E, B>(es: seq<Event<E>>, e: Event<E>, u: Setup<B>, s: State<E, B>)
    requires Waiting(s, es, u)
    ensures var s', v := Step(s, e, u), Judge(es, e, u);
      && (v.Silent? ==> Waiting(s', es + [e], u))
      && (v.Answer? ==> s'.settled && s'.calls == [v.call] && s'.body == v.body)
  {
    EndSeen(es, e);
    if e.Data? || e.Decoded? { FlattenSnoc(s.chunks, e.chunk); }
    else { assert Received(es + [e], u.encoding) == Received(es, u.encoding) + []; }
  }

  /** Once `next` has been called nothing changes any more, except that the end of the request is noted. */
  lemma SettledStays<E, B>(es: seq<Event<E>>, e: Event<E>, u: Setup<B>)
    requires Run(es, u).settled
    ensures var s, s' := Run(es, u), Run(es + [e], u);
      s'.settled && s'.calls == s.calls && s'.body == s.body && s'.chunks == s.chunks && s'.size == s.size && s'.fed == s.fed
  {
    assert (es + [e])[..|es|] == es && Last(es + [e]) == e;
  }

  /** No event so far has called for an answer. */
  ghost predicate AllSilent<E, B>(es: seq<Event<E>>, n: nat, u: Setup<B>)
    requires n <= |es|
  {
    forall i :: 0 <= i < n ==> Judge(es[..i], es[i], u).Silent?
  }

  /** Event number `k` is the first that calls for an answer. */
  ghost predicate FirstAnswer<E, B>(es: seq<Event<E>>, k: nat, u: Setup<B>) {
    k < |es| && Judge(es[..k], es[k], u).Answer? && AllSilent(es, k, u)
  }

  /** `next` has been called once, by event number `k`, with the answer and the body that event calls for. */
  ghost predicate AnsweredBy<E, B>(s: State<E, B>, es: seq<Event<E>>, k: nat, u: Setup<B>) {
    && s.settled && FirstAnswer(es, k, u)
    && s.calls == [Judge(es[..k], es[k], u).call] && s.body == Judge(es[..k], es[k], u).body
  }

  lemma SilentExtends<E, B>(es: seq<Event<E>>, e: Event<E>, n: nat, u: Setup<B>)
    requires n <= |es|
    ensures AllSilent(es + [e], n, u) <==> AllSilent(es, n, u)
    ensures n < |es| ==> (FirstAnswer(es + [e], n, u) <==> FirstAnswer(es, n, u))
    ensures n < |es| ==> Judge((es + [e])[..n], (es + [e])[n], u) == Judge(es[..n], es[n], u)
  {
    var all := es + [e];
    assert forall i :: 0 <= i <= n ==> all[..i] == es[..i];
    assert forall i :: 0 <= i < |es| ==> all[i] == es[i];
  }

  lemma LastSilent<E, B>(es: seq<Event<E>>, e: Event<E>, u: Setup<B>)
    requires AllSilent(es, |es|, u)
    ensures Judge(es, e, u).Silent? ==> AllSilent(es + [e], |es| + 1, u)
    ensures Judge(es, e, u).Answer? ==> FirstAnswer(es + [e], |es|, u)
    ensures Judge((es + [e])[..|es|], (es + [e])[|es|], u) == Judge(es, e, u)
  {
    SilentExtends(es, e, |es|, u);
    assert (es + [e])[..|es|] == es && (es + [e])[|es|] == e;
  }

  /**
   * For every sequence of events: either none calls for an answer, then the machine is still waiting; or `next` has
   * been called exactly once, by the first event that does, with the answer and the body that event calls for.
   */
  lemma {:induction false} NextExactlyOnce<E, B>(es: seq<Event<E>>, u: Setup<B>) returns (k: nat)
    ensures (Waiting(Run(es, u), es, u) && AllSilent(es, |es|, u)) || AnsweredBy(Run(es, u), es, k, u)
  {
    k := 0;
    if es != [] {
      var before, e := es[..|es| - 1], Last(es);
      assert es == before + [e];
      k := NextExactlyOnce(before, u);
      if Run(before, u).settled {
        SettledStays(before, e, u);
        SilentExtends(before, e, k, u);
      } else {
        WaitingStep(before, e, u);
        LastSilent(before, e, u);
        if Judge(before, e, u).Answer? { k := |before|; }
      }
    }
  }

  // ---------------------------------------------------------------- consequences

  /** `next` is never called twice, and buffered bytes never exceed the limit. */
  lemma {:induction false} AtMostOnceWithinLimit<E, B>(es: seq<Event<E>>, u: Setup<B>)
    ensures |Run(es, u).calls| <= 1 && |Flatten(Run(es, u).chunks)| <= u.limit
  {
    if es != [] {
      var before := es[..|es| - 1];
      assert es == before + [Last(es)];
      AtMostOnceWithinLimit(before, u);
      var k := NextExactlyOnce(before, u);
      if Run(before, u).settled {
        SettledStays(before, Last(es), u);
      } else {
        WaitingStep(before, Last(es), u);
        StepWithinLimit(Run(before, u), Last(es), u);
      }
    }
  }

  lemma StepWithinLimit<E, B>(s: State<E, B>, e: Event<E>, u: Setup<B>)
    requires |Flatten(s.chunks)| == s.size <= u.limit
    ensures |Flatten(Step(s, e, u).chunks)| <= u.limit
  {
    if e.Data? || e.Decoded? { FlattenSnoc(s.chunks, e.chunk); }
  }

  /** The end of an uncompressed body or of the decoder, an error, an abort, or a close before the end. */
  ghost predicate Ends<E>(es: seq<Event<E>>, i: nat, encoding: Encoding)
    requires i < |es|
  {
    || Completes(es[i], encoding) || es[i].Error? || es[i].Aborted?
    || (es[i].Close? && !RequestEnded(es[..i]))
    || (es[i].DecoderError? && !encoding.Identity?)
  }

  /** After any such event `next` has been called exactly once. */
  lemma AnsweredAfterEnd<E, B>(es: seq<Event<E>>, i: nat, u: Setup<B>)
    requires i < |es| && Ends(es, i, u.encoding)
    ensures |Run(es, u).calls| == 1
  {
    var k := NextExactlyOnce(es, u);
    assert Judge(es[..i], es[i], u).Answer?;
    assert !AllSilent(es, |es|, u);
  }

  /** Up to the first answer the machine was waiting, within the limit. */
  lemma WaitedUntil<E, B>(es: seq<Event<E>>, k: nat, u: Setup<B>)
    requires FirstAnswer(es, k, u)
    ensures |Received(es[..k], u.encoding)| <= u.limit
  {
    var before := es[..k];
    assert forall i :: 0 <= i < k ==> before[..i] == es[..i] && before[i] == es[i];
    assert AllSilent(before, k, u);
    var j := NextExactlyOnce(before, u);
  }

  /**
   * `next` is called without an error in two cases only: the body is the parse of exactly the bytes delivered before
   * the completing event, and they are within the limit; or an error event came without an error, then no body is set.
   */
  lemma SuccessIff<E, B>(es: seq<Event<E>>, u: Setup<B>) returns (k: nat)
    ensures Run(es, u).calls == [Proceed] <==> FirstAnswer(es, k, u) && Judge(es[..k], es[k], u).call.Proceed?
    ensures Run(es, u).calls == [Proceed] ==>
      var bytes := Received(es[..k], u.encoding);
      var raw := u.codec.text(bytes, u.charset);
      if Completes(es[k], u.encoding)
      then |bytes| <= u.limit && Run(es, u).body == (if raw == "" then Some(u.codec.empty) else u.codec.parse(raw)) && Run(es, u).body.Some?
      else es[k].Error? && es[k].error.None? && Run(es, u).body.None?
  {
    k := NextExactlyOnce(es, u);
    if Run(es, u).calls == [Proceed] {
      WaitedUntil(es, k, u);
    }
  }

  /**
   * Each refusal means one thing: 413 that the bytes delivered exceed the limit; 400 that the whole body does not parse, the
   * request was aborted or closed before its end, or the decoder failed; any other error is that of an error event.
   */
  lemma RefusalsMean<E, B>(es: seq<Event<E>>, u: Setup<B>) returns (k: nat)
    requires Run(es, u).calls != [] && Run(es, u).calls != [Proceed]
    ensures k < |es| && Run(es, u).body.None?
    ensures var call := Run(es, u).calls[0]; var bytes := Received(es[..k], u.encoding); var raw := u.codec.text(bytes, u.charset);
      if call.Upstream? then es[k] == Error(Some(call.error))
      else call == ClientError(
             if es[k].Aborted? || es[k].DecoderError? || (es[k].Close? && !RequestEnded(es[..k])) then 400
             else if Completes(es[k], u.encoding) && raw != "" && u.codec.parse(raw).None? then 400
             else 413)
    ensures Run(es, u).calls[0] == ClientError(413) ==> |Received(es[..k], u.encoding) + Delivers(es[k], u.encoding)| > u.limit
  {
    k := NextExactlyOnce(es, u);
    WaitedUntil(es, k, u);
    assert Delivers(es[k], u.encoding) == [] ==> Received(es[..k], u.encoding) + Delivers(es[k], u.encoding) == Received(es[..k], u.encoding);
  }

  /** The second case is real: an error event without an error ends the request as a success that has no body. */
  lemma ErrorWithoutErrorPasses<E, B>(u: Setup<B>)
    ensures Run<E, B>([Error(None)], u).calls == [Proceed] && Run<E, B>([Error(None)], u).body.None?
  {
    var none: Event<E> := Error(None);
    assert [none][..0] == [] && Last([none]) == none;
    assert Run([none], u) == Step(Run<E, B>([], u), none, u);
  }

  /** If error events carry an error, success means a parsed body. */
  lemma SuccessMeansParsedBody<E, B>(es: seq<Event<E>>, u: Setup<B>) returns (k: nat)
    requires forall i :: 0 <= i < |es| && es[i].Error? ==> es[i].error.Some?
    requires Run(es, u).calls == [Proceed]
    ensures k < |es| && Completes(es[k], u.encoding)
    ensures var bytes := Received(es[..k], u.encoding);
      |bytes| <= u.limit && Run(es, u).body == (var raw := u.codec.text(bytes, u.charset);
                                                if raw == "" then Some(u.codec.empty) else u.codec.parse(raw))
  {
    k := SuccessIff(es, u);
  }

  // ---------------------------------------------------------------- the handlers

  class Reader<E, B(0)> {
    const setup: Setup<B>
    var chunks: seq<seq<Byte>>
    var size: nat
    var settled: bool
    var reqEnded: bool
    var body: Option<B>
    var calls: seq<NextCall<E>>
    var fed: seq<seq<Byte>>

    constructor (setup: Setup<B>)
      ensures this.setup == setup && Now() == Initial()
    {
      this.setup := setup;
      chunks, size, settled, reqEnded, body, calls, fed := [], 0, false, false, None, [], [];
    }

    function Now(): State<E, B>
      reads this
    {
      State(chunks, size, settled, reqEnded, body, calls, fed)
    }

    method SettleWith(call: NextCall<E>)
      modifies this`settled, this`calls
      ensures Now() == Settle(old(Now()), call)
    {
      if settled { return; }
      settled := true;
      calls := calls + [call];
    }

    method Accept(chunk: seq<Byte>)
      modifies this`settled, this`calls, this`size, this`chunks
      ensures Now() == OnDecoded(old(Now()), chunk, setup.limit)
    {
      if settled { return; }
      size := size + |chunk|;
      if size > setup.limit {
        chunks := [];
        SettleWith(ClientError(413));
        return;
      }
      chunks := chunks + [chunk];
    }

    method Complete()
      modifies this`settled, this`calls, this`body
      ensures Now() == Finish(old(Now()), setup)
    {
      if settled { return; }
      var raw := setup.codec.text(Flatten(chunks), setup.charset);
      if |raw| == 0 {
        body := Some(setup.codec.empty);
        SettleWith(Proceed);
        return;
      }
      var parsed := setup.codec.parse(raw);
      if parsed.Some? {
        body := parsed;
        SettleWith(Proceed);
      } else {
        SettleWith(ClientError(400));
      }
    }

    method Handle(e: Event<E>)
      modifies this
      ensures Now() == Step(old(Now()), e, setup)
    {
      match e
      case Data(chunk) =>
        if !settled {
          if setup.encoding.Identity? { Accept(chunk); } else { fed := fed + [chunk]; }
        }
      case End =>
        reqEnded := true;
        if !settled && setup.encoding.Identity? { Complete(); }
      case Error(error) => SettleWith(if error.Some? then Upstream(error.value) else Proceed);
      case Aborted => SettleWith(ClientError(400));
      case Close => if !settled && !reqEnded { SettleWith(ClientError(400)); }
      case Decoded(chunk) => if !setup.encoding.Identity? { Accept(chunk); }
      case DecoderEnd => if !setup.encoding.Identity? { Complete(); }
      case DecoderError => if !setup.encoding.Identity? { SettleWith(ClientError(400)); }
    }

    /** A whole request: whatever the events, the state afterwards is the run of the machine. */
    method HandleAll(es: seq<Event<E>>)
      requires Now() == Initial()
      modifies this
      ensures Now() == Run(es, setup)
      ensures |calls| <= 1
    {
      for i := 0 to |es|
        invariant Now() == Run(es[..i], setup)
      {
        assert es[..i + 1][..i] == es[..i];
        Handle(es[i]);
      }
      assert es[..|es|] == es;
      AtMostOnceWithinLimit(es, setup);
    }
  }
}
