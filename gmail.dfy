/**
 * The Gmail adapter: base64url payload decoding, the message source,
 * collecting the text parts of a MIME tree, and turning messages into
 * reservation candidates.
 */
module Gmail {
  import opened Wrappers
  import opened Text
  import opened Values
  import opened EmailParsers

  /**
   * The byte-level decoders the adapter relies on, supplied by the caller:
   * `b64` is `base64.urlsafe_b64decode` on padded text (`None` when it
   * raises) and `utf8` is `bytes.decode('utf-8', errors='ignore')`, which
   * never raises.
   */
  datatype Codec = Codec(b64: string -> Option<seq<bv8>>, utf8: seq<bv8> -> string)

  /** Padding with `=` up to a multiple of four characters. */
  function PadBase64(data: string): (r: string)
    ensures |r| % 4 == 0
    ensures |data| <= |r| < |data| + 4
    ensures r[..|data|] == data
    ensures forall k | |data| <= k < |r| :: r[k] == '='
  {
    data + seq((-|data|) % 4, _ => '=')
  }

  /** Text whose length is already a multiple of four is left alone, so padding twice pads once. */
  lemma PadBase64Idempotent(data: string)
    ensures |data| % 4 == 0 ==> PadBase64(data) == data
    ensures PadBase64(PadBase64(data)) == PadBase64(data)
  {
    var p := PadBase64(data);
    if |data| % 4 == 0 {
      NegatedMultipleOfFour(|data|);
      assert data + [] == data;
    }
    NegatedMultipleOfFour(|p|);
    assert p + [] == p;
  }

  lemma NegatedMultipleOfFour(n: int)
    requires n % 4 == 0
    ensures (-n) % 4 == 0
  {
    var q := n / 4;
    assert n == 4 * q;
    assert -n == 4 * (-q);
  }

  /** `decode_base64url`: pad, then decode; `None` stands for the decoder's exception. */
  function DecodeBase64Url(data: string, codec: Codec): Option<seq<bv8>> {
    codec.b64(PadBase64(data))
  }

  /** A message dict as listed: each of `subject`, `from`, `body_text` and `snippet` present or absent. */
  datatype Message = Message(subject: Option<string>, sender: Option<string>, bodyText: Option<string>, snippet: Option<string>)

  /**
   * `fetch_messages`: a supplied list is the result as it is; without one the
   * adapter makes no external call and returns nothing.
   */
  function FetchMessages(rawMessages: Option<seq<Message>>): (r: seq<Message>)
    ensures rawMessages.Some? ==> r == rawMessages.value
    ensures rawMessages.None? ==> r == []
  {
    rawMessages.GetOr([])
  }

  // ---------------------------------------------------------------------
  // extract_body_text

  /**
   * A MIME part: its `mimeType` ("" when absent), its `body.data` ("" when
   * absent or `None`) and its child `parts` (empty when absent).
   */
  datatype Part = Part(mimeType: string, data: string, parts: seq<Part>)

  /** A part adds text when it has data, the data decodes, and it is `text/plain` or `text/html`. */
  predicate Contributes(p: Part, codec: Codec) {
    && p.data != []
    && DecodeBase64Url(p.data, codec).Some?
    && (OccursAt(p.mimeType, "text/plain", 0) || OccursAt(p.mimeType, "text/html", 0))
  }

  /** The text a part adds itself, not counting its children. */
  function OwnText(p: Part, codec: Codec): (r: seq<string>)
    ensures |r| <= 1
    ensures r != [] <==> Contributes(p, codec)
  {
    if Contributes(p, codec) then [codec.utf8(DecodeBase64Url(p.data, codec).value)] else []
  }

  /** What `walk(parts)` appends: each part's own text, then its children's, then the following parts'. */
  function Collected(parts: seq<Part>, codec: Codec): seq<string>
    decreases parts
  {
    if parts == [] then []
    else OwnText(parts[0], codec) + Collected(parts[0].parts, codec) + Collected(parts[1..], codec)
  }

  lemma {:induction false} CollectedAppend(a: seq<Part>, b: seq<Part>, codec: Codec)
    ensures Collected(a + b, codec) == Collected(a, codec) + Collected(b, codec)
    decreases a
  {
    if a == [] {
      assert a + b == b;
    } else {
      assert (a + b)[0] == a[0];
      assert (a + b)[1..] == a[1..] + b;
      CollectedAppend(a[1..], b, codec);
    }
  }

  lemma CollectedSingle(p: Part, codec: Codec)
    ensures Collected([p], codec) == OwnText(p, codec) + Collected(p.parts, codec)
  {
    assert [p][1..] == [];
  }

  /** One more part walked: what was appended so far, then the part's own text and its children's. */
  lemma CollectedStep(acc: seq<string>, parts: seq<Part>, i: nat, codec: Codec)
    requires i < |parts|
    ensures acc + Collected(parts[..i], codec) + OwnText(parts[i], codec) + Collected(parts[i].parts, codec)
      == acc + Collected(parts[..i + 1], codec)
  {
    var p := parts[i];
    assert parts[..i + 1] == parts[..i] + [p];
    CollectedAppend(parts[..i], [p], codec);
    CollectedSingle(p, codec);
  }

  /** The parts of a forest in document order: each part before its children, children before its next sibling. */
  function Flatten(parts: seq<Part>): seq<Part>
    decreases parts
  {
    if parts == [] then [] else [parts[0]] + Flatten(parts[0].parts) + Flatten(parts[1..])
  }

  /** The texts of the contributing parts of a flat list, in order. */
  function TextsOf(flat: seq<Part>, codec: Codec): seq<string> {
    if flat == [] then [] else OwnText(flat[0], codec) + TextsOf(flat[1..], codec)
  }

  lemma {:induction false} TextsOfAppend(a: seq<Part>, b: seq<Part>, codec: Codec)
    ensures TextsOf(a + b, codec) == TextsOf(a, codec) + TextsOf(b, codec)
  {
    if a == [] {
      assert a + b == b;
    } else {
      assert (a + b)[1..] == a[1..] + b;
      TextsOfAppend(a[1..], b, codec);
    }
  }

  /** The body is the decoded text of every contributing part of the tree, in document order. */
  lemma {:induction false} CollectedInDocumentOrder(parts: seq<Part>, codec: Codec)
    ensures Collected(parts, codec) == TextsOf(Flatten(parts), codec)
    decreases parts
  {
    if parts != [] {
      var p := parts[0];
      CollectedInDocumentOrder(p.parts, codec);
      CollectedInDocumentOrder(parts[1..], codec);
      TextsOfAppend([p], Flatten(p.parts), codec);
      TextsOfAppend([p] + Flatten(p.parts), Flatten(parts[1..]), codec);
      assert TextsOf([p], codec) == OwnText(p, codec);
    }
  }

  /** The `body` list of `extract_body_text`, which the nested `walk` appends to. */
  class BodyCollector {
    var body: seq<string>

    constructor()
      ensures body == []
    {
      body := [];
    }

    /** The body of `walk`'s loop for one part, before the recursion into its children. */
    method AddOwnText(p: Part, codec: Codec)
      modifies this
      ensures body == old(body) + OwnText(p, codec)
    {
      if p.data != [] {
        var decoded := DecodeBase64Url(p.data, codec);
        if decoded.Some? {
          var text := codec.utf8(decoded.value);
          if OccursAt(p.mimeType, "text/plain", 0) || OccursAt(p.mimeType, "text/html", 0) {
            body := body + [text];
          }
        }
      }
    }

    /** `walk(parts)`: appends the texts of `parts` and of all their descendants. */
    method Walk(parts: seq<Part>, codec: Codec)
      modifies this
      ensures body == old(body) + Collected(parts, codec)
      decreases parts
    {
      var i := 0;
      while i < |parts|
        invariant 0 <= i <= |parts|
        invariant body == old(body) + Collected(parts[..i], codec)
      {
        var p := parts[i];
        AddOwnText(p, codec);
        Walk(p.parts, codec);
        CollectedStep(old(body), parts, i, codec);
        i := i + 1;
      }
      assert parts[..i] == parts;
    }
  }

  /** `extract_body_text`: the collected texts joined by newlines, cut to 20000 characters. */
  method ExtractBodyText(payloadParts: seq<Part>, codec: Codec) returns (text: string)
    ensures text == Take(Join(Collected(payloadParts, codec), "\n"), 20000)
    ensures |text| <= 20000
    ensures |text| <= |Join(TextsOf(Flatten(payloadParts), codec), "\n")|
    ensures text == Join(TextsOf(Flatten(payloadParts), codec), "\n")[..|text|]
  {
    var collector := new BodyCollector();
    collector.Walk(payloadParts, codec);
    assert collector.body == Collected(payloadParts, codec);
    text := Take(Join(collector.body, "\n"), 20000);
    CollectedInDocumentOrder(payloadParts, codec);
  }

  // ---------------------------------------------------------------------
  // messages_to_reservations

  /** The subject, "" when absent. */
  function SubjectOf(m: Message): string {
    m.subject.GetOr("")
  }

  /** The sender, "" when absent. */
  function SenderOf(m: Message): string {
    m.sender.GetOr("")
  }

  /** The body text when present, else the snippet, else "". */
  function BodyOf(m: Message): (r: string)
    ensures m.bodyText.Some? ==> r == m.bodyText.value
    ensures m.bodyText.None? && m.snippet.Some? ==> r == m.snippet.value
    ensures m.bodyText.None? && m.snippet.None? ==> r == ""
  {
    match m.bodyText
    case Some(b) => b
    case None => m.snippet.GetOr("")
  }

  /** The dict `parse_email` returns for one message. */
  function ReservationOf(m: Message, providerHint: Option<string>): (d: map<string, Value>)
    ensures Truthy(Dict(d))
  {
    CandidateDict(ParseEmail(SubjectOf(m), SenderOf(m), BodyOf(m), providerHint))
  }

  /**
   * A parsed message has the candidate keys, `source` "email", a non-empty
   * title, and a `details` dict without time hints of its own.
   */
  lemma ReservationOfShape(m: Message, providerHint: Option<string>)
    ensures var d := ReservationOf(m, providerHint);
      && d.Keys == CandidateKeys && d["source"] == Str("email") && d["title"].Str? && d["title"].s != []
      && d["details"].Dict?
      && "start_time_hint" !in d["details"].entries && "end_time_hint" !in d["details"].entries
  {
  }

  /** One reservation per message, in message order. */
  function Reservations(messages: seq<Message>, providerHint: Option<string>): (rs: seq<map<string, Value>>)
    ensures |rs| == |messages|
  {
    MapSeq(messages, Parser(providerHint))
  }

  /** `parse_email` with the provider hint fixed, as a function of the message. */
  function Parser(providerHint: Option<string>): Message -> map<string, Value> {
    m => ReservationOf(m, providerHint)
  }

  lemma ParserApply(providerHint: Option<string>, m: Message)
    ensures Parser(providerHint)(m) == ReservationOf(m, providerHint)
  {
  }

  /**
   * The `i`-th reservation is the parse of the `i`-th message, so it carries the
   * candidate keys, `source` "email", a non-empty title and a `details` dict.
   */
  lemma ReservationsShape(messages: seq<Message>, providerHint: Option<string>, i: nat)
    requires i < |messages|
    ensures Reservations(messages, providerHint)[i] == ReservationOf(messages[i], providerHint)
    ensures var d := Reservations(messages, providerHint)[i];
      && d.Keys == CandidateKeys && d["source"] == Str("email") && d["title"].Str? && d["title"].s != []
      && d["details"].Dict?
      && "start_time_hint" !in d["details"].entries && "end_time_hint" !in d["details"].entries
  {
    MapSeqAt(messages, Parser(providerHint), i);
    ParserApply(providerHint, messages[i]);
    ReservationOfShape(messages[i], providerHint);
  }

  /** The body of the loop of `messages_to_reservations`: read the fields with their defaults, then parse. */
  method ParseMessage(msg: Message, providerHint: Option<string>) returns (parsed: map<string, Value>)
    ensures parsed == Parser(providerHint)(msg)
    ensures Truthy(Dict(parsed))
  {
    var subject := SubjectOf(msg);
    var sender := SenderOf(msg);
    var bodyText := BodyOf(msg);
    parsed := CandidateDict(ParseEmail(subject, sender, bodyText, providerHint));
    ParserApply(providerHint, msg);
  }

  /**
   * `messages_to_reservations`: no message is dropped, since `parse_email`
   * always returns a non-empty dict and the `if parsed` test always passes.
   */
  method MessagesToReservations(messages: seq<Message>, providerHint: Option<string>) returns (out: seq<map<string, Value>>)
    ensures out == Reservations(messages, providerHint)
    ensures |out| == |messages|
  {
    out := [];
    var i := 0;
    while i < |messages|
      invariant 0 <= i <= |messages|
      invariant out == MapSeq(messages[..i], Parser(providerHint))
    {
      var parsed := ParseMessage(messages[i], providerHint);
      if Truthy(Dict(parsed)) {
        out := out + [parsed];
      } else {
        assert false;
      }
      MapSeqSnoc(messages, Parser(providerHint), i);
      i := i + 1;
    }
    assert messages[..i] == messages;
  }
}
