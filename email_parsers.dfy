/**
 * Heuristic extraction of a reservation candidate from one email: provider
 * detection, category keywords, the regex extractors and their assembly
 * into the candidate dict.
 */
module EmailParsers {
  import opened Wrappers
  import opened Text
  import opened Patterns
  import opened Values
  import opened Confirmation

  // ---------------------------------------------------------------------
  // Provider detection

  /** `PROVIDER_HINTS`: each provider key with its hint phrases, in declaration order. */
  const ProviderHints: seq<(string, seq<string>)> := [
    ("booking.com", ["booking.com", "Your booking", "Reservation confirmed"]),
    ("agoda", ["agoda", "Agoda booking", "Agoda reservation"]),
    ("viator", ["viator", "Viator booking", "Your Viator"]),
    ("klook", ["klook", "Klook"]),
    ("getyourguide", ["getyourguide", "GetYourGuide"])
  ]

  const ProviderKeys: set<string> := {"booking.com", "agoda", "viator", "klook", "getyourguide"}

  /** The lower-cased text `detect_provider` scans: subject, sender and body joined by spaces. */
  function ProviderText(subject: string, sender: string, body: string): string {
    LowerStr(subject + " " + sender + " " + body)
  }

  /** Some hint of entry `k`, lower-cased, is a substring of `text`. */
  predicate HintHit(text: string, k: nat)
    requires k < |ProviderHints|
  {
    exists h | h in ProviderHints[k].1 :: Contains(text, LowerStr(h))
  }

  /** The first entry from `k` on with a hint in `text`. */
  function FirstHit(text: string, k: nat): (r: Option<nat>)
    requires k <= |ProviderHints|
    ensures r.Some? ==> k <= r.value < |ProviderHints| && HintHit(text, r.value)
    ensures r.Some? ==> forall j :: k <= j < r.value ==> !HintHit(text, j)
    ensures r.None? ==> forall j :: k <= j < |ProviderHints| ==> !HintHit(text, j)
    decreases |ProviderHints| - k
  {
    if k == |ProviderHints| then None
    else if HintHit(text, k) then Some(k)
    else FirstHit(text, k + 1)
  }

  /** `detect_provider`: the key of the first entry with a hint in the text, if any. */
  function DetectProvider(subject: string, sender: string, body: string): (r: Option<string>)
    ensures r.Some? ==> r.value in ProviderKeys
    ensures r.None? <==> forall k :: 0 <= k < |ProviderHints| ==> !HintHit(ProviderText(subject, sender, body), k)
  {
    match FirstHit(ProviderText(subject, sender, body), 0)
    case None => None
    case Some(k) => Some(ProviderHints[k].0)
  }

  /** The entry that wins is the first one in declaration order whose hints occur. */
  lemma DetectProviderFirst(subject: string, sender: string, body: string, k: nat)
    requires k < |ProviderHints|
    requires HintHit(ProviderText(subject, sender, body), k)
    requires forall j :: 0 <= j < k ==> !HintHit(ProviderText(subject, sender, body), j)
    ensures DetectProvider(subject, sender, body) == Some(ProviderHints[k].0)
  {
  }

  /** A text with "your booking" in it is booking.com's, whatever else (say "agoda") it contains. */
  lemma YourBookingWins(subject: string, sender: string, body: string)
    requires Contains(ProviderText(subject, sender, body), "your booking")
    ensures DetectProvider(subject, sender, body) == Some("booking.com")
  {
    var text := ProviderText(subject, sender, body);
    assert LowerStr("Your booking") == "your booking";
    assert "Your booking" in ProviderHints[0].1;
    assert HintHit(text, 0);
    DetectProviderFirst(subject, sender, body, 0);
  }

  // ---------------------------------------------------------------------
  // Category

  /** The `category` values of the reservation schema. */
  datatype Category = Lodging | Flight | Activity | Transport | Dining | Other

  function CategoryName(c: Category): string {
    match c
    case Lodging => "lodging"
    case Flight => "flight"
    case Activity => "activity"
    case Transport => "transport"
    case Dining => "dining"
    case Other => "other"
  }

  const LodgingWords: seq<string> := ["hotel", "stay", "accommodation"]
  const FlightWords: seq<string> := ["flight", "airlines", "departure", "arrival"]
  const TransportWords: seq<string> := ["train", "bus", "transfer"]

  predicate AnyIn(text: string, words: seq<string>) {
    exists w | w in words :: Contains(text, w)
  }

  /** The text the category keywords are looked for in: lower-cased subject and body, with no separator. */
  function CategoryText(subject: string, body: string): string {
    LowerStr(subject) + LowerStr(body)
  }

  /** The category `parse_email` picks: lodging, then flight, then transport keywords; activity otherwise. */
  function Classify(subject: string, body: string): (c: Category)
    ensures c == Lodging || c == Flight || c == Transport || c == Activity
    ensures c == Lodging <==> AnyIn(CategoryText(subject, body), LodgingWords)
    ensures c == Flight <==> !AnyIn(CategoryText(subject, body), LodgingWords) && AnyIn(CategoryText(subject, body), FlightWords)
    ensures c == Transport <==>
      && !AnyIn(CategoryText(subject, body), LodgingWords)
      && !AnyIn(CategoryText(subject, body), FlightWords)
      && AnyIn(CategoryText(subject, body), TransportWords)
  {
    var t := CategoryText(subject, body);
    if AnyIn(t, LodgingWords) then Lodging
    else if AnyIn(t, FlightWords) then Flight
    else if AnyIn(t, TransportWords) then Transport
    else Activity
  }

  /** Subject and body are glued without a separator, so a keyword may straddle them. */
  lemma KeywordAcrossSubjectAndBody()
    ensures Classify("Grand Ho", "tel Aurora") == Lodging
  {
    var t := CategoryText("Grand Ho", "tel Aurora");
    assert LowerStr("Grand Ho") == "grand ho";
    assert LowerStr("tel Aurora") == "tel aurora";
    assert t == "grand hotel aurora";
    assert OccursAt(t, "hotel", 6);
    assert "hotel" in LodgingWords;
  }

  // ---------------------------------------------------------------------
  // Field extractors

  /** An optional group, stripped. */
  function Stripped(o: Option<string>): (r: Option<string>)
    ensures r.Some? <==> o.Some?
    ensures r.Some? && r.value != [] ==> !IsSpace(r.value[0]) && !IsSpace(r.value[|r.value| - 1])
  {
    match o
    case None => None
    case Some(g) => StripSpec(g); Some(Strip(g))
  }

  /** `extract_title`: the hotel phrase, else the activity phrase, else the first quoted phrase, each stripped. */
  function ExtractTitle(text: string): (r: Option<string>)
    ensures r.None? <==>
      && SearchGroup(text, PhrasePattern(HotelRe)).None?
      && SearchGroup(text, PhrasePattern(ActivityRe)).None?
      && SearchGroup(text, QuotedPattern).None?
    ensures SearchGroup(text, PhrasePattern(HotelRe)).Some? ==> r == Some(Strip(SearchGroup(text, PhrasePattern(HotelRe)).value))
    ensures SearchGroup(text, PhrasePattern(HotelRe)).None? && SearchGroup(text, PhrasePattern(ActivityRe)).Some? ==>
      r == Some(Strip(SearchGroup(text, PhrasePattern(ActivityRe)).value))
    ensures (SearchGroup(text, PhrasePattern(HotelRe)).None? && SearchGroup(text, PhrasePattern(ActivityRe)).None? &&
             SearchGroup(text, QuotedPattern).Some?) ==> r == Some(Strip(SearchGroup(text, QuotedPattern).value))
    ensures r.Some? && r.value != [] ==> !IsSpace(r.value[0]) && !IsSpace(r.value[|r.value| - 1])
  {
    var hotel := SearchGroup(text, PhrasePattern(HotelRe));
    var activity := SearchGroup(text, PhrasePattern(ActivityRe));
    if hotel.Some? then Stripped(hotel)
    else if activity.Some? then Stripped(activity)
    else Stripped(SearchGroup(text, QuotedPattern))
  }

  /** `extract_location`: group 2 of the leftmost `LOCATION_RE` match, stripped. */
  function ExtractLocation(text: string): (r: Option<string>)
    ensures r.Some? <==> exists k :: 0 <= k <= |text| && MatchAt(text, k, PhrasePattern(LocationRe)).Some?
    ensures r.Some? ==> r.value == Strip(SearchGroup(text, PhrasePattern(LocationRe)).value)
    ensures r.Some? && r.value != [] ==> !IsSpace(r.value[0]) && !IsSpace(r.value[|r.value| - 1])
  {
    Stripped(SearchGroup(text, PhrasePattern(LocationRe)))
  }

  /**
   * `LOCATION_RE` has no word boundary: "in" or "at" inside a word, followed
   * by three phrase characters, is a location keyword.
   */
  lemma LocationKeywordAnywhere(text: string, i: nat)
    requires AtomsAt(text, i, Literal("in")) && Run(text, i + 2, PhraseChar) >= 3
    ensures ExtractLocation(text).Some?
  {
    assert LocationRe.keywords[0] == Literal("in");
    KeywordThenRunMatches(text, i, LocationRe, 0);
  }

  /** "Booking confirmed" has a location: the "in" of "Booking" starts a match. */
  lemma BookingHasLocation(text: string)
    requires text == "Booking confirmed"
    ensures ExtractLocation(text).Some?
  {
    assert AtomsAt(text, 4, Literal("in"));
    RunExact(text, 6, PhraseChar, 11);
    LocationKeywordAnywhere(text, 4);
  }

  /** The four values `extract_dates` returns. */
  datatype DateParts = DateParts(startDate: Option<string>, endDate: Option<string>, startTime: Option<string>, endTime: Option<string>)

  function Nth(xs: seq<string>, n: nat): (r: Option<string>)
    ensures r.Some? <==> n < |xs|
    ensures r.Some? ==> r.value == xs[n]
  {
    if n < |xs| then Some(xs[n]) else None
  }

  /**
   * `extract_dates`: all `DATE_RE` matches and all `TIME_RE` matches, found
   * independently; the first and second of each are start and end.
   */
  function ExtractDates(text: string): (r: DateParts)
    ensures r.startDate.Some? <==> FirstScan(text, 0, Dates).Some?
    ensures r.startDate.Some? ==> r.startDate.value == ScanText(text, FirstScan(text, 0, Dates).value, Dates)
    ensures r.endDate.Some? <==> SecondScan(text, Dates).Some?
    ensures r.endDate.Some? ==> r.endDate.value == ScanText(text, SecondScan(text, Dates).value, Dates)
    ensures r.startTime.Some? <==> FirstScan(text, 0, Times).Some?
    ensures r.startTime.Some? ==> r.startTime.value == ScanText(text, FirstScan(text, 0, Times).value, Times)
    ensures r.endTime.Some? <==> SecondScan(text, Times).Some?
    ensures r.endTime.Some? ==> r.endTime.value == ScanText(text, SecondScan(text, Times).value, Times)
    ensures r.endDate.Some? ==> r.startDate.Some?
    ensures r.endTime.Some? ==> r.startTime.Some?
  {
    var dates := FindAll(text, 0, Dates);
    var times := FindAll(text, 0, Times);
    FindAllSecond(text, Dates);
    FindAllSecond(text, Times);
    DateParts(Nth(dates, 0), Nth(dates, 1), Nth(times, 0), Nth(times, 1))
  }

  /** Python's f-string rendering of an optional value: `None` prints as "None". */
  function Render(o: Option<string>): string {
    match o
    case None => "None"
    case Some(s) => s
  }

  /**
   * The hint as `parse_email` writes it: date and time formatted with a space
   * between them and stripped, when either is present; `None` otherwise.
   * A missing half is formatted as the text "None".
   */
  function TimeHintAsWritten(d: Option<string>, t: Option<string>): (r: Option<string>)
    ensures r.None? <==> d.None? && t.None?
    ensures d.Some? && t.None? && Trimmed(d.value) ==> r == Some(d.value + " None")
    ensures d.None? && t.Some? && Trimmed(t.value) ==> r == Some("None " + t.value)
    ensures d.Some? && t.Some? && Trimmed(d.value) && Trimmed(t.value) ==> r == Some(d.value + " " + t.value)
  {
    if d.Some? || t.Some? then
      var a, b := Render(d), Render(t);
      assert Trimmed("None");
      StripJoined(a, b);
      assert t.None? ==> a + " " + b == a + " None";
      assert d.None? ==> a + " " + b == "None " + b;
      Some(Strip(a + " " + b))
    else None
  }

  /**
   * The hint the `.strip()` is there for: a missing half contributes nothing,
   * so a lone date or a lone time is the hint by itself.
   */
  function TimeHintIntended(d: Option<string>, t: Option<string>): (r: Option<string>)
    ensures r.None? <==> d.None? && t.None?
  {
    if d.Some? || t.Some? then Some(Strip(d.GetOr("") + " " + t.GetOr(""))) else None
  }

  /** With the missing half left empty, a lone date or time is its own hint, and a pair is joined by one space. */
  lemma {:induction false} TimeHintParts(d: string, t: string)
    requires d != [] && !IsSpace(d[0]) && !IsSpace(d[|d| - 1])
    requires t != [] && !IsSpace(t[0]) && !IsSpace(t[|t| - 1])
    ensures TimeHintIntended(Some(d), None) == Some(d)
    ensures TimeHintIntended(None, Some(t)) == Some(t)
    ensures TimeHintIntended(Some(d), Some(t)) == Some(d + " " + t)
  {
    var a := d + " " + "";
    assert a == d + " ";
    StripTrailingSpace(d);
    var b := "" + " " + t;
    assert b == " " + t;
    StripLeadingSpace(t);
    var c := d + " " + t;
    assert c[0] == d[0] && c[|c| - 1] == t[|t| - 1];
    StripSpec(c);
  }

  // ---------------------------------------------------------------------
  // parse_email

  /** The dict `parse_email` returns; `details` holds sender, raw subject and the provider again. */
  datatype Candidate = Candidate(
    provider: string,
    category: Category,
    title: string,
    location: Option<string>,
    startTimeHint: Option<string>,
    endTimeHint: Option<string>,
    confirmationNumber: Option<string>,
    sender: string,
    rawSubject: string)

  /** The text most extractors scan: subject and body on separate lines. */
  function MessageText(subject: string, body: string): string {
    subject + "\n" + body
  }

  /** The caller's provider hint, else the detected provider, else "other", lower-cased. */
  function ResolveProvider(subject: string, sender: string, body: string, providerHint: Option<string>): (r: string)
    ensures IsLowered(r)
    ensures providerHint.Some? && providerHint.value != [] ==> r == LowerStr(providerHint.value)
    ensures (providerHint.None? || providerHint.value == []) && DetectProvider(subject, sender, body).None? ==> r == "other"
    ensures (providerHint.None? || providerHint.value == []) && DetectProvider(subject, sender, body).Some? ==>
      r == DetectProvider(subject, sender, body).value
  {
    var chosen :=
      if providerHint.Some? && providerHint.value != [] then providerHint.value
      else match DetectProvider(subject, sender, body)
        case Some(p) => p
        case None => "other";
    LowerStrIsLowered(chosen);
    assert LowerStr("other") == "other";
    assert forall k :: k in ProviderKeys ==> LowerStr(k) == k;
    LowerStr(chosen)
  }

  /** The extracted title, else the subject's first 80 characters, else "Reservation". */
  function ResolveTitle(subject: string, body: string): (r: string)
    ensures r != []
  {
    var extracted := ExtractTitle(MessageText(subject, body));
    var first := if extracted.Some? && extracted.value != [] then extracted.value else Take(subject, 80);
    if first != [] then first else "Reservation"
  }

  /** The title fallback chain: an extracted non-empty title, else the subject's first 80 characters, else "Reservation". */
  lemma TitleFallback(subject: string, body: string)
    ensures var e := ExtractTitle(MessageText(subject, body));
      && (e.Some? && e.value != [] ==> ResolveTitle(subject, body) == e.value)
      && ((e.None? || e.value == []) && subject != [] ==> ResolveTitle(subject, body) == Take(subject, 80))
      && ((e.None? || e.value == []) && subject == [] ==> ResolveTitle(subject, body) == "Reservation")
  {
  }

  /** The location found in the body, else the one found in the subject, else `None`. */
  function ResolveLocation(subject: string, body: string): (r: Option<string>)
    ensures r.Some? ==> r.value != []
    ensures r.Some? ==> r == ExtractLocation(body) || r == ExtractLocation(subject)
    ensures ExtractLocation(body).Some? && ExtractLocation(body).value != [] ==> r == ExtractLocation(body)
    ensures ((ExtractLocation(body).None? || ExtractLocation(body).value == []) &&
             ExtractLocation(subject).Some? && ExtractLocation(subject).value != []) ==> r == ExtractLocation(subject)
    ensures ((ExtractLocation(body).None? || ExtractLocation(body).value == []) &&
             (ExtractLocation(subject).None? || ExtractLocation(subject).value == [])) ==> r.None?
  {
    var fromBody := ExtractLocation(body);
    if fromBody.Some? && fromBody.value != [] then fromBody
    else
      var fromSubject := ExtractLocation(subject);
      if fromSubject.Some? && fromSubject.value != [] then fromSubject else None
  }

  /** `parse_email`: never fails, and always produces a candidate. */
  function ParseEmail(subject: string, sender: string, body: string, providerHint: Option<string>): (c: Candidate)
    ensures c.provider == ResolveProvider(subject, sender, body, providerHint)
    ensures c.category == Classify(subject, body)
    ensures c.title == ResolveTitle(subject, body)
    ensures c.location == ResolveLocation(subject, body)
    ensures var dates := ExtractDates(MessageText(subject, body));
      && c.startTimeHint == TimeHintAsWritten(dates.startDate, dates.startTime)
      && c.endTimeHint == TimeHintAsWritten(dates.endDate, dates.endTime)
    ensures c.confirmationNumber == ExtractConfirmationAsWritten(MessageText(subject, body))
    ensures c.title != []
    ensures c.category == Lodging || c.category == Flight || c.category == Transport || c.category == Activity
    ensures IsLowered(c.provider)
    ensures providerHint.Some? && providerHint.value != [] ==> c.provider == LowerStr(providerHint.value)
    ensures c.location.Some? ==> c.location.value != []
    ensures c.confirmationNumber.Some? ==> ConfirmationToken(c.confirmationNumber.value)
    ensures c.startTimeHint.None? <==>
      FirstScan(MessageText(subject, body), 0, Dates).None? && FirstScan(MessageText(subject, body), 0, Times).None?
    ensures c.endTimeHint.Some? ==> c.startTimeHint.Some?
    ensures c.sender == sender && c.rawSubject == subject
  {
    var text := MessageText(subject, body);
    var dates := ExtractDates(text);
    Candidate(
      ResolveProvider(subject, sender, body, providerHint),
      Classify(subject, body),
      ResolveTitle(subject, body),
      ResolveLocation(subject, body),
      TimeHintAsWritten(dates.startDate, dates.startTime),
      TimeHintAsWritten(dates.endDate, dates.endTime),
      ExtractConfirmationAsWritten(text),
      sender,
      subject)
  }

  /** A message with a date and no time gets a start hint ending in the literal " None". */
  lemma DateOnlyHint(subject: string, sender: string, body: string, providerHint: Option<string>)
    requires FirstScan(MessageText(subject, body), 0, Dates).Some? && FirstScan(MessageText(subject, body), 0, Times).None?
    ensures var text := MessageText(subject, body);
      ParseEmail(subject, sender, body, providerHint).startTimeHint ==
        Some(ScanText(text, FirstScan(text, 0, Dates).value, Dates) + " None")
  {
  }

  /** A message with a time and no date gets a start hint beginning with the literal "None ". */
  lemma TimeOnlyHint(subject: string, sender: string, body: string, providerHint: Option<string>)
    requires FirstScan(MessageText(subject, body), 0, Dates).None? && FirstScan(MessageText(subject, body), 0, Times).Some?
    ensures var text := MessageText(subject, body);
      ParseEmail(subject, sender, body, providerHint).startTimeHint ==
        Some("None " + ScanText(text, FirstScan(text, 0, Times).value, Times))
  {
  }

  /**
   * `parse_email` with the two corrections: the confirmation pattern with its
   * label alternatives as intended, and hints in which a missing half
   * contributes nothing.
   */
  function ParseEmailIntended(subject: string, sender: string, body: string, providerHint: Option<string>): (c: Candidate)
    ensures var a := ParseEmail(subject, sender, body, providerHint);
      && c.provider == a.provider && c.category == a.category && c.title == a.title && c.location == a.location
      && c.sender == a.sender && c.rawSubject == a.rawSubject
      && (c.startTimeHint.None? <==> a.startTimeHint.None?)
      && (c.endTimeHint.None? <==> a.endTimeHint.None?)
    ensures var dates := ExtractDates(MessageText(subject, body));
      && c.startTimeHint == TimeHintIntended(dates.startDate, dates.startTime)
      && c.endTimeHint == TimeHintIntended(dates.endDate, dates.endTime)
    ensures c.confirmationNumber == ExtractConfirmationIntended(MessageText(subject, body))
  {
    var text := MessageText(subject, body);
    var dates := ExtractDates(text);
    var asWritten := ParseEmail(subject, sender, body, providerHint);
    asWritten.(
      startTimeHint := TimeHintIntended(dates.startDate, dates.startTime),
      endTimeHint := TimeHintIntended(dates.endDate, dates.endTime),
      confirmationNumber := ExtractConfirmationIntended(text))
  }

  /** Corrected, a message with a date and no time gets the date by itself as its start hint. */
  lemma DateOnlyHintIntended(subject: string, sender: string, body: string, providerHint: Option<string>)
    requires FirstScan(MessageText(subject, body), 0, Dates).Some? && FirstScan(MessageText(subject, body), 0, Times).None?
    ensures var text := MessageText(subject, body);
      ParseEmailIntended(subject, sender, body, providerHint).startTimeHint ==
        Some(ScanText(text, FirstScan(text, 0, Dates).value, Dates))
  {
    var text := MessageText(subject, body);
    var d := ScanText(text, FirstScan(text, 0, Dates).value, Dates);
    TimeHintParts(d, d);
  }

  /** The `details` dict of a candidate. */
  function DetailsDict(c: Candidate): (d: map<string, Value>)
    ensures d.Keys == {"sender", "raw_subject", "provider_detected"}
    ensures "start_time_hint" !in d && "end_time_hint" !in d
  {
    map["sender" := Str(c.sender), "raw_subject" := Str(c.rawSubject), "provider_detected" := Str(c.provider)]
  }

  /** The nine keys of the dict `parse_email` returns. */
  const CandidateKeys: set<string> := {
    "provider", "category", "title", "location", "start_time_hint", "end_time_hint",
    "confirmation_number", "details", "source"}

  /** The candidate as the Python dict, with `source` "email". */
  function CandidateDict(c: Candidate): (d: map<string, Value>)
    ensures d.Keys == CandidateKeys
    ensures d["source"] == Str("email")
    ensures d["details"] == Dict(DetailsDict(c))
    ensures d["title"] == Str(c.title)
    ensures d["start_time_hint"] == OptStr(c.startTimeHint) && d["end_time_hint"] == OptStr(c.endTimeHint)
  {
    map[
      "provider" := Str(c.provider),
      "category" := Str(CategoryName(c.category)),
      "title" := Str(c.title),
      "location" := OptStr(c.location),
      "start_time_hint" := OptStr(c.startTimeHint),
      "end_time_hint" := OptStr(c.endTimeHint),
      "confirmation_number" := OptStr(c.confirmationNumber),
      "details" := Dict(DetailsDict(c)),
      "source" := Str("email")]
  }
}
