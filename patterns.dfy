/**
 * Hand-written matchers for the regular expressions of the email parsers
 * (`DATE_RE`, `TIME_RE`, `CONF_RE`, `HOTEL_RE`, `ACTIVITY_RE`, `LOCATION_RE`
 * and the quoted-title pattern), with the answers Python's backtracking `re`
 * engine gives for `re.search` and `re.findall` under `re.IGNORECASE`.
 *
 * A bounded repeat `c{m,n}` that is followed by a character outside class `c`
 * can only succeed with the maximal run of `c`, so those repeats are stated
 * through `Run`. The phrase patterns have optional separators (a space, a
 * colon, a space, each optional)
 * in front of a captured run whose class contains whitespace; there the
 * backtracking order matters, and it is enumerated explicitly.
 */
module Patterns {
  import opened Wrappers
  import opened Text

  /** A one-character step of a pattern. Literals compare case-insensitively (`re.IGNORECASE`). */
  datatype Atom = Space | Lit(c: char)

  predicate AtomAt(s: string, k: nat, a: Atom) {
    k < |s| &&
    match a
    case Space => IsSpace(s[k])
    case Lit(c) => if IsAsciiLetter(c) then Lower(s[k]) == Lower(c) else s[k] == c
  }

  /** The atoms match one after the other from index `k`. */
  predicate AtomsAt(s: string, k: nat, atoms: seq<Atom>) {
    k + |atoms| <= |s| && forall j :: 0 <= j < |atoms| ==> AtomAt(s, k + j, atoms[j])
  }

  /** The atoms of a literal word. */
  function Literal(w: string): (r: seq<Atom>)
    ensures |r| == |w|
  {
    seq(|w|, i requires 0 <= i < |w| => Lit(w[i]))
  }

  /** The character classes the patterns repeat. */
  datatype CharClass =
    | Digit             // an ASCII digit
    | WordChar          // a letter, digit or underscore
    | ConfirmationChar  // a letter of either case, a digit or a hyphen
    | PhraseChar        // a word character, whitespace, or one of - ' & , .
    | NotQuote          // anything but a double quote

  predicate InClass(c: char, cls: CharClass) {
    match cls
    case Digit => IsDigit(c)
    case WordChar => IsWordChar(c)
    case ConfirmationChar => IsAsciiLetter(c) || IsDigit(c) || c == '-'
    case PhraseChar => IsWordChar(c) || IsSpace(c) || c in "-'&,."
    case NotQuote => c != '"'
  }

  /** Length of the longest run of `cls` characters starting at `k`. */
  function Run(s: string, k: nat, cls: CharClass): (n: nat)
    requires k <= |s|
    ensures k + n <= |s|
    ensures forall j :: k <= j < k + n ==> InClass(s[j], cls)
    ensures k + n == |s| || !InClass(s[k + n], cls)
    decreases |s| - k
  {
    if k < |s| && InClass(s[k], cls) then 1 + Run(s, k + 1, cls) else 0
  }

  /** Ends of those alternatives `a1|a2|...` that match at `k`, in the order they are tried. */
  function AlternativeEnds(s: string, k: nat, alts: seq<seq<Atom>>): (ends: seq<nat>)
    ensures |ends| <= |alts|
    ensures forall j :: 0 <= j < |ends| ==> k <= ends[j] <= |s|
  {
    if alts == [] then []
    else (if AtomsAt(s, k, alts[0]) then [k + |alts[0]|] else []) + AlternativeEnds(s, k, alts[1..])
  }

  /**
   * Ends of the greedy optional items `x1? x2? ...` from `k`, in the order a
   * backtracking matcher tries them: taking an item comes before skipping it.
   */
  function OptionalEnds(s: string, k: nat, items: seq<Atom>): (ends: seq<nat>)
    requires k <= |s|
    ensures |ends| > 0
    ensures forall j :: 0 <= j < |ends| ==> k <= ends[j] <= |s|
    decreases |items|
  {
    if items == [] then [k]
    else (if AtomAt(s, k, items[0]) then OptionalEnds(s, k + 1, items[1..]) else []) + OptionalEnds(s, k, items[1..])
  }

  /**
   * The shape `(kw1|kw2|...)(?:l1|l2|...)?x1?x2?...(cls{min,})`: a keyword,
   * an optional label, optional separator characters and a captured greedy run.
   */
  datatype Phrase = Phrase(keywords: seq<seq<Atom>>, labels: seq<seq<Atom>>, separators: seq<Atom>, token: CharClass, minLen: nat)

  /** Where the captured run may start, for each path through the separators. */
  function SeparatorStarts(s: string, ends: seq<nat>, seps: seq<Atom>): (r: seq<nat>)
    requires forall j :: 0 <= j < |ends| ==> ends[j] <= |s|
    ensures forall j :: 0 <= j < |r| ==> r[j] <= |s|
  {
    if ends == [] then [] else OptionalEnds(s, ends[0], seps) + SeparatorStarts(s, ends[1..], seps)
  }

  /** Where the captured run may start, for each path through the optional label and the separators. */
  function LabelStarts(s: string, ends: seq<nat>, p: Phrase): (r: seq<nat>)
    requires forall j :: 0 <= j < |ends| ==> ends[j] <= |s|
    ensures forall j :: 0 <= j < |r| ==> r[j] <= |s|
  {
    if ends == [] then []
    else SeparatorStarts(s, AlternativeEnds(s, ends[0], p.labels) + [ends[0]], p.separators) + LabelStarts(s, ends[1..], p)
  }

  /** All start positions of the captured run for a match attempt at `i`, in backtracking order. */
  function TokenStarts(s: string, i: nat, p: Phrase): (r: seq<nat>)
    ensures forall j :: 0 <= j < |r| ==> r[j] <= |s|
  {
    LabelStarts(s, AlternativeEnds(s, i, p.keywords), p)
  }

  /** A captured group `s[start..end]`. */
  datatype Span = Span(start: nat, end: nat)

  /** The first start whose greedy run is long enough; the run, being last in the pattern, is then taken whole. */
  function FirstToken(s: string, starts: seq<nat>, cls: CharClass, minLen: nat): (r: Option<Span>)
    requires forall j :: 0 <= j < |starts| ==> starts[j] <= |s|
    ensures r.Some? ==> r.value.start in starts && r.value.end == r.value.start + Run(s, r.value.start, cls)
    ensures r.Some? ==> r.value.end - r.value.start >= minLen
    ensures r.None? <==> forall j :: 0 <= j < |starts| ==> Run(s, starts[j], cls) < minLen
  {
    if starts == [] then None
    else if Run(s, starts[0], cls) >= minLen then Some(Span(starts[0], starts[0] + Run(s, starts[0], cls)))
    else FirstToken(s, starts[1..], cls, minLen)
  }

  /** The patterns `re.search` is used with. */
  datatype Pattern = PhrasePattern(phrase: Phrase) | QuotedPattern

  /** The quoted title: a double quote, 3 to 60 other characters (captured), a double quote. */
  function QuotedAt(s: string, i: nat): (r: Option<Span>)
    requires i <= |s|
  {
    if i < |s| && s[i] == '"' then
      var n := Run(s, i + 1, NotQuote);
      if 3 <= n <= 60 && i + 1 + n < |s| then Some(Span(i + 1, i + 1 + n)) else None
    else None
  }

  /** The match attempt of `pat` at index `i`, giving the span of the captured group. */
  function MatchAt(s: string, i: nat, pat: Pattern): (r: Option<Span>)
    requires i <= |s|
    ensures r.Some? ==> i <= r.value.start <= r.value.end <= |s|
    ensures r.Some? && pat.PhrasePattern? ==>
      && r.value.end - r.value.start >= pat.phrase.minLen
      && (forall j :: r.value.start <= j < r.value.end ==> InClass(s[j], pat.phrase.token))
      && (r.value.end == |s| || !InClass(s[r.value.end], pat.phrase.token))
    ensures r.Some? && pat.QuotedPattern? ==>
      && 3 <= r.value.end - r.value.start <= 60
      && (forall j :: r.value.start <= j < r.value.end ==> s[j] != '"')
  {
    match pat
    case PhrasePattern(p) =>
      var r := FirstToken(s, TokenStarts(s, i, p), p.token, p.minLen);
      assert r.Some? ==> i <= r.value.start by {
        if r.Some? { TokenStartsAfter(s, i, p, r.value.start); }
      }
      r
    case QuotedPattern => QuotedAt(s, i)
  }

  lemma TokenStartsAfter(s: string, i: nat, p: Phrase, e: nat)
    requires e in TokenStarts(s, i, p)
    ensures i <= e
  {
    var kw := AlternativeEnds(s, i, p.keywords);
    LabelStartsAfter(s, kw, p, i, e);
  }

  lemma {:induction false} LabelStartsAfter(s: string, ends: seq<nat>, p: Phrase, i: nat, e: nat)
    requires forall j :: 0 <= j < |ends| ==> i <= ends[j] <= |s|
    requires e in LabelStarts(s, ends, p)
    ensures i <= e
  {
    var labelEnds := AlternativeEnds(s, ends[0], p.labels) + [ends[0]];
    if e in SeparatorStarts(s, labelEnds, p.separators) {
      SeparatorStartsAfter(s, labelEnds, p.separators, i, e);
    } else {
      LabelStartsAfter(s, ends[1..], p, i, e);
    }
  }

  lemma {:induction false} SeparatorStartsAfter(s: string, ends: seq<nat>, seps: seq<Atom>, i: nat, e: nat)
    requires forall j :: 0 <= j < |ends| ==> i <= ends[j] <= |s|
    requires e in SeparatorStarts(s, ends, seps)
    ensures i <= e
  {
    if e !in OptionalEnds(s, ends[0], seps) {
      SeparatorStartsAfter(s, ends[1..], seps, i, e);
    }
  }

  /** Whether a match attempt of `pat` succeeds, for each index `0..|s|`. */
  function Attempts(s: string, pat: Pattern): (hits: seq<bool>)
    ensures |hits| == |s| + 1
  {
    seq(|s| + 1, k requires 0 <= k <= |s| => MatchAt(s, k, pat).Some?)
  }

  /** The first index from `from` on that holds `true`. */
  function FirstTrue(hits: seq<bool>, from: nat): (at: Option<nat>)
    ensures at.Some? ==> from <= at.value < |hits| && hits[at.value]
    ensures at.Some? ==> forall k :: from <= k < at.value ==> !hits[k]
    ensures at.None? ==> forall k :: from <= k < |hits| ==> !hits[k]
    decreases |hits| - from
  {
    if from >= |hits| then None
    else if hits[from] then Some(from)
    else FirstTrue(hits, from + 1)
  }

  /**
   * `re.search(pat, s)` from index `from`: the leftmost index at which a match
   * attempt succeeds, if any.
   */
  function Search(s: string, pat: Pattern, from: nat): (at: Option<nat>)
    requires from <= |s| + 1
    ensures at.Some? ==> from <= at.value <= |s| && MatchAt(s, at.value, pat).Some?
    ensures at.Some? ==> forall k :: from <= k < at.value ==> MatchAt(s, k, pat).None?
    ensures at.None? ==> forall k :: from <= k <= |s| ==> MatchAt(s, k, pat).None?
  {
    var hits := Attempts(s, pat);
    assert forall k | 0 <= k <= |s| :: hits[k] == MatchAt(s, k, pat).Some?;
    FirstTrue(hits, from)
  }

  /** The text of group 2 (or group 1 for the quoted pattern) of the leftmost match, if any. */
  function SearchGroup(s: string, pat: Pattern): (r: Option<string>)
    ensures r.Some? <==> exists k :: 0 <= k <= |s| && MatchAt(s, k, pat).Some?
    ensures r.Some? && pat.PhrasePattern? ==>
      |r.value| >= pat.phrase.minLen && forall j :: 0 <= j < |r.value| ==> InClass(r.value[j], pat.phrase.token)
    ensures r.Some? && pat.QuotedPattern? ==>
      3 <= |r.value| <= 60 && forall j :: 0 <= j < |r.value| ==> r.value[j] != '"'
  {
    match Search(s, pat, 0)
    case None => None
    case Some(at) => Some(GroupText(s, at, pat))
  }

  /** The captured text of a successful match attempt at `i`. */
  function GroupText(s: string, i: nat, pat: Pattern): (g: string)
    requires i <= |s| && MatchAt(s, i, pat).Some?
    ensures g == s[MatchAt(s, i, pat).value.start..MatchAt(s, i, pat).value.end]
    ensures pat.PhrasePattern? ==>
      |g| >= pat.phrase.minLen && forall j :: 0 <= j < |g| ==> InClass(g[j], pat.phrase.token)
    ensures pat.QuotedPattern? ==>
      3 <= |g| <= 60 && forall j :: 0 <= j < |g| ==> g[j] != '"'
  {
    var sp := MatchAt(s, i, pat).value;
    s[sp.start..sp.end]
  }

  /** An optional space, an optional colon and an optional space, after every phrase keyword. */
  const Separators: seq<Atom> := [Space, Lit(':'), Space]

  /**
   * `CONF_RE` as written: "confirmation", then an optional label tried in the
   * order whitespace, `#`, " number ", " no.", the separators, and a run of at
   * least five confirmation characters.
   */
  const ConfirmationRe := Phrase(
    [Literal("confirmation")],
    [[Space], [Lit('#')], [Space] + Literal("number") + [Space], [Space] + Literal("no") + [Lit('.')]],
    Separators, ConfirmationChar, 5)

  /**
   * The confirmation pattern as evidently intended: the label may be `#`
   * with or without a space before it, and the bare-space label is tried
   * last, so a spelled-out label is not taken for the token.
   */
  const ConfirmationIntendedRe := Phrase(
    [Literal("confirmation")],
    [[Space, Lit('#')], [Lit('#')], [Space] + Literal("number") + [Space], [Space] + Literal("no") + [Lit('.')], [Space]],
    Separators, ConfirmationChar, 5)

  /** `HOTEL_RE`: "hotel", "stay" or "accommodation", the separators, and at least three phrase characters. */
  const HotelRe := Phrase([Literal("hotel"), Literal("stay"), Literal("accommodation")], [], Separators, PhraseChar, 3)

  /** `ACTIVITY_RE`: "tour", "activity", "experience" or "ticket", the separators, and at least three phrase characters. */
  const ActivityRe := Phrase([Literal("tour"), Literal("activity"), Literal("experience"), Literal("ticket")], [], Separators, PhraseChar, 3)

  /** `LOCATION_RE`: "in", "at" or "location", the separators, and at least three phrase characters. */
  const LocationRe := Phrase([Literal("in"), Literal("at"), Literal("location")], [], Separators, PhraseChar, 3)

  // ---------------------------------------------------------------------
  // DATE_RE and TIME_RE, used with re.findall

  /** Exactly `n` digits at `k`. */
  predicate DigitsAt(s: string, k: nat, n: nat) {
    k + n <= |s| && forall j :: k <= j < k + n ==> IsDigit(s[j])
  }

  /** A numeric date: four digits, a hyphen, two digits, a hyphen, two digits. */
  function IsoDateEnd(s: string, i: nat): Option<nat> {
    if DigitsAt(s, i, 4) && AtomAt(s, i + 4, Lit('-')) && DigitsAt(s, i + 5, 2)
       && AtomAt(s, i + 7, Lit('-')) && DigitsAt(s, i + 8, 2)
    then Some(i + 10) else None
  }

  /** One or two digits, a space, a 3-to-9-character word, a space and four digits, as in "1 June 2024". */
  function DayMonthYearEnd(s: string, i: nat): Option<nat>
    requires i <= |s|
  {
    var d := Run(s, i, Digit);
    if 1 <= d <= 2 && AtomAt(s, i + d, Space) then
      var w := Run(s, i + d + 1, WordChar);
      if 3 <= w <= 9 && AtomAt(s, i + d + 1 + w, Space) && DigitsAt(s, i + d + w + 2, 4)
      then Some(i + d + w + 6) else None
    else None
  }

  /** A 3-to-9-character word, a space, one or two digits, a comma, a space and four digits, as in "June 1, 2024". */
  function MonthDayYearEnd(s: string, i: nat): Option<nat>
    requires i <= |s|
  {
    var w := Run(s, i, WordChar);
    if 3 <= w <= 9 && AtomAt(s, i + w, Space) then
      var d := Run(s, i + w + 1, Digit);
      if 1 <= d <= 2 && AtomAt(s, i + w + 1 + d, Lit(',')) && AtomAt(s, i + w + d + 2, Space)
         && DigitsAt(s, i + w + d + 3, 4)
      then Some(i + w + d + 7) else None
    else None
  }

  /** `DATE_RE`: the three alternatives, tried in order. */
  function DateEnd(s: string, i: nat): (r: Option<nat>)
    requires i <= |s|
    ensures r.Some? ==> i < r.value <= |s|
    ensures r.Some? ==> !IsSpace(s[i]) && IsDigit(s[r.value - 1])
  {
    var iso := IsoDateEnd(s, i);
    if iso.Some? then iso
    else
      var dmy := DayMonthYearEnd(s, i);
      if dmy.Some? then dmy else MonthDayYearEnd(s, i)
  }

  /** "AM" or "PM", in either case, at `k`. */
  predicate MeridiemAt(s: string, k: nat) {
    k + 1 < |s| && (Lower(s[k]) == 'a' || Lower(s[k]) == 'p') && Lower(s[k + 1]) == 'm'
  }

  /** `TIME_RE`: one or two digits, a colon, two digits, then an optional space and AM/PM, taken when it matches. */
  function TimeEnd(s: string, i: nat): (r: Option<nat>)
    requires i <= |s|
    ensures r.Some? ==> i < r.value <= |s|
    ensures r.Some? ==> IsDigit(s[i]) && !IsSpace(s[r.value - 1])
  {
    var d := Run(s, i, Digit);
    if 1 <= d <= 2 && AtomAt(s, i + d, Lit(':')) && DigitsAt(s, i + d + 1, 2) then
      var e := i + d + 3;
      if AtomAt(s, e, Space) && MeridiemAt(s, e + 1) then Some(e + 3)
      else if MeridiemAt(s, e) then Some(e + 2)
      else Some(e)
    else None
  }

  datatype Scanner = Dates | Times

  function ScanEnd(s: string, i: nat, sc: Scanner): (r: Option<nat>)
    requires i <= |s|
    ensures r.Some? ==> i < r.value <= |s|
    ensures r.Some? ==> Trimmed(s[i..r.value])
  {
    match sc
    case Dates => DateEnd(s, i)
    case Times => TimeEnd(s, i)
  }

  /** The leftmost index from `i` on where a match of the scanner starts. */
  function FirstScan(s: string, i: nat, sc: Scanner): (k: Option<nat>)
    requires i <= |s|
    ensures k.Some? ==> i <= k.value < |s| && ScanEnd(s, k.value, sc).Some?
    ensures k.Some? ==> forall j :: i <= j < k.value ==> ScanEnd(s, j, sc).None?
    ensures k.None? ==> forall j :: i <= j < |s| ==> ScanEnd(s, j, sc).None?
    decreases |s| - i
  {
    if i == |s| then None
    else if ScanEnd(s, i, sc).Some? then Some(i)
    else FirstScan(s, i + 1, sc)
  }

  /** The text of the match that starts at `k`. */
  function ScanText(s: string, k: nat, sc: Scanner): (m: string)
    requires k <= |s| && ScanEnd(s, k, sc).Some?
    ensures Trimmed(m)
    ensures |m| == ScanEnd(s, k, sc).value - k
  {
    s[k..ScanEnd(s, k, sc).value]
  }

  /** Where the second match `findall` reports starts: the leftmost match from the end of the first. */
  function SecondScan(s: string, sc: Scanner): (k: Option<nat>)
    ensures k.Some? ==> FirstScan(s, 0, sc).Some?
    ensures k.Some? ==> ScanEnd(s, FirstScan(s, 0, sc).value, sc).value <= k.value < |s|
    ensures k.Some? ==> ScanEnd(s, k.value, sc).Some?
  {
    match FirstScan(s, 0, sc)
    case None => None
    case Some(first) => FirstScan(s, ScanEnd(s, first, sc).value, sc)
  }

  /**
   * `re.findall(pattern, s)` from index `i`: non-overlapping matches, left to
   * right; after each match the scan goes on from its end.
   */
  function FindAll(s: string, i: nat, sc: Scanner): (r: seq<string>)
    requires i <= |s|
    ensures forall x :: x in r ==> Trimmed(x)
    ensures |r| <= |s| - i
    ensures r != [] <==> FirstScan(s, i, sc).Some?
    ensures r != [] ==> r[0] == ScanText(s, FirstScan(s, i, sc).value, sc)
    decreases |s| - i
  {
    match FirstScan(s, i, sc)
    case None => []
    case Some(k) => [ScanText(s, k, sc)] + FindAll(s, ScanEnd(s, k, sc).value, sc)
  }

  /** `findall` reports a second match exactly when one starts at or after the end of the first, and it is that match. */
  lemma FindAllSecond(s: string, sc: Scanner)
    ensures |FindAll(s, 0, sc)| > 1 <==> SecondScan(s, sc).Some?
    ensures SecondScan(s, sc).Some? ==> FindAll(s, 0, sc)[1] == ScanText(s, SecondScan(s, sc).value, sc)
  {
    if FirstScan(s, 0, sc).Some? {
      var k := FirstScan(s, 0, sc).value;
      var rest := FindAll(s, ScanEnd(s, k, sc).value, sc);
      assert |FindAll(s, 0, sc)| == 1 + |rest|;
      assert |rest| > 0 ==> FindAll(s, 0, sc)[1] == rest[0];
    }
  }

  // ---------------------------------------------------------------------
  // Facts used to work out matches on given texts

  lemma {:induction false} NoAlternative(s: string, k: nat, alts: seq<seq<Atom>>)
    requires forall j :: 0 <= j < |alts| ==> !AtomsAt(s, k, alts[j])
    ensures AlternativeEnds(s, k, alts) == []
  {
    if alts != [] {
      NoAlternative(s, k, alts[1..]);
    }
  }

  /** A phrase cannot match where none of its keywords starts. */
  lemma {:induction false} NoKeywordNoMatch(s: string, i: nat, p: Phrase)
    requires i <= |s|
    requires forall j :: 0 <= j < |p.keywords| ==> !AtomsAt(s, i, p.keywords[j])
    ensures MatchAt(s, i, PhrasePattern(p)).None?
  {
    NoAlternative(s, i, p.keywords);
  }

  /** A run of at least `n` class characters that ends at `k + n`. */
  lemma {:induction false} RunExact(s: string, k: nat, cls: CharClass, n: nat)
    requires k + n <= |s|
    requires forall j :: k <= j < k + n ==> InClass(s[j], cls)
    requires k + n == |s| || !InClass(s[k + n], cls)
    ensures Run(s, k, cls) == n
  {
  }

  /** The first alternative that matches gives the first end tried. */
  lemma {:induction false} AlternativesHead(s: string, k: nat, alts: seq<seq<Atom>>, j: nat)
    requires j < |alts| && AtomsAt(s, k, alts[j])
    requires forall m :: 0 <= m < j ==> !AtomsAt(s, k, alts[m])
    ensures AlternativeEnds(s, k, alts) != [] && AlternativeEnds(s, k, alts)[0] == k + |alts[j]|
  {
    if j > 0 {
      AlternativesHead(s, k, alts[1..], j - 1);
    }
  }

  /** When exactly one alternative matches, it gives the only end. */
  lemma {:induction false} AlternativesOnly(s: string, k: nat, alts: seq<seq<Atom>>, j: nat)
    requires j < |alts| && AtomsAt(s, k, alts[j])
    requires forall m :: 0 <= m < |alts| && m != j ==> !AtomsAt(s, k, alts[m])
    ensures AlternativeEnds(s, k, alts) == [k + |alts[j]|]
  {
    if j > 0 {
      AlternativesOnly(s, k, alts[1..], j - 1);
    } else {
      NoAlternative(s, k, alts[1..]);
    }
  }

  /** The first start tried: after the first keyword, the first label and the greedy separators. */
  lemma {:induction false} TokenStartsHead(s: string, i: nat, p: Phrase)
    requires AlternativeEnds(s, i, p.keywords) != []
    ensures var e := AlternativeEnds(s, i, p.keywords)[0];
      var l := (AlternativeEnds(s, e, p.labels) + [e])[0];
      TokenStarts(s, i, p) != [] && TokenStarts(s, i, p)[0] == OptionalEnds(s, l, p.separators)[0]
  {
  }

  /** The first start, from the first keyword end `e`, the first label end after it (or `e`) and the first separator end. */
  lemma {:induction false} TokenStartsFirst(s: string, i: nat, p: Phrase, e: nat, l: nat, k: nat)
    requires AlternativeEnds(s, i, p.keywords) != [] && AlternativeEnds(s, i, p.keywords)[0] == e
    requires l == if AlternativeEnds(s, e, p.labels) == [] then e else AlternativeEnds(s, e, p.labels)[0]
    requires l <= |s| && OptionalEnds(s, l, p.separators)[0] == k
    ensures TokenStarts(s, i, p) != [] && TokenStarts(s, i, p)[0] == k
  {
    TokenStartsHead(s, i, p);
  }

  // Steps through the separators; the items are passed as a variable so that the
  // verifier does not unfold the matcher on a literal sequence.

  lemma {:induction false} OptionalSpace(s: string, k: nat, items: seq<Atom>)
    requires k < |s| && items == [Space]
    ensures !IsSpace(s[k]) ==> OptionalEnds(s, k, items) == [k]
    ensures IsSpace(s[k]) ==> OptionalEnds(s, k, items) == [k + 1, k]
  {
    assert items[1..] == [];
  }

  lemma {:induction false} OptionalColonSpace(s: string, k: nat, items: seq<Atom>)
    requires k < |s| && items == [Lit(':'), Space]
    ensures !IsSpace(s[k]) && s[k] != ':' ==> OptionalEnds(s, k, items) == [k]
    ensures IsSpace(s[k]) ==> OptionalEnds(s, k, items) == [k + 1, k]
    ensures s[k] == ':' && k + 1 < |s| && IsSpace(s[k + 1]) ==> OptionalEnds(s, k, items)[0] == k + 2
  {
    var tail := items[1..];
    assert tail == [Space];
    OptionalSpace(s, k, tail);
    assert !AtomAt(s, k, items[0]) <==> s[k] != ':';
    if s[k] == ':' && k + 1 < |s| {
      OptionalSpace(s, k + 1, tail);
    }
  }

  /** No separator character at `k`: the run can only start there. */
  lemma {:induction false} SeparatorsNone(s: string, k: nat)
    requires k < |s| && !IsSpace(s[k]) && s[k] != ':'
    ensures OptionalEnds(s, k, Separators) == [k]
  {
    OptionalColonSpace(s, k, Separators[1..]);
  }

  /** One whitespace character at `k`: the run starts after it, or else at it. */
  lemma {:induction false} SeparatorsSpace(s: string, k: nat)
    requires k + 1 < |s| && IsSpace(s[k]) && !IsSpace(s[k + 1]) && s[k + 1] != ':'
    ensures OptionalEnds(s, k, Separators) == [k + 1, k + 1, k]
  {
    assert Separators[1..] == [Lit(':'), Space];
    SeparatorsSpaceSteps(s, k, Separators);
  }

  lemma {:induction false} SeparatorsSpaceSteps(s: string, k: nat, items: seq<Atom>)
    requires k + 1 < |s| && IsSpace(s[k]) && !IsSpace(s[k + 1]) && s[k + 1] != ':'
    requires |items| == 3 && items[0] == Space && items[1..] == [Lit(':'), Space]
    ensures OptionalEnds(s, k, items) == [k + 1, k + 1, k]
  {
    assert AtomAt(s, k, items[0]);
    var tail := items[1..];
    OptionalColonSpace(s, k + 1, tail);
    OptionalColonSpace(s, k, tail);
    var a, b := OptionalEnds(s, k + 1, tail), OptionalEnds(s, k, tail);
    assert a == [k + 1] && b == [k + 1, k];
    assert OptionalEnds(s, k, items) == a + b;
    assert a + b == [k + 1, k + 1, k];
  }

  /** `: ` at `k`: the run is first tried after both. */
  lemma {:induction false} SeparatorsColonSpace(s: string, k: nat)
    requires k + 1 < |s| && s[k] == ':' && IsSpace(s[k + 1])
    ensures OptionalEnds(s, k, Separators)[0] == k + 2
  {
    OptionalColonSpace(s, k, Separators[1..]);
  }

  /** A match attempt whose first start has a long enough run succeeds there. */
  lemma {:induction false} MatchAtFirstStart(s: string, i: nat, p: Phrase)
    requires i <= |s|
    requires TokenStarts(s, i, p) != []
    requires Run(s, TokenStarts(s, i, p)[0], p.token) >= p.minLen
    ensures var st := TokenStarts(s, i, p)[0];
      MatchAt(s, i, PhrasePattern(p)) == Some(Span(st, st + Run(s, st, p.token)))
  {
    var starts := TokenStarts(s, i, p);
    MatchAtPhrase(s, i, p);
    assert FirstToken(s, starts, p.token, p.minLen) == Some(Span(starts[0], starts[0] + Run(s, starts[0], p.token)));
  }

  lemma MatchAtPhrase(s: string, i: nat, p: Phrase)
    requires i <= |s|
    ensures MatchAt(s, i, PhrasePattern(p)) == FirstToken(s, TokenStarts(s, i, p), p.token, p.minLen)
  {
  }

  /** A pattern that matches at index 0 is the one `re.search` reports. */
  lemma {:induction false} SearchAtStart(s: string, pat: Pattern)
    requires MatchAt(s, 0, pat).Some?
    ensures var sp := MatchAt(s, 0, pat).value;
      SearchGroup(s, pat) == Some(s[sp.start..sp.end])
  {
    assert Search(s, pat, 0) == Some(0);
  }

  /** When the first start tried begins a maximal run of `n >= minLen` class characters, that run is the group. */
  lemma {:induction false} GroupFromFirstStart(s: string, p: Phrase, st: nat, n: nat)
    requires TokenStarts(s, 0, p) != [] && TokenStarts(s, 0, p)[0] == st
    requires st + n <= |s| && n >= p.minLen
    requires forall j :: st <= j < st + n ==> InClass(s[j], p.token)
    requires st + n == |s| || !InClass(s[st + n], p.token)
    ensures SearchGroup(s, PhrasePattern(p)) == Some(s[st..st + n])
  {
    RunExact(s, st, p.token, n);
    MatchAtFirstStart(s, 0, p);
    var sp := MatchAt(s, 0, PhrasePattern(p)).value;
    assert sp.start == st && sp.end == st + n;
    SearchAtStart(s, PhrasePattern(p));
    assert SearchGroup(s, PhrasePattern(p)) == Some(s[sp.start..sp.end]);
    assert s[sp.start..sp.end] == s[st..st + n];
  }

  /** The same, for a text `pre + t + rest` whose first start tried is right after `pre`. */
  lemma {:induction false} GroupAfterPrefix(pre: string, t: string, rest: string, p: Phrase)
    requires TokenStarts(pre + t + rest, 0, p) != [] && TokenStarts(pre + t + rest, 0, p)[0] == |pre|
    requires |t| >= p.minLen && forall j :: 0 <= j < |t| ==> InClass(t[j], p.token)
    requires rest == [] || !InClass(rest[0], p.token)
    ensures SearchGroup(pre + t + rest, PhrasePattern(p)) == Some(t)
  {
    var s := pre + t + rest;
    assert forall j :: |pre| <= j < |pre| + |t| ==> s[j] == t[j - |pre|];
    assert |pre| + |t| < |s| ==> s[|pre| + |t|] == rest[0];
    GroupFromFirstStart(s, p, |pre|, |t|);
    assert s[|pre|..|pre| + |t|] == t;
  }

  /** Every alternative that matches at `k` contributes its end. */
  lemma {:induction false} AlternativeEndsHas(s: string, k: nat, alts: seq<seq<Atom>>, j: nat)
    requires j < |alts| && AtomsAt(s, k, alts[j])
    ensures k + |alts[j]| in AlternativeEnds(s, k, alts)
    decreases j
  {
    if j > 0 {
      assert alts[1..][j - 1] == alts[j];
      AlternativeEndsHas(s, k, alts[1..], j - 1);
    }
  }

  /** Skipping every optional item is always one of the paths. */
  lemma {:induction false} OptionalEndsSkipAll(s: string, k: nat, items: seq<Atom>)
    requires k <= |s|
    ensures k in OptionalEnds(s, k, items)
    decreases |items|
  {
    if items != [] {
      OptionalEndsSkipAll(s, k, items[1..]);
    }
  }

  /** Each end, with all separators skipped, is a start of the captured run. */
  lemma {:induction false} SeparatorStartsHas(s: string, ends: seq<nat>, seps: seq<Atom>, m: nat)
    requires forall j :: 0 <= j < |ends| ==> ends[j] <= |s|
    requires m < |ends|
    ensures ends[m] in SeparatorStarts(s, ends, seps)
    decreases m
  {
    if m == 0 {
      OptionalEndsSkipAll(s, ends[0], seps);
    } else {
      SeparatorStartsHas(s, ends[1..], seps, m - 1);
    }
  }

  /** Each keyword end, with the label and all separators skipped, is a start of the captured run. */
  lemma {:induction false} LabelStartsHas(s: string, ends: seq<nat>, p: Phrase, m: nat)
    requires forall j :: 0 <= j < |ends| ==> ends[j] <= |s|
    requires m < |ends|
    ensures ends[m] in LabelStarts(s, ends, p)
    decreases m
  {
    if m == 0 {
      var labelEnds := AlternativeEnds(s, ends[0], p.labels) + [ends[0]];
      SeparatorStartsHas(s, labelEnds, p.separators, |labelEnds| - 1);
    } else {
      LabelStartsHas(s, ends[1..], p, m - 1);
    }
  }

  /**
   * A phrase matches wherever one of its keywords occurs followed directly by
   * a long enough run of its class: nothing is required before the keyword,
   * so a keyword inside a longer word starts a match too.
   */
  lemma KeywordThenRunMatches(s: string, i: nat, p: Phrase, j: nat)
    requires j < |p.keywords| && AtomsAt(s, i, p.keywords[j])
    requires Run(s, i + |p.keywords[j]|, p.token) >= p.minLen
    ensures MatchAt(s, i, PhrasePattern(p)).Some?
  {
    var e := i + |p.keywords[j]|;
    var kw := AlternativeEnds(s, i, p.keywords);
    AlternativeEndsHas(s, i, p.keywords, j);
    var m :| 0 <= m < |kw| && kw[m] == e;
    LabelStartsHas(s, kw, p, m);
    var starts := TokenStarts(s, i, p);
    var n :| 0 <= n < |starts| && starts[n] == e;
    MatchAtPhrase(s, i, p);
  }

  /** With a single keyword end `e`, the starts are those after the labels at `e` (or none). */
  lemma {:induction false} TokenStartsOneKeyword(s: string, i: nat, p: Phrase, e: nat)
    requires e <= |s| && AlternativeEnds(s, i, p.keywords) == [e]
    ensures TokenStarts(s, i, p) == SeparatorStarts(s, AlternativeEnds(s, e, p.labels) + [e], p.separators)
  {
    var kw := AlternativeEnds(s, i, p.keywords);
    assert kw[1..] == [];
    assert LabelStarts(s, kw[1..], p) == [];
  }

  lemma {:induction false} SeparatorStartsPair(s: string, a: nat, b: nat, seps: seq<Atom>)
    requires a <= |s| && b <= |s|
    ensures SeparatorStarts(s, [a, b], seps) == OptionalEnds(s, a, seps) + OptionalEnds(s, b, seps)
  {
    var ends := [a, b];
    assert ends[1..] == [b] && ends[1..][1..] == [];
    assert SeparatorStarts(s, [b], seps) == OptionalEnds(s, b, seps) + SeparatorStarts(s, [], seps);
  }

  /** With a single keyword end `e` and a single label end `l`, the starts are the separator paths from `l`, then from `e`. */
  lemma {:induction false} TokenStartsOneLabel(s: string, i: nat, p: Phrase, e: nat, l: nat)
    requires e <= |s| && l <= |s|
    requires AlternativeEnds(s, i, p.keywords) == [e] && AlternativeEnds(s, e, p.labels) == [l]
    ensures TokenStarts(s, i, p) == OptionalEnds(s, l, p.separators) + OptionalEnds(s, e, p.separators)
  {
    TokenStartsOneKeyword(s, i, p, e);
    assert AlternativeEnds(s, e, p.labels) + [e] == [l, e];
    SeparatorStartsPair(s, l, e, p.separators);
  }
}
