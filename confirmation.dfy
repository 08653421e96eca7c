/**
 * `extract_confirmation`: the confirmation number is the token captured by
 * the confirmation pattern, as the code has it and as evidently intended,
 * with the inputs on which the two differ.
 */
module Confirmation {
  import opened Wrappers
  import opened Text
  import opened Patterns

  /** Stripping a run of confirmation characters leaves it as it is: the class has no whitespace. */
  lemma {:induction false} StripConfirmationToken(g: string)
    requires forall j :: 0 <= j < |g| ==> InClass(g[j], ConfirmationChar)
    ensures Strip(g) == g
  {
    StripSpec(g);
    if g != [] {
      assert InClass(g[0], ConfirmationChar) && InClass(g[|g| - 1], ConfirmationChar);
    }
  }

  /** A confirmation token: five or more letters, digits or hyphens. */
  predicate ConfirmationToken(t: string) {
    |t| >= 5 && forall j :: 0 <= j < |t| ==> InClass(t[j], ConfirmationChar)
  }

  /** `extract_confirmation` as written: group 2 of the leftmost `CONF_RE` match, stripped. */
  function ExtractConfirmationAsWritten(text: string): (r: Option<string>)
    ensures r == SearchGroup(text, PhrasePattern(ConfirmationRe))
    ensures r.Some? ==> ConfirmationToken(r.value)
  {
    var g := SearchGroup(text, PhrasePattern(ConfirmationRe));
    if g.None? then None
    else
      StripConfirmationToken(g.value);
      Some(Strip(g.value))
  }

  /** `extract_confirmation` with the label alternatives as evidently intended (see `ConfirmationIntendedRe`). */
  function ExtractConfirmationIntended(text: string): (r: Option<string>)
    ensures r == SearchGroup(text, PhrasePattern(ConfirmationIntendedRe))
    ensures r.Some? ==> ConfirmationToken(r.value)
  {
    var g := SearchGroup(text, PhrasePattern(ConfirmationIntendedRe));
    if g.None? then None
    else
      StripConfirmationToken(g.value);
      Some(Strip(g.value))
  }

  /** The keyword `confirmation` at the start of `s`, in any case. */
  lemma {:induction false} KeywordAtStart(s: string, p: Phrase)
    requires |s| >= 12 && s[..12] == "Confirmation"
    requires p.keywords == [Literal("confirmation")]
    ensures AlternativeEnds(s, 0, p.keywords) == [12]
  {
    var kw := p.keywords[0];
    forall j | 0 <= j < 12
      ensures AtomAt(s, j, kw[j])
    {
      assert s[j] == s[..12][j];
    }
    AlternativesOnly(s, 0, p.keywords, 0);
  }

  /** Neither pattern matches at an index where no `c` or `C` starts. */
  lemma {:induction false} NoKeywordAt(s: string, k: nat)
    requires k <= |s| && (k < |s| ==> s[k] != 'c' && s[k] != 'C')
    ensures MatchAt(s, k, PhrasePattern(ConfirmationRe)).None?
    ensures MatchAt(s, k, PhrasePattern(ConfirmationIntendedRe)).None?
  {
    if k < |s| {
      assert !AtomAt(s, k, ConfirmationRe.keywords[0][0]);
    }
    NoKeywordNoMatch(s, k, ConfirmationRe);
    NoKeywordNoMatch(s, k, ConfirmationIntendedRe);
  }

  // "Confirmation: <token>", the form both versions read.

  /** Every label alternative starts with whitespace or `#`. */
  predicate LabelsAfterSpaceOrHash(labels: seq<seq<Atom>>) {
    forall j :: 0 <= j < |labels| ==> labels[j] != [] && (labels[j][0] == Space || labels[j][0] == Lit('#'))
  }

  lemma ConfirmationLabels()
    ensures LabelsAfterSpaceOrHash(ConfirmationRe.labels)
    ensures LabelsAfterSpaceOrHash(ConfirmationIntendedRe.labels)
  {
    var ls, ms := ConfirmationRe.labels, ConfirmationIntendedRe.labels;
    assert |ls| == 4 && |ms| == 5;
    assert ls[0][0] == Space && ls[1][0] == Lit('#') && ls[2][0] == Space && ls[3][0] == Space;
    assert ms[0][0] == Space && ms[1][0] == Lit('#') && ms[2][0] == Space && ms[3][0] == Space && ms[4][0] == Space;
  }

  lemma {:induction false} ColonStart(s: string, p: Phrase)
    requires |s| > 14 && s[..14] == "Confirmation: "
    requires p.keywords == [Literal("confirmation")] && p.separators == Separators
    requires LabelsAfterSpaceOrHash(p.labels)
    ensures TokenStarts(s, 0, p) != [] && TokenStarts(s, 0, p)[0] == 14
  {
    ColonPrefix(s);
    KeywordAtStart(s, p);
    NoLabelAtColon(s, 12, p.labels);
    SeparatorsColonSpace(s, 12);
    TokenStartsFirst(s, 0, p, 12, 12, 14);
  }

  lemma {:induction false} ColonPrefix(s: string)
    requires |s| > 14 && s[..14] == "Confirmation: "
    ensures s[..12] == "Confirmation" && s[12] == ':' && s[13] == ' '
  {
    assert s[..12] == s[..14][..12];
    assert s[12] == s[..14][12] && s[13] == s[..14][13];
  }

  /** No label starts at a colon. */
  lemma {:induction false} NoLabelAtColon(s: string, k: nat, labels: seq<seq<Atom>>)
    requires k < |s| && s[k] == ':'
    requires LabelsAfterSpaceOrHash(labels)
    ensures AlternativeEnds(s, k, labels) == []
  {
    forall j | 0 <= j < |labels|
      ensures !AtomsAt(s, k, labels[j])
    {
      assert !AtomAt(s, k, labels[j][0]);
    }
    NoAlternative(s, k, labels);
  }

  lemma {:induction false} ColonGroup(t: string, rest: string, p: Phrase)
    requires ConfirmationToken(t)
    requires rest == [] || !InClass(rest[0], ConfirmationChar)
    requires p.keywords == [Literal("confirmation")] && p.separators == Separators
    requires p.token == ConfirmationChar && p.minLen == 5
    requires LabelsAfterSpaceOrHash(p.labels)
    ensures SearchGroup("Confirmation: " + t + rest, PhrasePattern(p)) == Some(t)
  {
    var pre := "Confirmation: ";
    assert (pre + t + rest)[..14] == pre;
    ColonStart(pre + t + rest, p);
    GroupAfterPrefix(pre, t, rest, p);
  }

  /** "Confirmation: " and a token: both versions report the token. */
  lemma ConfirmationAfterColon(t: string, rest: string)
    requires ConfirmationToken(t)
    requires rest == [] || !InClass(rest[0], ConfirmationChar)
    ensures ExtractConfirmationAsWritten("Confirmation: " + t + rest) == Some(t)
    ensures ExtractConfirmationIntended("Confirmation: " + t + rest) == Some(t)
  {
    ConfirmationLabels();
    ColonGroup(t, rest, ConfirmationRe);
    ColonGroup(t, rest, ConfirmationIntendedRe);
  }

  // "Confirmation #: <token>": the code tries `#` only right after the keyword.

  lemma {:induction false} HashPrefix(s: string)
    requires |s| > 16 && s[..16] == "Confirmation #: "
    ensures s[..12] == "Confirmation" && s[12] == ' ' && s[13] == '#' && s[14] == ':' && s[15] == ' '
  {
    assert s[..12] == s[..16][..12];
  }

  /** After the keyword, a space then `#`: of the labels in the code only the bare space matches. */
  lemma {:induction false} AsWrittenLabelsBeforeHash(s: string)
    requires |s| > 14 && s[12] == ' ' && s[13] == '#'
    ensures AlternativeEnds(s, 12, ConfirmationRe.labels) == [13]
  {
    var p := ConfirmationRe;
    assert !AtomAt(s, 12, p.labels[1][0]);
    assert !AtomAt(s, 13, p.labels[2][1]);
    assert !AtomAt(s, 13, p.labels[3][1]);
    AlternativesOnly(s, 12, p.labels, 0);
  }

  lemma {:induction false} HashAsWrittenStarts(s: string)
    requires |s| > 16 && s[..12] == "Confirmation" && s[12] == ' ' && s[13] == '#'
    ensures TokenStarts(s, 0, ConfirmationRe) == [13, 13, 13, 12]
  {
    var p := ConfirmationRe;
    KeywordAtStart(s, p);
    AsWrittenLabelsBeforeHash(s);
    TokenStartsOneLabel(s, 0, p, 12, 13);
    SeparatorsNone(s, 13);
    SeparatorsSpace(s, 12);
    StartsConcat(OptionalEnds(s, 13, Separators), OptionalEnds(s, 12, Separators));
  }

  lemma StartsConcat(a: seq<nat>, b: seq<nat>)
    requires a == [13] && b == [13, 13, 12]
    ensures a + b == [13, 13, 13, 12]
  {
  }

  lemma {:induction false} HashMissedAtStart(s: string)
    requires |s| > 16 && s[..12] == "Confirmation" && s[12] == ' ' && s[13] == '#'
    ensures MatchAt(s, 0, PhrasePattern(ConfirmationRe)).None?
  {
    HashAsWrittenStarts(s);
    HashRuns(s);
    MatchAtPhrase(s, 0, ConfirmationRe);
    assert ConfirmationRe.token == ConfirmationChar && ConfirmationRe.minLen == 5;
  }

  lemma HashRuns(s: string)
    requires |s| > 16 && s[12] == ' ' && s[13] == '#'
    ensures Run(s, 12, ConfirmationChar) == 0 && Run(s, 13, ConfirmationChar) == 0
  {
  }

  /** Only index 0 of `"Confirmation #: " + t` holds a `c`, when `t` has none. */
  lemma {:induction false} OnlyLeadingC(t: string)
    requires forall j :: 0 <= j < |t| ==> t[j] != 'c' && t[j] != 'C'
    ensures forall k :: 1 <= k < |"Confirmation #: " + t| ==>
      ("Confirmation #: " + t)[k] != 'c' && ("Confirmation #: " + t)[k] != 'C'
  {
    var pre := "Confirmation #: ";
    assert forall k :: 1 <= k < |pre| ==> pre[k] != 'c' && pre[k] != 'C';
  }

  /** As written, "Confirmation #: " followed by a token yields no confirmation number (when no later `c` starts a match). */
  lemma {:induction false} HashLabelMissed(t: string)
    requires t != []
    requires forall j :: 0 <= j < |t| ==> t[j] != 'c' && t[j] != 'C'
    ensures ExtractConfirmationAsWritten("Confirmation #: " + t) == None
  {
    var s := "Confirmation #: " + t;
    assert s[..16] == "Confirmation #: ";
    HashPrefix(s);
    HashMissedAtStart(s);
    OnlyLeadingC(t);
    forall k | 1 <= k <= |s|
      ensures MatchAt(s, k, PhrasePattern(ConfirmationRe)).None?
    {
      NoKeywordAt(s, k);
    }
  }

  lemma {:induction false} HashIntendedStart(s: string)
    requires |s| > 16 && s[..16] == "Confirmation #: "
    ensures TokenStarts(s, 0, ConfirmationIntendedRe) != [] && TokenStarts(s, 0, ConfirmationIntendedRe)[0] == 16
  {
    var p := ConfirmationIntendedRe;
    KeywordAtStart(s, p);
    assert s[12] == s[..16][12] == ' ' && s[13] == s[..16][13] == '#';
    assert s[14] == s[..16][14] == ':' && s[15] == s[..16][15] == ' ';
    assert AtomsAt(s, 12, p.labels[0]);
    AlternativesHead(s, 12, p.labels, 0);
    SeparatorsColonSpace(s, 14);
    TokenStartsHead(s, 0, p);
  }

  /** Corrected: "Confirmation #: " followed by a token yields the token. */
  lemma {:induction false} HashLabelRead(t: string, rest: string)
    requires ConfirmationToken(t)
    requires rest == [] || !InClass(rest[0], ConfirmationChar)
    ensures ExtractConfirmationIntended("Confirmation #: " + t + rest) == Some(t)
  {
    var pre := "Confirmation #: ";
    assert (pre + t + rest)[..16] == pre;
    HashIntendedStart(pre + t + rest);
    GroupAfterPrefix(pre, t, rest, ConfirmationIntendedRe);
  }

  // "Confirmation number <token>": the code takes the bare-space label first.

  lemma {:induction false} NumberAsWrittenStart(s: string)
    requires |s| >= 20 && s[..12] == "Confirmation" && s[12] == ' ' && s[13] == 'n'
    ensures TokenStarts(s, 0, ConfirmationRe) != [] && TokenStarts(s, 0, ConfirmationRe)[0] == 13
  {
    var p := ConfirmationRe;
    KeywordAtStart(s, p);
    assert AtomsAt(s, 12, p.labels[0]);
    AlternativesHead(s, 12, p.labels, 0);
    SeparatorsNone(s, 13);
    TokenStartsHead(s, 0, p);
  }

  /** As written, "Confirmation number " yields the word "number" itself, whatever follows. */
  lemma {:induction false} NumberLabelCaptured(rest: string)
    ensures ExtractConfirmationAsWritten("Confirmation number " + rest) == Some("number")
  {
    NumberGroupAsWritten(rest);
  }

  lemma {:induction false} NumberGroupAsWritten(rest: string)
    ensures SearchGroup("Confirmation number " + rest, PhrasePattern(ConfirmationRe)) == Some("number")
  {
    var pre, t, tail := "Confirmation ", "number", " " + rest;
    NumberPrefix(rest);
    NumberAsWrittenStart(pre + t + tail);
    NumberIsToken(t);
    assert !InClass(' ', ConfirmationChar);
    GroupAfterPrefix(pre, t, tail, ConfirmationRe);
  }

  lemma {:induction false} NumberPrefix(rest: string)
    ensures var s := "Confirmation " + "number" + (" " + rest);
      && s == "Confirmation number " + rest && |s| >= 20
      && s[..12] == "Confirmation" && s[12] == ' ' && s[13] == 'n' && (" " + rest)[0] == ' '
  {
    var s := "Confirmation " + "number" + (" " + rest);
    assert s[..12] == "Confirmation";
  }

  lemma NumberIsToken(t: string)
    requires t == "number"
    ensures ConfirmationToken(t)
  {
    assert forall j :: 0 <= j < |t| ==> 'a' <= t[j] <= 'z';
  }

  lemma {:induction false} NumberIntendedStart(s: string)
    requires |s| > 20 && s[..20] == "Confirmation number " && !IsSpace(s[20]) && s[20] != ':'
    ensures TokenStarts(s, 0, ConfirmationIntendedRe) != [] && TokenStarts(s, 0, ConfirmationIntendedRe)[0] == 20
  {
    var p := ConfirmationIntendedRe;
    KeywordAtStart(s, p);
    forall j | 12 <= j < 20
      ensures s[j] == "Confirmation number "[j]
    {
      assert s[j] == s[..20][j];
    }
    assert !AtomAt(s, 13, p.labels[0][1]);
    assert !AtomAt(s, 12, p.labels[1][0]);
    assert AtomsAt(s, 12, p.labels[2]);
    AlternativesHead(s, 12, p.labels, 2);
    SeparatorsNone(s, 20);
    TokenStartsHead(s, 0, p);
  }

  /** Corrected: "Confirmation number " followed by a token yields the token. */
  lemma {:induction false} NumberLabelRead(t: string, rest: string)
    requires ConfirmationToken(t)
    requires rest == [] || !InClass(rest[0], ConfirmationChar)
    ensures ExtractConfirmationIntended("Confirmation number " + t + rest) == Some(t)
  {
    var pre := "Confirmation number ";
    var s := pre + t + rest;
    assert s[..20] == pre && s[20] == t[0];
    assert InClass(t[0], ConfirmationChar);
    NumberIntendedStart(s);
    GroupAfterPrefix(pre, t, rest, ConfirmationIntendedRe);
  }
}
