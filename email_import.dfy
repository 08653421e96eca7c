/**
 * `import_gmail_to_reservations`: fetch, parse, normalise, attach the
 * time hints to `details`, and turn ISO-like hints into `start_time` and
 * `end_time`.
 */
module EmailImport {
  import opened Wrappers
  import opened Text
  import opened IsoDateTime
  import opened Values
  import opened Base
  import opened Gmail

  /** A reservation dict whose `details`, if present, is a dict (the code calls `.get` on it). */
  predicate DetailsAreDict(r: map<string, Value>) {
    "details" !in r || r["details"].Dict?
  }

  /** The dict handed to `normalize`: the parsed fields with the import's own defaults. */
  function NormalizeInput(r: map<string, Value>): map<string, Value> {
    map[
      "provider" := Get(r, "provider", Str("email")),
      "category" := Get(r, "category", Str("other")),
      "title" := Get(r, "title", Str("Reservation")),
      "location" := Get(r, "location", Null),
      "confirmation_number" := Get(r, "confirmation_number", Null),
      "details" := Get(r, "details", Dict(map[]))]
  }

  /** The normalised reservation, with `source` overridden to "email". */
  function BaseItem(r: map<string, Value>): (item: map<string, Value>)
    requires DetailsAreDict(r)
    ensures item.Keys == ReservationKeys
    ensures item["source"] == Str("email")
    ensures item["details"].Dict?
  {
    Normalize(NormalizeInput(r))["source" := Str("email")]
  }

  /** The dict's `details` entries. */
  function Details(item: map<string, Value>): map<string, Value>
    requires "details" in item && item["details"].Dict?
  {
    item["details"].entries
  }

  /** When either hint is truthy, both are written into `details` (possibly as `None`). */
  function WithHints(item: map<string, Value>, r: map<string, Value>): (out: map<string, Value>)
    requires "details" in item && item["details"].Dict?
    ensures out.Keys == item.Keys
    ensures out["details"].Dict?
    ensures forall k | k in item && k != "details" :: out[k] == item[k]
  {
    var st := Get(r, "start_time_hint", Null);
    var et := Get(r, "end_time_hint", Null);
    if Truthy(st) || Truthy(et) then
      item["details" := Dict(Details(item)["start_time_hint" := st]["end_time_hint" := et])]
    else item
  }

  /** The pre-check before parsing: at least ten characters, of which the first ten hold exactly two hyphens. */
  predicate IsoGate(v: string) {
    |v| >= 10 && CountChar(v[..10], '-') == 2
  }

  /** The attempted conversion of a string hint; `None` when the gate refuses it or `fromisoformat` raises. */
  function CoerceHint(v: string): (r: Option<DateTime>)
    ensures r.Some? ==> Valid(r.value)
  {
    if IsoGate(v) then ParseIso(ReplaceChar(v, 'Z', "+00:00")) else None
  }

  /** The field a hint key fills. */
  function TargetKey(key: string): string {
    if key == "start_time_hint" then "start_time" else "end_time"
  }

  /** One pass of the coercion loop: a string hint that converts sets its target field. */
  function CoerceKey(item: map<string, Value>, key: string): (out: map<string, Value>)
    requires "details" in item && item["details"].Dict?
    ensures out.Keys == item.Keys + (if out == item then {} else {TargetKey(key)})
    ensures forall k | k in item && k != TargetKey(key) :: out[k] == item[k]
    ensures "details" in out && out["details"] == item["details"]
  {
    var val := Get(Details(item), key, Null);
    if val.Str? then
      match CoerceHint(val.s)
      case Some(dt) =>
        if key == "start_time_hint" then item["start_time" := Time(dt)] else item["end_time" := Time(dt)]
      case None => item
    else item
  }

  /** The two hint keys, in the order the loop visits them. */
  const HintKeys: seq<string> := ["start_time_hint", "end_time_hint"]

  /** The coercion loop over a prefix of the keys. */
  function CoerceKeys(item: map<string, Value>, keys: seq<string>): (out: map<string, Value>)
    requires "details" in item && item["details"].Dict?
    ensures "details" in out && out["details"] == item["details"]
    ensures item.Keys <= out.Keys
    ensures "start_time" in item && "end_time" in item ==> out.Keys == item.Keys
    ensures forall k | k in item && k != "start_time" && k != "end_time" :: out[k] == item[k]
    decreases |keys|
  {
    if keys == [] then item else CoerceKey(CoerceKeys(item, keys[..|keys| - 1]), keys[|keys| - 1])
  }

  lemma CoerceKeysSnoc(item: map<string, Value>, keys: seq<string>, j: nat)
    requires "details" in item && item["details"].Dict?
    requires j < |keys|
    ensures CoerceKeys(item, keys[..j + 1]) == CoerceKey(CoerceKeys(item, keys[..j]), keys[j])
  {
    assert keys[..j + 1][..j] == keys[..j];
  }

  /** What one parsed reservation becomes. */
  function ImportItem(r: map<string, Value>): map<string, Value>
    requires DetailsAreDict(r)
  {
    CoerceKeys(WithHints(BaseItem(r), r), HintKeys)
  }

  /** `ImportItem` as a function value, for mapping over a list whose every `details` is a dict. */
  function Importer(): map<string, Value> -> map<string, Value> {
    r => if DetailsAreDict(r) then ImportItem(r) else r
  }

  /** The items of a list of reservations, in order. */
  function ImportAll(rs: seq<map<string, Value>>): (items: seq<map<string, Value>>)
    requires forall i | 0 <= i < |rs| :: DetailsAreDict(rs[i])
    ensures |items| == |rs|
  {
    MapSeq(rs, Importer())
  }

  lemma ImporterApply(r: map<string, Value>)
    requires DetailsAreDict(r)
    ensures Importer()(r) == ImportItem(r)
  {
  }

  /** The `i`-th item is the `i`-th reservation imported. */
  lemma ImportAllAt(rs: seq<map<string, Value>>, i: nat)
    requires forall k | 0 <= k < |rs| :: DetailsAreDict(rs[k])
    requires i < |rs|
    ensures ImportAll(rs)[i] == ImportItem(rs[i])
  {
    MapSeqAt(rs, Importer(), i);
    ImporterApply(rs[i]);
  }

  // ---------------------------------------------------------------------
  // The loop

  /** One pass of the coercion loop, for hint key `key`. */
  method CoerceStep(item: map<string, Value>, key: string) returns (out: map<string, Value>)
    requires "details" in item && item["details"].Dict?
    ensures out == CoerceKey(item, key)
  {
    out := item;
    var val := Get(item["details"].entries, key, Null);
    if val.Str? {
      if |val.s| >= 10 && CountChar(val.s[..10], '-') == 2 {
        var dt := ParseIso(ReplaceChar(val.s, 'Z', "+00:00"));
        if dt.Some? {
          if key == "start_time_hint" {
            out := item["start_time" := Time(dt.value)];
          } else {
            out := item["end_time" := Time(dt.value)];
          }
        }
      }
    }
  }

  /** The coercion loop, over the given keys in order. */
  method CoerceAll(hinted: map<string, Value>, keys: seq<string>) returns (item: map<string, Value>)
    requires "details" in hinted && hinted["details"].Dict?
    ensures item == CoerceKeys(hinted, keys)
  {
    item := hinted;
    var j := 0;
    while j < |keys|
      invariant 0 <= j <= |keys|
      invariant item == CoerceKeys(hinted, keys[..j])
    {
      item := CoerceStep(item, keys[j]);
      CoerceKeysSnoc(hinted, keys, j);
      j := j + 1;
    }
    assert keys[..j] == keys;
  }

  /** The body of the import loop for one reservation. */
  method ImportOne(r: map<string, Value>) returns (item: map<string, Value>)
    requires DetailsAreDict(r)
    ensures item == ImportItem(r)
  {
    item := BaseItem(r);
    var st := Get(r, "start_time_hint", Null);
    var et := Get(r, "end_time_hint", Null);
    if Truthy(st) || Truthy(et) {
      // `setdefault` never adds anything: `normalize` always sets `details`.
      var details := item["details"].entries;
      item := item["details" := Dict(details["start_time_hint" := st]["end_time_hint" := et])];
    }
    assert item == WithHints(BaseItem(r), r);
    item := CoerceAll(item, HintKeys);
  }

  /** The loop of `import_gmail_to_reservations`: one item per reservation, in order. */
  method ImportReservations(reservations: seq<map<string, Value>>) returns (normalized: seq<map<string, Value>>)
    requires forall i | 0 <= i < |reservations| :: DetailsAreDict(reservations[i])
    ensures normalized == ImportAll(reservations)
  {
    normalized := [];
    var i := 0;
    while i < |reservations|
      invariant 0 <= i <= |reservations|
      invariant normalized == MapSeq(reservations[..i], Importer())
    {
      var item := ImportOne(reservations[i]);
      normalized := normalized + [item];
      ImporterApply(reservations[i]);
      MapSeqSnoc(reservations, Importer(), i);
      i := i + 1;
    }
    assert reservations[..i] == reservations;
  }

  /**
   * `import_gmail_to_reservations`: fetch, parse, then normalise every
   * reservation; every fetched message yields exactly one item, in order.
   */
  method ImportGmailToReservations(providerHint: Option<string>, rawMessages: Option<seq<Message>>)
    returns (normalized: seq<map<string, Value>>)
    ensures |normalized| == |FetchMessages(rawMessages)|
    ensures forall i | 0 <= i < |normalized| :: DetailsAreDict(Reservations(FetchMessages(rawMessages), providerHint)[i])
    ensures normalized == ImportAll(Reservations(FetchMessages(rawMessages), providerHint))
  {
    var messages := FetchMessages(rawMessages);
    var reservations := MessagesToReservations(messages, providerHint);
    forall i | 0 <= i < |reservations|
      ensures DetailsAreDict(reservations[i])
    {
      ReservationsShape(messages, providerHint, i);
    }
    normalized := ImportReservations(reservations);
  }
}

module EmailImportProperties {
  import opened Wrappers
  import opened Text
  import opened IsoDateTime
  import opened Values
  import opened Base
  import opened Gmail
  import opened EmailImport

  // ---------------------------------------------------------------------
  // The ISO gate

  lemma DateDashes(s: string)
    requires DateShape(s)
    ensures CountChar(s[..10], '-') == 2
  {
    var t := s[..10];
    assert t == t[..4] + ([t[4]] + (t[5..7] + ([t[7]] + t[8..])));
    assert '-' !in t[..4] && '-' !in t[5..7] && '-' !in t[8..];
    CountCharAppend([t[7]], t[8..], '-');
    CountCharAppend(t[5..7], [t[7]] + t[8..], '-');
    CountCharAppend([t[4]], t[5..7] + ([t[7]] + t[8..]), '-');
    CountCharAppend(t[..4], [t[4]] + (t[5..7] + ([t[7]] + t[8..])), '-');
  }

  /**
   * The pre-check never refuses a hint `fromisoformat` would accept after the
   * `Z` replacement, so the conversion is exactly that parse.
   */
  lemma GateRedundant(v: string)
    requires ParseIso(ReplaceChar(v, 'Z', "+00:00")).Some?
    ensures IsoGate(v)
    ensures CoerceHint(v) == ParseIso(ReplaceChar(v, 'Z', "+00:00"))
  {
    GateFromShape(v);
  }

  /** A `Z` in the first ten characters would put a `+` where the date shape has a digit or a hyphen. */
  lemma GateFromShape(v: string)
    requires DateShape(ReplaceChar(v, 'Z', "+00:00"))
    ensures IsoGate(v)
  {
    var rv := ReplaceChar(v, 'Z', "+00:00");
    var n := IndexOf(v, 'Z');
    if n < |v| && n < 10 {
      ReplaceCharPrefix(v, 'Z', "+00:00", n);
      assert false;
    }
    if n == |v| {
      assert v[..n] == v;
      assert rv == v;
    } else {
      ReplaceCharPrefix(v, 'Z', "+00:00", 10);
    }
    assert rv[..10] == v[..10];
    DateDashes(rv);
  }

  /** A hint made only of an ISO date converts to midnight of that day. */
  lemma DateHintCoerced(d: string)
    requires |d| == 10 && ParseIso(d).Some?
    ensures CoerceHint(d) == ParseIso(d)
    ensures var dt := ParseIso(d).value; dt.hour == 0 && dt.minute == 0 && dt.second == 0 && dt.offset.None?
  {
    assert DateShape(d);
    assert 'Z' !in d;
    GateRedundant(d);
  }

  /** A hint that is an ISO date followed by " None" is refused by `fromisoformat`. */
  lemma DateNoneHintRefused(d: string)
    requires |d| == 10 && DateShape(d)
    ensures CoerceHint(d + " None") == None
  {
    var h := d + " None";
    assert 'Z' !in d;
    assert 'Z' !in h;
    assert h[11..] == "None";
  }

  /** A hint that is an ISO date, a blank and a two-digit `HH:MM` time converts to that minute, without an offset. */
  lemma DateTimeHintCoerced(d: string, t: string)
    requires |d| == 10 && ParseIso(d).Some?
    requires |t| == 5 && Digits2(t, 0) && t[2] == ':' && Digits2(t, 3) && ValidTime(Number2(t, 0), Number2(t, 3), 0)
    ensures var day := ParseIso(d).value;
      CoerceHint(d + " " + t) == Some(DateTime(day.year, day.month, day.day, Number2(t, 0), Number2(t, 3), 0, None))
  {
    var h := d + " " + t;
    var day := ParseIso(d).value;
    var dt := DateTime(day.year, day.month, day.day, Number2(t, 0), Number2(t, 3), 0, None);
    assert 'Z' !in d && 'Z' !in t;
    assert 'Z' !in h;
    JoinDateTime(d, t);
    assert t[5..] == [];
    assert ParseTime(h[11..]) == Some((dt.hour, dt.minute, dt.second, dt.offset));
    ParseIsoOfParts(h, dt);
    GateRedundant(h);
  }

  /** A hint without a hyphen, such as "next Tuesday", is refused by the pre-check. */
  lemma NoDashHintRefused(v: string)
    requires '-' !in v
    ensures !IsoGate(v)
    ensures CoerceHint(v) == None
  {
  }

  /** The hint "next Tuesday" never converts. */
  lemma NextTuesdayRefused(v: string)
    requires v == "next Tuesday"
    ensures CoerceHint(v) == None
  {
  }

  /** A hint that starts with "None " (the hint as written for a time without a date) never converts. */
  lemma NoneTimeHintRefused(t: string)
    ensures CoerceHint("None " + t) == None
  {
  }

  // ---------------------------------------------------------------------
  // What an imported item holds

  /** A hint value as the field it fills: a string that converts becomes that datetime, anything else `None`. */
  function CoercedField(v: Value): (f: Value)
    ensures f.Null? || f.Time?
    ensures f.Time? ==> v.Str? && CoerceHint(v.s) == Some(f.t)
  {
    if v.Str? then
      match CoerceHint(v.s)
      case Some(dt) => Time(dt)
      case None => Null
    else Null
  }

  lemma BaseItemFields(r: map<string, Value>)
    requires DetailsAreDict(r)
    ensures var b := BaseItem(r);
      && b["provider"] == Get(r, "provider", Str("email"))
      && b["category"] == Get(r, "category", Str("other"))
      && b["title"] == Get(r, "title", Str("Reservation"))
      && b["location"] == Get(r, "location", Null)
      && b["confirmation_number"] == Get(r, "confirmation_number", Null)
      && b["details"] == Get(r, "details", Dict(map[]))
      && b["start_time"] == Null && b["end_time"] == Null
  {
  }

  /**
   * An imported item has the nine keys and `source` "email"; provider,
   * category, title, location and confirmation number are the parsed ones
   * (or the import's defaults).
   */
  lemma ImportItemFields(r: map<string, Value>)
    requires DetailsAreDict(r)
    ensures var it := ImportItem(r);
      && it.Keys == ReservationKeys
      && it["source"] == Str("email")
      && it["provider"] == Get(r, "provider", Str("email"))
      && it["category"] == Get(r, "category", Str("other"))
      && it["title"] == Get(r, "title", Str("Reservation"))
      && it["location"] == Get(r, "location", Null)
      && it["confirmation_number"] == Get(r, "confirmation_number", Null)
  {
    BaseItemFields(r);
    ImportItemKeepsBase(r);
  }

  /** Only the two times and `details` can differ between the imported item and the normalized one. */
  lemma ImportItemKeepsBase(r: map<string, Value>)
    requires DetailsAreDict(r)
    ensures ImportItem(r).Keys == ReservationKeys
    ensures forall k | k in ReservationKeys && k != "start_time" && k != "end_time" && k != "details" ::
      ImportItem(r)[k] == BaseItem(r)[k]
  {
    var b := BaseItem(r);
    var w := WithHints(b, r);
    assert "start_time" in w && "end_time" in w;
    var it := CoerceKeys(w, HintKeys);
    assert forall k | k in w && k != "start_time" && k != "end_time" :: it[k] == w[k];
  }

  /** `details` is the parsed one, with both hints added exactly when either is truthy. */
  lemma ImportItemDetails(r: map<string, Value>)
    requires DetailsAreDict(r)
    ensures var st := Get(r, "start_time_hint", Null);
      var et := Get(r, "end_time_hint", Null);
      var original := Get(r, "details", Dict(map[])).entries;
      ImportItem(r)["details"] ==
        if Truthy(st) || Truthy(et) then Dict(original["start_time_hint" := st]["end_time_hint" := et])
        else Dict(original)
  {
    BaseItemFields(r);
  }

  /** One coercion pass sets its own target field from its own hint, and leaves the other one alone. */
  lemma CoerceKeyTarget(item: map<string, Value>, key: string)
    requires "details" in item && item["details"].Dict?
    requires "start_time" in item && "end_time" in item
    requires key == "start_time_hint" || key == "end_time_hint"
    ensures var out := CoerceKey(item, key);
      var f := CoercedField(Get(Details(item), key, Null));
      && out[TargetKey(key)] == (if f.Time? then f else item[TargetKey(key)])
      && (key == "start_time_hint" ==> out["end_time"] == item["end_time"])
      && (key == "end_time_hint" ==> out["start_time"] == item["start_time"])
  {
  }

  lemma CoerceHintKeys(item: map<string, Value>)
    requires "details" in item && item["details"].Dict?
    ensures CoerceKeys(item, HintKeys) == CoerceKey(CoerceKey(item, "start_time_hint"), "end_time_hint")
  {
    var keys := HintKeys;
    assert keys[..1][..0] == [] && keys[..1][0] == "start_time_hint";
    assert keys[..2][..1] == keys[..1] && keys[1] == "end_time_hint";
    assert keys[..2] == keys;
  }

  /** A falsy hint never converts. */
  lemma FalsyNotCoerced(v: Value)
    requires !Truthy(v)
    ensures CoercedField(v) == Null
  {
  }

  /** Before coercion both times are `None`, and each hint read back from `details` converts as the parsed hint does. */
  lemma WithHintsTimes(r: map<string, Value>)
    requires DetailsAreDict(r)
    requires var original := Get(r, "details", Dict(map[])).entries;
      "start_time_hint" !in original && "end_time_hint" !in original
    ensures var w := WithHints(BaseItem(r), r);
      && w["start_time"] == Null && w["end_time"] == Null
      && CoercedField(Get(Details(w), "start_time_hint", Null)) == CoercedField(Get(r, "start_time_hint", Null))
      && CoercedField(Get(Details(w), "end_time_hint", Null)) == CoercedField(Get(r, "end_time_hint", Null))
  {
    var st := Get(r, "start_time_hint", Null);
    var et := Get(r, "end_time_hint", Null);
    BaseItemFields(r);
    var w := WithHints(BaseItem(r), r);
    if Truthy(st) || Truthy(et) {
      assert Get(Details(w), "start_time_hint", Null) == st;
      assert Get(Details(w), "end_time_hint", Null) == et;
    } else {
      FalsyNotCoerced(st);
      FalsyNotCoerced(et);
      assert Get(Details(w), "start_time_hint", Null) == Null;
      assert Get(Details(w), "end_time_hint", Null) == Null;
    }
  }

  /**
   * For a parsed reservation (whose `details` carries no hints of its own),
   * `start_time` comes from the start hint alone and `end_time` from the end
   * hint alone: each is the converted hint when that converts, else `None`.
   */
  lemma ImportItemTimes(r: map<string, Value>)
    requires DetailsAreDict(r)
    requires var original := Get(r, "details", Dict(map[])).entries;
      "start_time_hint" !in original && "end_time_hint" !in original
    ensures ImportItem(r)["start_time"] == CoercedField(Get(r, "start_time_hint", Null))
    ensures ImportItem(r)["end_time"] == CoercedField(Get(r, "end_time_hint", Null))
  {
    WithHintsTimes(r);
    var w := WithHints(BaseItem(r), r);
    CoerceHintKeys(w);
    var w1 := CoerceKey(w, "start_time_hint");
    CoerceKeyTarget(w, "start_time_hint");
    CoerceKeyTarget(w1, "end_time_hint");
  }

  // ---------------------------------------------------------------------
  // The whole import

  /**
   * The `i`-th imported item comes from the `i`-th message: it has the nine
   * keys, `source` "email", the parsed title, and its times are the
   * converted hints of that message.
   */
  lemma ImportedMessage(messages: seq<Message>, providerHint: Option<string>, i: nat)
    requires i < |messages|
    ensures forall k | 0 <= k < |messages| :: DetailsAreDict(Reservations(messages, providerHint)[k])
    ensures var r := Reservations(messages, providerHint)[i];
      var it := ImportAll(Reservations(messages, providerHint))[i];
      && it.Keys == ReservationKeys
      && Get(it, "source", Null) == Str("email")
      && Get(it, "title", Null) == Get(r, "title", Null)
      && Get(it, "start_time", Null) == CoercedField(Get(r, "start_time_hint", Null))
      && Get(it, "end_time", Null) == CoercedField(Get(r, "end_time_hint", Null))
  {
    var rs := Reservations(messages, providerHint);
    forall k | 0 <= k < |messages|
      ensures DetailsAreDict(rs[k])
    {
      ReservationsShape(messages, providerHint, k);
    }
    ReservationsShape(messages, providerHint, i);
    ImportAllAt(rs, i);
    ImportItemFields(rs[i]);
    ImportItemTimes(rs[i]);
  }
}
