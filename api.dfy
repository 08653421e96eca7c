/**
 * The reservation endpoints of the HTTP API: the itinerary check of
 * `add_reservation` and the filtering loop of `list_reservations`. The
 * database is a sequence of documents in cursor order; `ObjectId` parsing
 * and the itinerary lookup are given as booleans.
 */
module Api {
  import opened Wrappers
  import opened Text
  import opened IsoDateTime
  import opened Values

  /** A stored document, as pymongo returns it. */
  type Doc = map<string, Value>

  /** An `HTTPException` with its status code and detail text. */
  datatype HttpError = HttpError(status: int, detail: string)

  const InvalidItinerary: HttpError := HttpError(400, "Invalid itinerary_id")
  const ItineraryNotFound: HttpError := HttpError(404, "Itinerary not found")
  /** An uncaught exception (a `TypeError` from comparing datetimes) becomes a 500. */
  const ServerError: HttpError := HttpError(500, "Internal Server Error")

  // ---------------------------------------------------------------------
  // add_reservation: does the itinerary exist?

  /** What the `try` block of `add_reservation` raises, if anything. */
  datatype Raised = InvalidObjectId | Http(error: HttpError)

  /**
   * The `try` block: `ObjectId(...)` raises on a malformed id, and a
   * well-formed id that names no itinerary raises the 404.
   */
  function LookupItinerary(idValid: bool, known: bool): (r: Option<Raised>)
    ensures r.None? <==> idValid && known
  {
    if !idValid then Some(InvalidObjectId)
    else if !known then Some(Http(ItineraryNotFound))
    else None
  }

  /**
   * The check as written: `except Exception` catches everything the `try`
   * raises, the 404 included, and answers 400.
   */
  function AddReservationCheckAsWritten(idValid: bool, known: bool): (r: Option<HttpError>)
    ensures r.None? <==> idValid && known
    ensures r.Some? ==> r.value == InvalidItinerary
  {
    match LookupItinerary(idValid, known)
    case None => None
    case Some(_) => Some(InvalidItinerary)
  }

  /** The 404 raised for an unknown itinerary never reaches the client. */
  lemma UnknownItineraryAnswered400(idValid: bool, known: bool)
    requires idValid && !known
    ensures LookupItinerary(idValid, known) == Some(Http(ItineraryNotFound))
    ensures AddReservationCheckAsWritten(idValid, known) == Some(InvalidItinerary)
  {
  }

  /**
   * The check as intended: only the `ObjectId` failure is mapped to 400, an
   * `HTTPException` raised inside the `try` passes through unchanged.
   */
  function AddReservationCheck(idValid: bool, known: bool): (r: Option<HttpError>)
    ensures r.None? <==> idValid && known
    ensures !idValid ==> r == Some(InvalidItinerary)
    ensures idValid && !known ==> r == Some(ItineraryNotFound)
  {
    match LookupItinerary(idValid, known)
    case None => None
    case Some(InvalidObjectId) => Some(InvalidItinerary)
    case Some(Http(e)) => Some(e)
  }

  /** The two versions differ exactly on a well-formed id naming no itinerary. */
  lemma AddReservationChecksAgree(idValid: bool, known: bool)
    ensures AddReservationCheck(idValid, known) == AddReservationCheckAsWritten(idValid, known)
      <==> !(idValid && !known)
  {
  }

  // ---------------------------------------------------------------------
  // list_reservations: query parameters and the database filter

  /** The query parameters of `list_reservations`; `None` when not given. */
  datatype Query = Query(
    itineraryId: string,
    q: Option<string>,
    category: Option<string>,
    provider: Option<string>,
    location: Option<string>,
    start: Option<DateTime>,
    end: Option<DateTime>)

  /** A query parameter is used only when it is truthy (given and non-empty). */
  predicate Given(o: Option<string>) {
    o.Some? && o.value != []
  }

  /** FastAPI only ever hands over real datetimes. */
  predicate BoundsValid(qy: Query) {
    (qy.start.Some? ==> Valid(qy.start.value)) && (qy.end.Some? ==> Valid(qy.end.value))
  }

  /** The `filters` dict: the itinerary id, plus each truthy exact-match parameter. */
  function Filters(qy: Query): (f: Doc)
    ensures "itinerary_id" in f && f["itinerary_id"] == Str(qy.itineraryId)
    ensures "category" in f <==> Given(qy.category)
    ensures "provider" in f <==> Given(qy.provider)
    ensures "location" in f <==> Given(qy.location)
    ensures Given(qy.category) ==> f["category"] == Str(qy.category.value)
    ensures Given(qy.provider) ==> f["provider"] == Str(qy.provider.value)
    ensures Given(qy.location) ==> f["location"] == Str(qy.location.value)
    ensures f.Keys <= {"itinerary_id", "category", "provider", "location"}
  {
    var f0 := map["itinerary_id" := Str(qy.itineraryId)];
    var f1 := if Given(qy.category) then f0["category" := Str(qy.category.value)] else f0;
    var f2 := if Given(qy.provider) then f1["provider" := Str(qy.provider.value)] else f1;
    if Given(qy.location) then f2["location" := Str(qy.location.value)] else f2
  }

  /** A document matches an equality filter when every filtered field is present and equal. */
  predicate Matches(doc: Doc, filters: Doc) {
    forall k | k in filters :: k in doc && doc[k] == filters[k]
  }

  /** `collection.find(filters)`: the matching documents, in stored order. */
  function Find(collection: seq<Doc>, filters: Doc): (found: seq<Doc>)
    ensures |found| <= |collection|
    ensures forall d | d in found :: d in collection && Matches(d, filters)
    decreases |collection|
  {
    if collection == [] then []
    else
      var last := collection[|collection| - 1];
      Find(collection[..|collection| - 1], filters) + (if Matches(last, filters) then [last] else [])
  }

  /** Every matching document of the collection is found. */
  lemma {:induction false} FindComplete(collection: seq<Doc>, filters: Doc, d: Doc)
    requires d in collection && Matches(d, filters)
    ensures d in Find(collection, filters)
    decreases |collection|
  {
    var n := |collection| - 1;
    if collection[n] != d {
      assert collection == collection[..n] + [collection[n]];
      FindComplete(collection[..n], filters, d);
    }
  }

  /** Exact-equality filters: a found document carries each truthy parameter's value. */
  lemma FoundMatchesQuery(collection: seq<Doc>, qy: Query, d: Doc)
    requires d in Find(collection, Filters(qy))
    ensures "itinerary_id" in d && d["itinerary_id"] == Str(qy.itineraryId)
    ensures Given(qy.category) ==> "category" in d && d["category"] == Str(qy.category.value)
    ensures Given(qy.provider) ==> "provider" in d && d["provider"] == Str(qy.provider.value)
    ensures Given(qy.location) ==> "location" in d && d["location"] == Str(qy.location.value)
  {
    var f := Filters(qy);
    assert Matches(d, f);
    assert "itinerary_id" in f;
  }

  // ---------------------------------------------------------------------
  // list_reservations: the per-document rules

  /** `str(v)` for the values a stored document holds outside `details`. */
  function StrOf(v: Value): (s: string)
    requires !v.Dict?
    requires v.Time? ==> Valid(v.t)
    ensures v.Null? ==> s == "None"
    ensures v.Str? ==> s == v.s
  {
    match v
    case Null => "None"
    case Str(s) => s
    case Id(hex) => hex
    case Time(t) => FormatIso(t)
  }

  /**
   * What the stored documents are, by `ReservationIn`: real datetimes, and
   * `_id`, title, location and provider that are not dicts.
   */
  predicate Stored(doc: Doc) {
    (forall k | k in doc && doc[k].Time? :: Valid(doc[k].t))
    && !Get(doc, "_id", Null).Dict?
    && !Get(doc, "title", Null).Dict?
    && !Get(doc, "location", Null).Dict?
    && !Get(doc, "provider", Null).Dict?
  }

  /** `st < start`: `None` when Python raises `TypeError` (not a datetime, or naive against aware). */
  function EarlierThan(v: Value, bound: DateTime): (r: Option<bool>)
    requires Valid(bound) && (v.Time? ==> Valid(v.t))
    ensures r.Some? <==> v.Time? && Comparable(v.t, bound)
  {
    match v
    case Time(t) => if Comparable(t, bound) then Some(Before(t, bound)) else None
    case _ => None
  }

  /** `et > end`, that is `end < et`; `None` when Python raises `TypeError`. */
  function LaterThan(v: Value, bound: DateTime): (r: Option<bool>)
    requires Valid(bound) && (v.Time? ==> Valid(v.t))
    ensures r.Some? <==> v.Time? && Comparable(v.t, bound)
  {
    match v
    case Time(t) => if Comparable(t, bound) then Some(Before(bound, t)) else None
    case _ => None
  }

  /**
   * The time filter: `Some(ok)`, or `None` when a comparison raises. Each bound
   * is compared only when it is given and the document's own timestamp is truthy.
   */
  function TimeVerdict(doc: Doc, start: Option<DateTime>, end: Option<DateTime>): (r: Option<bool>)
    requires Stored(doc)
    requires (start.Some? ==> Valid(start.value)) && (end.Some? ==> Valid(end.value))
  {
    var st := Get(doc, "start_time", Null);
    var et := Get(doc, "end_time", Null);
    var early := if start.Some? && Truthy(st) then EarlierThan(st, start.value) else Some(false);
    var late := if end.Some? && Truthy(et) then LaterThan(et, end.value) else Some(false);
    if early.None? || late.None? then None else Some(!early.value && !late.value)
  }

  /** The searched text: `str` of title, location and provider ("" when absent), joined by single spaces and lower-cased. */
  function SearchText(doc: Doc): string
    requires Stored(doc)
  {
    LowerStr(Join([StrOf(Get(doc, "title", Str(""))), StrOf(Get(doc, "location", Str(""))),
                   StrOf(Get(doc, "provider", Str("")))], " "))
  }

  /** The lower-cased query occurs in the searched text. */
  predicate TextMatches(doc: Doc, q: string)
    requires Stored(doc)
  {
    Contains(SearchText(doc), LowerStr(q))
  }

  /** What the loop does with one document. */
  datatype Verdict = Keep | Skip | Raise

  function Judge(doc: Doc, qy: Query): Verdict
    requires Stored(doc) && BoundsValid(qy)
  {
    var t := if qy.start.Some? || qy.end.Some? then TimeVerdict(doc, qy.start, qy.end) else Some(true);
    if t.None? then Raise
    else if !t.value then Skip
    else if Given(qy.q) && !TextMatches(doc, qy.q.value) then Skip
    else Keep
  }

  /** The document as returned: `_id` removed, and `id` set to its text ("" when it was absent). */
  function Present(doc: Doc): (r: Doc)
    requires Stored(doc)
    ensures r.Keys == doc.Keys - {"_id"} + {"id"}
    ensures r["id"] == Str(StrOf(Get(doc, "_id", Str(""))))
    ensures forall k | k in doc && k != "_id" && k != "id" :: r[k] == doc[k]
  {
    var id := Str(StrOf(Get(doc, "_id", Str(""))));
    (doc - {"_id"})["id" := id]
  }

  /** The documents that survive the loop, presented, in cursor order. */
  function Kept(docs: seq<Doc>, qy: Query): (r: seq<Doc>)
    requires forall d | d in docs :: Stored(d)
    requires BoundsValid(qy)
    ensures |r| <= |docs|
    decreases |docs|
  {
    if docs == [] then []
    else
      var n := |docs| - 1;
      Kept(docs[..n], qy) + (if Judge(docs[n], qy) == Keep then [Present(docs[n])] else [])
  }

  /** Some document makes the time filter raise. */
  predicate SomeRaise(docs: seq<Doc>, qy: Query)
    requires forall d | d in docs :: Stored(d)
    requires BoundsValid(qy)
  {
    exists i | 0 <= i < |docs| :: Judge(docs[i], qy) == Raise
  }

  lemma KeptSnoc(docs: seq<Doc>, qy: Query, i: nat)
    requires forall d | d in docs :: Stored(d)
    requires BoundsValid(qy)
    requires i < |docs|
    ensures Kept(docs[..i + 1], qy)
      == Kept(docs[..i], qy) + (if Judge(docs[i], qy) == Keep then [Present(docs[i])] else [])
  {
    assert docs[..i + 1][..i] == docs[..i];
  }

  // ---------------------------------------------------------------------
  // Properties of the per-document rules

  /**
   * When the time filter does not raise, it drops a document exactly when a
   * given `start` is later than its `start_time`, or a given `end` earlier than
   * its `end_time`.
   */
  lemma TimeDropIff(doc: Doc, start: Option<DateTime>, end: Option<DateTime>)
    requires Stored(doc)
    requires (start.Some? ==> Valid(start.value)) && (end.Some? ==> Valid(end.value))
    requires TimeVerdict(doc, start, end).Some?
    ensures var st := Get(doc, "start_time", Null);
      var et := Get(doc, "end_time", Null);
      TimeVerdict(doc, start, end) == Some(false) <==>
        (start.Some? && st.Time? && Before(st.t, start.value))
        || (end.Some? && et.Time? && Before(end.value, et.t))
  {
  }

  /** A missing or falsy `start_time` always passes the `start` bound. */
  lemma MissingStartPasses(doc: Doc, start: Option<DateTime>, end: Option<DateTime>)
    requires Stored(doc)
    requires (start.Some? ==> Valid(start.value)) && (end.Some? ==> Valid(end.value))
    requires !Truthy(Get(doc, "start_time", Null))
    ensures TimeVerdict(doc, start, end) == TimeVerdict(doc, None, end)
  {
  }

  /** A missing or falsy `end_time` always passes the `end` bound. */
  lemma MissingEndPasses(doc: Doc, start: Option<DateTime>, end: Option<DateTime>)
    requires Stored(doc)
    requires (start.Some? ==> Valid(start.value)) && (end.Some? ==> Valid(end.value))
    requires !Truthy(Get(doc, "end_time", Null))
    ensures TimeVerdict(doc, start, end) == TimeVerdict(doc, start, None)
  {
  }

  /** A document with neither timestamp passes the time filter whatever the bounds. */
  lemma NoTimestampsPass(doc: Doc, start: Option<DateTime>, end: Option<DateTime>)
    requires Stored(doc)
    requires (start.Some? ==> Valid(start.value)) && (end.Some? ==> Valid(end.value))
    requires "start_time" !in doc && "end_time" !in doc
    ensures TimeVerdict(doc, start, end) == Some(true)
  {
  }

  /** The `start` bound looks at `start_time` only: `end_time` cannot change its verdict. */
  lemma StartBoundReadsStartTime(d1: Doc, d2: Doc, start: Option<DateTime>)
    requires Stored(d1) && Stored(d2)
    requires start.Some? ==> Valid(start.value)
    requires Get(d1, "start_time", Null) == Get(d2, "start_time", Null)
    ensures TimeVerdict(d1, start, None) == TimeVerdict(d2, start, None)
  {
  }

  /** The `end` bound looks at `end_time` only: `start_time` cannot change its verdict. */
  lemma EndBoundReadsEndTime(d1: Doc, d2: Doc, end: Option<DateTime>)
    requires Stored(d1) && Stored(d2)
    requires end.Some? ==> Valid(end.value)
    requires Get(d1, "end_time", Null) == Get(d2, "end_time", Null)
    ensures TimeVerdict(d1, None, end) == TimeVerdict(d2, None, end)
  {
  }

  /** Lower-casing `" ".join` of three strings lower-cases each part. */
  lemma LowerJoinThree(a: string, b: string, c: string)
    ensures LowerStr(Join([a, b, c], " ")) == LowerStr(a) + " " + LowerStr(b) + " " + LowerStr(c)
  {
    assert [a, b, c][1..] == [b, c];
    assert [b, c][1..] == [c];
    assert Join([a, b, c], " ") == a + " " + (b + " " + c);
    assert LowerStr(" ") == " ";
    LowerStrAppend(a + " ", b + " " + c);
    LowerStrAppend(a, " ");
    LowerStrAppend(b + " ", c);
    LowerStrAppend(b, " ");
  }

  /** `text` is the three lowered fields separated by single spaces. */
  lemma SearchTextParts(doc: Doc)
    requires Stored(doc)
    ensures SearchText(doc) ==
      LowerStr(StrOf(Get(doc, "title", Str("")))) + " "
      + LowerStr(StrOf(Get(doc, "location", Str("")))) + " "
      + LowerStr(StrOf(Get(doc, "provider", Str(""))))
  {
    LowerJoinThree(StrOf(Get(doc, "title", Str(""))), StrOf(Get(doc, "location", Str(""))),
                   StrOf(Get(doc, "provider", Str(""))));
  }

  lemma ContainsExtendRight(b: string, c: string, pat: string)
    requires Contains(b, pat)
    ensures Contains(b + c, pat)
  {
    var i :| 0 <= i <= |b| - |pat| && OccursAt(b, pat, i);
    assert (b + c)[i..i + |pat|] == b[i..i + |pat|];
    assert OccursAt(b + c, pat, i);
  }

  lemma ContainsExtendLeft(a: string, b: string, pat: string)
    requires Contains(b, pat)
    ensures Contains(a + b, pat)
  {
    var i :| 0 <= i <= |b| - |pat| && OccursAt(b, pat, i);
    assert (a + b)[|a| + i..|a| + i + |pat|] == b[i..i + |pat|];
    assert OccursAt(a + b, pat, |a| + i);
  }

  /** The search is case-insensitive: `q` and its lower-case form match the same documents. */
  lemma SearchCaseInsensitive(doc: Doc, q: string)
    requires Stored(doc)
    ensures TextMatches(doc, q) == TextMatches(doc, LowerStr(q))
  {
    LowerStrIsLowered(q);
  }

  /** A query found, ignoring case, in the title matches the document. */
  lemma TitleHitMatches(doc: Doc, q: string)
    requires Stored(doc)
    requires Contains(LowerStr(StrOf(Get(doc, "title", Str("")))), LowerStr(q))
    ensures TextMatches(doc, q)
  {
    SearchTextParts(doc);
    var t := LowerStr(StrOf(Get(doc, "title", Str(""))));
    var l := LowerStr(StrOf(Get(doc, "location", Str(""))));
    var p := LowerStr(StrOf(Get(doc, "provider", Str(""))));
    ContainsExtendRight(t, " ", LowerStr(q));
    ContainsExtendRight(t + " ", l, LowerStr(q));
    ContainsExtendRight(t + " " + l, " ", LowerStr(q));
    ContainsExtendRight(t + " " + l + " ", p, LowerStr(q));
  }

  /** A location stored as `None` is searched as the text "None". */
  lemma NoneLocationMatchesNone(doc: Doc)
    requires Stored(doc)
    requires "location" in doc && doc["location"] == Null
    ensures TextMatches(doc, "None")
  {
    SearchTextParts(doc);
    var t := LowerStr(StrOf(Get(doc, "title", Str(""))));
    var p := LowerStr(StrOf(Get(doc, "provider", Str(""))));
    assert LowerStr(StrOf(Get(doc, "location", Str("")))) == "none";
    assert OccursAt("none", "none", 0);
    ContainsExtendLeft(t + " ", "none", "none");
    ContainsExtendRight(t + " " + "none", " ", "none");
    ContainsExtendRight(t + " " + "none" + " ", p, "none");
    assert LowerStr("None") == "none";
  }

  // ---------------------------------------------------------------------
  // Properties of the surviving documents

  /** Filtering a concatenation filters each part, in order. */
  lemma {:induction false} KeptAppend(a: seq<Doc>, b: seq<Doc>, qy: Query)
    requires forall d | d in a + b :: Stored(d)
    requires BoundsValid(qy)
    ensures Kept(a + b, qy) == Kept(a, qy) + Kept(b, qy)
    decreases |b|
  {
    if b == [] {
      assert a + b == a;
    } else {
      var n := |b| - 1;
      assert (a + b)[..|a + b| - 1] == a + b[..n];
      assert (a + b)[|a + b| - 1] == b[n];
      KeptAppend(a, b[..n], qy);
    }
  }

  /** Each survivor is a presented document of the input that the rules keep. */
  lemma {:induction false} KeptFrom(docs: seq<Doc>, qy: Query, r: Doc)
    requires forall d | d in docs :: Stored(d)
    requires BoundsValid(qy)
    requires r in Kept(docs, qy)
    ensures exists d | d in docs :: Judge(d, qy) == Keep && r == Present(d)
    decreases |docs|
  {
    var n := |docs| - 1;
    if r in Kept(docs[..n], qy) {
      KeptFrom(docs[..n], qy, r);
      var d :| d in docs[..n] && Judge(d, qy) == Keep && r == Present(d);
      assert d in docs;
    } else {
      assert docs[n] in docs;
    }
  }

  /** Without time bounds and without a search text, every document survives. */
  lemma {:induction false} KeptUnfiltered(docs: seq<Doc>, qy: Query)
    requires forall d | d in docs :: Stored(d)
    requires BoundsValid(qy)
    requires qy.start.None? && qy.end.None? && !Given(qy.q)
    ensures |Kept(docs, qy)| == |docs|
    ensures forall i | 0 <= i < |docs| :: Kept(docs, qy)[i] == Present(docs[i])
    decreases |docs|
  {
    if docs != [] {
      var n := |docs| - 1;
      KeptUnfiltered(docs[..n], qy);
    }
  }

  /** Presenting a document leaves the searched fields alone. */
  lemma PresentKeepsSearchText(d: Doc)
    requires Stored(d)
    ensures Stored(Present(d)) && SearchText(Present(d)) == SearchText(d)
  {
    var r := Present(d);
    assert Get(r, "title", Str("")) == Get(d, "title", Str(""));
    assert Get(r, "location", Str("")) == Get(d, "location", Str(""));
    assert Get(r, "provider", Str("")) == Get(d, "provider", Str(""));
  }

  /** `a < b` is defined and false. */
  predicate NotBefore(a: DateTime, b: DateTime) {
    Valid(a) && Valid(b) && Comparable(a, b) && !Before(a, b)
  }

  /** A document the rules keep respects each given time bound. */
  lemma KeptDocWithinBounds(d: Doc, qy: Query)
    requires Stored(d) && BoundsValid(qy)
    requires Judge(d, qy) == Keep
    ensures qy.start.Some? && "start_time" in d && d["start_time"].Time? ==>
      NotBefore(d["start_time"].t, qy.start.value)
    ensures qy.end.Some? && "end_time" in d && d["end_time"].Time? ==>
      NotBefore(qy.end.value, d["end_time"].t)
  {
    if qy.start.Some? || qy.end.Some? {
      TimeDropIff(d, qy.start, qy.end);
    }
  }

  /**
   * A survivor carries `id` and no `_id`, respects each given time bound, and,
   * when a search text is given, matches it.
   */
  lemma SurvivorShape(docs: seq<Doc>, qy: Query, r: Doc)
    requires forall d | d in docs :: Stored(d)
    requires BoundsValid(qy)
    requires r in Kept(docs, qy)
    ensures "id" in r && "_id" !in r
    ensures Stored(r) && (Given(qy.q) ==> TextMatches(r, qy.q.value))
    ensures qy.start.Some? && "start_time" in r && r["start_time"].Time? ==>
      NotBefore(r["start_time"].t, qy.start.value)
    ensures qy.end.Some? && "end_time" in r && r["end_time"].Time? ==>
      NotBefore(qy.end.value, r["end_time"].t)
  {
    KeptFrom(docs, qy, r);
    var d :| d in docs && Judge(d, qy) == Keep && r == Present(d);
    PresentedShape(d, qy);
  }

  /** The same, for the presented form of one kept document. */
  lemma PresentedShape(d: Doc, qy: Query)
    requires Stored(d) && BoundsValid(qy)
    requires Judge(d, qy) == Keep
    ensures var r := Present(d);
      && "id" in r && "_id" !in r
      && Stored(r) && (Given(qy.q) ==> TextMatches(r, qy.q.value))
      && (qy.start.Some? && "start_time" in r && r["start_time"].Time? ==>
        NotBefore(r["start_time"].t, qy.start.value))
      && (qy.end.Some? && "end_time" in r && r["end_time"].Time? ==>
        NotBefore(qy.end.value, r["end_time"].t))
  {
    KeptDocWithinBounds(d, qy);
    PresentKeepsSearchText(d);
  }

  // ---------------------------------------------------------------------
  // list_reservations: the loop

  /** The equality filters, added one by one: the itinerary, then each truthy query field. */
  method BuildFilters(qy: Query) returns (filters: Doc)
    ensures filters == Filters(qy)
  {
    filters := map["itinerary_id" := Str(qy.itineraryId)];
    if Given(qy.category) {
      filters := filters["category" := Str(qy.category.value)];
    }
    if Given(qy.provider) {
      filters := filters["provider" := Str(qy.provider.value)];
    }
    if Given(qy.location) {
      filters := filters["location" := Str(qy.location.value)];
    }
  }

  /**
   * The body of the loop for one document: the time filter (when a bound is
   * given), then the text filter (when `q` is truthy).
   */
  method ReviewDocument(doc: Doc, qy: Query) returns (verdict: Verdict)
    requires Stored(doc) && BoundsValid(qy)
    ensures verdict == Judge(doc, qy)
  {
    if qy.start.Some? || qy.end.Some? {
      var ok := TimeVerdict(doc, qy.start, qy.end);
      if ok.None? {
        return Raise;
      }
      if !ok.value {
        return Skip;
      }
    }
    if Given(qy.q) {
      if !TextMatches(doc, qy.q.value) {
        return Skip;
      }
    }
    return Keep;
  }

  /**
   * `list_reservations`: 400 for a malformed itinerary id, 500 when a time
   * comparison raises, otherwise the found documents that pass the time and
   * text filters, presented with `id` in place of `_id`, in cursor order.
   */
  method ListReservations(qy: Query, idValid: bool, collection: seq<Doc>)
    returns (r: Result<seq<Doc>, HttpError>)
    requires BoundsValid(qy)
    requires forall d | d in collection :: Stored(d)
    ensures !idValid ==> r == Err(InvalidItinerary)
    ensures idValid ==> (r.Err? <==> SomeRaise(Find(collection, Filters(qy)), qy))
    ensures idValid && r.Err? ==> r.error == ServerError
    ensures idValid && r.Ok? ==> r.value == Kept(Find(collection, Filters(qy)), qy)
  {
    if !idValid {
      return Err(InvalidItinerary);
    }
    var filters := BuildFilters(qy);
    var cursor := Find(collection, filters);
    r := ReviewCursor(cursor, qy);
  }

  /**
   * The loop over the cursor: the first document on which a comparison
   * raises ends the request with a 500; otherwise the kept documents are
   * presented in cursor order.
   */
  method ReviewCursor(cursor: seq<Doc>, qy: Query) returns (r: Result<seq<Doc>, HttpError>)
    requires BoundsValid(qy)
    requires forall d | d in cursor :: Stored(d)
    ensures r.Err? <==> SomeRaise(cursor, qy)
    ensures r.Err? ==> r.error == ServerError
    ensures r.Ok? ==> r.value == Kept(cursor, qy)
  {
    var results: seq<Doc> := [];
    for i := 0 to |cursor|
      invariant results == Kept(cursor[..i], qy)
      invariant forall j | 0 <= j < i :: Judge(cursor[j], qy) != Raise
    {
      KeptSnoc(cursor, qy, i);
      var verdict := ReviewDocument(cursor[i], qy);
      if verdict == Raise {
        return Err(ServerError);
      }
      if verdict == Skip {
        continue;
      }
      results := results + [Present(cursor[i])];
    }
    assert cursor[..|cursor|] == cursor;
    return Ok(results);
  }
}
