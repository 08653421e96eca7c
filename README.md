# Trip itinerary aggregator: email import and reservation listing in Dafny

This project models the core of a trip-itinerary backend. The backend turns
confirmation emails into reservation records and lists the reservations of an
itinerary through its HTTP API. The model covers:

- **Email parsing** (`providers/email_parsers.py`):
  - provider detection from the hint table;
  - the category keyword precedence;
  - the regex extractors for confirmation number, title, location, dates and times;
  - the assembly of the candidate dict, with its date/time hints.
- **Normalisation** (`providers/base.py`): `normalize`, the fixed nine-key
  reservation shape.
- **Gmail adaptation** (`providers/gmail.py`):
  - base64url padding;
  - `fetch_messages`;
  - the recursive MIME walk of `extract_body_text`, as a class whose `body` list
    the walk appends to;
  - `messages_to_reservations`, as a loop.
- **The batch import** (`providers/email_import.py`): the loop that normalises
  each parsed reservation, attaches the hints to `details`, and converts ISO-like
  hints into datetimes.
- **The reservation endpoints** (`main.py`):
  - the error mapping of `add_reservation`;
  - the filtering loop of `list_reservations`: exact-match query filters, time
    bounds, case-insensitive text search, and the `_id` to `id` rewrite.

## Modules

| file | module | what it holds |
|---|---|---|
| `wrappers.dfy` | `Wrappers` | `Option`, `Result`, mapping a function over a list |
| `text.dfy` | `Text` | Python string operations: `isspace`, `lower`, `strip`, `in`, `join`, `count`, `replace`, `find` |
| `iso_datetime.dfy` | `IsoDateTime` | `datetime.fromisoformat` on a stated subset, `str(datetime)`, and `<` on datetimes |
| `values.dfy` | `Values` | dict values (`None`, `str`, `datetime`, `ObjectId`, nested `dict`), truthiness and `dict.get` |
| `base.dfy` | `Base` | `normalize` |
| `patterns.dfy` | `Patterns` | matchers for the email regexes, with Python's backtracking order, `re.search` and `re.findall` |
| `confirmation.dfy` | `Confirmation` | `extract_confirmation`, as written and corrected |
| `email_parsers.dfy` | `EmailParsers` | provider, category, title, location, dates and hints, and `parse_email` |
| `gmail.dfy` | `Gmail` | padding, messages, the MIME walk (class `BodyCollector`), `messages_to_reservations` |
| `email_import.dfy` | `EmailImport`, `EmailImportProperties` | `import_gmail_to_reservations` and what an imported item holds |
| `api.dfy` | `Api` | `add_reservation`'s itinerary check and `list_reservations` |

The model follows the code, including where its behaviour is surprising:

- A hint with a date but no time is rendered with the text "None" for the missing
  half, and so is one with a time but no date. `EmailParsers.ParseEmail` builds the
  hints this way and uses the confirmation pattern as written; the corrected
  versions are kept beside them (see "## Findings").
- `parse_email` never returns `None`, so every message yields exactly one candidate.
- The categories `dining` and `other` are never produced by the parser.
- Hints are copied into `details` only when one of them is truthy.
- An unconverted time field is present as `None`, not absent.
- An unknown itinerary is answered with 400, not 404.

## Model

| member | source | states |
|---|---|---|
| `Text.LowerStrIsLowered` | providers/email_parsers.py:26 | `lower()` leaves no upper-case ASCII letter and is idempotent |
| `Text.LowerStrAppend` | providers/email_parsers.py:81 | lower-casing distributes over concatenation |
| `Text.StripSpec` | providers/email_parsers.py:36 | `strip()` gives the infix between the leading and trailing whitespace runs, with non-space ends |
| `Text.StripIdempotent` | providers/email_parsers.py:36 | stripping twice is stripping once |
| `Text.ReplaceChar` | providers/email_import.py:40 | replacing a character: the length changes by the count times the growth; the result holds no replaced character |
| `Text.ReplaceCharPrefix` | providers/email_import.py:40 | `replace("Z", ...)` leaves everything before the first `Z` untouched |
| `IsoDateTime.ParseIso` | providers/email_import.py:40 | every accepted text is a valid calendar date and time, beginning `YYYY-MM-DD` |
| `IsoDateTime.ParseFormatRoundTrip` | providers/email_import.py:40 | parsing the `str()` of a datetime gives it back |
| `IsoDateTime.BeforeAsymmetric` | main.py:150-153 | `<` on comparable datetimes is irreflexive and asymmetric |
| `Base.Normalize` | providers/base.py:10-22 | the result has exactly the nine reservation keys and `source` "api" |
| `Base.NormalizeCopies` | providers/base.py:13-20 | a present key is copied as it is, even when `None`; an absent key takes its default ("other", "Reservation", `{}` or `None`) |
| `Base.NormalizeDrops` | providers/base.py:12-22 | keys outside the nine are dropped |
| `Base.NormalizeIdempotent` | providers/base.py:10-22 | normalising a normalised item changes nothing |
| `Patterns.Run` | providers/email_parsers.py:15-22 | the greedy run of a character class: all class characters, ended by a non-class character or the end of text |
| `Patterns.FirstToken` | providers/email_parsers.py:18-22 | the captured run is the maximal run at the first start (in backtracking order) long enough, and none exists exactly when every start's run is too short |
| `Patterns.MatchAt` | providers/email_parsers.py:18-22 | a match attempt at an index yields a span inside the text; a phrase's span is a maximal run of at least the minimum length |
| `Patterns.Search` | providers/email_parsers.py:34 | `re.search` returns the leftmost index where an attempt succeeds, and none exists when it fails |
| `Patterns.SearchGroup` | providers/email_parsers.py:34-36 | a group is found exactly when some index matches; a phrase group is a run of its class of at least the minimum length |
| `Patterns.DateEnd` | providers/email_parsers.py:15 | a date match ends after its start and within the text; it starts with a non-blank and ends with a digit |
| `Patterns.TimeEnd` | providers/email_parsers.py:16 | a time match ends after its start and within the text; it starts with a digit and ends with a non-blank |
| `Patterns.ScanEnd` | providers/email_parsers.py:15-16 | a date or time match is a non-empty text with no whitespace at either end |
| `Patterns.FirstScan` | providers/email_parsers.py:57-58 | the leftmost index from which the scanner matches, and none when no index matches |
| `Patterns.ScanText` | providers/email_parsers.py:57-58 | the text of a match has no whitespace at either end and spans from its start to its end |
| `Patterns.SecondScan` | providers/email_parsers.py:57-61 | a second match starts at or after the end of the first one, inside the text |
| `Patterns.FindAll` | providers/email_parsers.py:57-58 | `re.findall`: non-empty exactly when some index matches; the first element is the match at the leftmost such index; no element has surrounding whitespace; at most one element per character |
| `Patterns.FindAllSecond` | providers/email_parsers.py:57-61 | `findall` has a second element exactly when a match starts at or after the end of the first, and that element is this match |
| `Patterns.NoKeywordNoMatch` | providers/email_parsers.py:18-22 | no phrase pattern matches where none of its keywords starts |
| `Patterns.GroupAfterPrefix` | providers/email_parsers.py:18-22 | when the first start is right after a prefix and a whole token follows, `re.search` captures that token |
| `Patterns.KeywordThenRunMatches` | providers/email_parsers.py:20-22 | a keyword followed directly by a long enough run of the capture class matches at the keyword's index |
| `Patterns.AlternativeEndsHas` | providers/email_parsers.py:20-22 | an alternative of the keyword group that matches contributes its end |
| `Patterns.OptionalEndsSkipAll` | providers/email_parsers.py:20-22 | skipping each optional `\s?` and `:?` is always a path |
| `Patterns.SeparatorStartsHas` | providers/email_parsers.py:20-22 | a keyword end with all separators skipped is a start of the captured run |
| `Patterns.LabelStartsHas` | providers/email_parsers.py:20-22 | a keyword end with the label and all separators skipped is a start of the captured run |
| `Confirmation.StripConfirmationToken` | providers/email_parsers.py:36 | `strip()` leaves a confirmation token unchanged |
| `Confirmation.ExtractConfirmationAsWritten` | providers/email_parsers.py:33-37 | the number is group 2 of the leftmost `CONF_RE` match and is a token of five or more letters, digits or hyphens |
| `Confirmation.ExtractConfirmationIntended` | providers/email_parsers.py:33-37 | corrected: group 2 of the leftmost match of the pattern with the label alternatives as intended; always a token of five or more characters |
| `Confirmation.NoKeywordAt` | providers/email_parsers.py:18 | neither version matches at an index not holding `c` or `C` |
| `Confirmation.ConfirmationAfterColon` | providers/email_parsers.py:33-37 | both versions read "Confirmation: " followed by a token as that token |
| `Confirmation.HashLabelMissed` | providers/email_parsers.py:18 | as written, "Confirmation #: " followed by a token yields no confirmation number |
| `Confirmation.HashLabelRead` | providers/email_parsers.py:18 | corrected, "Confirmation #: " followed by a token yields the token |
| `Confirmation.NumberLabelCaptured` | providers/email_parsers.py:18 | as written, "Confirmation number " followed by anything yields "number" |
| `Confirmation.NumberLabelRead` | providers/email_parsers.py:18 | corrected, "Confirmation number " followed by a token yields the token |
| `EmailParsers.FirstHit` | providers/email_parsers.py:27-29 | the first table entry from a position on with a hint in the text; every earlier entry has none |
| `EmailParsers.DetectProvider` | providers/email_parsers.py:25-30 | the result is a provider key, and none exactly when no entry's hint occurs in the lower-cased text |
| `EmailParsers.DetectProviderFirst` | providers/email_parsers.py:27-29 | the winner is the first entry in declaration order whose hints occur |
| `EmailParsers.YourBookingWins` | providers/email_parsers.py:8 | a text containing "your booking" is booking.com's, whatever else it contains |
| `EmailParsers.Classify` | providers/email_parsers.py:78-86 | lodging iff a lodging keyword occurs; flight iff not lodging and a flight keyword occurs; transport likewise after both; activity otherwise |
| `EmailParsers.KeywordAcrossSubjectAndBody` | providers/email_parsers.py:81 | subject and body are joined without a separator, so "Grand Ho" + "tel Aurora" is lodging |
| `EmailParsers.ExtractTitle` | providers/email_parsers.py:40-52 | the stripped hotel phrase, else the stripped activity phrase, else the stripped quoted phrase; none exactly when none matches; no whitespace at either end |
| `EmailParsers.ExtractLocation` | providers/email_parsers.py:66-70 | found exactly when `LOCATION_RE` matches somewhere; the value is group 2 of the leftmost match, stripped, so it has no surrounding whitespace |
| `EmailParsers.LocationKeywordAnywhere` | providers/email_parsers.py:22 | `LOCATION_RE` has no word boundary: "in" anywhere, followed by three phrase characters, yields a location |
| `EmailParsers.BookingHasLocation` | providers/email_parsers.py:22 | "Booking confirmed" has a location, because the "in" of "Booking" starts a match |
| `EmailParsers.ExtractDates` | providers/email_parsers.py:55-63 | start date and start time are the first date and time matches, present exactly when one exists; end date and end time are the second matches, which start at or after the end of the first, present exactly when one exists |
| `EmailParsers.TimeHintAsWritten` | providers/email_parsers.py:104-105 | absent exactly when both halves are; a date alone gives the date and " None", a time alone "None " and the time, and a pair the two joined by one blank |
| `EmailParsers.TimeHintIntended` | providers/email_parsers.py:104-105 | the corrected hint is absent exactly when both halves are |
| `EmailParsers.TimeHintParts` | providers/email_parsers.py:104-105 | corrected: a lone date or time is the hint by itself, and a pair is joined by one space |
| `EmailParsers.ResolveProvider` | providers/email_parsers.py:75 | lower-case; the caller's hint wins when truthy, then the detected provider, then "other" |
| `EmailParsers.ResolveTitle` | providers/email_parsers.py:89-102 | the title is never empty |
| `EmailParsers.TitleFallback` | providers/email_parsers.py:89-102 | the extracted title when non-empty, else the subject's first 80 characters when non-empty, else "Reservation" |
| `EmailParsers.ResolveLocation` | providers/email_parsers.py:90 | the body's location when non-empty, else the subject's when non-empty, else `None`; never an empty string |
| `EmailParsers.ParseEmail` | providers/email_parsers.py:73-109 | a candidate always results: provider, category, title and location from the resolution rules above, hints from `extract_dates` formatted as written, and the confirmation number from the pattern as written; so a non-empty title, a lower-case provider, one of four categories, a token-length confirmation number, a start hint exactly when a date or a time is found, and an end hint only with a start hint |
| `EmailParsers.DateOnlyHint` | providers/email_parsers.py:91-105 | as written, a message with a date and no time gets the start hint "<date> None" |
| `EmailParsers.TimeOnlyHint` | providers/email_parsers.py:91-105 | as written, a message with a time and no date gets the start hint "None <time>" |
| `EmailParsers.ParseEmailIntended` | providers/email_parsers.py:73-109 | corrected: the same candidate except that the hints leave a missing half out and the confirmation number comes from the corrected pattern; a hint is present exactly when the as-written one is |
| `EmailParsers.DateOnlyHintIntended` | providers/email_parsers.py:91-105 | corrected, a message with a date and no time gets the date by itself as its start hint |
| `EmailParsers.DetailsDict` | providers/email_parsers.py:93-97 | `details` holds exactly sender, raw subject and detected provider, and no hint keys |
| `EmailParsers.CandidateDict` | providers/email_parsers.py:99-109 | the dict has the nine candidate keys, `source` "email", the title, the details and the hints |
| `Gmail.PadBase64` | providers/gmail.py:16 | the padded text keeps the data as a prefix, adds fewer than four `=` and has a length divisible by four |
| `Gmail.PadBase64Idempotent` | providers/gmail.py:16 | text already a multiple of four is unchanged, and padding twice is padding once |
| `Gmail.FetchMessages` | providers/gmail.py:20-29 | the given raw list is returned as it is; without one the result is empty |
| `Gmail.OwnText` | providers/gmail.py:36-44 | a part contributes at most one text, exactly when it has data that decodes and a `text/plain` or `text/html` type |
| `Gmail.CollectedAppend` | providers/gmail.py:34-46 | walking two lists of parts one after the other collects the two results in order |
| `Gmail.CollectedInDocumentOrder` | providers/gmail.py:34-46 | the walk collects the texts of the parts in document (pre-)order of the MIME tree |
| `Gmail.BodyCollector.constructor` | providers/gmail.py:33 | the body list starts empty |
| `Gmail.BodyCollector.AddOwnText` | providers/gmail.py:36-44 | appends the part's own text, if it contributes one |
| `Gmail.BodyCollector.Walk` | providers/gmail.py:34-46 | appends exactly the collected texts of the parts and all their descendants |
| `Gmail.ExtractBodyText` | providers/gmail.py:32-48 | the texts in document order, joined by newlines, cut to 20000 characters: a prefix of the full join |
| `Gmail.ReservationOf` | providers/gmail.py:54-57 | each message parses to a truthy dict |
| `Gmail.ReservationOfShape` | providers/gmail.py:57 | the parsed dict has the candidate keys, `source` "email", a non-empty title and a dict `details` without hints |
| `Gmail.ReservationsShape` | providers/gmail.py:51-60 | the `i`-th reservation is the parse (`Gmail.ReservationOf`) of the `i`-th message, so it has the candidate keys, `source` "email", a non-empty title and a `details` dict without time hints |
| `Gmail.Reservations` | providers/gmail.py:51-60 | one parsed reservation per message (see `Gmail.ReservationsShape`) |
| `Gmail.ParseMessage` | providers/gmail.py:54-58 | the parse of one message, which is always truthy |
| `Gmail.MessagesToReservations` | providers/gmail.py:51-60 | one reservation per message, in order: the parse of each message |
| `EmailImport.BaseItem` | providers/email_import.py:14-24 | the nine keys, `source` "email" and a dict `details` |
| `EmailImport.WithHints` | providers/email_import.py:27-31 | attaching hints keeps the keys and leaves `details` a dict |
| `EmailImport.CoerceHint` | providers/email_import.py:39-40 | a converted hint is a valid datetime (the conversions and refusals are stated in `EmailImportProperties`) |
| `EmailImport.CoerceKey` | providers/email_import.py:35-46 | one pass changes at most its own target field and never `details` |
| `EmailImport.CoerceKeys` | providers/email_import.py:34-46 | the coercion loop keeps `details` and every field other than `start_time` and `end_time` |
| `EmailImport.ImportAll` | providers/email_import.py:12-50 | one item per reservation |
| `EmailImport.ImportAllAt` | providers/email_import.py:13-48 | the `i`-th item is the import of the `i`-th reservation |
| `EmailImport.CoerceStep` | providers/email_import.py:35-46 | the loop body for one key: the gate, the parse and the assignment to the target field |
| `EmailImport.CoerceAll` | providers/email_import.py:34-46 | the loop over the hint keys, one pass per key |
| `EmailImport.ImportOne` | providers/email_import.py:14-46 | one reservation: normalised, hints attached, hints converted |
| `EmailImport.ImportReservations` | providers/email_import.py:12-50 | the loop over the reservations, in order, one item each |
| `EmailImport.ImportGmailToReservations` | providers/email_import.py:8-50 | one item per fetched message, in order: the import of that message's parse |
| `EmailImportProperties.DateDashes` | providers/email_import.py:39 | an ISO date prefix has exactly two hyphens in its first ten characters |
| `EmailImportProperties.GateRedundant` | providers/email_import.py:39-40 | every hint `fromisoformat` accepts passes the pre-check, so the pre-check only saves work |
| `EmailImportProperties.DateHintCoerced` | providers/email_import.py:39-44 | a bare ISO date converts to midnight, without an offset |
| `EmailImportProperties.DateNoneHintRefused` | providers/email_import.py:39-46 | a date followed by " None" (the hint as written for a date without a time) never converts |
| `EmailImportProperties.DateTimeHintCoerced` | providers/email_import.py:39-44 | an ISO date, a blank and a valid two-digit `HH:MM` convert to that day and minute, without an offset |
| `EmailImportProperties.NoDashHintRefused` | providers/email_import.py:39 | a hint without a hyphen is refused by the pre-check and never converts |
| `EmailImportProperties.NextTuesdayRefused` | providers/email_import.py:39 | the hint "next Tuesday" never converts |
| `EmailImportProperties.NoneTimeHintRefused` | providers/email_import.py:39-46 | a hint beginning "None " (the hint as written for a time without a date) never converts |
| `EmailImportProperties.CoercedField` | providers/email_import.py:35-46 | a time field is `None` or a datetime that came from converting a string hint |
| `EmailImportProperties.BaseItemFields` | providers/email_import.py:14-24 | each field is the parsed one or the import's default, and both times start as `None` |
| `EmailImportProperties.ImportItemFields` | providers/email_import.py:14-48 | an imported item has the nine keys, `source` "email" and the parsed provider, category, title, location and confirmation number |
| `EmailImportProperties.ImportItemDetails` | providers/email_import.py:27-31 | `details` gets both hints exactly when either is truthy, and is the parsed one otherwise |
| `EmailImportProperties.CoerceKeyTarget` | providers/email_import.py:41-44 | the start hint sets only `start_time`, the end hint only `end_time` |
| `EmailImportProperties.CoerceHintKeys` | providers/email_import.py:34 | the loop visits the start hint, then the end hint |
| `EmailImportProperties.FalsyNotCoerced` | providers/email_import.py:36-39 | a falsy hint never converts |
| `EmailImportProperties.ImportItemTimes` | providers/email_import.py:27-46 | `start_time` is the converted start hint, else `None`; `end_time` likewise from the end hint |
| `EmailImportProperties.ImportedMessage` | providers/email_import.py:8-50 | the `i`-th item of an import has the nine keys, `source` "email", its message's title, and times from its message's hints |
| `Api.LookupItinerary` | main.py:104-107 | the lookup raises nothing exactly when the id is well formed and names an itinerary |
| `Api.AddReservationCheckAsWritten` | main.py:104-109 | as written, every failure of the lookup is answered 400 "Invalid itinerary_id" |
| `Api.UnknownItineraryAnswered400` | main.py:104-109 | as written, the 404 for a well-formed unknown id is raised and then turned into a 400 |
| `Api.AddReservationCheck` | main.py:104-109 | corrected: a malformed id gives 400, an unknown one 404, and a known one passes |
| `Api.AddReservationChecksAgree` | main.py:104-109 | the two versions differ exactly for a well-formed unknown id |
| `Api.Filters` | main.py:132-138 | the filter always holds the itinerary id, and each of category, provider and location exactly when that parameter is truthy, with its value |
| `Api.Find` | main.py:141 | the found documents come from the collection and match every filter |
| `Api.FindComplete` | main.py:141 | every matching document of the collection is found |
| `Api.FoundMatchesQuery` | main.py:132-141 | a found document has the query's itinerary id and each truthy exact-match parameter's value |
| `Api.EarlierThan` | main.py:150 | the comparison is defined exactly for a datetime of the same kind (naive or aware) as the bound |
| `Api.LaterThan` | main.py:152 | the same for the end bound |
| `Api.Present` | main.py:168 | `_id` is removed, `id` is its text, and every other field is kept |
| `Api.Kept` | main.py:143-169 | the survivors of the loop, in cursor order, never more than the documents (see `Api.KeptFrom`, `Api.KeptAppend`, `Api.SurvivorShape`) |
| `Api.TimeDropIff` | main.py:146-155 | when no comparison raises, a document is dropped exactly when its `start_time` is earlier than a given `start` or its `end_time` later than a given `end` |
| `Api.MissingStartPasses` | main.py:150 | a missing or falsy `start_time` passes the `start` bound |
| `Api.MissingEndPasses` | main.py:152 | a missing or falsy `end_time` passes the `end` bound |
| `Api.NoTimestampsPass` | main.py:146-155 | a document with neither timestamp passes any bounds |
| `Api.StartBoundReadsStartTime` | main.py:150-151 | the `start` bound's verdict depends on `start_time` only |
| `Api.EndBoundReadsEndTime` | main.py:152-153 | the `end` bound's verdict depends on `end_time` only |
| `Api.SearchTextParts` | main.py:158-164 | the searched text is lower-cased title, location and provider, separated by single spaces |
| `Api.SearchCaseInsensitive` | main.py:165 | a query and its lower-case form match the same documents |
| `Api.TitleHitMatches` | main.py:157-166 | a query occurring in the title, ignoring case, matches |
| `Api.NoneLocationMatchesNone` | main.py:161 | a location stored as `None` is searched as "None" |
| `Api.KeptAppend` | main.py:143-169 | filtering a concatenation filters each part, in cursor order |
| `Api.KeptFrom` | main.py:143-169 | each survivor is a presented document of the input that the rules keep |
| `Api.KeptUnfiltered` | main.py:143-169 | without bounds or search text every document survives, in order |
| `Api.PresentKeepsSearchText` | main.py:168 | presenting a document changes none of the searched fields |
| `Api.KeptDocWithinBounds` | main.py:146-155 | a kept document's datetime is comparable with each given bound and not on the wrong side of it |
| `Api.SurvivorShape` | main.py:143-169 | a survivor has `id` and no `_id`, respects the bounds, and matches the search text |
| `Api.ReviewDocument` | main.py:144-166 | the loop body's verdict for one document: raise, skip or keep |
| `Api.BuildFilters` | main.py:132-138 | the filters built one field at a time are exactly `Api.Filters` of the query |
| `Api.ReviewCursor` | main.py:143-171 | the loop fails with 500 exactly when some document's comparison raises; otherwise it returns the kept documents, presented, in cursor order |
| `Api.ListReservations` | main.py:116-171 | a malformed id gives 400; a failing comparison gives 500; otherwise the found documents the rules keep, presented, in cursor order |

## Left out

- Network, OAuth and the Gmail API: `fetch_messages` only returns the list it
  is given, so the model has no network either.
- MongoDB and bson:
  - `find` is a filter over a sequence in stored order; Mongo's natural order
    is not guaranteed.
  - `ObjectId` validation and the itinerary lookup are boolean parameters.
  - Insertion (`create_document`) is not modelled.
- The FastAPI app, CORS, the `/test` endpoint, the itinerary endpoints, the
  placeholder import endpoints, and the mock provider connectors (each is a
  guard plus one fixed `normalize` call).
- base64 and UTF-8 decoding are function parameters of the MIME walk, because
  they are library code. A decode that raises is `None`.
- `Gmail.Message` holds each field as present or absent, not as present with the value
  `None`. The defaults of providers/gmail.py:54-56 apply only to absent keys, so a `None`
  subject or body reaches `parse_email` and raises `AttributeError` at `.lower()`
  (providers/email_parsers.py:79-80). That error escapes `messages_to_reservations` and
  `import_gmail_to_reservations`, and the model does not have it. A `None` sender does not
  raise: it renders as "None" in `detect_provider` and is kept as the `sender` value.
- `Gmail.Part` cannot hold a `"body": None` or a `"parts": None` entry, so
  `Gmail.BodyCollector.Walk` does not model the `AttributeError` (providers/gmail.py:37)
  or the `TypeError` (providers/gmail.py:46) they raise outside the `try`.
- `datetime.fromisoformat`, as in Python 3.7 to 3.10:
  - Only `YYYY-MM-DD`, optionally followed by any one separator character,
    `HH:MM`, optional `:SS`, and an optional `±HH:MM` offset.
  - `IsoDateTime.ParseTime` refuses an hour-only time `HH`, which those versions
    accept, so a hint like "2024-06-01 09" is not converted in the model.
  - Fractional seconds, week dates, the compact forms and the `Z` suffix of
    newer Python versions are not modelled. No `Z` survives the
    `replace("Z", "+00:00")` in front of it, so the last one never matters.
- Regular expressions:
  - `\d`, `\w` and case-insensitive matching are ASCII-only.
  - `\s` and `strip()` use the full `str.isspace` set.
  - `str.lower` maps only ASCII letters.
- Python's `str()` of a dict is not modelled.
  - `Api.StrOf`, `Api.SearchText`, `Api.Present` and `Api.ListReservations`
    require `_id`, title, location and provider not to be dicts. `ReservationIn`
    types them as strings.
- `Api.ListReservations`:
  - Requires stored datetimes and query bounds to be real calendar values.
    Python's `datetime` cannot hold anything else.
  - An uncaught `TypeError` (a string, or a naive datetime against an aware
    bound) is modelled as a 500 result, the way the framework answers it.
- `EmailImport.ImportReservations`:
  - Requires each reservation's `details` to be a dict, where the code would
    raise `AttributeError` outside its `try`.
  - `parse_email` always produces one, as proved by `Gmail.ReservationOfShape`.
- Aliasing:
  - `item["details"].update(...)` in the import also mutates the parsed
    reservation's own `details` dict, because `normalize` copies the reference.
  - The model builds a new dict and does not capture that side effect on the
    input list.
- Loop bodies are separate methods: `Gmail.ParseMessage`,
  `Gmail.BodyCollector.AddOwnText`, `EmailImport.CoerceStep`,
  `EmailImport.CoerceAll`, `EmailImport.ImportOne` and `Api.ReviewDocument`.
  - Each keeps the control flow of the inline code: `continue` becomes a
    returned verdict, and the inner `for` over the two hint keys becomes
    `CoerceAll`.
- `list_reservations` is split in the same way: `Api.BuildFilters` builds the
  filters and `Api.ReviewCursor` runs the loop over the cursor. The order of
  the steps is unchanged.
- `Gmail.MessagesToReservations` keeps the `if parsed` test, which `Gmail.ReservationOf` proves always true.

## Findings

| source | as written | input that shows it | evidently intended | confidence | as-written member | corrected member |
|---|---|---|---|---|---|---|
| providers/email_parsers.py:18 | the `#` label is tried only directly after "confirmation" | "Confirmation #: BK-12345" gives no confirmation number | `#` preceded by an optional space is a label | not executed | `Confirmation.HashLabelMissed` | `Confirmation.HashLabelRead` |
| providers/email_parsers.py:18 | the bare-space label is tried before " number " and the token class matches "number" | "Confirmation number ABC12345" gives "number" | the spelled-out label is skipped and the token read | not executed | `Confirmation.NumberLabelCaptured` | `Confirmation.NumberLabelRead` |
| providers/email_parsers.py:104-105 | a missing date or time is formatted as "None" | a body with "2024-06-01" and no time gives the hint "2024-06-01 None", which `fromisoformat` rejects | the missing half contributes nothing, so the hint is "2024-06-01" and converts to midnight | not executed | `EmailParsers.DateOnlyHint` | `EmailParsers.DateOnlyHintIntended` |
| main.py:104-109 | the 404 raised inside `try` is caught by `except Exception` | a well-formed `itinerary_id` naming no itinerary is answered 400 "Invalid itinerary_id" | 404 "Itinerary not found" | not executed | `Api.UnknownItineraryAnswered400` | `Api.AddReservationCheck` |
