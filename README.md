# MAX Logistics shipment tracker: a verified model of its core

MAX Logistics is a small shipment tracker. A browser page (`script.js`) posts
a tracking number to `api/track.php`. The endpoint sanitises the number,
validates it, logs the lookup, and answers with a JSON envelope: 400, 404,
500, or 200 with the shipment and its status history as a classified
timeline. Three admin scripts write the data:
- `admin/add_shipment.php` adds one shipment with its first history row, and lists the newest shipments.
- `admin/reset_database.php` recreates the database and seeds five sample shipments with fixed timelines.
- `admin/fix_data.php` empties both tables and seeds the same samples again.

This project models that core in Dafny and proves what each part promises.

- **The database** is a class `Store.Db`. Its fields are in-memory tables:
  - `shipments`, keyed by tracking number;
  - `history`, the `shipment_status_history` rows;
  - `logs`;
  - `nextId`, the AUTO_INCREMENT counter of `shipments.id`.

  Every statement that changes a table is a method with a `modifies` frame. Every query is a function on the tables. `Store.TablesValid` is the invariant the statements keep:
  - tracking numbers are unique;
  - ids are unique and handed out by the counter;
  - every history row belongs to a stored shipment.

  The format of the stored numbers is stated separately. `Store.NumbersAccepted` says every stored number passes the format check as written. `Store.NumbersWellFormed` says every stored number is `MAX` and nine digits.
- **The PHP built-ins** the core relies on are functions on strings of code points (`PhpStrings`):
  - `trim` with its default character set;
  - `stripslashes`, with `addslashes` as its inverse;
  - `htmlspecialchars` with ENT_QUOTES, with its inverse;
  - ASCII `strtoupper`;
  - `empty`, for which `"0"` is empty.
- **Dates** are integers `YYYYMMDDhhmmss`, so that they compare in date order.
  - The clock ("now") is a parameter.
  - So is every database failure, and whether the log insert is taken.
- **Weights** are opaque text.
- **An answer** is an `Envelope` (`success`, `message`, `data`, and the HTTP status `code`), or the bare 200 to an OPTIONS preflight.
- **The endpoints** are each modelled twice:
  - as a function from the request and the tables to the answer and the new tables (`Track.TrackReply`, `AddShipment.PostOutcome`);
  - as an imperative handler on a `Db` that is proved to agree with that function (`Track.HandleTrack`, `AddShipment.HandlePost`).

  The loops of the source are loops with invariants:
  - the required-field check;
  - the timeline `foreach`;
  - the nested seeding `foreach`.

Modules, one per source file plus shared ones:

| module | models |
|---|---|
| `Wrappers`, `Schema`, `Sorting` | Option; the table rows and payloads; a stable sort by an integer key, standing in for `ORDER BY` |
| `PhpStrings` | the PHP string built-ins above |
| `Config` | `config/database.php` |
| `Store` | the tables, their invariant, the queries, and `logTrackingRequest` |
| `Track` | `api/track.php` |
| `AddShipment` | `admin/add_shipment.php` |
| `ResetDatabase` | `admin/reset_database.php` |
| `FixData` | `admin/fix_data.php` |
| `Client` | the tracking form, the response branching, the badge colour and `adjustColor` in `script.js` |

## Model

| member | source | states |
|---|---|---|
| PhpStrings.Trim | config/database.php:90 | trim() gives the infix left after cutting the default trim characters off both ends; what remains neither starts nor ends with one |
| PhpStrings.TrimUnchanged | config/database.php:90 | text with no trim character at either end is its own trim |
| PhpStrings.StripSlashes | config/database.php:91 | stripslashes() never lengthens its input |
| PhpStrings.StripSlashesUnchanged | config/database.php:91 | text without backslashes passes stripslashes() unchanged |
| PhpStrings.StripAddSlashes | config/database.php:91 | stripslashes() undoes addslashes() on every string |
| PhpStrings.HtmlSpecialChars | config/database.php:92 | no `<`, `>`, `"` or `'` survives htmlspecialchars(), and the output is no shorter than the input |
| PhpStrings.HtmlSpecialCharsUnchanged | config/database.php:92 | text with none of the five special characters passes unchanged |
| PhpStrings.HtmlRoundTrip | config/database.php:92 | unescaping the escaped text gives the original back |
| PhpStrings.ToUpper | api/track.php:41 | strtoupper() keeps the length and upper-cases each character on its own |
| PhpStrings.ToUpperUnchanged | api/track.php:41 | text with no lower-case ASCII letter is its own upper case |
| PhpStrings.IsEmptyValue | api/track.php:36 | empty() holds for an absent value and for `""` and `"0"`, and for nothing else: any other one-character value and every value of two or more characters is not empty |
| Config.SanitizeInput | config/database.php:89-94 | sanitised text contains no raw `<` or `>` |
| Config.SanitizeKeepsPlainText | config/database.php:89-94 | text with no trim character at either end, no backslash and no HTML-special character is sanitised to itself |
| Config.SanitizeKeepsAlphanumeric | config/database.php:89-94 | every ASCII-alphanumeric string, so every well-formed tracking number, passes sanitizeInput() unchanged |
| Config.SanitizeIsReversibleEscape | config/database.php:89-94 | the escaping step loses nothing: unescaping the sanitised text gives the trimmed, unslashed text |
| Config.StripSlashesDropsFinalBackslash | config/database.php:91 | a lone trailing backslash disappears under stripslashes() |
| Config.ValidateTrackingNumber | config/database.php:101-104 | the format check as written: `^MAX\d{9}$` after upper-casing, where `$` also matches before one final newline; accepted text has 12 or 13 characters |
| Config.IsValidTrackingNumber | config/database.php:101-104 | the intended format check: accepted exactly when the upper-cased text is `MAX` and nine ASCII digits, twelve characters |
| Config.ValidNumberIsAlphanumeric | config/database.php:103 | a well-formed tracking number is twelve ASCII letters and digits |
| Config.ValidNumberUpperCase | config/database.php:103 | a well-formed number that starts with `MAX` is its own upper case |
| Config.LowerCaseAccepted | config/database.php:103 | `max123456789` is accepted by both checks |
| Config.ValidateAgreesWithoutFinalNewline | config/database.php:103 | on text that does not end in a newline, the written check and the intended one agree |
| Config.ValidateTrimmedShape | config/database.php:90-103 | on trimmed text the written check accepts only twelve characters, `MAX` and nine digits |
| Config.SanitizedNumberWithFinalNewline | config/database.php:89-103 | `MAX123456789\n\` sanitises to `MAX123456789\n`; the written check accepts that and the intended one refuses it |
| Config.SanitizeDropsFinalBackslash | config/database.php:90-91 | a trailing backslash shields trailing text from trim() and is then dropped |
| Config.NewlineSuffixAccepted | config/database.php:103 | the written check accepts `MAX123456789\n`; the intended one does not |
| Config.IntendedCheckIsStricter | config/database.php:101-104 | everything the intended check accepts the written one accepts; the written one accepts more only on thirteen characters ending in a newline whose first twelve the intended check accepts |
| Config.SendResponse | config/database.php:112-121 | the envelope carries the given code, message and data, and `success` holds exactly when 200 <= code < 300 |
| Config.SuccessFlagOfUsedCodes | config/database.php:117 | 200 and 201 succeed; 400, 404, 409 and 500 do not |
| Store.TablesValid | admin/reset_database.php:65-122 | the UNIQUE tracking number, the AUTO_INCREMENT id and the foreign key of the schema; under them the next id is fresh: no shipment and no history row carries it |
| Store.FindByTrackingNumber | api/track.php:57-76 | the lookup finds a row carrying the number, and finds none exactly when no row carries it |
| Store.FindUnique | api/track.php:72-76 | with unique numbers, looking up a stored shipment's number gives that shipment |
| Store.RowsOf | api/track.php:83-95 | the history query returns only rows of the given shipment |
| Store.RowsOfCount | api/track.php:83-95 | the history query returns every row of the shipment as often as the table holds it, and no other row |
| Store.RowsOfNone | api/track.php:83-95 | a shipment no row points at has no rows |
| Store.RowsOfAppend | api/track.php:83-95 | appending rows to the table appends the shipment's share of them to its rows |
| Store.SortByDate | api/track.php:91 | `ORDER BY status_date ASC` gives the same rows in non-decreasing date order |
| Store.AddShipmentKeepsValid | admin/add_shipment.php:59-72 | a new shipment with a fresh number and the next id keeps the tables valid |
| Store.AddHistoryKeepsValid | admin/add_shipment.php:74-86 | a history row for a stored shipment keeps the tables valid |
| Store.AddHistoryRowsKeepsValid | admin/reset_database.php:147-150 | history rows that all belong to stored shipments keep the tables valid |
| Store.NoRowsForNextId | admin/add_shipment.php:72 | the id the counter hands out next has no history rows yet |
| Store.Db.Recreate | admin/reset_database.php:65-122 | dropping and recreating the database empties every table and restarts ids at 1 |
| Store.Db.DeleteShipments | admin/fix_data.php:17-18 | both tables become empty; the id counter and the logs are kept |
| Store.Db.InsertShipment | admin/add_shipment.php:59-72 | the shipment is appended under the next id, which is returned as lastInsertId(), and the counter moves on by one |
| Store.Db.InsertHistory | admin/add_shipment.php:74-86 | the row is appended to the history and nothing else changes |
| Store.Db.LogTrackingRequest | config/database.php:133-165 | a log row is appended when the database takes it; otherwise nothing changes and no failure reaches the caller |
| Track.DetermineTimelineStatus | api/track.php:138-160 | current exactly when the label equals the current status; otherwise completed exactly when the label is one of the six known labels; otherwise pending |
| Track.ClassificationIsCaseSensitive | api/track.php:149-156 | `in transit` against `In Transit` is pending; `Processing` is current when it is the status and pending otherwise |
| Track.InTransitExample | api/track.php:138-160 | for a shipment in transit: a picked-up event is completed, the in-transit event current, an unknown label pending |
| Track.RequestedNumber | api/track.php:28-33 | a tracking number is read only from GET and POST requests |
| Track.AcceptedNumber | api/track.php:36-46 | a number that passes both 400 checks passes the format check as written, so it has twelve characters, or thirteen with a final newline |
| Track.TrackReply | api/track.php:24-130 | a preflight exactly for OPTIONS; otherwise a JSON answer with code 200, 400, 404 or 500, and 400 exactly when the request carries no accepted number |
| Track.LookupReply | api/track.php:53-130 | 500 exactly when the database fails; otherwise 404 exactly when no shipment carries the number and 200 exactly when one does, with data about that number; only 200 succeeds |
| Track.CorrectedTrackReply | config/database.php:103 | the handler with the intended format check: it differs from the handler as written only by a 400 for an accepted thirteen-character number ending in a newline, and a non-400 answer is only ever about a number that is `MAX` and nine digits |
| Track.NewlineNumberLookedUp | api/track.php:28-80 | a GET for `MAX123456789\n\` is accepted as `MAX123456789\n`, logged under that number, and answered 404 unless a shipment carries that very number (so always on tables of well-formed numbers); the corrected handler answers 400 |
| Track.LogRows | api/track.php:48-51 | at most one log row, present exactly when the number was accepted and the database takes the insert; it carries that number, the time now, and the remote address and user agent, each "unknown" when missing (config/database.php:133-165 writes it) |
| Track.FormatTimeline | api/track.php:113-121 | the `foreach` produces one entry per row, in row order, with the title, description, location and date of the row and its classification |
| Track.HandleTrack | api/track.php:24-130 | the handler answers as `TrackReply` says, and changes the log table by at most the one row of an accepted number |
| Track.Lookup | api/track.php:53-123 | the query and formatting part of the handler answers as `LookupReply` says |
| Track.TrackTwice | api/track.php:24-130 | two requests against unchanged tables get the same answer, whether or not the database takes each of the two log inserts and at whatever two times; the logs gain exactly the two requests' log rows |
| Track.OtherMethodIs400 | api/track.php:28-38 | a method other than GET, POST and OPTIONS gets 400 "Tracking number is required", whatever the tables hold |
| Track.MissingNumberIs400 | api/track.php:28-38 | a missing or empty number (including `"0"`) gets that 400, whatever the tables hold and whether or not the database works |
| Track.MalformedNumberIs400 | api/track.php:41-46 | a number the format check as written refuses after upper-casing gets 400 with the format message, without a lookup |
| Track.StoreFailureIs500 | api/track.php:125-130 | a database failure after validation gets 500 with the generic message |
| Track.UnknownNumberIs404 | api/track.php:78-80 | an accepted number no shipment carries gets 404 |
| Track.FoundNumberReply | api/track.php:82-123 | a stored number gets 200 with that shipment and its date-ordered rows |
| Track.AcceptedReply | api/track.php:48-123 | once a number is accepted, the answer depends on that number and the tables only |
| Track.LookupFound | api/track.php:76-123 | a number the lookup finds gets 200 with the found shipment's date-ordered rows as its timeline |
| Track.TimelineInDateOrder | api/track.php:83-121 | one timeline entry per history row, in non-decreasing date order; no rows, no entries |
| Track.TimelineOfRows | api/track.php:83-121 | the timeline is made from a rearrangement of the shipment's rows, one entry per row: entry i carries row i's label as title, its description, location and date, and its classification |
| Track.FoundNumberIs200 | api/track.php:98-123 | on 200 the data carries the shipment's fields, the weight with " kg" appended, and one entry per history row of the shipment, oldest first, each titled with the row's label |
| AddShipment.FirstMissing | admin/add_shipment.php:26-31 | the first required field, in the listed order, that empty() rejects; none exactly when all five are present and non-empty |
| AddShipment.CheckRequiredFields | admin/add_shipment.php:26-31 | the `foreach` over the required fields stops at the first empty one |
| AddShipment.FaultMessage | config/database.php:57 | the exception message ends with the PDO message; only a failed connection puts the helper's prefix before it |
| AddShipment.FailedAnswer | admin/add_shipment.php:94-98 | a fault becomes an unsuccessful 500 with no data whose message starts with "Failed to add shipment: " and ends with the PDO message |
| AddShipment.NewShipment | admin/add_shipment.php:34-42 | the row to insert carries the given number and is created and updated now; the weight column is the submitted weight text; each other text column unescapes to its own submitted field (or that field's default), trimmed and unslashed, and holds no `<` or `>` |
| AddShipment.StoredFieldsOfPlainInput | admin/add_shipment.php:34-42 | when every submitted text field is plain text, each column stores its own field exactly as sent, an absent optional field stores its default, and the weight is the submitted text |
| AddShipment.PostOutcome | admin/add_shipment.php:21-100 | codes 201, 400, 409 or 500, only 201 succeeding; 400 exactly when a required field is empty or the number fails the format check as written; 400 and 409 write nothing; the shipments table at most gains the submitted shipment under the next id, the counter moving with it; every stored number stays one the written check accepts |
| AddShipment.StoreOutcome | admin/add_shipment.php:49-92 | 201 exactly when no statement fails and the number is new, 409 exactly when the lookup runs and finds it, 500 otherwise; the shipment is appended under the next id or not at all, and its history row only on 201 |
| AddShipment.CorrectedPostOutcome | config/database.php:103 | the POST with the intended format check: it differs from the POST as written only by a 400 that writes nothing, for a thirteen-character number ending in a newline, and it keeps every stored number `MAX` and nine digits |
| AddShipment.NewlineNumberStored | admin/add_shipment.php:34-92 | with every required field present, a submitted `MAX123456789\n\` not yet stored gets 201 and stores the thirteen-character `MAX123456789\n`, so the stored numbers are no longer all well formed; the corrected POST answers 400 and writes nothing |
| AddShipment.HandlePost | admin/add_shipment.php:21-100 | the POST handler answers and leaves the tables as `PostOutcome` says, and keeps them valid |
| AddShipment.StoreNew | admin/add_shipment.php:49-92 | the database half answers and leaves the tables as `StoreOutcome` says |
| AddShipment.MissingFieldIs400 | admin/add_shipment.php:26-31 | the first empty required field is named in a 400, and nothing is written |
| AddShipment.NoBodyNamesTrackingNumber | admin/add_shipment.php:23-29 | a body that is not a JSON object is reported as lacking `tracking_number` |
| AddShipment.MalformedNumberIs400 | admin/add_shipment.php:34-47 | a number the format check as written refuses after sanitising and upper-casing gets 400, and nothing is written |
| AddShipment.DuplicateIs409 | admin/add_shipment.php:52-57 | a number already stored (after upper-casing) gets 409, and nothing is written |
| AddShipment.SuccessAddsOneOfEach | admin/add_shipment.php:59-92 | a successful POST adds exactly one shipment under the next id and one history row for it, answers 201 with that id and the upper-cased number, and changes nothing else |
| AddShipment.DefaultCarrierSurvives | admin/add_shipment.php:39 | the default carrier is unchanged by sanitising |
| AddShipment.DefaultStatusSurvives | admin/add_shipment.php:41 | the default status is unchanged by sanitising |
| AddShipment.DefaultDescriptionSurvives | admin/add_shipment.php:42 | the default description is unchanged by sanitising |
| AddShipment.DefaultsApplied | admin/add_shipment.php:39-86 | without the optional fields the carrier is MAX Logistics, the status Processing with the stock description, and the first history row repeats them at the origin |
| AddShipment.HistoryFailureKeepsShipment | admin/add_shipment.php:59-98 | without a transaction, a failing history insert answers 500 and leaves the new shipment stored without history |
| AddShipment.SuccessOutcome | admin/add_shipment.php:59-92 | the success outcome appends the new shipment and its initial row |
| AddShipment.NewShipmentHasOneRow | admin/add_shipment.php:74-86 | the new shipment's only history row is its initial row |
| AddShipment.SingleRowTimeline | api/track.php:113-121 | a single row makes a single entry, which is current when it carries the current status |
| AddShipment.TrackNewShipment | admin/add_shipment.php:74-86 | tracking a shipment stored with its initial row gives 200 and that row as the whole timeline |
| AddShipment.TrackAfterAdd | admin/add_shipment.php:59-92 | right after a successful POST, tracking the new number gives 200 and a one-entry timeline marked current |
| AddShipment.PostKeepsTablesValid | admin/add_shipment.php:21-100 | every POST outcome keeps the tables' invariant |
| AddShipment.StoreKeepsTablesValid | admin/add_shipment.php:49-92 | so does every database outcome, whatever the number |
| AddShipment.ListingsOf | admin/add_shipment.php:108-117 | one listing row per shipment |
| AddShipment.Newest | admin/add_shipment.php:108-117 | the listing holds at most 50 rows, newest `created_at` first, drawn from the shipments |
| AddShipment.NewestIsTop | admin/add_shipment.php:113-114 | every shipment the limit leaves out was created no later than every listed one |
| AddShipment.FewShipmentsAllListed | admin/add_shipment.php:114 | with at most 50 shipments, each is listed exactly once |
| AddShipment.HandleGet | admin/add_shipment.php:103-127 | the GET handler answers 200 with the listing, or a 500 that names no cause |
| ResetDatabase.GetTimelineData | admin/reset_database.php:213-269 | one to four events, the first at the origin; three or more exactly for the five sample numbers; for any other number the one event carries the current status and is dated now |
| ResetDatabase.TimelineLengths | admin/reset_database.php:217-259 | four events for four sample numbers, three for MAX111222333 |
| ResetDatabase.FixedDatesIncrease | admin/reset_database.php:219-257 | within every fixed timeline the dates strictly increase |
| ResetDatabase.FixedLocations | admin/reset_database.php:219-257 | the first event is at the origin, the second at the origin's distribution center, the rest at the destination |
| ResetDatabase.FixedIgnoresStatusAndClock | admin/reset_database.php:216-259 | no fixed timeline depends on the current status or on the clock |
| ResetDatabase.DefaultTimeline | admin/reset_database.php:261-265 | any other number gets one event: its current status, "Package status update", at its origin, dated now |
| ResetDatabase.ItemRows | admin/reset_database.php:147-150 | one history row per timeline item |
| ResetDatabase.Timelines | admin/reset_database.php:145 | one timeline per sample |
| ResetDatabase.SeedShipments | admin/reset_database.php:133-135 | seeding n samples gives n shipments |
| ResetDatabase.SeedHistory | admin/reset_database.php:139-150 | seeding n timelines writes one history row per event of those timelines |
| ResetDatabase.InsertTimeline | admin/reset_database.php:147-150 | the inner `foreach` appends the items' rows, in order, tied to the shipment |
| ResetDatabase.SeededShipments | admin/reset_database.php:133-142 | seeded shipment i is sample i under id firstId + i |
| ResetDatabase.SeededShipmentAt | admin/reset_database.php:133-142 | the same, for one index |
| ResetDatabase.NextSampleIsNew | admin/reset_database.php:125-135 | with distinct sample numbers, the next sample's number is not yet stored |
| ResetDatabase.SeedOne | admin/reset_database.php:133-150 | one pass of the outer `foreach` adds the shipment under the next id and its timeline rows |
| ResetDatabase.SeedSamples | admin/reset_database.php:133-151 | the seeding loop leaves exactly the seeded shipments and history, keeps the tables valid, and moves the counter on by the number of samples |
| ResetDatabase.Reset | admin/reset_database.php:63-151 | the whole script leaves the five samples under ids 1 to 5 and their timelines, and no logs |
| ResetDatabase.SampleNumbersValid | admin/reset_database.php:125-131 | every sample number is well formed |
| ResetDatabase.SampleNumbersDistinct | admin/reset_database.php:125-131 | the sample numbers are pairwise distinct |
| ResetDatabase.SamplesInsertable | admin/reset_database.php:125-131 | so every sample can be inserted in turn |
| ResetDatabase.SeededNumbersWellFormed | admin/reset_database.php:125-142 | every seeded shipment carries a number that is `MAX` and nine digits |
| ResetDatabase.ResetCounts | admin/reset_database.php:153-158 | the two counts the script reports are 5 shipments and 19 history rows |
| ResetDatabase.RowsOfItemRows | admin/reset_database.php:147-150 | a shipment's rows among one timeline's rows are all of them or none |
| ResetDatabase.SeedRowsUnused | admin/reset_database.php:139-150 | an id not yet reached has no seeded rows |
| ResetDatabase.SeedRowsTied | admin/reset_database.php:139-150 | the seeded rows of sample k are exactly its timeline's rows, in order |
| ResetDatabase.SeedHistoryIds | admin/reset_database.php:139-150 | every seeded row belongs to one of the seeded ids |
| ResetDatabase.SeedValid | admin/reset_database.php:125-151 | the seeded tables satisfy the tables' invariant |
| ResetDatabase.SeededRowsInOrder | admin/reset_database.php:144-150 | ordering sample k's rows by date gives its timeline's rows in their listed order |
| ResetDatabase.SeededFind | admin/reset_database.php:139-142 | looking up sample k's number in the seeded tables finds seeded shipment k |
| ResetDatabase.SeededLookup | admin/reset_database.php:125-151 | the lookup of a seeded number gives 200 with that sample's timeline, classified |
| ResetDatabase.TrackAfterSeed | admin/reset_database.php:125-151 | tracking a seeded number gives 200 with that sample's timeline, classified against its status |
| ResetDatabase.SampleLookup | admin/reset_database.php:125-151 | the same lookup for the five samples under any first id |
| ResetDatabase.TrackAfterReset | admin/reset_database.php:125-151 | after a reset, tracking sample k gives 200 with its fixed timeline |
| ResetDatabase.ClassifiedItems | api/track.php:113-121 | the classification of a timeline is that of each of its items |
| ResetDatabase.DeliveredTimeline | admin/reset_database.php:226-233 | MAX987654321, delivered, classifies as completed, completed, completed, current |
| ResetDatabase.ProcessingTimeline | admin/reset_database.php:235-242 | MAX555666777, processing, has four events and none current |
| FixData.GetTimelineData | admin/fix_data.php:70-125 | one to four events, the first at the origin; three or more exactly for the five sample numbers; for any other number the one event carries the current status and is dated now |
| FixData.SameTimelineAsReset | admin/fix_data.php:70-125 | this script's getTimelineData() returns the same list as the reset script's copy for every input |
| FixData.FixTimelines | admin/fix_data.php:43 | one timeline per sample |
| FixData.SameTimelinesAsReset | admin/fix_data.php:43 | so the fix inserts exactly the timelines the reset inserts |
| FixData.Fix | admin/fix_data.php:17-62 | delete both tables, then seed: the five samples under ids continuing from the counter, their timelines, counts 5 and 19, logs untouched |
| FixData.FixedNumbersOnly | admin/fix_data.php:17-51 | whatever the tables held before, afterwards they hold exactly the five sample numbers, in sample order |
| FixData.TrackAfterFix | admin/fix_data.php:23-51 | after the fix, tracking sample k gives 200 with its fixed timeline, classified |
| FixData.ExceptionTimeline | admin/fix_data.php:109-116 | MAX444555666, status Exception: only the last of its four events, labelled Exception, is current |
| FixData.InTransitTimeline | admin/fix_data.php:74-81 | MAX123456789, status In Transit: its later Out for Delivery and Delivered events are completed, because classification looks at labels, not dates |
| Client.JsTrim | script.js:38 | `trim()` is empty exactly for all-white-space input; otherwise it is the infix without white space at either end |
| Client.OnSubmit | script.js:38-43 | all-white-space input is refused with "Please enter a tracking number" and sends nothing; otherwise the trimmed, upper-cased text is sent |
| Client.SentIsNormalised | script.js:38 | what is sent is non-empty, has no white space at either end and no lower-case ASCII letter |
| Client.ResubmitSendsSame | script.js:38 | submitting what was sent sends it again unchanged |
| Client.ZeroIsSent | script.js:38-43 | the page sends `0`, since only the empty string is falsy in JavaScript |
| Client.ZeroIsRefused | api/track.php:36-38 | the endpoint refuses `0` as a missing tracking number |
| Client.ZeroIsSentThenRefused | script.js:38-43 | `0` passes the page's check and is then answered 400 "Tracking number is required" |
| Client.RequestFor | script.js:65-73 | the page sends a POST whose JSON body carries the number, so the endpoint reads the sanitised number from the body |
| Client.Received | script.js:65-75 | the status the page sees is the envelope's code and the body it decodes is the envelope; a preflight, with its empty body, makes `response.json()` throw and takes the network-error path of script.js:86-88 |
| Client.ViewOf | script.js:77-89 | results exactly for a successful envelope; the no-results panel exactly for an unsuccessful 404; any other failure shows the server's message, or "Failed to track shipment" when it is empty; a failed request shows the network-error text |
| Client.PageShowsEndpointAnswer | script.js:75-85 | for every endpoint answer the page shows results exactly on 200, no results exactly on 404, and otherwise the server's message |
| Client.StoredNumberShowsResults | script.js:77-78 | a stored number the page sends shows the results for that number |
| Client.HexValue | script.js:181 | a hex digit's value is below 16 |
| Client.HexChar | script.js:188 | a value below 16 is written as a lower-case hex digit of that value |
| Client.HexCharOfValue | script.js:188 | writing a lower-case digit's value gives the digit back |
| Client.ParseHex | script.js:181 | `parseInt(col, 16)` on n hex digits is below 16^n |
| Client.ToHex | script.js:188 | n written as `width` lower-case hex digits has exactly `width` characters |
| Client.ParseToHex | script.js:181-188 | parsing what was written gives the number back |
| Client.ToHexParse | script.js:181-188 | writing what was parsed gives lower-case digits back |
| Client.Radix16 | script.js:188 | `toString(16)` has at least one digit |
| Client.PadStart | script.js:188 | `padStart` gives the width, or the text when longer |
| Client.ToHexOfZero | script.js:188 | zero is written as all zeros |
| Client.PaddedRadix16 | script.js:188 | `toString(16).padStart(width, '0')` writes a number below 16^width as exactly `width` hex digits |
| Client.Digits | script.js:180 | the digits after an optional `#` are six hex digits |
| Client.Channel | script.js:181-184 | each of red, green and blue is below 256 |
| Client.Clamp | script.js:185-187 | the clamp is 255 above 255, 0 below 0, and the value itself in between |
| Client.SplitColor | script.js:179-180 | a colour is its optional `#` followed by its digits |
| Client.FormatColorDigits | script.js:188 | a value below 2^24 is formatted as the `#` if asked for, then six lower-case hex digits of the value |
| Client.PackChannels | script.js:188 | `r << 16 \| g << 8 \| b` of three channels below 256 is below 2^24 and gives the channels back |
| Client.UnpackChannels | script.js:182-184 | the three channel extractions of a 24-bit value rebuild it |
| Client.AdjustColor | script.js:178-189 | the result is again a six-digit hex colour, with a leading `#` exactly when the input has one |
| Client.AdjustColorFormats | script.js:178-189 | adjustColor() formats the adjusted value of the parsed digits |
| Client.AdjustColorShape | script.js:179-188 | the output starts with `#` exactly when the input did, and has six lower-case hex digits |
| Client.AdjustedValueRead | script.js:181-188 | the output's digits parse to the adjusted value |
| Client.AdjustedValueChannels | script.js:182-187 | each channel of the adjusted value is the clamped, shifted channel |
| Client.AdjustColorChannels | script.js:182-187 | each output channel is the input channel plus the amount, clamped to 0..255 |
| Client.AdjustColorByZero | script.js:181-188 | a six-digit lower-case colour adjusted by 0 is returned unchanged |
| Client.AdjustColorMonotone | script.js:182-187 | a larger amount never gives a smaller channel |
| Client.BadgeColor | script.js:107 | a status in the five-entry colour table gets its colour; any other status the fallback `#1e3c72` |
| Client.BadgeColorIsHex | script.js:26-32 | every badge colour, the fallback included, is `#` and six lower-case hex digits |
| Client.BadgeGradient | script.js:107 | both ends of the badge gradient are hex colours, the darker end with a `#` exactly when the status colour has one |
| Client.GradientDarkens | script.js:107 | the badge gradient never gets lighter: each channel of its end is at most the same channel of its start |

## Left out

- Floating point: `floatval` on the weight, and the `DECIMAL(5,2)` column, are not modelled. The weight is stored as the text that was given.
- JSON and query arrays: a body value that is not a string (number, boolean, array, null) is not modelled. A body that does not decode to an object counts as no body. Nor is a query such as `tracking_number[]=…`: PHP then passes an array to trim(), which throws a TypeError. That is an Error, not an Exception, so the `catch (Exception $e)` at api/track.php:125 does not catch it and PHP ends with a fatal 500. `Track.Request.query` maps names to strings only.
- MySQL collation: tracking numbers compare by exact string equality. MySQL's default collation would compare them case-insensitively and ignore trailing spaces.
- VARCHAR lengths and strict-mode column errors are not modelled. In particular, the empty `estimated_delivery` that a POST without that field stores is not checked against the `DATE` column.
- The AUTO_INCREMENT value that MySQL consumes on a failed shipment insert is not modelled: a failed insert leaves the counter unchanged.
- Failures part-way through a reset or a fix are not modelled: the seeding scripts are modelled only on a database that does not fail. The same goes for the HTML and CLI echo of both scripts and their `exit(1)`.
- Date formatting (`date`/`strtotime` in the Asia/Jakarta timezone) is not modelled: dates are integers and are returned unformatted. "now" is a parameter.
- The database connection (`getDBConnection`, PDO, the cached handle), CORS headers, `json_encode`, `exit` and the `timestamp` field of the envelope are not modelled. An answer is a returned value.
- The DOM, `fetch`, timers, scrolling and event wiring of `script.js` are not modelled. The page is modelled by what it sends and which view it picks.
  - `displayTrackingResults` reads camel-case keys (`currentStatus`, `lastUpdated`, `estimatedDelivery`, `serviceType`) that the endpoint sends in snake case. That is display code and is not modelled.
  - A CORS preflight answer has an empty body. If the page ever read one, `response.json()` would throw, so `Client.Received` maps it to the network-error path.
- Track.CorrectedTrackReply: the handler with the intended check is modelled by its answer only. Which log row it would write is not modelled; `Track.LogRows` is the log of the handler as written.
- Client.OnSubmit: JavaScript's `toUpperCase` is modelled on ASCII letters only; it also maps other Unicode letters.
- Client.AdjustColor: modelled only on a colour of exactly six hex digits (with or without `#`) and an integer amount. The NaN and 32-bit shift behaviour on other input is not modelled.
- Client.BadgeColor: keys inherited from `Object.prototype` (such as `constructor`) are not modelled. In the page they would pick up a non-colour value instead of the fallback.
- PHP `switch` compares with loose `==`. For the string labels compared here this is string equality, and it is modelled as such.
- Store.SortByDate: rows with equal dates are kept in table order. SQL leaves the order of ties undefined. The contracts promise non-decreasing dates only.
- The other admin scripts are not part of this model: `check_database.php`, `setup.php`, `setup_simple.php` and `test_api.php`.

## Findings

| source | as written | input that shows it | evidently intended | confidence | as-written member | corrected member |
|---|---|---|---|---|---|---|
| config/database.php:103 | `preg_match('/^MAX\d{9}$/', …)`: without the D modifier `$` also matches just before a final newline; sanitizeInput() does not prevent one reaching it | `MAX123456789\n\` (newline, then a backslash): trim() keeps the newline because the backslash ends the text, stripslashes() then drops the backslash, and `MAX123456789\n` is accepted; add_shipment.php would store a 13-character tracking number | accept exactly `MAX` and nine digits (`\z`, or the D modifier) | not executed | Config.ValidateTrackingNumber, Config.SanitizedNumberWithFinalNewline, Track.NewlineNumberLookedUp, AddShipment.NewlineNumberStored | Config.IsValidTrackingNumber, Track.CorrectedTrackReply, AddShipment.CorrectedPostOutcome |

The endpoints in this model use the check as written: `Track.TrackReply`,
`Track.HandleTrack`, `AddShipment.PostOutcome` and `AddShipment.HandlePost`
all call `Config.ValidateTrackingNumber`. `Track.NewlineNumberLookedUp` and
`AddShipment.NewlineNumberStored` show what that does with the input above:
the GET is logged and answered 404, and the POST stores a thirteen-character
number with 201. `Track.CorrectedTrackReply` and
`AddShipment.CorrectedPostOutcome` are the endpoints with the intended check.
They refuse that input with 400, answer every other request as before, and
keep every stored number `MAX` and nine digits.
`Config.IntendedCheckIsStricter` shows that the two checks differ only on
thirteen characters ending in a newline.
