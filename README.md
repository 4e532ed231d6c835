# train-late: schedule loading and delay lookup

A Dafny model of the two sequential cores of the `train-late` web service, which tells a
user how late a Sydney Trains trip is running:

- **Schedule loading** (`train-late/data.go`): `readRoutes` and `readTrips` read the GTFS
  `routes.txt` and `trips.txt` reference files. The value of the first read (the header)
  is discarded.
  Only routes whose mode column is `x0001` or `X0000` (the train routes) are kept.
  Every trip is kept. The model projects fixed columns into `Route` and `Trip` records in
  file order, and the first row that cannot be decoded aborts the whole load.
- **Lookup** (`train-late/main.go`): the startup sequence that builds the schedule, the
  route-to-trips selection loop of `handleTrips`, and the logic of `handleLateness`. That
  logic rejects an empty trip id, then a missing API key, and only then sends one
  authenticated GET to the GTFS-Realtime feed. It scans the decoded `FeedMessage.entity`
  values for the first entity whose chain of optional fields
  (`TripUpdate` → `Trip` → `TripId`, then `StopTimeUpdate[0]` → `Departure` → `Delay`)
  is fully present and names the trip. It converts the delay from seconds to minutes
  with Go's truncating division.

Layout:

- `wrappers.dfy` (`Wrappers`): `Option` and `Result`.
- `seqs.dfy` (`Seqs`): `Filter`, the order-preserving selection behind the `handleTrips`
  loop and the train-route filter of `readRoutes`. It comes with lemmas for
  membership, multiplicity, concatenation and "is a subsequence".
- `data.dfy` (`Data`): the loader. The CSV decoder is a `CsvReader` object over the
  sequence of outcomes its successive `Read` calls produce (`Record(fields)` or
  `Malformed(reason)`; `None` is `io.EOF`). `ReadRoutes` and `ReadTrips` are the source's
  loops, proved equal to the pure specifications `LoadRoutes` and `LoadTrips`.
- `gtfs.dfy` (`Gtfs`): the GTFS-Realtime messages the lookup reads, as nested datatypes
  with `Option` fields, and the protobuf `int32` type.
- `handlers.dfy` (`Handlers`): the immutable `Schedule` value, `Startup`, `HandleTrips`,
  `MinutesLate`, `Resolve`/`ScanFeed` and `HandleLateness`. The network is a
  `FeedEndpoint` object that records every request it receives.

Behaviours of the code worth noting:

- `handleLateness` never examines the HTTP status of the feed response. A non-success
  response goes on to `proto.Unmarshal` like any other body. There is no separate
  "upstream status" error.
- The `route` query parameter is the empty string when it is absent. `handleTrips` then
  selects the trips whose route id is the empty string, which is not necessarily none.
  `UnknownRouteHasNoTrips` therefore states the empty result for any route id that no
  loaded trip carries, the empty id included.
- Load errors are the decoder's own errors, carried through as `MalformedRecord(reason)`.
  A failed `os.Open` is `SourceUnavailable(reason)`.

## Model

| member | source | states |
|---|---|---|
| `Data.ReadRoutes` | train-late/data.go:20-50 | returns exactly `LoadRoutes(src)`: `SourceUnavailable` when the file cannot be opened, before any row is read; otherwise the header is read and discarded, and then the train routes of the data rows in order, or the error of the first malformed row |
| `Data.ReadTrips` | train-late/data.go:52-81 | returns exactly `LoadTrips(src)`: open failure, header discarded, one trip per data row in order, or the first row error |
| `Data.CleanPrefixIsLongestRecordRun` | train-late/data.go:31-38 | the rows the loop processes are exactly the records before the first malformed line, field for field |
| `Data.DecodeAllAbortsOnFirstError` | train-late/data.go:31-38 | reading fails if and only if some line is malformed, with the error of the first such line; otherwise there is one record per line |
| `Data.MalformedLineAbortsLoad` | train-late/data.go:36-38 | a malformed data line makes both the routes and the trips load return that error and no partial list (also data.go:68-70) |
| `Data.RoutesHeaderIgnored` | train-late/data.go:27-28 | the value of the first read (the header record, or its error) is discarded: for given outcomes of the later reads the routes do not depend on it, and an empty file loads as no routes |
| `Data.TripsHeaderIgnored` | train-late/data.go:59-60 | the value of the first read is discarded in the same way for trips, and an empty file loads as no trips |
| `Data.RouteKeptIffTrainMode` | train-late/data.go:40-45 | a route is loaded if and only if some record has mode column exactly `x0001` or `X0000`, and it is `Route{record[0], record[2], record[3]}` of that record |
| `Data.ParseOneRoute` | train-late/data.go:40-46 | a single record yields its route when its mode is a train code, and nothing otherwise; a record of another mode needs only its first two columns |
| `Data.NarrowOtherModeRouteIsDropped` | train-late/data.go:28-49 | a file whose only data line is a two-column `bus` record can be read and loads as no routes |
| `Data.RoutesInFileOrder` | train-late/data.go:30-47 | the routes of a file split in two are the routes of the first part followed by those of the second: load order is file order |
| `Data.TrainRoutesInFileOrder` | train-late/data.go:30-49 | two train routes (one `x0001`, one `X0000`) come back in file order whatever their ids |
| `Data.TripsKeepEveryLine` | train-late/data.go:72-77 | the number of trips equals the number of data lines, and trip `i` is `Trip{record[0], record[2]}` of line `i` |
| `Seqs.FilterIsSubsequence` | train-late/main.go:130-134 | the selection loop neither adds nor reorders elements |
| `Handlers.Startup` | train-late/main.go:21-30 | a routes error stops startup with that error before trips are loaded; otherwise a trips error stops it; otherwise the schedule holds both loaded sequences |
| `Handlers.HandleTrips` | train-late/main.go:128-134 | the selection loop returns exactly `TripsForRoute(trips, routeId)` |
| `Handlers.TripsForRouteExact` | train-late/main.go:129-134 | the selected trips are exactly the loaded trips with that route id: same members, same multiplicities, and a subsequence of the load order |
| `Handlers.UnknownRouteHasNoTrips` | train-late/main.go:129-134 | a route id no trip carries yields the empty sequence, not an error |
| `Handlers.MinutesLate` | train-late/main.go:198 | the result is the quotient of the delay by 60 truncated toward zero: `60*m <= d < 60*m + 60` for `d >= 0` and `60*m - 60 < d <= 60*m` for `d < 0` |
| `Handlers.MinutesLateIsOdd` | train-late/main.go:198 | negating the delay negates the minutes, which floor division would not do |
| `Handlers.MinutesLateExamples` | train-late/main.go:198 | 125 → 2, -125 → -2, 59 → 0, -59 → 0, -45 → 0, 300 → 5 |
| `Handlers.ResolveIsFirstMatch` | train-late/main.go:189-205 | the scan yields "no delay information" if and only if no entity reports a delay for the trip; otherwise it yields the minutes of the first reporting entity in document order |
| `Handlers.ResolveStopsAtFirstMatch` | train-late/main.go:197-200 | entities after the first match do not affect the result |
| `Handlers.IncompleteEntityIsSkipped` | train-late/main.go:190-196 | an entity without a full chain is passed over and the scan continues with the next. This covers a missing trip update, trip or trip id, another trip id, no stop-time updates, and a first update without a departure or delay |
| `Handlers.UnusableEntityShapes` | train-late/main.go:190-196 | each way of failing the condition chain is skipped: no trip update, no trip, no trip id, another trip id, no stop-time updates, a first update without a departure, a departure without a delay |
| `Handlers.ResolveScenario` | train-late/main.go:189-205 | with entities `[trip 5 without updates, trip 7 delayed 300 s]`, trip 7 is 5 minutes late, and trips 5 and 99 have no data |
| `Handlers.ScanFeed` | train-late/main.go:189-205 | the loop with its early return computes `Resolve(feed.entity, tripId)`, and answers "no data" exactly when no entity matches |
| `Handlers.HandleLateness` | train-late/main.go:148-205 | the response is `LatenessOf(tripId, apiKey, reply)`. The endpoint receives `GET` of the feed URL with header `apikey <key>` only when both trip id and key are non-empty, and otherwise receives nothing |
| `Handlers.GuardOrder` | train-late/main.go:149-160 | an empty trip id gives 400 "tripID is required" whatever the key and the feed; then a missing key gives 500 "API key not configured" whatever the feed |
| `Handlers.AnsweredIffFeedDecoded` | train-late/main.go:162-205 | a lookup answers (minutes late or no data) if and only if it fetched a body that decoded, and the answer is the scan of that feed; "no data" is an answer, distinct from every error |
| `Handlers.MissingKeyScenario` | train-late/main.go:155-160 | with a trip id and no key the lookup fails with 500 and the endpoint's request count stays at zero |

## Left out

- HTML templates and response writing (`handleIndex`, the `tmpl.Execute` calls, the
  `fmt.Fprintf` markup): presentation only. `Response` carries what would be rendered.
- HTTP server setup and routing (`main.go:32-39`), and reading query parameters. The
  route id and trip id are plain inputs.
- `log.Println("TFNWS_API_KEY not set")` in `handleLateness` (main.go:157): log output,
  which is not modelled. The missing-key branch is modelled only by its 500 response.
- `os.Getenv`: the API key is an input string. An unset variable and an empty one are
  the same, as in Go.
- `http.NewRequest` on the constant feed URL: its error branch is not modelled, since
  that URL always parses.
- The network client, the response status and closing the body: one request per lookup
  is modelled by `FeedEndpoint.Do`. Its reply is a transport failure, an unreadable
  body, or a delivered payload.
- `proto.Unmarshal`: modelled by its output, either `Undecodable(reason)` or a decoded
  `FeedMessage`. Only the GTFS-Realtime fields the lookup reads are modelled.
- `os.Open`, `file.Close` and the `encoding/csv` tokenizer: a file is `Unopenable` or the
  sequence of outcomes of its `Read` calls. The tokenizer's own rules (quoting,
  `FieldsPerRecord`) are not modelled.
- `Data.ReadRoutes`: indexing past the end of a short record makes Go panic. The model
  instead requires (`RoutesReadable`) that every routes record read before the first
  malformed line has column 1, which is read of every record, and that every train record
  among them also has columns 2 and 3. A non-train record with two or three columns is
  allowed and dropped. Files with a record of fewer than two columns, or a train record
  of fewer than four, before the first malformed line are excluded.
- `Data.ReadTrips`: likewise, `TripsReadable` requires every trips record read before
  the first malformed line to have columns 0 to 2, which `readTrips` reads from all of
  them. Files with a shorter record are excluded.
- `Data.RoutesHeaderIgnored`, `Data.TripsHeaderIgnored`: `csv.NewReader` leaves
  `FieldsPerRecord` at zero, so the width of the first record read, the header, fixes the
  width every later record must have. A header whose width differs from the data rows
  makes the first data row fail with a field-count error. The model takes the outcome of
  each later read as given, so this dependence on the header's width is part of those
  outcomes and is not derived. The lemmas state only that the header's own value is
  discarded.
- The process-wide `routes`/`trips` variables and the `log.Fatalf` aborts: `Startup`
  returns a `Schedule` value or the first load error. The log output is not modelled.
- Concurrency of request handling: each handler is modelled as one sequential call
  over the immutable schedule.
