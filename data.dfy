/** The schedule loader of train-late/data.go: reading the routes and trips reference
    files into records, keeping only train routes. The CSV tokenizer itself is abstract:
    a file is the sequence of outcomes its successive `Read` calls produce before `io.EOF`. */
module Data {
  import opened Wrappers
  import opened Seqs

  datatype Route = Route(id: string, shortName: string, longName: string)

  datatype Trip = Trip(routeId: string, id: string)

  /** What one call of the CSV reader yields before end of file. */
  datatype Line = Record(fields: seq<string>) | Malformed(reason: string)

  /** A reference file as `os.Open` finds it. */
  datatype Source = Unopenable(reason: string) | Opened(lines: seq<Line>)

  datatype LoadError = SourceUnavailable(reason: string) | MalformedRecord(reason: string)

  /** The two route-type codes that mark a train route; the comparison is case-sensitive. */
  predicate IsTrainMode(mode: string)
  {
    mode == "x0001" || mode == "X0000"
  }

  /** A routes record whose mode column (column 1) names a train route. */
  predicate IsTrainRecord(fields: seq<string>)
  {
    2 <= |fields| && IsTrainMode(fields[1])
  }

  /** Every row has at least `n` columns, so indexing columns below `n` cannot panic. */
  predicate Wide(rows: seq<seq<string>>, n: nat)
  {
    forall f :: f in rows ==> n <= |f|
  }

  /** `readRoutes` can process routes record `f` without panicking: it reads column 1 of
      every record, and columns 0, 2 and 3 only of a train record. */
  predicate RouteRowReadable(f: seq<string>)
  {
    2 <= |f| && (IsTrainMode(f[1]) ==> 4 <= |f|)
  }

  /** Every row is a routes record `readRoutes` can process. */
  predicate RoutesWide(rows: seq<seq<string>>)
  {
    forall f :: f in rows ==> RouteRowReadable(f)
  }

  /** The lines after the header; a file without lines has no header to skip either. */
  function DataLines(lines: seq<Line>): seq<Line>
  {
    if lines == [] then [] else lines[1..]
  }

  /** The records read before the first malformed line. */
  function CleanPrefix(lines: seq<Line>): (rows: seq<seq<string>>)
    ensures |rows| <= |lines|
    ensures |rows| < |lines| ==> lines[|rows|].Malformed?
  {
    if lines == [] || lines[0].Malformed? then []
    else [lines[0].fields] + CleanPrefix(lines[1..])
  }

  /** The clean prefix is the longest run of records at the start of `lines`, field
      for field. */
  lemma {:induction false} CleanPrefixIsLongestRecordRun(lines: seq<Line>)
    ensures forall i :: 0 <= i < |CleanPrefix(lines)| ==> lines[i] == Record(CleanPrefix(lines)[i])
  {
    if lines != [] && lines[0].Record? {
      CleanPrefixIsLongestRecordRun(lines[1..]);
      var rest := CleanPrefix(lines[1..]);
      assert CleanPrefix(lines) == [lines[0].fields] + rest;
      forall i | 0 <= i < |CleanPrefix(lines)| ensures lines[i] == Record(CleanPrefix(lines)[i]) {
        if i > 0 { assert lines[i] == lines[1..][i - 1]; }
      }
    }
  }

  /** All records of `lines`, or the error of the first line that could not be decoded. */
  function DecodeAll(lines: seq<Line>): Result<seq<seq<string>>, LoadError>
  {
    var rows := CleanPrefix(lines);
    if |rows| == |lines| then Ok(rows) else Err(MalformedRecord(lines[|rows|].reason))
  }

  /** Columns 0, 2 and 3 of each row as a route. */
  function RoutesOf(rows: seq<seq<string>>): (routes: seq<Route>)
    requires Wide(rows, 4)
    ensures |routes| == |rows|
  {
    seq(|rows|, i requires 0 <= i < |rows| => Route(rows[i][0], rows[i][2], rows[i][3]))
  }

  /** Columns 0 and 2 of each row as a trip. */
  function TripsOf(rows: seq<seq<string>>): (trips: seq<Trip>)
    requires Wide(rows, 3)
    ensures |trips| == |rows|
  {
    seq(|rows|, i requires 0 <= i < |rows| => Trip(rows[i][0], rows[i][2]))
  }

  /** The routes of the train records among `rows`, in the order of `rows`. */
  function TrainRoutes(rows: seq<seq<string>>): seq<Route>
    requires RoutesWide(rows)
  {
    var kept := Filter(IsTrainRecord, rows);
    assert Wide(kept, 4) by { FilterMembers(IsTrainRecord, rows); }
    RoutesOf(kept)
  }

  /** The routes the data lines of a routes file describe. */
  function ParseRoutes(data: seq<Line>): Result<seq<Route>, LoadError>
    requires RoutesWide(CleanPrefix(data))
  {
    match DecodeAll(data)
    case Err(e) => Err(e)
    case Ok(rows) => Ok(TrainRoutes(rows))
  }

  /** The trips the data lines of a trips file describe: every record is kept. */
  function ParseTrips(data: seq<Line>): Result<seq<Trip>, LoadError>
    requires Wide(CleanPrefix(data), 3)
  {
    match DecodeAll(data)
    case Err(e) => Err(e)
    case Ok(rows) => Ok(TripsOf(rows))
  }

  /** `readRoutes` does not panic on `src`: every record it reaches has column 1, and
      every train record it reaches has column 3. */
  predicate RoutesReadable(src: Source)
  {
    src.Opened? ==> RoutesWide(CleanPrefix(DataLines(src.lines)))
  }

  /** `readTrips` does not panic on `src`: every record it reaches has column 2. */
  predicate TripsReadable(src: Source)
  {
    src.Opened? ==> Wide(CleanPrefix(DataLines(src.lines)), 3)
  }

  /** What `readRoutes` returns for `src`. */
  function LoadRoutes(src: Source): Result<seq<Route>, LoadError>
    requires RoutesReadable(src)
  {
    match src
    case Unopenable(e) => Err(SourceUnavailable(e))
    case Opened(lines) => ParseRoutes(DataLines(lines))
  }

  /** What `readTrips` returns for `src`. */
  function LoadTrips(src: Source): Result<seq<Trip>, LoadError>
    requires TripsReadable(src)
  {
    match src
    case Unopenable(e) => Err(SourceUnavailable(e))
    case Opened(lines) => ParseTrips(DataLines(lines))
  }

  /** A `csv.Reader` over an opened file: each `Read` consumes one line; at the end it
      reports end of file (`None`) and stays there. */
  class CsvReader {
    const lines: seq<Line>
    var pos: nat

    ghost predicate Valid()
      reads this
    {
      pos <= |lines|
    }

    constructor (lines: seq<Line>)
      ensures Valid() && this.lines == lines && pos == 0
    {
      this.lines := lines;
      pos := 0;
    }

    method Read() returns (line: Option<Line>)
      requires Valid()
      modifies this`pos
      ensures Valid()
      ensures old(pos) < |lines| ==> line == Some(lines[old(pos)]) && pos == old(pos) + 1
      ensures old(pos) == |lines| ==> line == None && pos == old(pos)
    {
      if pos < |lines| {
        line := Some(lines[pos]);
        pos := pos + 1;
      } else {
        line := None;
      }
    }
  }

  /** Projecting routes distributes over concatenation. */
  lemma RoutesOfAppend(a: seq<seq<string>>, b: seq<seq<string>>)
    requires Wide(a, 4) && Wide(b, 4)
    ensures Wide(a + b, 4) && RoutesOf(a + b) == RoutesOf(a) + RoutesOf(b)
  {
  }

  /** The routes among the first `i` rows. */
  function TrainRoutesUpTo(rows: seq<seq<string>>, i: nat): seq<Route>
    requires RoutesWide(rows) && i <= |rows|
  {
    assert RoutesWide(rows[..i]) by {
      forall f | f in rows[..i] ensures RouteRowReadable(f) { assert f in rows; }
    }
    TrainRoutes(rows[..i])
  }

  /** One more row adds its route exactly when it is a train record. */
  lemma RoutesStep(rows: seq<seq<string>>, i: nat)
    requires RoutesWide(rows) && i < |rows|
    ensures RouteRowReadable(rows[i])
    ensures TrainRoutesUpTo(rows, i + 1) == TrainRoutesUpTo(rows, i)
      + (if IsTrainRecord(rows[i]) then [Route(rows[i][0], rows[i][2], rows[i][3])] else [])
  {
    assert rows[i] in rows;
    assert rows[..i + 1] == rows[..i] + [rows[i]];
    FilterAppend(IsTrainRecord, rows[..i], [rows[i]]);
    var before, now := Filter(IsTrainRecord, rows[..i]), Filter(IsTrainRecord, [rows[i]]);
    assert Wide(before, 4) by {
      FilterMembers(IsTrainRecord, rows[..i]);
      forall f | f in before ensures 4 <= |f| { assert f in rows[..i] && f in rows; }
    }
    assert Wide(now, 4) by { FilterMembers(IsTrainRecord, [rows[i]]); }
    RoutesOfAppend(before, now);
  }

  /** One more row adds its trip. */
  lemma TripsStep(rows: seq<seq<string>>, i: nat)
    requires Wide(rows, 3) && i < |rows| && Wide(rows[..i], 3)
    ensures Wide(rows[..i + 1], 3)
    ensures TripsOf(rows[..i + 1]) == TripsOf(rows[..i]) + [Trip(rows[i][0], rows[i][2])]
  {
  }

  /** `readRoutes`: open the file, discard the header, then read records until end of
      file, keeping the train routes and giving up at the first malformed record. */
  method ReadRoutes(src: Source) returns (res: Result<seq<Route>, LoadError>)
    requires RoutesReadable(src)
    ensures res == LoadRoutes(src)
  {
    if src.Unopenable? {
      return Err(SourceUnavailable(src.reason));
    }
    var reader := new CsvReader(src.lines);
    var header := reader.Read();
    ghost var data := DataLines(src.lines);
    ghost var rows := CleanPrefix(data);
    CleanPrefixIsLongestRecordRun(data);
    ghost var i := 0;
    var routes: seq<Route> := [];
    while true
      invariant reader.Valid() && reader.lines == src.lines
      invariant i <= |rows| && reader.pos == |src.lines| - |data| + i
      invariant RoutesWide(rows) && routes == TrainRoutesUpTo(rows, i)
      decreases |reader.lines| - reader.pos
    {
      var line := reader.Read();
      if line.None? {
        break;
      }
      if line.value.Malformed? {
        return Err(MalformedRecord(line.value.reason));
      }
      var record := line.value.fields;
      assert record == rows[i] && record in rows;
      if record[1] == "x0001" || record[1] == "X0000" {
        routes := routes + [Route(record[0], record[2], record[3])];
      }
      RoutesStep(rows, i);
      i := i + 1;
    }
    assert rows[..i] == rows;
    return Ok(routes);
  }

  /** `readTrips`: as `ReadRoutes`, but every record is kept. */
  method ReadTrips(src: Source) returns (res: Result<seq<Trip>, LoadError>)
    requires TripsReadable(src)
    ensures res == LoadTrips(src)
  {
    if src.Unopenable? {
      return Err(SourceUnavailable(src.reason));
    }
    var reader := new CsvReader(src.lines);
    var header := reader.Read();
    ghost var data := DataLines(src.lines);
    ghost var rows := CleanPrefix(data);
    CleanPrefixIsLongestRecordRun(data);
    ghost var i := 0;
    var trips: seq<Trip> := [];
    while true
      invariant reader.Valid() && reader.lines == src.lines
      invariant i <= |rows| && reader.pos == |src.lines| - |data| + i
      invariant Wide(rows, 3) && Wide(rows[..i], 3) && trips == TripsOf(rows[..i])
      decreases |reader.lines| - reader.pos
    {
      var line := reader.Read();
      if line.None? {
        break;
      }
      if line.value.Malformed? {
        return Err(MalformedRecord(line.value.reason));
      }
      var record := line.value.fields;
      assert record == rows[i] && record in rows;
      trips := trips + [Trip(record[0], record[2])];
      TripsStep(rows, i);
      i := i + 1;
    }
    assert rows[..i] == rows;
    return Ok(trips);
  }

  // Properties of the loader

  /** The value of the first `Read` (the header record, or its error) is discarded: for
      given outcomes of the later reads, the routes do not depend on it. An empty file
      loads as no routes. */
  lemma RoutesHeaderIgnored(header: Line, other: Line, rest: seq<Line>)
    requires RoutesWide(CleanPrefix(rest))
    ensures RoutesReadable(Opened([header] + rest)) && RoutesReadable(Opened([other] + rest))
    ensures LoadRoutes(Opened([header] + rest)) == LoadRoutes(Opened([other] + rest)) == ParseRoutes(rest)
    ensures LoadRoutes(Opened([])) == Ok([])
  {
  }

  /** As `RoutesHeaderIgnored`, for the trips file. */
  lemma TripsHeaderIgnored(header: Line, other: Line, rest: seq<Line>)
    requires Wide(CleanPrefix(rest), 3)
    ensures TripsReadable(Opened([header] + rest)) && TripsReadable(Opened([other] + rest))
    ensures LoadTrips(Opened([header] + rest)) == LoadTrips(Opened([other] + rest)) == ParseTrips(rest)
    ensures LoadTrips(Opened([])) == Ok([])
  {
  }

  /** Decoding fails exactly when some line is malformed, with the error of the first
      such line; otherwise it yields one record per line. */
  lemma DecodeAllAbortsOnFirstError(lines: seq<Line>)
    ensures DecodeAll(lines).Err? <==> exists i :: 0 <= i < |lines| && lines[i].Malformed?
    ensures DecodeAll(lines).Err? ==> exists i :: FirstMalformedAt(lines, i) && DecodeAll(lines).error == MalformedRecord(lines[i].reason)
    ensures DecodeAll(lines).Ok? ==>
      (|DecodeAll(lines).value| == |lines|
       && forall i :: 0 <= i < |lines| ==> lines[i] == Record(DecodeAll(lines).value[i]))
  {
    var rows := CleanPrefix(lines);
    CleanPrefixIsLongestRecordRun(lines);
    if |rows| < |lines| {
      assert FirstMalformedAt(lines, |rows|);
    }
  }

  /** Line `i` is the first line that could not be decoded. */
  predicate FirstMalformedAt(lines: seq<Line>, i: int)
  {
    0 <= i < |lines| && lines[i].Malformed? && forall j :: 0 <= j < i ==> lines[j].Record?
  }

  /** A malformed data line makes the whole routes load fail with that line's error, and
      no partial route list is returned; the same holds for trips. */
  lemma MalformedLineAbortsLoad(data: seq<Line>, i: nat)
    requires FirstMalformedAt(data, i)
    ensures RoutesWide(CleanPrefix(data)) ==> ParseRoutes(data) == Err(MalformedRecord(data[i].reason))
    ensures Wide(CleanPrefix(data), 3) ==> ParseTrips(data) == Err(MalformedRecord(data[i].reason))
  {
    CleanPrefixIsLongestRecordRun(data);
    assert |CleanPrefix(data)| == i;
  }

  /** A route is loaded exactly when some record's mode column is one of the two train
      codes, and it is that record's columns 0, 2 and 3. */
  lemma RouteKeptIffTrainMode(data: seq<Line>)
    requires RoutesWide(CleanPrefix(data)) && ParseRoutes(data).Ok?
    ensures forall r :: r in ParseRoutes(data).value <==>
      exists f :: Record(f) in data && 4 <= |f| && IsTrainMode(f[1]) && r == Route(f[0], f[2], f[3])
  {
    var rows := CleanPrefix(data);
    CleanPrefixIsLongestRecordRun(data);
    FilterMembers(IsTrainRecord, rows);
    var kept := Filter(IsTrainRecord, rows);
    var routes := ParseRoutes(data).value;
    assert routes == RoutesOf(kept);
    forall r | r in routes
      ensures exists f :: Record(f) in data && 4 <= |f| && IsTrainMode(f[1]) && r == Route(f[0], f[2], f[3])
    {
      var k :| 0 <= k < |routes| && routes[k] == r;
      var f := kept[k];
      assert f in kept;
      var j :| 0 <= j < |rows| && rows[j] == f;
      assert data[j] == Record(f);
      assert 4 <= |f|;
    }
    forall f | Record(f) in data && 4 <= |f| && IsTrainMode(f[1])
      ensures Route(f[0], f[2], f[3]) in routes
    {
      var j :| 0 <= j < |data| && data[j] == Record(f);
      assert rows[j] == f;
      assert f in kept;
      var k :| 0 <= k < |kept| && kept[k] == f;
      assert routes[k] == Route(f[0], f[2], f[3]);
    }
  }

  /** Decoding a concatenation whose first part is clean decodes each part in turn. */
  lemma {:induction false} CleanPrefixAppend(a: seq<Line>, b: seq<Line>)
    requires |CleanPrefix(a)| == |a|
    ensures CleanPrefix(a + b) == CleanPrefix(a) + CleanPrefix(b)
  {
    if a == [] {
      assert a + b == b;
    } else {
      var head := [a[0].fields];
      assert a[0].Record?;
      assert (a + b)[0] == a[0];
      assert (a + b)[1..] == a[1..] + b;
      assert CleanPrefix(a) == head + CleanPrefix(a[1..]);
      assert CleanPrefix(a + b) == head + CleanPrefix(a[1..] + b);
      CleanPrefixAppend(a[1..], b);
      assert head + (CleanPrefix(a[1..]) + CleanPrefix(b)) == (head + CleanPrefix(a[1..])) + CleanPrefix(b);
    }
  }

  /** Routes come back in file order: the routes of a file split in two are the routes of
      the first part followed by those of the second. */
  lemma RoutesInFileOrder(a: seq<Line>, b: seq<Line>)
    requires RoutesWide(CleanPrefix(a)) && RoutesWide(CleanPrefix(b))
    requires ParseRoutes(a).Ok? && ParseRoutes(b).Ok?
    ensures RoutesWide(CleanPrefix(a + b))
    ensures ParseRoutes(a + b) == Ok(ParseRoutes(a).value + ParseRoutes(b).value)
  {
    var ra, rb := CleanPrefix(a), CleanPrefix(b);
    CleanPrefixAppend(a, b);
    FilterAppend(IsTrainRecord, ra, rb);
    var ka, kb := Filter(IsTrainRecord, ra), Filter(IsTrainRecord, rb);
    FilterMembers(IsTrainRecord, ra);
    FilterMembers(IsTrainRecord, rb);
    assert Wide(ka, 4) by {
      forall f | f in ka ensures 4 <= |f| { assert f in ra && RouteRowReadable(f); }
    }
    assert Wide(kb, 4) by {
      forall f | f in kb ensures 4 <= |f| { assert f in rb && RouteRowReadable(f); }
    }
    RoutesOfAppend(ka, kb);
  }

  /** A single record loads as its route exactly when it is a train record; a record of
      another mode is dropped even when it has only the two columns read for it. */
  lemma ParseOneRoute(f: seq<string>)
    requires RouteRowReadable(f)
    ensures RoutesWide(CleanPrefix([Record(f)]))
    ensures ParseRoutes([Record(f)]) == Ok(if IsTrainMode(f[1]) then [Route(f[0], f[2], f[3])] else [])
  {
    assert CleanPrefix([Record(f)]) == [f];
    assert [f][1..] == [];
    assert Filter(IsTrainRecord, [f]) == if IsTrainRecord(f) then [f] else [];
    if IsTrainMode(f[1]) {
      assert RoutesOf([f]) == [Route(f[0], f[2], f[3])];
    }
  }

  /** A routes file whose only data line is a two-column record of a non-train route
      loads as no routes: `readRoutes` never reads the columns that record lacks. */
  lemma NarrowOtherModeRouteIsDropped(header: Line, id: string)
    ensures RoutesReadable(Opened([header, Record([id, "bus"])]))
    ensures LoadRoutes(Opened([header, Record([id, "bus"])])) == Ok([])
  {
    assert DataLines([header, Record([id, "bus"])]) == [Record([id, "bus"])];
    ParseOneRoute([id, "bus"]);
  }

  /** Two train routes, one of each train code, load in the order of the file whatever
      their identifiers. */
  lemma TrainRoutesInFileOrder(first: Route, second: Route)
    ensures var data := [Record([first.id, "x0001", first.shortName, first.longName])]
      + [Record([second.id, "X0000", second.shortName, second.longName])];
      RoutesWide(CleanPrefix(data)) && ParseRoutes(data) == Ok([first] + [second])
  {
    var l1 := [Record([first.id, "x0001", first.shortName, first.longName])];
    var l2 := [Record([second.id, "X0000", second.shortName, second.longName])];
    assert RoutesWide(CleanPrefix(l1)) && ParseRoutes(l1) == Ok([first]) by {
      ParseOneRoute(l1[0].fields);
    }
    assert RoutesWide(CleanPrefix(l2)) && ParseRoutes(l2) == Ok([second]) by {
      ParseOneRoute(l2[0].fields);
    }
    RoutesInFileOrder(l1, l2);
  }

  /** Every trip data line is kept, in order: one trip per line, built from columns 0 and 2. */
  lemma TripsKeepEveryLine(data: seq<Line>)
    requires Wide(CleanPrefix(data), 3) && ParseTrips(data).Ok?
    ensures |ParseTrips(data).value| == |data|
    ensures forall i :: 0 <= i < |data| ==>
      (data[i].Record? && 3 <= |data[i].fields|
       && ParseTrips(data).value[i] == Trip(data[i].fields[0], data[i].fields[2]))
  {
    var rows := CleanPrefix(data);
    CleanPrefixIsLongestRecordRun(data);
    assert forall i :: 0 <= i < |data| ==> rows[i] in rows;
  }
}
