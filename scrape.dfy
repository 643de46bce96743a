/** The `scrape_odds` pipeline: for each date, the listing page's game rows;
    for each row, its FanDuel line history; one record per surviving row.
    Page fetches and `json.loads` are oracles passed in by the caller. */
module Scrape {
  import opened Outcomes
  import opened JsonValues
  import opened NextData
  import opened Locator
  import opened Bookmaker
  import opened Normalize
  import opened Sequences

  /** The two pages the scraper requests: the listing for a date
      (`...?date=<date>`) and the line history of a game (`.../line-history/<id>/`). */
  datatype Request = ListingPage(date: string) | LineHistoryPage(gameId: Json)

  datatype Response = Response(status: int, text: string)

  /** `session.get`: a response, or `None` when the request raises
      (timeout, connection error). */
  type Fetcher = Request -> Option<Response>

  /** `json.loads`: the parsed value, or `None` when the text is not JSON. */
  type Parser = string -> Option<Json>

  /** `odds_tables[0]`: a list's first item or a string's first character;
      a dict (string keys only) or any other value raises. */
  function FirstItem(j: Json): (r: Result<Json>)
    ensures r.Ok? <==> (j.JArr? && j.items != []) || (j.JStr? && j.s != [])
    ensures r.Ok? && j.JArr? ==> r.value == j.items[0]
  {
    match j
    case JArr(items) => if items == [] then Raised else Ok(items[0])
    case JStr(s) => if s == [] then Raised else Ok(JStr([s[0]]))
    case _ => Raised
  }

  /** `json_data['props']['pageProps'].get('oddsTables', [])` */
  function OddsTables(doc: Json): (r: Result<Json>)
    ensures r.Ok? <==>
      && Subscript(doc, "props").Ok?
      && Subscript(Subscript(doc, "props").value, "pageProps").Ok?
      && Subscript(Subscript(doc, "props").value, "pageProps").value.JObj?
    ensures r.Ok? ==>
      r.value == GetOr(Subscript(Subscript(doc, "props").value, "pageProps").value, "oddsTables", JArr([]))
  {
    var props :- Subscript(doc, "props");
    var pageProps :- Subscript(props, "pageProps");
    DictGet(pageProps, "oddsTables", JArr([]))
  }

  /** `odds_tables[0]['oddsTableModel'].get('gameRows', [])` */
  function TableGameRows(oddsTables: Json): (r: Result<Json>)
    ensures r.Ok? <==>
      && FirstItem(oddsTables).Ok?
      && Subscript(FirstItem(oddsTables).value, "oddsTableModel").Ok?
      && Subscript(FirstItem(oddsTables).value, "oddsTableModel").value.JObj?
    ensures r.Ok? ==>
      r.value == GetOr(Subscript(FirstItem(oddsTables).value, "oddsTableModel").value, "gameRows", JArr([]))
  {
    var first :- FirstItem(oddsTables);
    var model :- Subscript(first, "oddsTableModel");
    DictGet(model, "gameRows", JArr([]))
  }

  /** The date stage (the first `try` of the date loop): the listing's truthy
      `gameRows`, or `None` when any step fails and the date is skipped. */
  function GameRows(date: string, fetch: Fetcher, parse: Parser): (r: Option<Json>)
    ensures r.Some? ==> Truthy(r.value)
  {
    match fetch(ListingPage(date))
    case None => None
    case Some(response) =>
      if response.status != 200 then None
      else
        match ExtractNextData(response.text)
        case None => None
        case Some(body) =>
          match parse(body)
          case None => None
          case Some(doc) =>
            match OddsTables(doc)
            case Raised => None
            case Ok(tables) =>
              if !Truthy(tables) then None
              else
                match TableGameRows(tables)
                case Raised => None
                case Ok(rows) => if Truthy(rows) then Some(rows) else None
  }

  /** The steps of the odds block before the `for view` loop: the line
      history's views, or `None` when the game id is falsy or a step fails. */
  function LineViews(gameId: Json, fetch: Fetcher, parse: Parser): (r: Option<seq<Json>>)
    ensures r.Some? <==>
      Truthy(gameId) && fetch(LineHistoryPage(gameId)).Some? &&
      var response := fetch(LineHistoryPage(gameId)).value;
      response.status == 200 && ExtractNextData(response.text).Some? &&
      var lineJson := parse(ExtractNextData(response.text).value);
      lineJson.Some? && LocateOddsViews(lineJson.value).Ok? &&
      Iterate(LocateOddsViews(lineJson.value).value).Ok?
    ensures r.Some? ==>
      var response := fetch(LineHistoryPage(gameId)).value;
      var lineJson := parse(ExtractNextData(response.text).value).value;
      r.value == Iterate(LocateOddsViews(lineJson).value).value
  {
    if !Truthy(gameId) then None
    else
      match fetch(LineHistoryPage(gameId))
      case None => None
      case Some(response) =>
        if response.status != 200 then None
        else
          match ExtractNextData(response.text)
          case None => None
          case Some(body) =>
            match parse(body)
            case None => None
            case Some(lineJson) =>
              match LocateOddsViews(lineJson)
              case Raised => None
              case Ok(oddsViews) =>
                match Iterate(oddsViews)
                case Raised => None
                case Ok(views) => Some(views)
  }

  /** The odds block up to its `break`: the first FanDuel view of the line
      history, or `None` when a step fails, a `.get` raises before a match,
      or no view matches. */
  function FanDuelView(gameId: Json, fetch: Fetcher, parse: Parser): (r: Option<Json>)
    ensures r.Some? <==>
      LineViews(gameId, fetch, parse).Some? &&
      var select := SelectFanDuel(LineViews(gameId, fetch, parse).value, 0);
      select.Ok? && select.value.Some?
    ensures r.Some? ==> r == SelectFanDuel(LineViews(gameId, fetch, parse).value, 0).value
    ensures r.Some? ==> IsFanDuel(r.value) == Ok(true) && Truthy(r.value)
  {
    match LineViews(gameId, fetch, parse)
    case None => None
    case Some(views) =>
      match SelectFanDuel(views, 0)
      case Ok(Some(view)) =>
        SelectedViewIsTruthy(views, 0);
        Some(view)
      case _ => None
  }

  /** The odds variables as the odds block leaves them. */
  function LineOdds(gameId: Json, fetch: Fetcher, parse: Parser): (r: OddsState)
    ensures FanDuelView(gameId, fetch, parse).None? ==> r == NoOdds
    ensures FanDuelView(gameId, fetch, parse).Some? ==> r == ApplyFanDuel(FanDuelView(gameId, fetch, parse).value)
  {
    match FanDuelView(gameId, fetch, parse)
    case None => NoOdds
    case Some(view) => if Truthy(view) then ApplyFanDuel(view) else NoOdds
  }

  /** The odds block up to its `break`, step by step: the `for view` loop
      stops at the first FanDuel view; an exception or unmet condition
      leaves `fanduel_data` as `None`. */
  method FindFanDuelView(gameId: Json, fetch: Fetcher, parse: Parser) returns (fanduel: Option<Json>)
    ensures fanduel == FanDuelView(gameId, fetch, parse)
  {
    fanduel := None;
    if !Truthy(gameId) {
      return;
    }
    var response := fetch(LineHistoryPage(gameId));
    if response.None? || response.value.status != 200 {
      return;
    }
    var body := ExtractNextData(response.value.text);
    if body.None? {
      return;
    }
    var lineJson := parse(body.value);
    if lineJson.None? {
      return;
    }
    var oddsViews := LocateOddsViews(lineJson.value);
    if oddsViews.Raised? {
      return;
    }
    var views := Iterate(oddsViews.value);
    if views.Raised? {
      return;
    }
    assert LineViews(gameId, fetch, parse) == Some(views.value);
    var k := 0;
    while k < |views.value|
      invariant 0 <= k <= |views.value|
      invariant SelectFanDuel(views.value, 0) == SelectFanDuel(views.value, k)
    {
      var matches := IsFanDuel(views.value[k]);
      if matches.Raised? {
        return;
      }
      if matches.value {
        fanduel := Some(views.value[k]);
        return;
      }
      k := k + 1;
    }
  }

  /** The odds block (its inner `try`), step by step: every exception or
      unmet condition leaves the odds variables as far as they were assigned. */
  method FetchFanDuelOdds(gameId: Json, fetch: Fetcher, parse: Parser) returns (odds: OddsState)
    ensures odds == LineOdds(gameId, fetch, parse)
  {
    odds := NoOdds;
    var fanduel := FindFanDuelView(gameId, fetch, parse);
    if fanduel.None? || !Truthy(fanduel.value) {
      return;
    }
    var view := fanduel.value;
    var ml := HistoryEnds(view, "moneyLineHistory");
    if ml.Raised? {
      return;
    }
    odds := odds.(mlOpening := ml.value.0, mlCurrent := ml.value.1);
    var spread := HistoryEnds(view, "spreadHistory");
    if spread.Raised? {
      return;
    }
    odds := odds.(spreadOpening := spread.value.0, spreadCurrent := spread.value.1);
    var total := HistoryEnds(view, "totalHistory");
    if total.Raised? {
      return;
    }
    odds := odds.(totalOpening := total.value.0, totalCurrent := total.value.1);
    var last := LastLineUpdate(odds);
    if last.Raised? {
      return;
    }
    odds := odds.(lastLineUpdate := last.value);
  }

  /** One game row (the outer per-row `try`): its record, or `None` when the
      row is dropped. */
  function GameRecordOf(date: string, game: Json, fetch: Fetcher, parse: Parser): (r: Option<GameRecord>)
    ensures r.Some? <==> ReadMeta(game).Ok? && SnapshotsAreDicts(LineOdds(ReadMeta(game).value.gameId, fetch, parse))
    ensures r.Some? ==>
      var meta := ReadMeta(game).value;
      var odds := LineOdds(meta.gameId, fetch, parse);
      && CarriesMeta(r.value, date, meta) && r.value.lastLineUpdate == odds.lastLineUpdate
      && OddsFromSnapshots(r.value, odds)
  {
    match ReadMeta(game)
    case Raised => None
    case Ok(meta) => BuildRecord(date, meta, LineOdds(meta.gameId, fetch, parse))
  }

  function RowRecords(date: string, game: Json, fetch: Fetcher, parse: Parser): seq<GameRecord> {
    match GameRecordOf(date, game, fetch, parse)
    case None => []
    case Some(record) => [record]
  }

  /** The records of a date's game rows, in row order. */
  function GamesOf(date: string, games: seq<Json>, fetch: Fetcher, parse: Parser): seq<GameRecord> {
    FlatMap(games, game => RowRecords(date, game, fetch, parse))
  }

  /** One date: no records when the date stage fails; `None` when iterating
      `gameRows` raises, which happens outside any `try` and ends the run. */
  function DateGames(date: string, fetch: Fetcher, parse: Parser): (r: Option<seq<GameRecord>>)
    ensures GameRows(date, fetch, parse).None? ==> r == Some([])
    ensures r.None? <==> GameRows(date, fetch, parse).Some? && Iterate(GameRows(date, fetch, parse).value).Raised?
  {
    match GameRows(date, fetch, parse)
    case None => Some([])
    case Some(rows) =>
      match Iterate(rows)
      case Raised => None
      case Ok(games) => Some(GamesOf(date, games, fetch, parse))
  }

  /** The whole run: the dates' records in date order, or `None` when the run raises. */
  function ScrapeSpec(dates: seq<string>, fetch: Fetcher, parse: Parser): (r: Option<seq<GameRecord>>)
    ensures r.None? <==> exists i :: 0 <= i < |dates| && DateGames(dates[i], fetch, parse).None?
  {
    JoinMap(dates, date => DateGames(date, fetch, parse))
  }

  /** `scrape_odds`, with the dates as a parameter: nested loops over dates
      and game rows appending to `all_games`. */
  method ScrapeOdds(dates: seq<string>, fetch: Fetcher, parse: Parser) returns (result: Option<seq<GameRecord>>)
    ensures result == ScrapeSpec(dates, fetch, parse)
  {
    var allGames: seq<GameRecord> := [];
    var d := 0;
    while d < |dates|
      invariant 0 <= d <= |dates|
      invariant ScrapeSpec(dates[..d], fetch, parse) == Some(allGames)
    {
      var date := dates[d];
      var rows := GameRows(date, fetch, parse);
      if rows.None? {
        ScrapeStep(dates, d, allGames, [], fetch, parse);
        assert allGames + [] == allGames;
      } else {
        var games := Iterate(rows.value);
        if games.Raised? {
          ScrapeAbort(dates, d, fetch, parse);
          return None;
        }
        var records := ScrapeGames(date, games.value, fetch, parse);
        ScrapeStep(dates, d, allGames, records, fetch, parse);
        allGames := allGames + records;
      }
      d := d + 1;
    }
    assert dates[..d] == dates;
    result := Some(allGames);
  }

  /** The row loop of one date: each row's record, appended in row order. */
  method ScrapeGames(date: string, games: seq<Json>, fetch: Fetcher, parse: Parser) returns (records: seq<GameRecord>)
    ensures records == GamesOf(date, games, fetch, parse)
  {
    records := [];
    var g := 0;
    while g < |games|
      invariant 0 <= g <= |games|
      invariant records == GamesOf(date, games[..g], fetch, parse)
    {
      var game := games[g];
      GamesStep(date, games, g, fetch, parse);
      var meta := ReadMeta(game);
      if meta.Ok? {
        var odds := FetchFanDuelOdds(meta.value.gameId, fetch, parse);
        var record := BuildRecord(date, meta.value, odds);
        if record.Some? {
          records := records + [record.value];
        }
      }
      g := g + 1;
    }
    assert games[..g] == games;
  }

  /** The date stage yields rows exactly when every step succeeds: the
      listing is fetched with status 200, holds the embedded document, which
      parses, and both `oddsTables` and `gameRows` are truthy. A failure at
      any step skips the date. */
  lemma GameRowsSucceedsIff(date: string, fetch: Fetcher, parse: Parser)
    ensures GameRows(date, fetch, parse).Some? <==>
      fetch(ListingPage(date)).Some? &&
      var response := fetch(ListingPage(date)).value;
      response.status == 200 && ExtractNextData(response.text).Some? &&
      var body := ExtractNextData(response.text).value;
      parse(body).Some? && OddsTables(parse(body).value).Ok? &&
      var tables := OddsTables(parse(body).value).value;
      Truthy(tables) && TableGameRows(tables).Ok? && Truthy(TableGameRows(tables).value)
    ensures GameRows(date, fetch, parse).Some? ==>
      var response := fetch(ListingPage(date)).value;
      var doc := parse(ExtractNextData(response.text).value).value;
      GameRows(date, fetch, parse) == Some(TableGameRows(OddsTables(doc).value).value)
  {
  }

  /** A date whose stage yields rows that can be iterated contributes exactly
      the records of those rows. */
  lemma GoodDateYieldsItsGames(date: string, rows: Json, games: seq<Json>, fetch: Fetcher, parse: Parser)
    requires GameRows(date, fetch, parse) == Some(rows)
    requires Iterate(rows) == Ok(games)
    ensures ScrapeSpec([date], fetch, parse) == Some(GamesOf(date, games, fetch, parse))
  {
    JoinMapSingle(date, d => DateGames(d, fetch, parse));
  }

  /** One more row of the inner loop. */
  lemma GamesStep(date: string, games: seq<Json>, g: nat, fetch: Fetcher, parse: Parser)
    requires g < |games|
    ensures GamesOf(date, games[..g + 1], fetch, parse) ==
      GamesOf(date, games[..g], fetch, parse) + RowRecords(date, games[g], fetch, parse)
  {
    var f := game => RowRecords(date, game, fetch, parse);
    assert games[..g + 1] == games[..g] + [games[g]];
    FlatMapAppend(games[..g], [games[g]], f);
    FlatMapSingle(games[g], f);
  }

  /** One more date of the outer loop, contributing `records`. */
  lemma ScrapeStep(dates: seq<string>, d: nat, acc: seq<GameRecord>, records: seq<GameRecord>, fetch: Fetcher, parse: Parser)
    requires d < |dates|
    requires ScrapeSpec(dates[..d], fetch, parse) == Some(acc)
    requires DateGames(dates[d], fetch, parse) == Some(records)
    ensures ScrapeSpec(dates[..d + 1], fetch, parse) == Some(acc + records)
  {
    var f := date => DateGames(date, fetch, parse);
    assert dates[..d + 1] == dates[..d] + [dates[d]];
    JoinMapAppend(dates[..d], [dates[d]], f);
    JoinMapSingle(dates[d], f);
  }

  /** A date whose `gameRows` cannot be iterated ends the whole run. */
  lemma ScrapeAbort(dates: seq<string>, d: nat, fetch: Fetcher, parse: Parser)
    requires d < |dates|
    requires DateGames(dates[d], fetch, parse) == None
    ensures ScrapeSpec(dates, fetch, parse) == None
  {
    var f := date => DateGames(date, fetch, parse);
    var rest := [dates[d]] + dates[d + 1..];
    assert dates == dates[..d] + rest;
    assert rest[0] == dates[d] && rest[1..] == dates[d + 1..];
    JoinMapAppend(dates[..d], rest, f);
  }

  /** Row order: the records of consecutive row lists are concatenated. */
  lemma GamesAppend(date: string, a: seq<Json>, b: seq<Json>, fetch: Fetcher, parse: Parser)
    ensures GamesOf(date, a + b, fetch, parse) == GamesOf(date, a, fetch, parse) + GamesOf(date, b, fetch, parse)
  {
    FlatMapAppend(a, b, game => RowRecords(date, game, fetch, parse));
  }

  /** Date order: a run over consecutive date lists is their runs joined. */
  lemma ScrapeAppend(a: seq<string>, b: seq<string>, fetch: Fetcher, parse: Parser)
    ensures ScrapeSpec(a + b, fetch, parse) == Join(ScrapeSpec(a, fetch, parse), ScrapeSpec(b, fetch, parse))
  {
    JoinMapAppend(a, b, date => DateGames(date, fetch, parse));
  }

  /** Fault isolation between rows: a row contributes its own record or
      nothing, and the rows around it are unaffected. */
  lemma RowIsolation(date: string, before: seq<Json>, game: Json, after: seq<Json>, fetch: Fetcher, parse: Parser)
    ensures GamesOf(date, before + [game] + after, fetch, parse) ==
      GamesOf(date, before, fetch, parse) + RowRecords(date, game, fetch, parse) + GamesOf(date, after, fetch, parse)
  {
    var f := g => RowRecords(date, g, fetch, parse);
    FlatMapAppend(before + [game], after, f);
    FlatMapAppend(before, [game], f);
    FlatMapSingle(game, f);
  }

  /** A date whose stage fails contributes no records and leaves the rest of
      the run as it would be without it. */
  lemma SkippedDateContributesNothing(before: seq<string>, date: string, after: seq<string>, fetch: Fetcher, parse: Parser)
    requires GameRows(date, fetch, parse).None?
    ensures ScrapeSpec(before + [date] + after, fetch, parse) ==
      Join(ScrapeSpec(before, fetch, parse), ScrapeSpec(after, fetch, parse))
  {
    var f := d => DateGames(d, fetch, parse);
    JoinMapAppend(before + [date], after, f);
    JoinMapAppend(before, [date], f);
    JoinMapSingle(date, f);
    assert f(date) == Some([]);
    JoinUnit(JoinMap(before, f));
  }

  /** Every record of a date carries that date. */
  lemma {:induction false} RecordsCarryTheirDate(date: string, games: seq<Json>, fetch: Fetcher, parse: Parser)
    ensures forall r | r in GamesOf(date, games, fetch, parse) :: r.date == date
  {
    if games != [] {
      RecordsCarryTheirDate(date, games[1..], fetch, parse);
      assert GamesOf(date, games, fetch, parse) ==
        RowRecords(date, games[0], fetch, parse) + GamesOf(date, games[1..], fetch, parse);
    }
  }

  /** No de-duplication: a row listed twice yields its record twice. */
  lemma DuplicateRowsKept(date: string, game: Json, record: GameRecord, fetch: Fetcher, parse: Parser)
    requires GameRecordOf(date, game, fetch, parse) == Some(record)
    ensures GamesOf(date, [game, game], fetch, parse) == [record, record]
  {
    var f := g => RowRecords(date, g, fetch, parse);
    assert [game, game] == [game] + [game];
    FlatMapAppend([game], [game], f);
    FlatMapSingle(game, f);
  }

  /** A falsy game id skips the line-history request altogether. */
  lemma FalsyGameIdSkipsFetch(gameId: Json, fetch: Fetcher, parse: Parser)
    requires !Truthy(gameId)
    ensures LineOdds(gameId, fetch, parse) == NoOdds
  {
  }

  /** A failed or refused line-history request means no FanDuel view. */
  lemma FailedLineHistoryMeansNoView(gameId: Json, fetch: Fetcher, parse: Parser)
    requires fetch(LineHistoryPage(gameId)).None? || fetch(LineHistoryPage(gameId)).value.status != 200
    ensures FanDuelView(gameId, fetch, parse) == None
  {
  }

  /** Without a FanDuel view the row is still emitted with its listing
      fields, and all 24 odds and time fields and `last_line_update` are `None`. */
  lemma NoFanDuelRowHasNoOdds(date: string, game: Json, meta: GameMeta, fetch: Fetcher, parse: Parser)
    requires ReadMeta(game) == Ok(meta)
    requires FanDuelView(meta.gameId, fetch, parse) == None
    ensures GameRecordOf(date, game, fetch, parse).Some?
    ensures var r := GameRecordOf(date, game, fetch, parse).value;
      CarriesMeta(r, date, meta) && OddsFieldsAbsent(r) && r.lastLineUpdate == JNull
  {
    NoOddsRecord(date, meta);
  }

  /** Three games where the second one's line-history request fails: the
      first and third keep their own records, and the second is still
      emitted with its listing fields and no odds. */
  lemma FaultIsolationScenario(date: string, g1: Json, g2: Json, g3: Json, meta2: GameMeta, fetch: Fetcher, parse: Parser)
    requires ReadMeta(g2) == Ok(meta2)
    requires fetch(LineHistoryPage(meta2.gameId)).None?
    ensures GameRecordOf(date, g2, fetch, parse).Some?
    ensures var r2 := GameRecordOf(date, g2, fetch, parse).value;
      && GamesOf(date, [g1, g2, g3], fetch, parse) ==
           RowRecords(date, g1, fetch, parse) + [r2] + RowRecords(date, g3, fetch, parse)
      && CarriesMeta(r2, date, meta2) && OddsFieldsAbsent(r2) && r2.lastLineUpdate == JNull
  {
    FailedLineHistoryMeansNoView(meta2.gameId, fetch, parse);
    NoFanDuelRowHasNoOdds(date, g2, meta2, fetch, parse);
    var f := g => RowRecords(date, g, fetch, parse);
    assert [g1, g2, g3] == [g1] + [g2] + [g3];
    FlatMapAppend([g1] + [g2], [g3], f);
    FlatMapAppend([g1], [g2], f);
    FlatMapSingle(g1, f);
    FlatMapSingle(g2, f);
    FlatMapSingle(g3, f);
  }
}
