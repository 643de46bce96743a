/** Turning one listing row and one FanDuel quote history into the scraper's
    flat 43-field record. */
module Normalize {
  import opened Outcomes
  import opened Text
  import opened JsonValues

  /** The four team fields `extract_team_info` copies. */
  datatype TeamInfo = TeamInfo(fullName: Json, shortName: Json, nickname: Json, name: Json)

  /** `extract_team_info`: raises unless the team entry is a dict. */
  function ExtractTeamInfo(team: Json): (r: Result<TeamInfo>)
    ensures r.Ok? <==> team.JObj?
    ensures r.Ok? ==> r.value.fullName == GetOr(team, "fullName", JStr(""))
    ensures r.Ok? ==> r.value.shortName == GetOr(team, "shortName", JStr(""))
    ensures r.Ok? ==> r.value.nickname == GetOr(team, "nickname", JStr(""))
    ensures r.Ok? ==> r.value.name == GetOr(team, "name", JStr(""))
  {
    if !team.JObj? then Raised
    else
      Ok(TeamInfo(
        GetOr(team, "fullName", JStr("")), GetOr(team, "shortName", JStr("")),
        GetOr(team, "nickname", JStr("")), GetOr(team, "name", JStr(""))))
  }

  /** `get_first_last`: the opening (first) and current (last) entry of a
      quote history. A falsy history gives two empty dicts; a string gives its
      first and last characters; any other truthy value raises. */
  function GetFirstLast(history: Json): (r: Result<(Json, Json)>)
    ensures !Truthy(history) ==> r == Ok((JObj([]), JObj([])))
    ensures history.JArr? && history.items != [] ==>
      r == Ok((history.items[0], history.items[|history.items| - 1]))
    ensures history.JStr? && history.s != [] ==>
      r == Ok((JStr([history.s[0]]), JStr([history.s[|history.s| - 1]])))
    ensures r.Raised? <==> Truthy(history) && !history.JArr? && !history.JStr?
  {
    if !Truthy(history) then Ok((JObj([]), JObj([])))
    else
      match history
      case JArr(items) => Ok((items[0], items[|items| - 1]))
      case JStr(s) => Ok((JStr([s[0]]), JStr([s[|s| - 1]])))
      case _ => Raised
  }

  /** A one-entry history opens and closes on the same entry. */
  lemma SingleEntryHistory(entry: Json)
    ensures GetFirstLast(JArr([entry])) == Ok((entry, entry))
  {
  }

  /** The six snapshot variables and `last_line_update` of one game row. */
  datatype OddsState = OddsState(
    mlOpening: Json, mlCurrent: Json,
    spreadOpening: Json, spreadCurrent: Json,
    totalOpening: Json, totalCurrent: Json,
    lastLineUpdate: Json)

  /** The defaults a row starts from: empty dict snapshots, `None` update. */
  const NoOdds: OddsState := OddsState(JObj([]), JObj([]), JObj([]), JObj([]), JObj([]), JObj([]), JNull)

  /** `get_first_last(fanduel_data.get(key, []))` */
  function HistoryEnds(view: Json, key: string): (r: Result<(Json, Json)>)
    ensures !view.JObj? ==> r.Raised?
    ensures view.JObj? && Lookup(view.fields, key).None? ==> r == Ok((JObj([]), JObj([])))
    ensures view.JObj? ==> r == GetFirstLast(GetOr(view, key, JArr([])))
  {
    var history :- DictGet(view, key, JArr([]));
    GetFirstLast(history)
  }

  /** The `oddsDate` of the three current snapshots (`None` when absent). */
  function CurrentDates(mlCurrent: Json, spreadCurrent: Json, totalCurrent: Json): (r: Result<seq<Json>>)
    ensures r.Ok? <==> mlCurrent.JObj? && spreadCurrent.JObj? && totalCurrent.JObj?
    ensures r.Ok? ==>
      r.value == [Field(mlCurrent, "oddsDate"), Field(spreadCurrent, "oddsDate"), Field(totalCurrent, "oddsDate")]
  {
    var ml :- DictGet(mlCurrent, "oddsDate", JNull);
    var spread :- DictGet(spreadCurrent, "oddsDate", JNull);
    var total :- DictGet(totalCurrent, "oddsDate", JNull);
    Ok([ml, spread, total])
  }

  /** `max([d for d in odds_dates if d], default="")` */
  function LastLineUpdate(odds: OddsState): (r: Result<Json>)
    ensures r.Ok? ==> CurrentDates(odds.mlCurrent, odds.spreadCurrent, odds.totalCurrent).Ok?
    ensures r.Ok? ==>
      || r.value == JStr("")
      || (Truthy(r.value) && r.value in CurrentDates(odds.mlCurrent, odds.spreadCurrent, odds.totalCurrent).value)
  {
    var dates :- CurrentDates(odds.mlCurrent, odds.spreadCurrent, odds.totalCurrent);
    Max(TruthyOnly(dates), JStr(""))
  }

  /** The assignments made once a FanDuel view is found, in source order. A
      step that raises ends the block, keeping what earlier steps assigned. */
  function ApplyFanDuel(view: Json): (r: OddsState)
    ensures HistoryEnds(view, "moneyLineHistory").Raised? ==> r == NoOdds
    ensures HistoryEnds(view, "moneyLineHistory").Ok? ==>
      (r.mlOpening, r.mlCurrent) == HistoryEnds(view, "moneyLineHistory").value
    ensures HistoryEnds(view, "moneyLineHistory").Ok? && HistoryEnds(view, "spreadHistory").Raised? ==>
      && (r.spreadOpening, r.spreadCurrent, r.totalOpening, r.totalCurrent) == (JObj([]), JObj([]), JObj([]), JObj([]))
      && r.lastLineUpdate == JNull
    ensures HistoryEnds(view, "moneyLineHistory").Ok? && HistoryEnds(view, "spreadHistory").Ok? ==>
      (r.spreadOpening, r.spreadCurrent) == HistoryEnds(view, "spreadHistory").value
    ensures
      && HistoryEnds(view, "moneyLineHistory").Ok? && HistoryEnds(view, "spreadHistory").Ok?
      && HistoryEnds(view, "totalHistory").Raised?
      ==> (r.totalOpening, r.totalCurrent) == (JObj([]), JObj([])) && r.lastLineUpdate == JNull
    ensures
      && HistoryEnds(view, "moneyLineHistory").Ok? && HistoryEnds(view, "spreadHistory").Ok?
      && HistoryEnds(view, "totalHistory").Ok?
      ==> && (r.totalOpening, r.totalCurrent) == HistoryEnds(view, "totalHistory").value
          && r.lastLineUpdate == (if LastLineUpdate(r).Ok? then LastLineUpdate(r).value else JNull)
  {
    match HistoryEnds(view, "moneyLineHistory")
    case Raised => NoOdds
    case Ok(ml) =>
      var withMl := NoOdds.(mlOpening := ml.0, mlCurrent := ml.1);
      match HistoryEnds(view, "spreadHistory")
      case Raised => withMl
      case Ok(spread) =>
        var withSpread := withMl.(spreadOpening := spread.0, spreadCurrent := spread.1);
        match HistoryEnds(view, "totalHistory")
        case Raised => withSpread
        case Ok(total) =>
          var withTotal := withSpread.(totalOpening := total.0, totalCurrent := total.1);
          match LastLineUpdate(withTotal)
          case Raised => withTotal
          case Ok(last) => withTotal.(lastLineUpdate := last)
  }

  /** With a FanDuel view whose three histories reduce cleanly and whose
      current `oddsDate`s are strings or empty, `last_line_update` is the
      largest non-empty date, or `""` when all are empty. */
  lemma LastLineUpdateIsMax(view: Json, ml: (Json, Json), spread: (Json, Json), total: (Json, Json), dates: seq<Json>)
    requires HistoryEnds(view, "moneyLineHistory") == Ok(ml)
    requires HistoryEnds(view, "spreadHistory") == Ok(spread)
    requires HistoryEnds(view, "totalHistory") == Ok(total)
    requires CurrentDates(ml.1, spread.1, total.1) == Ok(dates)
    requires forall d | d in dates :: d.JStr? || !Truthy(d)
    ensures var u := ApplyFanDuel(view).lastLineUpdate;
      && u.JStr?
      && ((forall d | d in dates :: !Truthy(d)) ==> u == JStr(""))
      && ((exists d | d in dates :: Truthy(d)) ==> u in dates && Truthy(u))
      && forall d | d in dates && d.JStr? :: !StrLt(u.s, d.s)
  {
    var present := TruthyOnly(dates);
    assert forall x | x in present :: x.JStr?;
    MaxOfStrings(present, JStr(""));
    var u := ApplyFanDuel(view).lastLineUpdate;
    assert Max(present, JStr("")) == Ok(u);
    forall d | d in dates && d.JStr?
      ensures !StrLt(u.s, d.s)
    {
      if d !in present {
        assert d.s == [];
      }
    }
  }

  /** Truthy current dates of mixed types (at least one string and one
      number) make `max` raise, in any order and with any falsy dates among
      them: all six snapshots are kept and `last_line_update` stays `None`. */
  lemma MixedDateTypesLeaveNoUpdate(view: Json, ml: (Json, Json), spread: (Json, Json), total: (Json, Json), dates: seq<Json>)
    requires HistoryEnds(view, "moneyLineHistory") == Ok(ml)
    requires HistoryEnds(view, "spreadHistory") == Ok(spread)
    requires HistoryEnds(view, "totalHistory") == Ok(total)
    requires CurrentDates(ml.1, spread.1, total.1) == Ok(dates)
    requires forall d | d in dates && Truthy(d) :: d.JStr? || IsNumber(d)
    requires exists d | d in dates :: d.JStr? && Truthy(d)
    requires exists d | d in dates :: IsNumber(d) && Truthy(d)
    ensures ApplyFanDuel(view) == OddsState(ml.0, ml.1, spread.0, spread.1, total.0, total.1, JNull)
  {
    var present := TruthyOnly(dates);
    var s :| s in dates && s.JStr? && Truthy(s);
    var n :| n in dates && IsNumber(n) && Truthy(n);
    assert s in present && n in present;
    MixedMaxRaises(present, JStr(""));
  }

  /** A failure while reducing the spread history keeps the moneyline
      snapshots already assigned; the rest stay at their defaults. */
  lemma PartialOddsKept(view: Json, ml: (Json, Json))
    requires HistoryEnds(view, "moneyLineHistory") == Ok(ml)
    requires HistoryEnds(view, "spreadHistory").Raised?
    ensures ApplyFanDuel(view) == NoOdds.(mlOpening := ml.0, mlCurrent := ml.1)
  {
  }

  /** The listing fields of one game row (`game_view` and the values read from it). */
  datatype GameMeta = GameMeta(
    gameId: Json, startDate: Json, venue: Json, city: Json, state: Json,
    away: TeamInfo, home: TeamInfo, consensus: Json,
    statusText: Json, scoreAway: Json, scoreHome: Json)

  /** Reading a listing row: raises unless the row, its `gameView` and both
      team entries are dicts (missing ones default to `{}`). */
  function ReadMeta(game: Json): (r: Result<GameMeta>)
    ensures r.Ok? <==>
      && game.JObj?
      && GetOr(game, "gameView", JObj([])).JObj?
      && GetOr(GetOr(game, "gameView", JObj([])), "awayTeam", JObj([])).JObj?
      && GetOr(GetOr(game, "gameView", JObj([])), "homeTeam", JObj([])).JObj?
    ensures r.Ok? ==>
      var view := GetOr(game, "gameView", JObj([]));
      && r.value.gameId == GetOr(view, "gameId", JNull)
      && r.value.startDate == GetOr(view, "startDate", JStr(""))
      && r.value.venue == GetOr(view, "venueName", JStr(""))
      && r.value.city == GetOr(view, "city", JStr(""))
      && r.value.state == GetOr(view, "state", JStr(""))
      && Ok(r.value.away) == ExtractTeamInfo(GetOr(view, "awayTeam", JObj([])))
      && Ok(r.value.home) == ExtractTeamInfo(GetOr(view, "homeTeam", JObj([])))
      && r.value.consensus == GetOr(view, "consensus", JObj([]))
      && r.value.statusText == GetOr(view, "gameStatusText", JStr(""))
      && r.value.scoreAway == GetOr(view, "awayTeamScore", JNull)
      && r.value.scoreHome == GetOr(view, "homeTeamScore", JNull)
  {
    var view :- DictGet(game, "gameView", JObj([]));
    if !view.JObj? then Raised
    else
      var away :- ExtractTeamInfo(GetOr(view, "awayTeam", JObj([])));
      var home :- ExtractTeamInfo(GetOr(view, "homeTeam", JObj([])));
      Ok(GameMeta(
        GetOr(view, "gameId", JNull), GetOr(view, "startDate", JStr("")),
        GetOr(view, "venueName", JStr("")), GetOr(view, "city", JStr("")), GetOr(view, "state", JStr("")),
        away, home, GetOr(view, "consensus", JObj([])), GetOr(view, "gameStatusText", JStr("")),
        GetOr(view, "awayTeamScore", JNull), GetOr(view, "homeTeamScore", JNull)))
  }

  /** One output row, field for field (`None` is `JNull`). */
  datatype GameRecord = GameRecord(
    date: string, gameId: Json, startDate: Json,
    venue: Json, venueCity: Json, venueState: Json,
    awayTeamFull: Json, awayTeamShort: Json, awayTeamNickname: Json, awayTeamName: Json,
    homeTeamFull: Json, homeTeamShort: Json, homeTeamNickname: Json, homeTeamName: Json,
    gameStatusText: Json, scoreAway: Json, scoreHome: Json,
    consensus: Json, lastLineUpdate: Json,
    mlOpeningAway: Json, mlOpeningHome: Json, mlOpeningTime: Json,
    mlCurrentAway: Json, mlCurrentHome: Json, mlCurrentTime: Json,
    rlOpeningAwaySpread: Json, rlOpeningAwayOdds: Json, rlOpeningHomeSpread: Json, rlOpeningHomeOdds: Json, rlOpeningTime: Json,
    rlCurrentAwaySpread: Json, rlCurrentAwayOdds: Json, rlCurrentHomeSpread: Json, rlCurrentHomeOdds: Json, rlCurrentTime: Json,
    totalOpeningLine: Json, totalOpeningOverOdds: Json, totalOpeningUnderOdds: Json, totalOpeningTime: Json,
    totalCurrentLine: Json, totalCurrentOverOdds: Json, totalCurrentUnderOdds: Json, totalCurrentTime: Json)

  predicate SnapshotsAreDicts(odds: OddsState) {
    && odds.mlOpening.JObj? && odds.mlCurrent.JObj?
    && odds.spreadOpening.JObj? && odds.spreadCurrent.JObj?
    && odds.totalOpening.JObj? && odds.totalCurrent.JObj?
  }

  /** `snapshot.get(key)`: the stored value, or `None`. */
  function Field(snapshot: Json, key: string): Json
    requires snapshot.JObj?
  {
    GetOr(snapshot, key, JNull)
  }

  /** Building `game_info`: fails (the row is dropped) when a snapshot is not
      a dict, since `.get` then raises outside the odds block. */
  function BuildRecord(date: string, meta: GameMeta, odds: OddsState): (r: Option<GameRecord>)
    ensures r.Some? <==> SnapshotsAreDicts(odds)
    ensures r.Some? ==> r.value.date == date && r.value.gameId == meta.gameId && r.value.lastLineUpdate == odds.lastLineUpdate
  {
    if !SnapshotsAreDicts(odds) then None
    else
      Some(GameRecord(
        date, meta.gameId, meta.startDate,
        meta.venue, meta.city, meta.state,
        meta.away.fullName, meta.away.shortName, meta.away.nickname, meta.away.name,
        meta.home.fullName, meta.home.shortName, meta.home.nickname, meta.home.name,
        meta.statusText, meta.scoreAway, meta.scoreHome,
        if Truthy(meta.consensus) then meta.consensus else JNull,
        odds.lastLineUpdate,
        Field(odds.mlOpening, "awayOdds"), Field(odds.mlOpening, "homeOdds"), Field(odds.mlOpening, "oddsDate"),
        Field(odds.mlCurrent, "awayOdds"), Field(odds.mlCurrent, "homeOdds"), Field(odds.mlCurrent, "oddsDate"),
        Field(odds.spreadOpening, "awaySpread"), Field(odds.spreadOpening, "awayOdds"),
        Field(odds.spreadOpening, "homeSpread"), Field(odds.spreadOpening, "homeOdds"), Field(odds.spreadOpening, "oddsDate"),
        Field(odds.spreadCurrent, "awaySpread"), Field(odds.spreadCurrent, "awayOdds"),
        Field(odds.spreadCurrent, "homeSpread"), Field(odds.spreadCurrent, "homeOdds"), Field(odds.spreadCurrent, "oddsDate"),
        Field(odds.totalOpening, "total"), Field(odds.totalOpening, "overOdds"),
        Field(odds.totalOpening, "underOdds"), Field(odds.totalOpening, "oddsDate"),
        Field(odds.totalCurrent, "total"), Field(odds.totalCurrent, "overOdds"),
        Field(odds.totalCurrent, "underOdds"), Field(odds.totalCurrent, "oddsDate")))
  }

  /** The record's listing fields are the row's, with a falsy `consensus`
      collapsed to `None`. */
  ghost predicate CarriesMeta(r: GameRecord, date: string, meta: GameMeta) {
    && r.date == date && r.gameId == meta.gameId && r.startDate == meta.startDate
    && r.venue == meta.venue && r.venueCity == meta.city && r.venueState == meta.state
    && r.awayTeamFull == meta.away.fullName && r.awayTeamShort == meta.away.shortName
    && r.awayTeamNickname == meta.away.nickname && r.awayTeamName == meta.away.name
    && r.homeTeamFull == meta.home.fullName && r.homeTeamShort == meta.home.shortName
    && r.homeTeamNickname == meta.home.nickname && r.homeTeamName == meta.home.name
    && r.gameStatusText == meta.statusText && r.scoreAway == meta.scoreAway && r.scoreHome == meta.scoreHome
    && (Truthy(meta.consensus) ==> r.consensus == meta.consensus)
    && (!Truthy(meta.consensus) ==> r.consensus == JNull)
  }

  /** Every odds field is its snapshot's value under the field's key, or `None`. */
  ghost predicate OddsFromSnapshots(r: GameRecord, odds: OddsState)
    requires SnapshotsAreDicts(odds)
  {
    && r.mlOpeningAway == Field(odds.mlOpening, "awayOdds")
    && r.mlOpeningHome == Field(odds.mlOpening, "homeOdds")
    && r.mlOpeningTime == Field(odds.mlOpening, "oddsDate")
    && r.mlCurrentAway == Field(odds.mlCurrent, "awayOdds")
    && r.mlCurrentHome == Field(odds.mlCurrent, "homeOdds")
    && r.mlCurrentTime == Field(odds.mlCurrent, "oddsDate")
    && r.rlOpeningAwaySpread == Field(odds.spreadOpening, "awaySpread")
    && r.rlOpeningAwayOdds == Field(odds.spreadOpening, "awayOdds")
    && r.rlOpeningHomeSpread == Field(odds.spreadOpening, "homeSpread")
    && r.rlOpeningHomeOdds == Field(odds.spreadOpening, "homeOdds")
    && r.rlOpeningTime == Field(odds.spreadOpening, "oddsDate")
    && r.rlCurrentAwaySpread == Field(odds.spreadCurrent, "awaySpread")
    && r.rlCurrentAwayOdds == Field(odds.spreadCurrent, "awayOdds")
    && r.rlCurrentHomeSpread == Field(odds.spreadCurrent, "homeSpread")
    && r.rlCurrentHomeOdds == Field(odds.spreadCurrent, "homeOdds")
    && r.rlCurrentTime == Field(odds.spreadCurrent, "oddsDate")
    && r.totalOpeningLine == Field(odds.totalOpening, "total")
    && r.totalOpeningOverOdds == Field(odds.totalOpening, "overOdds")
    && r.totalOpeningUnderOdds == Field(odds.totalOpening, "underOdds")
    && r.totalOpeningTime == Field(odds.totalOpening, "oddsDate")
    && r.totalCurrentLine == Field(odds.totalCurrent, "total")
    && r.totalCurrentOverOdds == Field(odds.totalCurrent, "overOdds")
    && r.totalCurrentUnderOdds == Field(odds.totalCurrent, "underOdds")
    && r.totalCurrentTime == Field(odds.totalCurrent, "oddsDate")
  }

  /** All 24 odds and time fields are `None`. */
  predicate OddsFieldsAbsent(r: GameRecord) {
    && r.mlOpeningAway == JNull && r.mlOpeningHome == JNull && r.mlOpeningTime == JNull
    && r.mlCurrentAway == JNull && r.mlCurrentHome == JNull && r.mlCurrentTime == JNull
    && r.rlOpeningAwaySpread == JNull && r.rlOpeningAwayOdds == JNull
    && r.rlOpeningHomeSpread == JNull && r.rlOpeningHomeOdds == JNull && r.rlOpeningTime == JNull
    && r.rlCurrentAwaySpread == JNull && r.rlCurrentAwayOdds == JNull
    && r.rlCurrentHomeSpread == JNull && r.rlCurrentHomeOdds == JNull && r.rlCurrentTime == JNull
    && r.totalOpeningLine == JNull && r.totalOpeningOverOdds == JNull
    && r.totalOpeningUnderOdds == JNull && r.totalOpeningTime == JNull
    && r.totalCurrentLine == JNull && r.totalCurrentOverOdds == JNull
    && r.totalCurrentUnderOdds == JNull && r.totalCurrentTime == JNull
  }

  /** A record is built exactly when the six snapshots are dicts; it carries
      the row's listing fields, the block's `last_line_update`, and each odds
      field is its snapshot's value under the field's key or `None`. */
  lemma RecordFields(date: string, meta: GameMeta, odds: OddsState)
    ensures BuildRecord(date, meta, odds).Some? <==> SnapshotsAreDicts(odds)
    ensures BuildRecord(date, meta, odds).Some? ==>
      var r := BuildRecord(date, meta, odds).value;
      CarriesMeta(r, date, meta) && r.lastLineUpdate == odds.lastLineUpdate
      && SnapshotsAreDicts(odds) && OddsFromSnapshots(r, odds)
  {
  }

  /** From the defaults, a row is still built: its listing fields are filled
      and all 25 odds, time and update fields are `None`. */
  lemma NoOddsRecord(date: string, meta: GameMeta)
    ensures BuildRecord(date, meta, NoOdds).Some?
    ensures var r := BuildRecord(date, meta, NoOdds).value;
      CarriesMeta(r, date, meta) && OddsFieldsAbsent(r) && r.lastLineUpdate == JNull
  {
  }
}
