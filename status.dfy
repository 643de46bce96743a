/** The dashboard's game-status rule: whether a game is final or in
    progress, whether the score line is shown, the status line and the odds
    table's opacity. */
module Status {
  import opened Text
  import opened JsonValues

  /** `status.lower().startswith("final")` */
  predicate IsFinal(status: string) {
    StartsWith(Lower(status), "final")
  }

  /** Not final, non-empty, and neither scheduled nor not started. */
  predicate IsInProgress(status: string) {
    && !IsFinal(status)
    && status != ""
    && !StartsWith(Lower(status), "scheduled")
    && !StartsWith(Lower(status), "not started")
  }

  /** `score_str` is non-empty: the game is final or in progress and both
      scores are present (not `None`). */
  predicate ScoreShown(status: string, scoreHome: Json, scoreAway: Json) {
    (IsFinal(status) || IsInProgress(status)) && scoreHome != JNull && scoreAway != JNull
  }

  const StatusOpen: string := "<div style='color:#2176ae; font-size:1em; margin-bottom:0.5em;'>"
  const StatusClose: string := "</div>"

  /** `status_str`: the status wrapped in its line, or `""` for no status. */
  function StatusStr(status: string): (r: string)
    ensures status != "" ==> |r| == |StatusOpen| + |status| + |StatusClose|
    ensures status != "" ==> r[|StatusOpen|..|StatusOpen| + |status|] == status
    ensures status != "" ==> StartsWith(r, StatusOpen)
  {
    if status != "" then StatusOpen + status + StatusClose else ""
  }

  /** `odds_table_opacity` */
  function OddsTableOpacity(status: string): string {
    if IsFinal(status) then "0.5" else "1"
  }

  /** A game is never both final and in progress. */
  lemma FinalExcludesInProgress(status: string)
    ensures !(IsFinal(status) && IsInProgress(status))
  {
  }

  /** An empty status is neither final nor in progress. */
  lemma EmptyStatusIsNeither()
    ensures !IsFinal("") && !IsInProgress("")
  {
  }

  /** A status starting, in any ASCII case, with "scheduled" or
      "not started" is never in progress. */
  lemma NotStartedIsNeverInProgress(status: string)
    requires StartsWith(Lower(status), "scheduled") || StartsWith(Lower(status), "not started")
    ensures !IsInProgress(status)
  {
  }

  /** The classification ignores ASCII case. */
  lemma ClassificationIgnoresCase(status: string)
    ensures IsFinal(Lower(status)) <==> IsFinal(status)
    ensures IsInProgress(Lower(status)) <==> IsInProgress(status)
  {
    LowerIdempotent(status);
    assert |Lower(status)| == |status|;
  }

  /** The score line needs a started game and both scores: it is never shown
      for an empty, scheduled or not-started status, nor with a score missing. */
  lemma ScoreShownNeedsStartedGame(status: string, scoreHome: Json, scoreAway: Json)
    requires ScoreShown(status, scoreHome, scoreAway)
    ensures status != ""
    ensures !StartsWith(Lower(status), "scheduled") && !StartsWith(Lower(status), "not started")
    ensures scoreHome != JNull && scoreAway != JNull
  {
    if IsFinal(status) {
      var l := Lower(status);
      assert l[0] == "final"[0] by { assert l[..5] == "final"; }
    }
  }

  /** The status line is empty exactly when the status is. */
  lemma StatusStrEmptyIff(status: string)
    ensures StatusStr(status) == "" <==> status == ""
  {
    if status != "" {
      assert |StatusStr(status)| > 0;
    }
  }

  /** The odds table is dimmed to half opacity exactly for final games. */
  lemma OpacityHalfIffFinal(status: string)
    ensures OddsTableOpacity(status) == "0.5" <==> IsFinal(status)
    ensures OddsTableOpacity(status) == "1" <==> !IsFinal(status)
  {
  }

  lemma StatusExamples()
    ensures IsFinal("Final") && IsFinal("FINAL/10") && !IsInProgress("Final")
    ensures IsInProgress("Top 5th") && !IsFinal("Top 5th")
    ensures !IsInProgress("Scheduled") && !IsInProgress("Not Started")
  {
    assert Lower("Final")[..5] == "final";
    assert Lower("FINAL/10")[..5] == "final";
    assert Lower("Top 5th")[0] == 't';
    assert Lower("Top 5th")[..5][0] != "final"[0];
    assert Lower("Scheduled")[..9] == "scheduled";
    assert Lower("Not Started")[..11] == "not started";
  }
}
