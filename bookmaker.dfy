/** Choosing the FanDuel entry among the per-bookmaker quote histories. */
module Bookmaker {
  import opened Outcomes
  import opened Text
  import opened JsonValues

  const TargetBook: string := "fanduel"

  /** `view.get('sportsbook', '').lower() == 'fanduel'`: raises when the view
      is not a dict or its `sportsbook` is not a string. */
  function IsFanDuel(view: Json): (r: Result<bool>)
    ensures r == Ok(true) <==>
      view.JObj? && exists book :: Lookup(view.fields, "sportsbook") == Some(JStr(book)) && Lower(book) == TargetBook
    ensures r.Raised? <==>
      !view.JObj? || (Lookup(view.fields, "sportsbook").Some? && !Lookup(view.fields, "sportsbook").value.JStr?)
  {
    var book :- DictGet(view, "sportsbook", JStr(""));
    if book.JStr? then Ok(Lower(book.s) == TargetBook) else Raised
  }

  /** The `for view in odds_views` loop from position `i` on: the first view
      that matches, `None` when every view is checked without a match, or
      `Raised` when a check raises before any match. */
  function SelectFanDuel(views: seq<Json>, i: nat): (r: Result<Option<Json>>)
    requires i <= |views|
    ensures r == Ok(None) <==> forall k :: i <= k < |views| ==> IsFanDuel(views[k]) == Ok(false)
    ensures r.Ok? && r.value.Some? ==>
      exists k :: i <= k < |views| && views[k] == r.value.value && IsFanDuel(views[k]) == Ok(true)
        && forall m :: i <= m < k ==> IsFanDuel(views[m]) == Ok(false)
    ensures r.Raised? ==>
      exists k :: i <= k < |views| && IsFanDuel(views[k]).Raised?
        && forall m :: i <= m < k ==> IsFanDuel(views[m]) == Ok(false)
    decreases |views| - i
  {
    if i == |views| then Ok(None)
    else
      match IsFanDuel(views[i])
      case Raised => Raised
      case Ok(true) => Ok(Some(views[i]))
      case Ok(false) => SelectFanDuel(views, i + 1)
  }

  /** The bookmaker name is matched without regard to ASCII case, whatever
      else the view holds. */
  lemma CaseInsensitiveMatch(view: Json, book: string)
    requires view.JObj? && Lookup(view.fields, "sportsbook") == Some(JStr(book))
    requires Lower(book) == TargetBook
    ensures IsFanDuel(view) == Ok(true)
  {
  }

  /** A list holding a FanDuel view at `k`, with only non-matching views
      before it from `i` on, selects that view. */
  lemma {:induction false} FanDuelViewIsSelected(views: seq<Json>, i: nat, k: nat)
    requires i <= k < |views| && IsFanDuel(views[k]) == Ok(true)
    requires forall m :: i <= m < k ==> IsFanDuel(views[m]) == Ok(false)
    ensures SelectFanDuel(views, i) == Ok(Some(views[k]))
    decreases k - i
  {
    if i < k {
      FanDuelViewIsSelected(views, i + 1, k);
    }
  }

  lemma SpellingsOfFanDuelMatch()
    ensures IsFanDuel(JObj([("sportsbook", JStr("FanDuel"))])) == Ok(true)
    ensures IsFanDuel(JObj([("sportsbook", JStr("FANDUEL"))])) == Ok(true)
    ensures IsFanDuel(JObj([("sportsbook", JStr("fanduel"))])) == Ok(true)
  {
    assert Lower("FanDuel") == TargetBook;
    assert Lower("FANDUEL") == TargetBook;
    assert Lower("fanduel") == TargetBook;
  }

  /** A view without `sportsbook` reads as `''` and never matches. */
  lemma MissingSportsbookNeverMatches(view: Json)
    requires view.JObj? && Lookup(view.fields, "sportsbook").None?
    ensures IsFanDuel(view) == Ok(false)
  {
  }

  /** The selected view is a non-empty dict, so the scraper's
      `if fanduel_data:` always passes once a view is selected. */
  lemma SelectedViewIsTruthy(views: seq<Json>, i: nat)
    requires i <= |views|
    requires SelectFanDuel(views, i).Ok? && SelectFanDuel(views, i).value.Some?
    ensures Truthy(SelectFanDuel(views, i).value.value)
  {
    var v := SelectFanDuel(views, i).value.value;
    assert IsFanDuel(v) == Ok(true);
  }
}
