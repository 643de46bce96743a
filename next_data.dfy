/** Extraction of the JSON document a page embeds in its
    `<script id="__NEXT_DATA__" type="application/json">` element, modelled as
    the search the non-greedy, DOTALL regular expression performs. */
module NextData {
  import opened Outcomes
  import opened Text

  const OpenMarker: string := "<script id=\"__NEXT_DATA__\" type=\"application/json\">"
  const CloseMarker: string := "</script>"

  /** The text between the first opening marker and the first closing marker
      after it, or `None` when the page has no such pair. */
  function ExtractNextData(html: string): (body: Option<string>)
    ensures body.Some? ==> exists i, j ::
      && Occurs(html, OpenMarker, i) && (forall k :: 0 <= k < i ==> !Occurs(html, OpenMarker, k))
      && i + |OpenMarker| <= j && Occurs(html, CloseMarker, j)
      && (forall k :: i + |OpenMarker| <= k < j ==> !Occurs(html, CloseMarker, k))
      && body.value == html[i + |OpenMarker|..j]
  {
    match IndexOf(html, OpenMarker, 0)
    case None => None
    case Some(i) =>
      match IndexOf(html, CloseMarker, i + |OpenMarker|)
      case None => None
      case Some(j) => Some(html[i + |OpenMarker|..j])
  }

  /** The page yields a body exactly when an opening marker is followed,
      somewhere later, by a closing marker. */
  lemma ExtractSucceedsIff(html: string)
    ensures ExtractNextData(html).Some? <==>
      exists i, j :: Occurs(html, OpenMarker, i) && Occurs(html, CloseMarker, j) && i + |OpenMarker| <= j
  {
    if exists i, j :: Occurs(html, OpenMarker, i) && Occurs(html, CloseMarker, j) && i + |OpenMarker| <= j {
      var i, j :| Occurs(html, OpenMarker, i) && Occurs(html, CloseMarker, j) && i + |OpenMarker| <= j;
      var first := IndexOf(html, OpenMarker, 0);
      assert first.Some? && first.value <= i;
      var close := IndexOf(html, CloseMarker, first.value + |OpenMarker|);
      assert close.Some?;
    }
  }

  /** A page without the opening marker yields nothing, whatever follows. */
  lemma NoOpenMarkerNoData(html: string)
    requires forall k :: !Occurs(html, OpenMarker, k)
    ensures ExtractNextData(html) == None
  {
  }
}
