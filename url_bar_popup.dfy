/**
 * The URL bar's autocomplete popup (`URLBarPopupWidget`): its items, the
 * bold span over the typed text, the per-row visibility rules, and the
 * delete, row-click and focus handlers.
 */
module URLBarPopup {
  import opened Wrappers
  import opened JavaLang

  // ---------------------------------------------------------------------------
  // Items
  // ---------------------------------------------------------------------------

  datatype ItemType = Bookmark | Favorite | History | Suggestion | Completion

  /**
   * `URLBarItem`. `id` stands for the object's identity, which is what the
   * adapter compares when it removes an item; `None` is Java's null.
   */
  datatype Item = Item(id: nat, text: string, url: Option<string>, faviconURL: Option<string>, itemType: Option<ItemType>)

  /** `URLBarItem.create`: a new object holding the four arguments. */
  function Create(id: nat, text: string, url: Option<string>, faviconURL: Option<string>, itemType: Option<ItemType>): (item: Item)
    ensures item.id == id && item.text == text && item.url == url
    ensures item.faviconURL == faviconURL && item.itemType == itemType
  {
    Item(id, text, url, faviconURL, itemType)
  }

  // ---------------------------------------------------------------------------
  // Highlighting
  // ---------------------------------------------------------------------------

  /** Normal style on `[0, start)` and `[end, len)`, bold on `[start, end)`. */
  datatype Spans = Spans(start: nat, end: nat, len: nat)

  /** The spans of a row title: around the first occurrence of the highlighted text, none if it does not occur. */
  function HighlightSpans(text: string, highlighted: string): Option<Spans>
  {
    var start := IndexOf(text, highlighted);
    if start >= 0 then Some(Spans(start, start + |highlighted|, |text|)) else None
  }

  /**
   * There are spans exactly when the highlighted text occurs in the title;
   * they cover the title in order, and the bold one is its first occurrence.
   */
  lemma HighlightSpansSpec(text: string, highlighted: string)
    ensures HighlightSpans(text, highlighted).Some? <==> exists i :: 0 <= i <= |text| && OccursAt(text, highlighted, i)
    ensures HighlightSpans(text, highlighted).Some? ==>
      var sp := HighlightSpans(text, highlighted).value;
      && 0 <= sp.start <= sp.end <= sp.len == |text|
      && text[sp.start..sp.end] == highlighted
      && forall j :: 0 <= j < sp.start ==> !OccursAt(text, highlighted, j)
  {
    var start := IndexOf(text, highlighted);
    if start >= 0 {
      assert OccursAt(text, highlighted, start);
    }
  }

  /** The initial, empty, highlighted text gives an empty bold span at the start. */
  lemma EmptyHighlight(text: string)
    ensures HighlightSpans(text, "") == Some(Spans(0, 0, |text|))
  {
    IndexOfEmpty(text);
  }

  // ---------------------------------------------------------------------------
  // Rows
  // ---------------------------------------------------------------------------

  datatype FaviconImage = Unset | SearchIcon | BrowserIcon

  /**
   * What a row shows. A recycled row keeps every attribute `getView` does
   * not set, so the row passed in matters.
   */
  datatype Row = Row(
    position: nat,
    title: string,
    spans: Option<Spans>,
    urlVisible: bool,
    urlText: string,
    faviconVisible: bool,
    faviconImage: FaviconImage,
    deleteVisible: bool,
    dividerVisible: bool)

  /** `getView` for the row at `position`, starting from a fresh or recycled row. */
  function GetView(prev: Row, items: seq<Item>, position: nat, highlighted: string): Row
    requires position < |items|
  {
    var item := items[position];
    var r := prev.(position := position, title := item.text, spans := HighlightSpans(item.text, highlighted),
                   urlVisible := item.url.Some?,
                   urlText := if item.url.Some? then item.url.value else prev.urlText,
                   faviconVisible := item.faviconURL.Some?);
    if item.itemType == Some(Suggestion) then
      r.(deleteVisible := false, dividerVisible := false, faviconVisible := true, faviconImage := SearchIcon)
    else if item.itemType == Some(Completion) then
      r.(deleteVisible := false, dividerVisible := true, faviconVisible := true, faviconImage := BrowserIcon)
    else r
  }

  /** The visibility rules of a row, by item type. */
  lemma RowRules(prev: Row, items: seq<Item>, position: nat, highlighted: string)
    requires position < |items|
    ensures var r := GetView(prev, items, position, highlighted); var item := items[position];
      && r.position == position && r.title == item.text
      && (r.urlVisible <==> item.url.Some?)
      && (item.url.Some? ==> r.urlText == item.url.value)
      && (item.itemType == Some(Suggestion) ==>
            !r.deleteVisible && !r.dividerVisible && r.faviconVisible && r.faviconImage == SearchIcon)
      && (item.itemType == Some(Completion) ==>
            !r.deleteVisible && r.dividerVisible && r.faviconVisible && r.faviconImage == BrowserIcon)
      && (item.itemType != Some(Suggestion) && item.itemType != Some(Completion) ==>
            (r.faviconVisible <==> item.faviconURL.Some?))
  {
  }

  /**
   * Rows of other types keep the delete button, the divider and the favicon
   * image of the row they recycle, and a row without a URL keeps its old
   * URL text (hidden).
   */
  lemma RecycledRowCarriesOver(prev: Row, items: seq<Item>, position: nat, highlighted: string)
    requires position < |items|
    ensures var r := GetView(prev, items, position, highlighted); var item := items[position];
      && (item.itemType != Some(Suggestion) && item.itemType != Some(Completion) ==>
            r.deleteVisible == prev.deleteVisible && r.dividerVisible == prev.dividerVisible &&
            r.faviconImage == prev.faviconImage)
      && (item.url.None? ==> r.urlText == prev.urlText && !r.urlVisible)
  {
  }

  // ---------------------------------------------------------------------------
  // Deletion
  // ---------------------------------------------------------------------------

  /** `List.remove(Object)`: drop the first element equal to `x`, if any. */
  function RemoveFirst(s: seq<Item>, x: Item): (r: seq<Item>)
    ensures x in s ==> |r| == |s| - 1
    ensures x !in s ==> r == s
  {
    if s == [] then []
    else if s[0] == x then s[1..]
    else [s[0]] + RemoveFirst(s[1..], x)
  }

  function FirstIndex(s: seq<Item>, x: Item): (i: nat)
    requires x in s
    ensures i < |s| && s[i] == x && forall j :: 0 <= j < i ==> s[j] != x
  {
    if s[0] == x then 0 else 1 + FirstIndex(s[1..], x)
  }

  /** Removing drops exactly the first occurrence: the rest stays in order, and the multiset loses one copy. */
  lemma RemoveFirstSpec(s: seq<Item>, x: Item)
    requires x in s
    ensures var i := FirstIndex(s, x); RemoveFirst(s, x) == s[..i] + s[i + 1..]
    ensures multiset(RemoveFirst(s, x)) == multiset(s) - multiset{x}
  {
    RemoveFirstSlices(s, x);
    DropAtMultiset(s, FirstIndex(s, x));
  }

  lemma DropAtMultiset(s: seq<Item>, i: nat)
    requires i < |s|
    ensures multiset(s[..i] + s[i + 1..]) == multiset(s) - multiset{s[i]}
  {
    var before, after := s[..i], s[i + 1..];
    assert s == before + [s[i]] + after;
    assert multiset(s) == multiset(before) + multiset{s[i]} + multiset(after);
    assert multiset(before + after) == multiset(before) + multiset(after);
  }

  lemma {:induction false} RemoveFirstSlices(s: seq<Item>, x: Item)
    requires x in s
    ensures var i := FirstIndex(s, x); RemoveFirst(s, x) == s[..i] + s[i + 1..]
  {
    if s[0] != x {
      var t := s[1..];
      RemoveFirstSlices(t, x);
      var i := FirstIndex(t, x);
      assert FirstIndex(s, x) == i + 1;
      assert RemoveFirst(s, x) == [s[0]] + (t[..i] + t[i + 1..]);
      assert t[..i] + t[i + 1..] == s[1..i + 1] + s[i + 2..];
      assert [s[0]] + s[1..i + 1] == s[..i + 1];
    }
  }

  /** Items are distinct objects. */
  predicate DistinctObjects(s: seq<Item>)
  {
    forall i, j :: 0 <= i < j < |s| ==> s[i] != s[j]
  }

  /** When no object is listed twice, deleting the item at a position removes that position. */
  lemma DeleteRemovesPosition(s: seq<Item>, p: nat)
    requires p < |s| && DistinctObjects(s)
    ensures RemoveFirst(s, s[p]) == s[..p] + s[p + 1..]
    ensures DistinctObjects(RemoveFirst(s, s[p]))
  {
    RemoveFirstSpec(s, s[p]);
    var i := FirstIndex(s, s[p]);
    assert i == p;
  }

  /** With the same object listed twice, deleting the later row removes the earlier one. */
  lemma DeleteOfDuplicate(a: Item, b: Item)
    requires a != b
    ensures RemoveFirst([a, b, a], [a, b, a][2]) == [b, a]
  {
  }

  // ---------------------------------------------------------------------------
  // The popup
  // ---------------------------------------------------------------------------

  /** `getItem` on a stale position tag throws. */
  datatype Crash = IndexOutOfBounds

  /** What a row click asks of the outside world, after starting the hide animation and taking the focus. */
  datatype RowClick = RowClick(clicked: Option<Item>)

  class URLBarPopupWidget {
    var items: seq<Item>
    var highlightedText: string
    var hasDelegate: bool
    var visible: bool
    var hiding: bool

    /** The popup starts hidden, empty and with nothing highlighted. */
    constructor ()
      ensures items == [] && highlightedText == "" && !hasDelegate && !visible && !hiding
    {
      items := [];
      highlightedText := "";
      hasDelegate := false;
      visible := false;
      hiding := false;
    }

    method SetDelegate(present: bool)
      modifies this
      ensures hasDelegate == present
      ensures items == old(items) && highlightedText == old(highlightedText)
      ensures visible == old(visible) && hiding == old(hiding)
    {
      hasDelegate := present;
    }

    method SetHighlightedText(text: string)
      modifies this
      ensures highlightedText == text
      ensures items == old(items) && hasDelegate == old(hasDelegate)
      ensures visible == old(visible) && hiding == old(hiding)
    {
      highlightedText := text;
    }

    method SetItems(newItems: seq<Item>)
      modifies this
      ensures items == newItems
      ensures highlightedText == old(highlightedText) && hasDelegate == old(hasDelegate)
      ensures visible == old(visible) && hiding == old(hiding)
    {
      items := newItems;
    }

    /** `show`: visible at once, with the scale-up animation. */
    method Show()
      modifies this
      ensures visible && !hiding
      ensures items == old(items) && highlightedText == old(highlightedText) && hasDelegate == old(hasDelegate)
    {
      visible := true;
      hiding := false;
    }

    /** `hide`: starts the scale-down animation; the popup is hidden when it ends. */
    method Hide()
      modifies this
      ensures hiding && visible == old(visible)
      ensures items == old(items) && highlightedText == old(highlightedText) && hasDelegate == old(hasDelegate)
    {
      hiding := true;
    }

    method OnHideAnimationEnd()
      modifies this
      ensures !visible && !hiding
      ensures items == old(items) && highlightedText == old(highlightedText) && hasDelegate == old(hasDelegate)
    {
      visible := false;
      hiding := false;
    }

    /** `onGlobalFocusChanged`: dismiss when some view lost the focus while the popup is visible. */
    method OnGlobalFocusChanged(hadOldFocus: bool) returns (dismiss: bool)
      ensures dismiss <==> hadOldFocus && visible
    {
      dismiss := hadOldFocus && visible;
    }

    /** The row at `position` as displayed. */
    function RowAt(prev: Row, position: nat): Row
      reads this
      requires position < |items|
    {
      GetView(prev, items, position, highlightedText)
    }

    /**
     * The delete button of the row tagged `position`: the item there is
     * removed from the list and, with a delegate, reported as deleted.
     */
    method OnDeleteClick(position: nat) returns (r: Result<Option<Item>, Crash>)
      modifies this
      ensures position >= |old(items)| ==> r == Err(IndexOutOfBounds) && items == old(items)
      ensures position < |old(items)| ==>
        && items == RemoveFirst(old(items), old(items)[position])
        && r == Ok(if hasDelegate then Some(old(items)[position]) else None)
      ensures highlightedText == old(highlightedText) && hasDelegate == old(hasDelegate)
      ensures visible == old(visible) && hiding == old(hiding)
    {
      if position >= |items| {
        return Err(IndexOutOfBounds);
      }
      var item := items[position];
      items := RemoveFirst(items, item);
      if hasDelegate {
        r := Ok(Some(item));
      } else {
        r := Ok(None);
      }
    }

    /** A row click hides the popup and, with a delegate, reports the item at the tagged position. */
    method OnRowClick(position: nat) returns (r: Result<RowClick, Crash>)
      modifies this
      ensures hiding
      ensures hasDelegate && position >= |items| ==> r == Err(IndexOutOfBounds)
      ensures hasDelegate && position < |items| ==> r == Ok(RowClick(Some(items[position])))
      ensures !hasDelegate ==> r == Ok(RowClick(None))
      ensures items == old(items) && highlightedText == old(highlightedText) && hasDelegate == old(hasDelegate)
      ensures visible == old(visible)
    {
      Hide();
      if !hasDelegate {
        return Ok(RowClick(None));
      }
      if position >= |items| {
        return Err(IndexOutOfBounds);
      }
      r := Ok(RowClick(Some(items[position])));
    }
  }
}
