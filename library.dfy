/**
 * The library panel under every view: the items of the current view, newest
 * first. The source builds it as one expression over the item list
 * (`filter` then a stable `sort` by timestamp, descending), so the list
 * itself is never reordered.
 */
module Library {
  import opened Media

  /** Whether the library of `view` lists `item`: all in 'studio', by source in 'uploads' and 'record', none elsewhere. */
  predicate Shown(view: string, item: MediaItem)
  {
    if view == "studio" then true
    else if view == "uploads" then item.source == Uploaded
    else if view == "record" then item.source == Recorded
    else false
  }

  /** `items.filter(...)`: the items the view shows, in list order. */
  function Filter(items: seq<MediaItem>, view: string): (r: seq<MediaItem>)
    ensures |r| <= |items|
    ensures forall x :: x in r <==> x in items && Shown(view, x)
  {
    if items == [] then []
    else (if Shown(view, items[0]) then [items[0]] else []) + Filter(items[1..], view)
  }

  /** One item is kept exactly when the view shows it. */
  lemma FilterOne(x: MediaItem, view: string)
    ensures Filter([x], view) == if Shown(view, x) then [x] else []
  {
    assert [x][1..] == [];
  }

  /** The filter of a concatenation is the concatenation of the filters: the filter keeps list order and repeats. */
  lemma {:induction false} FilterAppend(a: seq<MediaItem>, b: seq<MediaItem>, view: string)
    ensures Filter(a + b, view) == Filter(a, view) + Filter(b, view)
  {
    if a == [] {
      assert a + b == b;
    } else {
      var head := if Shown(view, a[0]) then [a[0]] else [];
      assert (a + b)[0] == a[0];
      assert (a + b)[1..] == a[1..] + b;
      FilterAppend(a[1..], b, view);
      calc {
        Filter(a + b, view);
        head + Filter(a[1..] + b, view);
        head + (Filter(a[1..], view) + Filter(b, view));
        (head + Filter(a[1..], view)) + Filter(b, view);
        Filter(a, view) + Filter(b, view);
      }
    }
  }

  /** The studio view shows the whole list in order; a view the page does not know shows nothing. */
  lemma {:induction false} FilterByView(items: seq<MediaItem>, view: string)
    ensures view == "studio" ==> Filter(items, view) == items
    ensures view !in {"studio", "uploads", "record"} ==> Filter(items, view) == []
  {
    if items != [] {
      FilterByView(items[1..], view);
      assert [items[0]] + items[1..] == items;
    }
  }

  /** The list in the order the library shows: later timestamps before earlier ones. */
  ghost predicate NewestFirst(s: seq<MediaItem>)
  {
    forall i, j :: 0 <= i < j < |s| ==> s[i].timestamp.millis >= s[j].timestamp.millis
  }

  /** `x` placed before the first item that is not newer than it. */
  function Insert(x: MediaItem, s: seq<MediaItem>): (r: seq<MediaItem>)
    ensures multiset(r) == multiset(s) + multiset{x}
  {
    if s == [] || s[0].timestamp.millis <= x.timestamp.millis then [x] + s
    else
      assert s == [s[0]] + s[1..];
      [s[0]] + Insert(x, s[1..])
  }

  /** No item of `s` is later than `bound`. */
  ghost predicate NotAfter(s: seq<MediaItem>, bound: int)
  {
    forall i :: 0 <= i < |s| ==> s[i].timestamp.millis <= bound
  }

  lemma {:induction false} InsertNotAfter(x: MediaItem, s: seq<MediaItem>, bound: int)
    requires NotAfter(s, bound) && x.timestamp.millis <= bound
    ensures NotAfter(Insert(x, s), bound)
  {
    if s != [] && s[0].timestamp.millis > x.timestamp.millis {
      InsertNotAfter(x, s[1..], bound);
      var r := [s[0]] + Insert(x, s[1..]);
      assert forall i :: 1 <= i < |r| ==> r[i] == Insert(x, s[1..])[i - 1];
    }
  }

  lemma ConsNewestFirst(head: MediaItem, rest: seq<MediaItem>)
    requires NewestFirst(rest) && NotAfter(rest, head.timestamp.millis)
    ensures NewestFirst([head] + rest)
  {
    var r := [head] + rest;
    assert forall i :: 1 <= i < |r| ==> r[i] == rest[i - 1];
  }

  /** Inserting into a newest-first list keeps it newest first. */
  lemma {:induction false} InsertNewestFirst(x: MediaItem, s: seq<MediaItem>)
    requires NewestFirst(s)
    ensures NewestFirst(Insert(x, s))
  {
    if s == [] || s[0].timestamp.millis <= x.timestamp.millis {
      ConsNewestFirst(x, s);
    } else {
      InsertNewestFirst(x, s[1..]);
      InsertNotAfter(x, s[1..], s[0].timestamp.millis);
      ConsNewestFirst(s[0], Insert(x, s[1..]));
    }
  }

  /**
   * `sort((a, b) => new Date(b.timestamp) - new Date(a.timestamp))`: a stable
   * sort, newest first, as insertion sort.
   */
  function SortNewestFirst(s: seq<MediaItem>): (r: seq<MediaItem>)
    ensures NewestFirst(r)
    ensures multiset(r) == multiset(s)
  {
    if s == [] then []
    else
      assert s == [s[0]] + s[1..];
      InsertNewestFirst(s[0], SortNewestFirst(s[1..]));
      Insert(s[0], SortNewestFirst(s[1..]))
  }

  /** The items of `s` with the timestamp `t`, in order. */
  function StampedAt(s: seq<MediaItem>, t: int): seq<MediaItem>
  {
    if s == [] then []
    else (if s[0].timestamp.millis == t then [s[0]] else []) + StampedAt(s[1..], t)
  }

  lemma {:induction false} InsertStable(x: MediaItem, s: seq<MediaItem>, t: int)
    ensures StampedAt(Insert(x, s), t) == (if x.timestamp.millis == t then [x] else []) + StampedAt(s, t)
  {
    if s == [] || s[0].timestamp.millis <= x.timestamp.millis {
      assert ([x] + s)[1..] == s;
    } else {
      var rest := Insert(x, s[1..]);
      InsertStable(x, s[1..], t);
      assert ([s[0]] + rest)[1..] == rest;
    }
  }

  /** The sort is stable: items with equal timestamps keep their list order. */
  lemma {:induction false} SortStable(s: seq<MediaItem>, t: int)
    ensures StampedAt(SortNewestFirst(s), t) == StampedAt(s, t)
  {
    if s != [] {
      SortStable(s[1..], t);
      InsertStable(s[0], SortNewestFirst(s[1..]), t);
    }
  }

  /** The cards of the library panel for `view`. */
  function LibraryView(items: seq<MediaItem>, view: string): (r: seq<MediaItem>)
    ensures NewestFirst(r)
    ensures multiset(r) == multiset(Filter(items, view))
    ensures forall x :: x in r <==> x in items && Shown(view, x)
  {
    var r := SortNewestFirst(Filter(items, view));
    assert forall x :: x in r <==> x in multiset(r);
    r
  }

  /** `items.some(item => item.source === source)`. */
  predicate HasSource(items: seq<MediaItem>, source: Source)
  {
    exists i :: 0 <= i < |items| && items[i].source == source
  }

  /** The condition under which the panel draws a grid rather than a placeholder line. */
  predicate GridShown(items: seq<MediaItem>, view: string)
  {
    view == "studio" || (view == "uploads" && HasSource(items, Uploaded))
      || (view == "record" && HasSource(items, Recorded))
  }

  /** An item the view shows makes the grid condition hold. */
  lemma ShownMakesGrid(items: seq<MediaItem>, view: string, i: nat)
    requires i < |items| && Shown(view, items[i])
    ensures GridShown(items, view)
  {
  }

  /** The panel's condition for drawing a grid holds exactly when the view has a card to show. */
  lemma GridCondition(items: seq<MediaItem>, view: string)
    requires items != []
    ensures GridShown(items, view) <==> LibraryView(items, view) != []
  {
    var cards := LibraryView(items, view);
    if cards != [] {
      assert cards[0] in items;
      var i :| 0 <= i < |items| && items[i] == cards[0];
      ShownMakesGrid(items, view, i);
    }
    if GridShown(items, view) {
      var i: nat := 0;
      if view != "studio" {
        var source := if view == "uploads" then Uploaded else Recorded;
        i :| i < |items| && items[i].source == source;
      }
      assert items[i] in cards;
    }
  }

  /** What the page shows under a view: nothing, a "No ... yet." line, or a grid of cards. */
  datatype Panel = Hidden | Placeholder(text: string) | Grid(cards: seq<MediaItem>)

  /**
   * The library panel: hidden while the list is empty; a grid when the view
   * is 'studio' or the list has an item of the view's source; otherwise the
   * "No uploads yet." / "No recordings yet." line.
   */
  function LibraryPanel(items: seq<MediaItem>, view: string): (p: Panel)
    ensures p == Hidden <==> items == []
    ensures p.Grid? ==> p.cards == LibraryView(items, view) && p.cards != []
    ensures p.Placeholder? ==> LibraryView(items, view) == []
  {
    if items == [] then Hidden
    else
      GridCondition(items, view);
      if GridShown(items, view) then Grid(LibraryView(items, view))
      else Placeholder("No " + (if view == "uploads" then "uploads" else "recordings") + " yet.")
  }
}
