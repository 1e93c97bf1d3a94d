/**
 * The media catalog of the page: the ordered item list `mediaItems` and the
 * item `selectedMedia` shown in the studio. Each handler replaces these with
 * new values; the class keeps them as fields with one method per handler.
 * `crypto.randomUUID()` is a counter here, so that unique ids are a proved
 * invariant rather than an assumption, and the object URLs released with
 * `URL.revokeObjectURL` are logged in `revoked`.
 */
module Catalog {
  import opened Opt
  import opened Text
  import opened Media

  /** What the page obtains for one uploaded file besides the file: its object URL and the clock reading. */
  datatype Minted = Minted(url: string, at: Instant)

  ghost predicate IdsUnique(items: seq<MediaItem>)
  {
    forall i, j :: 0 <= i < j < |items| ==> items[i].id != items[j].id
  }

  ghost predicate IdsBelow(items: seq<MediaItem>, bound: nat)
  {
    forall i :: 0 <= i < |items| ==> items[i].id < bound
  }

  /** A recording is always a video or an audio item. */
  ghost predicate RecordedArePlayable(items: seq<MediaItem>)
  {
    forall i :: 0 <= i < |items| && items[i].source == Recorded ==> items[i].kind in {Video, Audio}
  }

  /** `files.map(...)` in the upload handler: one uploaded item per file, ids counted up from `firstId`. */
  function UploadedItems(files: seq<FileData>, minted: seq<Minted>, firstId: nat): seq<MediaItem>
    requires |minted| == |files|
  {
    if files == [] then []
    else
      var f := files[0];
      [MediaItem(firstId, f.name, UploadKind(f.mime, f.name), minted[0].url, f, Uploaded, minted[0].at)]
      + UploadedItems(files[1..], minted[1..], firstId + 1)
  }

  /**
   * The k-th new item belongs to the k-th file: its name, its classified
   * kind, its URL and clock reading, source 'uploaded' and the k-th fresh id.
   */
  lemma {:induction false} UploadedItemsAt(files: seq<FileData>, minted: seq<Minted>, firstId: nat)
    requires |minted| == |files|
    ensures |UploadedItems(files, minted, firstId)| == |files|
    ensures forall k :: 0 <= k < |files| ==>
      var item := UploadedItems(files, minted, firstId)[k];
      && item.id == firstId + k
      && item.name == files[k].name
      && item.kind == UploadKind(files[k].mime, files[k].name)
      && item.url == minted[k].url
      && item.file == files[k]
      && item.source == Uploaded
      && item.timestamp == minted[k].at
  {
    if files != [] {
      UploadedItemsAt(files[1..], minted[1..], firstId + 1);
    }
  }

  /** `items.find(item => item.id === id)`: the first item with the id. */
  function Find(items: seq<MediaItem>, id: nat): (r: Option<MediaItem>)
    ensures r.Some? ==> r.value in items && r.value.id == id
    ensures r.None? <==> forall x :: x in items ==> x.id != id
  {
    if items == [] then None
    else if items[0].id == id then Some(items[0])
    else Find(items[1..], id)
  }

  /** No item before position `k` has the id. */
  ghost predicate NoneBefore(items: seq<MediaItem>, id: nat, k: nat)
    requires k <= |items|
  {
    forall j :: 0 <= j < k ==> items[j].id != id
  }

  /** The item `find` returns is the first item with the id. */
  lemma {:induction false} FindFirst(items: seq<MediaItem>, id: nat)
    ensures Find(items, id).Some? ==>
      exists k :: 0 <= k < |items| && items[k] == Find(items, id).value && NoneBefore(items, id, k)
  {
    if items != [] && items[0].id != id && Find(items, id).Some? {
      var rest := items[1..];
      FindFirst(rest, id);
      var k :| 0 <= k < |rest| && rest[k] == Find(rest, id).value && NoneBefore(rest, id, k);
      assert items[k + 1] == rest[k];
      assert NoneBefore(items, id, k + 1);
    } else if items != [] && items[0].id == id {
      assert NoneBefore(items, id, 0);
    }
  }

  /** `items.filter(item => item.id !== id)`. */
  function Without(items: seq<MediaItem>, id: nat): (r: seq<MediaItem>)
    ensures forall x :: x in r <==> x in items && x.id != id
  {
    if items == [] then []
    else (if items[0].id == id then [] else [items[0]]) + Without(items[1..], id)
  }

  /** Deleting an id no item has leaves the list as it is. */
  lemma {:induction false} WithoutUnknown(items: seq<MediaItem>, id: nat)
    requires forall x :: x in items ==> x.id != id
    ensures Without(items, id) == items
  {
    if items != [] {
      WithoutUnknown(items[1..], id);
      assert [items[0]] + items[1..] == items;
    }
  }

  lemma TailIdsUnique(items: seq<MediaItem>)
    requires IdsUnique(items) && items != []
    ensures IdsUnique(items[1..])
    ensures forall x :: x in items[1..] ==> x.id != items[0].id
  {
    var tail := items[1..];
    assert forall i :: 0 <= i < |tail| ==> tail[i] == items[i + 1];
  }

  /** With unique ids, deleting removes exactly the one item and keeps the rest in order. */
  lemma {:induction false} WithoutUnique(items: seq<MediaItem>, k: nat)
    requires IdsUnique(items) && k < |items|
    ensures Without(items, items[k].id) == items[..k] + items[k + 1..]
  {
    var id := items[k].id;
    TailIdsUnique(items);
    var tail := items[1..];
    if k == 0 {
      WithoutUnknown(tail, id);
      assert Without(items, id) == Without(tail, id);
    } else {
      assert tail[k - 1] == items[k];
      calc {
        Without(items, id);
        == { assert items[0].id != id; }
        [items[0]] + Without(tail, id);
        == { WithoutUnique(tail, k - 1); }
        [items[0]] + (tail[..k - 1] + tail[k..]);
        == { assert tail[..k - 1] == items[1..k]; assert tail[k..] == items[k + 1..]; }
        [items[0]] + (items[1..k] + items[k + 1..]);
        == { assert items[..k] == [items[0]] + items[1..k]; }
        items[..k] + items[k + 1..];
      }
    }
  }

  /** Deleting keeps no item twice. */
  lemma {:induction false} WithoutIdsUnique(items: seq<MediaItem>, id: nat)
    requires IdsUnique(items)
    ensures IdsUnique(Without(items, id))
  {
    if items != [] {
      TailIdsUnique(items);
      WithoutIdsUnique(items[1..], id);
      if items[0].id != id {
        ConsIdsUnique(items[0], Without(items[1..], id));
      }
    }
  }

  lemma ConsIdsUnique(head: MediaItem, rest: seq<MediaItem>)
    requires IdsUnique(rest) && forall x :: x in rest ==> x.id != head.id
    ensures IdsUnique([head] + rest)
  {
    var r := [head] + rest;
    assert forall i :: 1 <= i < |r| ==> r[i] == rest[i - 1];
  }

  /** Every item left after deleting was an item before, so the per-item invariants carry over. */
  lemma WithoutKeepsItemFacts(items: seq<MediaItem>, id: nat, bound: nat)
    requires IdsBelow(items, bound) && RecordedArePlayable(items)
    ensures IdsBelow(Without(items, id), bound) && RecordedArePlayable(Without(items, id))
  {
    var r := Without(items, id);
    forall j | 0 <= j < |r| ensures r[j].id < bound && (r[j].source == Recorded ==> r[j].kind in {Video, Audio}) {
      assert r[j] in items;
      var m :| 0 <= m < |items| && items[m] == r[j];
    }
  }

  /** Deleting keeps the relative order of what remains: it is a filter, so it keeps the catalog invariants. */
  lemma WithoutKeepsInvariants(items: seq<MediaItem>, id: nat, bound: nat)
    requires IdsUnique(items) && IdsBelow(items, bound) && RecordedArePlayable(items)
    ensures IdsUnique(Without(items, id)) && IdsBelow(Without(items, id), bound)
    ensures RecordedArePlayable(Without(items, id))
  {
    WithoutIdsUnique(items, id);
    WithoutKeepsItemFacts(items, id, bound);
  }

  class MediaCatalog {
    var items: seq<MediaItem>
    var selected: Option<MediaItem>
    var nextId: nat
    var revoked: seq<string>

    /** Ids are unique and below the counter, recordings are playable, and the selection is an item of the list. */
    ghost predicate Valid()
      reads this
    {
      && IdsUnique(items)
      && IdsBelow(items, nextId)
      && RecordedArePlayable(items)
      && (selected.Some? ==> selected.value in items)
    }

    constructor ()
      ensures Valid()
      ensures items == [] && selected == None && revoked == []
    {
      items := [];
      selected := None;
      nextId := 0;
      revoked := [];
    }

    /** The end of a recording: append the new item with a fresh id and select it. */
    method AddRecording(name: string, kind: Kind, url: string, file: FileData, at: Instant)
      returns (item: MediaItem)
      requires Valid()
      requires kind == Video || kind == Audio
      modifies this
      ensures Valid()
      ensures item == MediaItem(old(nextId), name, kind, url, file, Recorded, at)
      ensures forall x :: x in old(items) ==> x.id != item.id
      ensures items == old(items) + [item] && selected == Some(item)
      ensures nextId == old(nextId) + 1
      ensures revoked == old(revoked)
    {
      item := MediaItem(nextId, name, kind, url, file, Recorded, at);
      items := items + [item];
      selected := Some(item);
      nextId := nextId + 1;
    }

    /**
     * The upload handler: an empty file list changes nothing; otherwise one
     * item per file is appended in input order and the first new one is
     * selected.
     */
    method Upload(files: seq<FileData>, minted: seq<Minted>)
      requires Valid()
      requires |minted| == |files|
      modifies this
      ensures Valid()
      ensures files == [] ==> items == old(items) && selected == old(selected) && nextId == old(nextId)
      ensures files != [] ==>
        && items == old(items) + UploadedItems(files, minted, old(nextId))
        && selected == Some(items[|old(items)|])
        && nextId == old(nextId) + |files|
      ensures revoked == old(revoked)
    {
      if files == [] {
        return;
      }
      var added := UploadedItems(files, minted, nextId);
      UploadedItemsAt(files, minted, nextId);
      var all := items + added;
      assert forall i :: 0 <= i < |all| ==> all[i] == if i < |items| then items[i] else added[i - |items|];
      items := all;
      selected := Some(added[0]);
      nextId := nextId + |files|;
    }

    /** The preview button: select an item of the list. */
    method Select(item: MediaItem)
      requires Valid() && item in items
      modifies this
      ensures Valid()
      ensures selected == Some(item)
      ensures items == old(items) && nextId == old(nextId) && revoked == old(revoked)
    {
      selected := Some(item);
    }

    /**
     * The delete handler: release the item's URL when it is a `blob:` URL,
     * drop every item with the id, and clear the selection only when the
     * selected item has that id.
     */
    method Delete(id: nat)
      requires Valid()
      modifies this
      ensures Valid()
      ensures items == Without(old(items), id)
      ensures revoked == old(revoked) +
        (match Find(old(items), id)
         case Some(x) => if StartsWith(x.url, "blob:") then [x.url] else []
         case None => [])
      ensures selected == if old(selected).Some? && old(selected).value.id == id then None else old(selected)
      ensures nextId == old(nextId)
    {
      var found := Find(items, id);
      if found.Some? && StartsWith(found.value.url, "blob:") {
        revoked := revoked + [found.value.url];
      }
      WithoutKeepsInvariants(items, id, nextId);
      items := Without(items, id);
      if selected.Some? && selected.value.id == id {
        selected := None;
      }
    }
  }

  /** Deleting an unknown id leaves the list, the selection and the released URLs as they were. */
  lemma DeleteUnknownIsNoOp(items: seq<MediaItem>, selected: Option<MediaItem>, id: nat)
    requires forall x :: x in items ==> x.id != id
    requires selected.Some? ==> selected.value in items
    ensures Without(items, id) == items
    ensures Find(items, id) == None
    ensures !(selected.Some? && selected.value.id == id)
  {
    WithoutUnknown(items, id);
  }
}
