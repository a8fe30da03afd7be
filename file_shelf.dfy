// The file shelf (NotchApp/Sources/Widgets/FileShelf/FileShelfViewModel.swift):
// a short list of dropped files, capped by a setting, de-duplicated by URL,
// expired after a configurable number of hours, and persisted as two
// parallel arrays (URL strings and timestamps).
//
// File-system facts (whether a path exists, its size), the clock and the two
// shelf settings arrive as parameters; icons, file types and thumbnails are
// not modelled. UUIDs are issued from a counter.
module FileShelf {
  import opened Wrappers
  import opened Text
  import opened Events

  /** `fileShelfMaxItems` as registered by default. */
  const DefaultMaxItems: int := 3
  /** `fileShelfExpirationHours` as registered by default. */
  const DefaultExpirationHours: int := 24

  datatype ShelfItem = ShelfItem(id: Token, url: string, name: string, fileSize: int, addedAt: real)

  /** The string without the slashes it ends with. */
  function DropTrailingSlashes(s: string): string
  {
    if |s| > 0 && s[|s| - 1] == '/' then DropTrailingSlashes(s[..|s| - 1]) else s
  }

  /**
   * `url.lastPathComponent`: the text after the last slash once trailing
   * slashes are ignored, and "/" for a path made of slashes only.
   */
  function LastPathComponent(url: string): (name: string)
    ensures name == "/" || forall i :: 0 <= i < |name| ==> name[i] != '/'
  {
    var path := DropTrailingSlashes(url);
    if path == [] && url != [] then "/"
    else
      var parts := Split(path, "/");
      SplitPiecesAreFree(path, "/", |parts| - 1);
      BeforeFirst(parts[|parts| - 1], '/', |parts[|parts| - 1]|);
      parts[|parts| - 1]
  }

  /** `n` slashes. */
  function Slashes(n: nat): string
  {
    seq(n, _ => '/')
  }

  lemma {:induction false} DropSlashes(p: string, n: nat)
    requires |p| > 0 && p[|p| - 1] != '/'
    ensures DropTrailingSlashes(p + Slashes(n)) == p
  {
    if n > 0 {
      var s := p + Slashes(n);
      assert s[|s| - 1] == '/';
      assert s[..|s| - 1] == p + Slashes(n - 1);
      DropSlashes(p, n - 1);
    } else {
      assert p + Slashes(0) == p;
    }
  }

  /**
   * The name of an item is the last component of its URL's path, whether or
   * not the URL ends with slashes, as for a dropped folder.
   */
  lemma LastPathComponentOf(dir: string, name: string, n: nat)
    requires name != [] && forall i :: 0 <= i < |name| ==> name[i] != '/'
    ensures LastPathComponent(dir + "/" + name + Slashes(n)) == name
  {
    var p := dir + "/" + name;
    DropSlashes(p, n);
    SplitLastPiece(dir, '/', name);
  }

  /** `isAtCapacity`. */
  predicate IsAtCapacity(items: seq<ShelfItem>, maxItems: int)
  {
    |items| >= maxItems
  }

  predicate HasUrl(items: seq<ShelfItem>, url: string)
  {
    exists k :: 0 <= k < |items| && items[k].url == url
  }

  predicate UniqueUrls(items: seq<ShelfItem>)
  {
    forall i, j :: 0 <= i < j < |items| ==> items[i].url != items[j].url
  }

  predicate UniqueIds(items: seq<ShelfItem>)
  {
    forall i, j :: 0 <= i < j < |items| ==> items[i].id != items[j].id
  }

  predicate IdsBelow(items: seq<ShelfItem>, bound: nat)
  {
    forall k :: 0 <= k < |items| ==> items[k].id < bound
  }

  // ---------------------------------------------------------------------------
  // Adding and removing
  // ---------------------------------------------------------------------------

  /**
   * `addFile(_:)`: the item to append, if the shelf has room, does not hold
   * the URL yet and the file exists. `id` is the fresh UUID, `now` the clock.
   */
  function NewItem(items: seq<ShelfItem>, maxItems: int, url: string, fileExists: bool, size: int,
                   now: real, id: Token): Option<ShelfItem>
  {
    if IsAtCapacity(items, maxItems) || HasUrl(items, url) || !fileExists then None
    else Some(ShelfItem(id, url, LastPathComponent(url), size, now))
  }

  /** A file is added exactly when there is room, the URL is new and the file exists; adding never overfills. */
  lemma AddFileSpec(items: seq<ShelfItem>, maxItems: int, url: string, fileExists: bool, size: int,
                    now: real, id: Token)
    ensures NewItem(items, maxItems, url, fileExists, size, now, id).Some?
            <==> |items| < maxItems && !HasUrl(items, url) && fileExists
    ensures NewItem(items, maxItems, url, fileExists, size, now, id).Some? ==>
              var item := NewItem(items, maxItems, url, fileExists, size, now, id).value;
              item.url == url && item.id == id && item.addedAt == now && |items + [item]| <= maxItems
  {
  }

  /** Adding keeps URLs unique, and keeps ids unique when the new id is above all old ones. */
  lemma AddKeepsUnique(items: seq<ShelfItem>, maxItems: int, url: string, fileExists: bool, size: int,
                       now: real, id: Token)
    requires UniqueUrls(items) && UniqueIds(items) && IdsBelow(items, id)
    requires NewItem(items, maxItems, url, fileExists, size, now, id).Some?
    ensures var items' := items + [NewItem(items, maxItems, url, fileExists, size, now, id).value];
      UniqueUrls(items') && UniqueIds(items') && IdsBelow(items', id + 1)
  {
  }

  /** The position of the first item with the given id. */
  function FirstIndexOfId(items: seq<ShelfItem>, id: Token): (r: Option<nat>)
    ensures r.Some? ==> r.value < |items| && items[r.value].id == id
    ensures r.Some? ==> forall k :: 0 <= k < r.value ==> items[k].id != id
    ensures r.None? ==> forall k :: 0 <= k < |items| ==> items[k].id != id
  {
    if items == [] then None
    else if items[0].id == id then Some(0)
    else match FirstIndexOfId(items[1..], id)
      case None => None
      case Some(k) => Some(k + 1)
  }

  /** `removeFile(at: id)` on the list: the first item with that id removed. */
  function RemoveById(items: seq<ShelfItem>, id: Token): seq<ShelfItem>
  {
    match FirstIndexOfId(items, id)
    case None => items
    case Some(k) => items[..k] + items[k + 1..]
  }

  /** Removing by id drops exactly one item when the id is present and none otherwise; with unique ids it is gone afterwards. */
  lemma RemoveByIdSpec(items: seq<ShelfItem>, id: Token)
    ensures (exists k :: 0 <= k < |items| && items[k].id == id) ==> |RemoveById(items, id)| == |items| - 1
    ensures (forall k :: 0 <= k < |items| ==> items[k].id != id) ==> RemoveById(items, id) == items
    ensures UniqueIds(items) ==> forall k :: 0 <= k < |RemoveById(items, id)| ==> RemoveById(items, id)[k].id != id
    ensures UniqueIds(items) ==> UniqueIds(RemoveById(items, id))
  {
    match FirstIndexOfId(items, id)
    case None =>
    case Some(i) =>
      var r := items[..i] + items[i + 1..];
      assert forall k :: 0 <= k < |r| ==> r[k] == (if k < i then items[k] else items[k + 1]);
  }

  /** The items whose positions are not among `offsets`, in order: `remove(atOffsets:)`. */
  function Unmarked(items: seq<ShelfItem>, offsets: set<nat>): seq<ShelfItem>
  {
    if items == [] then []
    else Unmarked(items[..|items| - 1], offsets) + (if |items| - 1 in offsets then [] else [items[|items| - 1]])
  }

  /** The items at `offsets`, in ascending order of position. */
  function Marked(items: seq<ShelfItem>, offsets: set<nat>): seq<ShelfItem>
  {
    if items == [] then []
    else Marked(items[..|items| - 1], offsets) + (if |items| - 1 in offsets then [items[|items| - 1]] else [])
  }

  function OffsetsBelow(offsets: set<nat>, n: nat): set<nat>
  {
    set o | o in offsets && o < n
  }

  /** One event per removed item, in list order. */
  function RemovalEvents(removed: seq<ShelfItem>): (es: seq<NotchEvent>)
    ensures |es| == |removed|
    ensures forall k :: 0 <= k < |es| ==> es[k] == FileRemoved(removed[k].id)
  {
    if removed == [] then [] else RemovalEvents(removed[..|removed| - 1]) + [FileRemoved(removed[|removed| - 1].id)]
  }

  /** Announcing one more removal after `log`. */
  lemma RemovalEventsAppend(log: seq<NotchEvent>, removed: seq<ShelfItem>, x: ShelfItem)
    ensures log + RemovalEvents(removed + [x]) == (log + RemovalEvents(removed)) + [FileRemoved(x.id)]
  {
    assert (removed + [x])[..|removed|] == removed;
    assert RemovalEvents(removed + [x]) == RemovalEvents(removed) + [FileRemoved(x.id)];
  }

  /** One more position of the list, marked or not. */
  lemma OffsetsStep(items: seq<ShelfItem>, offsets: set<nat>, i: nat)
    requires i < |items|
    ensures Unmarked(items[..i + 1], offsets) == Unmarked(items[..i], offsets) + (if i in offsets then [] else [items[i]])
    ensures Marked(items[..i + 1], offsets) == Marked(items[..i], offsets) + (if i in offsets then [items[i]] else [])
  {
    assert items[..i + 1][..i] == items[..i];
  }

  lemma OffsetsBelowStep(offsets: set<nat>, n: nat)
    ensures n !in OffsetsBelow(offsets, n)
    ensures OffsetsBelow(offsets, n + 1) == OffsetsBelow(offsets, n) + (if n in offsets then {n} else {})
  {
  }

  /**
   * Removing at offsets removes as many items as there are in-range offsets
   * and keeps the rest; every removed item was at one of the offsets.
   */
  lemma {:induction false} OffsetsPartition(items: seq<ShelfItem>, offsets: set<nat>)
    ensures |Marked(items, offsets)| == |OffsetsBelow(offsets, |items|)|
    ensures |Unmarked(items, offsets)| + |Marked(items, offsets)| == |items|
    ensures forall x :: x in Unmarked(items, offsets) ==> x in items
    ensures offsets == {} ==> Unmarked(items, offsets) == items
  {
    if items != [] {
      var n := |items| - 1;
      OffsetsPartition(items[..n], offsets);
      OffsetsBelowStep(offsets, n);
      OffsetsStep(items, offsets, n);
      assert items[..n + 1] == items;
    }
  }

  // ---------------------------------------------------------------------------
  // Expiry
  // ---------------------------------------------------------------------------

  /** `Date().addingTimeInterval(-Double(hours) * 3600)`. */
  function Cutoff(now: real, hours: int): real
  {
    now - hours as real * 3600.0
  }

  /** The items added before the cutoff. */
  function Expired(items: seq<ShelfItem>, cutoff: real): seq<ShelfItem>
  {
    if items == [] then []
    else Expired(items[..|items| - 1], cutoff)
         + (if items[|items| - 1].addedAt < cutoff then [items[|items| - 1]] else [])
  }

  /** The items added at or after the cutoff. */
  function Unexpired(items: seq<ShelfItem>, cutoff: real): seq<ShelfItem>
  {
    if items == [] then []
    else Unexpired(items[..|items| - 1], cutoff)
         + (if items[|items| - 1].addedAt < cutoff then [] else [items[|items| - 1]])
  }

  /** One more item of the list, expired or not. */
  lemma ExpiryStep(items: seq<ShelfItem>, cutoff: real, i: nat)
    requires i < |items|
    ensures Expired(items[..i + 1], cutoff) == Expired(items[..i], cutoff) + (if items[i].addedAt < cutoff then [items[i]] else [])
    ensures Unexpired(items[..i + 1], cutoff) == Unexpired(items[..i], cutoff) + (if items[i].addedAt < cutoff then [] else [items[i]])
  {
    assert items[..i + 1][..i] == items[..i];
  }

  /** An item survives expiry exactly when it is on the shelf and was added at or after the cutoff. */
  lemma {:induction false} UnexpiredHas(items: seq<ShelfItem>, cutoff: real, x: ShelfItem)
    ensures x in Unexpired(items, cutoff) <==> x in items && x.addedAt >= cutoff
  {
    if items != [] {
      var n := |items| - 1;
      UnexpiredHas(items[..n], cutoff, x);
      assert items == items[..n] + [items[n]];
    }
  }

  /** An item is reported expired exactly when it is on the shelf and was added before the cutoff. */
  lemma {:induction false} ExpiredHas(items: seq<ShelfItem>, cutoff: real, x: ShelfItem)
    ensures x in Expired(items, cutoff) <==> x in items && x.addedAt < cutoff
  {
    if items != [] {
      var n := |items| - 1;
      ExpiredHas(items[..n], cutoff, x);
      assert items == items[..n] + [items[n]];
    }
  }

  /** Expiry splits the shelf: every item is either kept or removed. */
  lemma {:induction false} ExpirySizes(items: seq<ShelfItem>, cutoff: real)
    ensures |Unexpired(items, cutoff)| + |Expired(items, cutoff)| == |items|
  {
    if items != [] {
      ExpirySizes(items[..|items| - 1], cutoff);
    }
  }

  /** With nothing older than the cutoff, expiry keeps the shelf as it is. */
  lemma {:induction false} NothingExpired(items: seq<ShelfItem>, cutoff: real)
    requires forall k :: 0 <= k < |items| ==> items[k].addedAt >= cutoff
    ensures Unexpired(items, cutoff) == items && Expired(items, cutoff) == []
  {
    if items != [] {
      var n := |items| - 1;
      NothingExpired(items[..n], cutoff);
      assert items == items[..n] + [items[n]];
    }
  }

  /** With the "never keep" setting of zero hours, everything added before now goes. */
  lemma ZeroHoursRemovesAllOlder(items: seq<ShelfItem>, now: real, x: ShelfItem)
    ensures x in Unexpired(items, Cutoff(now, 0)) ==> x.addedAt >= now
    ensures x in items && x.addedAt < now ==> x in Expired(items, Cutoff(now, 0))
  {
    UnexpiredHas(items, Cutoff(now, 0), x);
    ExpiredHas(items, Cutoff(now, 0), x);
  }

  // ---------------------------------------------------------------------------
  // Persistence
  // ---------------------------------------------------------------------------

  function Urls(items: seq<ShelfItem>): (r: seq<string>)
    ensures |r| == |items| && forall k :: 0 <= k < |items| ==> r[k] == items[k].url
  {
    seq(|items|, k requires 0 <= k < |items| => items[k].url)
  }

  function Dates(items: seq<ShelfItem>): (r: seq<real>)
    ensures |r| == |items| && forall k :: 0 <= k < |items| ==> r[k] == items[k].addedAt
  {
    seq(|items|, k requires 0 <= k < |items| => items[k].addedAt)
  }

  /** `zip(urls, dates)`: pairs up to the shorter length. */
  function Zip(urls: seq<string>, dates: seq<real>): (r: seq<(string, real)>)
    ensures |r| == if |urls| <= |dates| then |urls| else |dates|
    ensures forall k :: 0 <= k < |r| ==> r[k] == (urls[k], dates[k])
  {
    var n := if |urls| <= |dates| then |urls| else |dates|;
    seq(n, k requires 0 <= k < n => (urls[k], dates[k]))
  }

  /**
   * The items the loading loop appends for stored pairs: one per pair whose
   * URL parses and names an existing file (`usable`), with fresh ids counted
   * up from `firstId`, and no check of capacity or duplicates.
   */
  function Loaded(pairs: seq<(string, real)>, usable: string -> bool, sizeOf: string -> int, firstId: nat)
    : (r: seq<ShelfItem>)
    ensures |r| <= |pairs|
  {
    if pairs == [] then []
    else
      var prev := Loaded(pairs[..|pairs| - 1], usable, sizeOf, firstId);
      var (u, d) := pairs[|pairs| - 1];
      prev + (if usable(u) then [ShelfItem(firstId + |prev|, u, LastPathComponent(u), sizeOf(u), d)] else [])
  }

  /** Loading one more stored pair after `before`. */
  lemma LoadedStep(before: seq<ShelfItem>, pairs: seq<(string, real)>, i: nat, usable: string -> bool,
                   sizeOf: string -> int, firstId: nat)
    requires i < |pairs|
    ensures var prev := Loaded(pairs[..i], usable, sizeOf, firstId);
      var (u, d) := pairs[i];
      before + Loaded(pairs[..i + 1], usable, sizeOf, firstId)
        == before + prev + (if usable(u) then [ShelfItem(firstId + |prev|, u, LastPathComponent(u), sizeOf(u), d)] else [])
  {
    assert pairs[..i + 1][..i] == pairs[..i];
  }

  /** Loaded items carry the stored URLs and dates of the usable pairs and fresh, increasing ids. */
  lemma {:induction false} LoadedIds(pairs: seq<(string, real)>, usable: string -> bool, sizeOf: string -> int,
                                     firstId: nat)
    ensures forall k :: 0 <= k < |Loaded(pairs, usable, sizeOf, firstId)| ==>
              Loaded(pairs, usable, sizeOf, firstId)[k].id == firstId + k
  {
    if pairs != [] {
      var prev := Loaded(pairs[..|pairs| - 1], usable, sizeOf, firstId);
      LoadedIds(pairs[..|pairs| - 1], usable, sizeOf, firstId);
      var last := pairs[|pairs| - 1];
      var r := Loaded(pairs, usable, sizeOf, firstId);
      assert r == prev + (if usable(last.0) then [ShelfItem(firstId + |prev|, last.0, LastPathComponent(last.0),
                                                             sizeOf(last.0), last.1)] else []);
      forall k | 0 <= k < |r| ensures r[k].id == firstId + k {
        if k < |prev| {
          assert r[k] == prev[k];
          assert prev[k].id == firstId + k;
        } else {
          assert usable(last.0) && k == |prev|;
        }
      }
    }
  }

  /** When every stored URL is usable, loading gives back one item per pair, with its URL and date. */
  lemma {:induction false} LoadedAllUsable(pairs: seq<(string, real)>, usable: string -> bool,
                                           sizeOf: string -> int, firstId: nat)
    requires forall k :: 0 <= k < |pairs| ==> usable(pairs[k].0)
    ensures var r := Loaded(pairs, usable, sizeOf, firstId);
      |r| == |pairs| && forall k :: 0 <= k < |r| ==> r[k].url == pairs[k].0 && r[k].addedAt == pairs[k].1
  {
    if pairs != [] {
      LoadedAllUsable(pairs[..|pairs| - 1], usable, sizeOf, firstId);
    }
  }

  /**
   * Persisting and then loading into an empty shelf gives back the same URLs
   * and dates in the same order, provided every file is still there and none
   * has expired.
   */
  lemma PersistLoadRoundTrip(items: seq<ShelfItem>, usable: string -> bool, sizeOf: string -> int,
                             firstId: nat, cutoff: real)
    requires forall k :: 0 <= k < |items| ==> usable(items[k].url) && items[k].addedAt >= cutoff
    ensures var r := Unexpired(Loaded(Zip(Urls(items), Dates(items)), usable, sizeOf, firstId), cutoff);
      Urls(r) == Urls(items) && Dates(r) == Dates(items)
  {
    var pairs := Zip(Urls(items), Dates(items));
    LoadedAllUsable(pairs, usable, sizeOf, firstId);
    var loaded := Loaded(pairs, usable, sizeOf, firstId);
    NothingExpired(loaded, cutoff);
  }

  /** Loading does not check for duplicates: the same stored URL twice gives two items with that URL. */
  lemma LoadingMayDuplicate(u: string, d: real, usable: string -> bool, sizeOf: string -> int)
    requires usable(u)
    ensures var r := Loaded(Zip([u, u], [d, d]), usable, sizeOf, 0);
      |r| == 2 && r[0].url == r[1].url && !UniqueUrls(r)
  {
    LoadedAllUsable(Zip([u, u], [d, d]), usable, sizeOf, 0);
  }

  // ---------------------------------------------------------------------------
  // The view-model object
  // ---------------------------------------------------------------------------

  class FileShelfViewModel {
    var items: seq<ShelfItem>
    /** The next UUID to hand out. */
    var nextId: nat
    /** `expirationTimer != nil`. */
    var expirationTimerRunning: bool
    /** The `fileShelfItems_urls` and `fileShelfItems_dates` user defaults. */
    var storedUrls: Option<seq<string>>
    var storedDates: Option<seq<real>>
    const bus: Bus

    /** Ids are unique and below the next one to be issued. */
    ghost predicate Valid()
      reads this
    {
      UniqueIds(items) && IdsBelow(items, nextId)
    }

    constructor (bus: Bus, storedUrls: Option<seq<string>>, storedDates: Option<seq<real>>)
      ensures Valid() && items == [] && !expirationTimerRunning && this.bus == bus
      ensures this.storedUrls == storedUrls && this.storedDates == storedDates
    {
      items := [];
      nextId := 0;
      expirationTimerRunning := false;
      this.storedUrls := storedUrls;
      this.storedDates := storedDates;
      this.bus := bus;
    }

    /** `persistItems()`. */
    method PersistItems()
      modifies this
      ensures storedUrls == Some(Urls(items)) && storedDates == Some(Dates(items))
      ensures items == old(items) && nextId == old(nextId) && expirationTimerRunning == old(expirationTimerRunning)
    {
      storedUrls := Some(Urls(items));
      storedDates := Some(Dates(items));
    }

    /** `addFile(_:)`. */
    method AddFile(url: string, maxItems: int, fileExists: bool, size: int, now: real)
      requires Valid()
      modifies this, bus
      ensures Valid()
      ensures var added := NewItem(old(items), maxItems, url, fileExists, size, now, old(nextId));
        (added.None? ==> items == old(items) && bus.log == old(bus.log)
                         && storedUrls == old(storedUrls) && storedDates == old(storedDates))
        && (added.Some? ==> items == old(items) + [added.value] && bus.log == old(bus.log) + [FileDropped(url)]
                            && storedUrls == Some(Urls(items)) && storedDates == Some(Dates(items)))
        && nextId == old(nextId) + (if added.Some? then 1 else 0)
      ensures expirationTimerRunning == old(expirationTimerRunning)
    {
      if |items| >= maxItems {
        return;
      }
      var i := 0;
      while i < |items|
        invariant 0 <= i <= |items|
        invariant forall k :: 0 <= k < i ==> items[k].url != url
      {
        if items[i].url == url {
          return;
        }
        i := i + 1;
      }
      if !fileExists {
        return;
      }
      var item := ShelfItem(nextId, url, LastPathComponent(url), size, now);
      nextId := nextId + 1;
      items := items + [item];
      bus.Send(FileDropped(url));
      PersistItems();
    }

    /** `removeFile(at: id)`. */
    method RemoveFileById(id: Token)
      requires Valid()
      modifies this, bus
      ensures Valid() && items == RemoveById(old(items), id)
      ensures FirstIndexOfId(old(items), id).None? ==>
                bus.log == old(bus.log) && storedUrls == old(storedUrls) && storedDates == old(storedDates)
      ensures FirstIndexOfId(old(items), id).Some? ==>
                bus.log == old(bus.log) + [FileRemoved(id)]
                && storedUrls == Some(Urls(items)) && storedDates == Some(Dates(items))
      ensures nextId == old(nextId) && expirationTimerRunning == old(expirationTimerRunning)
    {
      RemoveByIdSpec(items, id);
      match FirstIndexOfId(items, id) {
        case None =>
        case Some(index) =>
          items := items[..index] + items[index + 1..];
          bus.Send(FileRemoved(id));
          PersistItems();
      }
      assert IdsBelow(items, nextId) by {
        assert forall x :: x in items ==> x in old(items);
      }
    }

    /** `removeFile(at: offsets)`: every offset must be a valid index, as `remove(atOffsets:)` demands. */
    method RemoveFileAtOffsets(offsets: set<nat>)
      requires Valid()
      requires forall o :: o in offsets ==> o < |items|
      modifies this, bus
      ensures Valid() && items == Unmarked(old(items), offsets)
      ensures bus.log == old(bus.log) + RemovalEvents(Marked(old(items), offsets))
      ensures storedUrls == Some(Urls(items)) && storedDates == Some(Dates(items))
      ensures nextId == old(nextId) && expirationTimerRunning == old(expirationTimerRunning)
    {
      AnnounceRemovals(Marked(items, offsets));
      UnmarkedKeepsIds(items, offsets, nextId);
      items := Unmarked(items, offsets);
      PersistItems();
    }

    /** `clearAll()`: no events. */
    method ClearAll()
      requires Valid()
      modifies this
      ensures Valid() && items == [] && storedUrls == Some([]) && storedDates == Some([]) && nextId == old(nextId)
      ensures expirationTimerRunning == old(expirationTimerRunning)
    {
      items := [];
      PersistItems();
    }

    /** The sending loops of `removeFile(at:)` and `removeExpiredItems()`: one `fileRemoved` per removed item, in order. */
    method AnnounceRemovals(removed: seq<ShelfItem>)
      modifies bus
      ensures bus.log == old(bus.log) + RemovalEvents(removed)
    {
      var j := 0;
      while j < |removed|
        invariant 0 <= j <= |removed|
        invariant bus.log == old(bus.log) + RemovalEvents(removed[..j])
      {
        assert removed[..j + 1] == removed[..j] + [removed[j]];
        RemovalEventsAppend(old(bus.log), removed[..j], removed[j]);
        bus.Send(FileRemoved(removed[j].id));
        j := j + 1;
      }
      assert removed[..j] == removed;
    }

    /** `removeExpiredItems()` at `now` with the expiration setting `hours`. */
    method RemoveExpiredItems(now: real, hours: int)
      requires Valid()
      modifies this, bus
      ensures Valid()
      ensures items == Unexpired(old(items), Cutoff(now, hours))
      ensures bus.log == old(bus.log) + RemovalEvents(Expired(old(items), Cutoff(now, hours)))
      ensures Expired(old(items), Cutoff(now, hours)) == [] ==>
                storedUrls == old(storedUrls) && storedDates == old(storedDates)
      ensures Expired(old(items), Cutoff(now, hours)) != [] ==>
                storedUrls == Some(Urls(items)) && storedDates == Some(Dates(items))
      ensures nextId == old(nextId) && expirationTimerRunning == old(expirationTimerRunning)
    {
      var cutoff := Cutoff(now, hours);
      var expired := [];
      var kept := [];
      var i := 0;
      while i < |items|
        modifies {}
        invariant 0 <= i <= |items|
        invariant expired == Expired(items[..i], cutoff) && kept == Unexpired(items[..i], cutoff)
      {
        ExpiryStep(items, cutoff, i);
        if items[i].addedAt < cutoff {
          expired := expired + [items[i]];
        } else {
          kept := kept + [items[i]];
        }
        i := i + 1;
      }
      assert items[..i] == items;
      AnnounceRemovals(expired);
      UnexpiredKeepsIds(items, cutoff, nextId);
      items := kept;
      if expired != [] {
        PersistItems();
      }
    }

    /** `loadPersistedItems()` at `now`: `usable` says whether a stored string parses as a URL of an existing file. */
    method LoadPersistedItems(usable: string -> bool, sizeOf: string -> int, now: real, hours: int)
      requires Valid()
      modifies this, bus
      ensures Valid()
      ensures expirationTimerRunning == old(expirationTimerRunning)
      ensures old(storedUrls).None? || old(storedDates).None? ==>
                items == old(items) && bus.log == old(bus.log) && nextId == old(nextId)
                && storedUrls == old(storedUrls) && storedDates == old(storedDates)
      ensures old(storedUrls).Some? && old(storedDates).Some? ==>
                var added := Loaded(Zip(old(storedUrls).value, old(storedDates).value), usable, sizeOf, old(nextId));
                var loaded := old(items) + added;
                items == Unexpired(loaded, Cutoff(now, hours))
                && bus.log == old(bus.log) + RemovalEvents(Expired(loaded, Cutoff(now, hours)))
                && nextId == old(nextId) + |added|
                && (Expired(loaded, Cutoff(now, hours)) == [] ==>
                      storedUrls == old(storedUrls) && storedDates == old(storedDates))
                && (Expired(loaded, Cutoff(now, hours)) != [] ==>
                      storedUrls == Some(Urls(items)) && storedDates == Some(Dates(items)))
    {
      if storedUrls.None? || storedDates.None? {
        return;
      }
      var pairs := Zip(storedUrls.value, storedDates.value);
      var firstId := nextId;
      var i := 0;
      while i < |pairs|
        modifies this
        invariant 0 <= i <= |pairs|
        invariant items == old(items) + Loaded(pairs[..i], usable, sizeOf, firstId)
        invariant nextId == firstId + |Loaded(pairs[..i], usable, sizeOf, firstId)|
        invariant storedUrls == old(storedUrls) && storedDates == old(storedDates)
        invariant expirationTimerRunning == old(expirationTimerRunning)
      {
        LoadedStep(old(items), pairs, i, usable, sizeOf, firstId);
        var (urlString, timestamp) := pairs[i];
        if usable(urlString) {
          var item := ShelfItem(nextId, urlString, LastPathComponent(urlString), sizeOf(urlString), timestamp);
          items := items + [item];
          nextId := nextId + 1;
        }
        i := i + 1;
      }
      assert pairs[..i] == pairs;
      LoadedKeepsValid(old(items), pairs, usable, sizeOf, firstId);
      RemoveExpiredItems(now, hours);
    }

    /** `startMonitoring()`. */
    method StartMonitoring(usable: string -> bool, sizeOf: string -> int, now: real, hours: int)
      requires Valid()
      modifies this, bus
      ensures Valid() && expirationTimerRunning
      ensures old(storedUrls).None? || old(storedDates).None? ==>
                items == old(items) && bus.log == old(bus.log) && nextId == old(nextId)
                && storedUrls == old(storedUrls) && storedDates == old(storedDates)
      ensures old(storedUrls).Some? && old(storedDates).Some? ==>
                var added := Loaded(Zip(old(storedUrls).value, old(storedDates).value), usable, sizeOf, old(nextId));
                var loaded := old(items) + added;
                items == Unexpired(loaded, Cutoff(now, hours))
                && bus.log == old(bus.log) + RemovalEvents(Expired(loaded, Cutoff(now, hours)))
                && nextId == old(nextId) + |added|
                && (Expired(loaded, Cutoff(now, hours)) == [] ==>
                      storedUrls == old(storedUrls) && storedDates == old(storedDates))
                && (Expired(loaded, Cutoff(now, hours)) != [] ==>
                      storedUrls == Some(Urls(items)) && storedDates == Some(Dates(items)))
    {
      expirationTimerRunning := true;
      LoadPersistedItems(usable, sizeOf, now, hours);
    }

    /** `stopMonitoring()`. */
    method StopMonitoring()
      modifies this
      ensures !expirationTimerRunning && items == old(items) && nextId == old(nextId)
      ensures storedUrls == Some(Urls(items)) && storedDates == Some(Dates(items))
    {
      expirationTimerRunning := false;
      PersistItems();
    }
  }

  /** Expiry keeps ids unique and below the next one. */
  lemma {:induction false} UnexpiredKeepsIds(items: seq<ShelfItem>, cutoff: real, bound: nat)
    requires UniqueIds(items) && IdsBelow(items, bound)
    ensures UniqueIds(Unexpired(items, cutoff)) && IdsBelow(Unexpired(items, cutoff), bound)
  {
    if items != [] {
      var n := |items| - 1;
      UnexpiredKeepsIds(items[..n], cutoff, bound);
      var u := Unexpired(items[..n], cutoff);
      if items[n].addedAt >= cutoff {
        forall k | 0 <= k < |u| ensures u[k].id != items[n].id {
          UnexpiredHas(items[..n], cutoff, u[k]);
          var j :| 0 <= j < n && items[j] == u[k];
        }
      }
    }
  }

  /** Removal at offsets keeps ids unique and below the next one. */
  lemma {:induction false} UnmarkedKeepsIds(items: seq<ShelfItem>, offsets: set<nat>, bound: nat)
    requires UniqueIds(items) && IdsBelow(items, bound)
    ensures UniqueIds(Unmarked(items, offsets)) && IdsBelow(Unmarked(items, offsets), bound)
  {
    if items != [] {
      var n := |items| - 1;
      var u := Unmarked(items[..n], offsets);
      assert Unmarked(items, offsets) == u + (if n in offsets then [] else [items[n]]);
      UnmarkedKeepsIds(items[..n], offsets, bound);
      if n !in offsets {
        OffsetsPartition(items[..n], offsets);
        forall k | 0 <= k < |u| ensures u[k].id != items[n].id {
          assert u[k] in items[..n];
        }
      }
    }
  }

  /** Appending loaded items with ids from `firstId` up keeps ids unique. */
  lemma LoadedKeepsValid(items: seq<ShelfItem>, pairs: seq<(string, real)>, usable: string -> bool,
                         sizeOf: string -> int, firstId: nat)
    requires UniqueIds(items) && IdsBelow(items, firstId)
    ensures var all := items + Loaded(pairs, usable, sizeOf, firstId);
      UniqueIds(all) && IdsBelow(all, firstId + |Loaded(pairs, usable, sizeOf, firstId)|)
  {
    LoadedIds(pairs, usable, sizeOf, firstId);
  }
}
