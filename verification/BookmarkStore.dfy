/** The bookmark list of src/bookmarks.c in memory, and its file. */
module BookmarkStore {
  import opened Results
  import opened BookmarkFormat

  /** The first place whose URL is not less. */
  function Place(urls: seq<Url>, url: Url): (i: nat)
    ensures i <= |urls| && (forall k :: 0 <= k < i ==> Less(urls[k], url))
    ensures i < |urls| ==> !Less(urls[i], url)
  {
    if urls == [] || !Less(urls[0], url) then 0 else 1 + Place(urls[1..], url)
  }

  function Toggled(urls: seq<Url>, url: Url): seq<Url> {
    var i := Place(urls, url);
    if i < |urls| && urls[i] == url then urls[..i] + urls[i + 1..] else urls[..i] + [url] + urls[i..]
  }

  lemma {:induction false} PlaceIs(urls: seq<Url>, url: Url, i: nat)
    requires i <= |urls| && (forall k :: 0 <= k < i ==> Less(urls[k], url))
    requires forall k :: i <= k < |urls| ==> !Less(urls[k], url)
    ensures Place(urls, url) == i
    decreases i
  {
    if i > 0 {
      PlaceIs(urls[1..], url, i - 1);
    }
  }

  lemma {:induction false} BehindPlace(urls: seq<Url>, url: Url)
    requires Sorted(urls)
    ensures forall k :: Place(urls, url) <= k < |urls| ==> !Less(urls[k], url)
  {
    var i := Place(urls, url);
    forall k | i <= k < |urls|
      ensures !Less(urls[k], url)
    {
      if i < k && Less(urls[k], url) {
        LessTransitive(urls[i], urls[k], url);
      }
    }
  }

  /** In a sorted list a URL stands at its place or nowhere. */
  lemma {:induction false} MemberAtPlace(urls: seq<Url>, url: Url)
    requires Sorted(urls)
    ensures url in urls <==> Place(urls, url) < |urls| && urls[Place(urls, url)] == url
  {
    BehindPlace(urls, url);
    LessTotal(url, url);
    hide Place, Less;
    if url in urls {
      var k :| 0 <= k < |urls| && urls[k] == url;
      assert Place(urls, url) <= k;
    }
  }

  lemma {:induction false} ToggleSorted(urls: seq<Url>, url: Url)
    requires ValidList(urls) && ValidUrl(url)
    ensures ValidList(Toggled(urls, url))
  {
    var i := Place(urls, url);
    var r := Toggled(urls, url);
    hide Place, Less, ValidUrl;
    if i < |urls| && urls[i] == url {
      assert forall k :: 0 <= k < |r| ==> r[k] == urls[if k < i then k else k + 1];
    } else {
      BehindPlace(urls, url);
      forall k | 0 <= k < |r|
        ensures r[k] == if k < i then urls[k] else if k == i then url else urls[k - 1]
      {
      }
      forall k | i <= k < |urls|
        ensures Less(url, urls[k])
      {
        LessTotal(url, urls[k]);
        MemberAtPlace(urls, url);
      }
    }
  }

  lemma {:induction false} OutMembers(urls: seq<Url>, url: Url, i: nat, other: Url)
    requires Sorted(urls) && i < |urls| && urls[i] == url && !Less(url, url)
    ensures other in urls[..i] + urls[i + 1..] <==> other in urls && other != url
  {
    hide Less;
    assert urls == urls[..i] + [url] + urls[i + 1..];
    forall k | 0 <= k < |urls| && k != i ensures urls[k] != url {
      assert k < i ==> Less(urls[k], urls[i]);
      assert k > i ==> Less(urls[i], urls[k]);
    }
  }

  /** Toggling changes the membership of that URL and of no other. */
  lemma {:induction false} ToggleMembers(urls: seq<Url>, url: Url, other: Url)
    requires Sorted(urls)
    ensures other in Toggled(urls, url) <==> (if other == url then url !in urls else other in urls)
  {
    MemberAtPlace(urls, url);
    LessTotal(url, url);
    var i := Place(urls, url);
    hide Place, Less, Sorted;
    if i < |urls| && urls[i] == url {
      OutMembers(urls, url, i, other);
    } else {
      assert urls == urls[..i] + urls[i..];
    }
  }

  lemma {:induction false} PlaceAfterOut(urls: seq<Url>, url: Url, i: nat)
    requires Sorted(urls) && i < |urls| && urls[i] == url && !Less(url, url)
    requires forall k :: 0 <= k < i ==> Less(urls[k], url)
    requires forall k :: i <= k < |urls| ==> !Less(urls[k], url)
    ensures var r := urls[..i] + urls[i + 1..];
      Place(r, url) == i && (i < |r| ==> r[i] != url) && r[..i] + [url] + r[i..] == urls
  {
    hide Less, Place;
    var r := urls[..i] + urls[i + 1..];
    forall k | i <= k < |r| ensures !Less(r[k], url) && r[k] != url {
      assert r[k] == urls[k + 1] && Less(urls[i], urls[k + 1]);
    }
    PlaceIs(r, url, i);
  }

  lemma {:induction false} PlaceAfterIn(urls: seq<Url>, url: Url, i: nat)
    requires i <= |urls| && !Less(url, url)
    requires forall k :: 0 <= k < i ==> Less(urls[k], url)
    requires forall k :: i <= k < |urls| ==> !Less(urls[k], url)
    ensures var r := urls[..i] + [url] + urls[i..];
      Place(r, url) == i && r[i] == url && r[..i] + r[i + 1..] == urls
  {
    hide Less, Place;
    var r := urls[..i] + [url] + urls[i..];
    forall k | i <= k < |r| ensures !Less(r[k], url) {
      assert r[k] == if k == i then url else urls[k - 1];
    }
    PlaceIs(r, url, i);
  }

  /** Toggling twice restores the list. */
  lemma {:induction false} ToggleTwice(urls: seq<Url>, url: Url)
    requires Sorted(urls)
    ensures Toggled(Toggled(urls, url), url) == urls
  {
    BehindPlace(urls, url);
    LessTotal(url, url);
    var i := Place(urls, url);
    hide Place, Less, Sorted;
    if i < |urls| && urls[i] == url {
      PlaceAfterOut(urls, url, i);
    } else {
      PlaceAfterIn(urls, url, i);
    }
  }

  class Bookmarks {
    var urls: seq<Url>
    /** Whether there is a file, and its bytes once it exists. */
    const stored: bool
    var file: Option<seq<byte>>

    ghost predicate Valid()
      reads this
    {
      ValidList(urls)
    }

    /** The file holds this list; an empty list may have none yet. */
    ghost predicate Saved()
      reads this
    {
      stored ==> Fits(urls) && (file == Some(Encode(urls)) || (file.None? && urls == []))
    }

    constructor (stored: bool)
      ensures Valid() && urls == [] && this.stored == stored && file == None && Saved()
    {
      this.stored := stored;
      urls, file := [], None;
    }

    /** tai_bookmarks_open_path on a path with this file, or with none. */
    method Open(found: Option<seq<byte>>) returns (ok: bool)
      requires stored && Valid() && urls == []
      modifies this
      ensures Valid() && file == found
      ensures found.None? ==> ok && urls == [] && Saved()
      ensures found.Some? && ok ==> Saved() && Fits(urls) && found.value == Encode(urls)
      ensures !ok ==> found.Some? && urls == [] && forall list :: Storable(list) ==> found.value != Encode(list)
    {
      file, ok := found, true;
      if found.Some? {
        var r := LoadFile(found.value);
        ok := r.Some?;
        if ok {
          urls := r.value;
        }
      }
    }

    /** lower_bound. */
    method LowerBound(url: Url) returns (first: nat)
      requires Valid()
      ensures first == Place(urls, url)
    {
      hide Less, ValidUrl;
      first := 0;
      var count: nat := |urls|;
      while count > 0
        invariant 0 <= first <= first + count <= |urls|
        invariant forall k :: 0 <= k < first ==> Less(urls[k], url)
        invariant forall k :: first + count <= k < |urls| ==> !Less(urls[k], url)
      {
        var step := count / 2;
        var middle := first + step;
        BelowMiddle(urls, url, middle);
        if Less(urls[middle], url) {
          first := middle + 1;
          count := count - (step + 1);
        } else {
          count := step;
        }
      }
      PlaceIs(urls, url, first);
    }

    method Contains(url: Url) returns (yes: bool)
      requires Valid()
      ensures yes <==> ValidUrl(url) && url in urls
    {
      if !ValidUrl(url) {
        return false;
      }
      var index := LowerBound(url);
      MemberAtPlace(urls, url);
      yes := index < |urls| && urls[index] == url;
    }

    /** persist_candidate: the size first, then the bytes, then the file in one step. written says
        whether the writes succeed. */
    method Persist(next: seq<Url>, written: bool) returns (ok: bool)
      modifies `file
      ensures ok <==> !stored || (Fits(next) && written)
      ensures ok && stored ==> Fits(next) && file == Some(Encode(next))
      ensures !ok || !stored ==> file == old(file)
    {
      if !stored {
        return true;
      }
      var total := 12;
      var i := 0;
      assert next[..0] == [];
      while i < |next|
        invariant i <= |next| && total == 12 + Size(next[..i]) <= MAX_FILE_BYTES && file == old(file)
      {
        var length := |next[i]|;
        SizeSplit(next, i);
        if total > MAX_FILE_BYTES - 4 || length > MAX_FILE_BYTES - total - 4 {
          return false;
        }
        total := total + 4 + length;
        i := i + 1;
      }
      assert next[..i] == next;
      var bytes := Output(next);
      if !written {
        return false;
      }
      file := Some(bytes);
      ok := true;
    }

    method Output(next: seq<Url>) returns (bytes: seq<byte>)
      requires Fits(next)
      ensures bytes == Encode(next)
    {
      hide U32;
      SizeBounds(next);
      bytes := MAGIC + U32(|next|);
      var i := 0;
      assert next[..0] == [];
      while i < |next|
        invariant i <= |next| && bytes == MAGIC + U32(|next|) + Items(next[..i])
      {
        assert next[..i + 1][..i] == next[..i];
        bytes := bytes + U32(|next[i]|) + next[i];
        i := i + 1;
      }
      assert next[..i] == next;
    }

    /** Adds or removes a URL, in the file first. */
    method Toggle(url: Url, written: bool) returns (ok: bool, now: bool)
      requires Valid()
      modifies this
      ensures Valid()
      ensures ok <==> ValidUrl(url) && (!stored || (Fits(Toggled(old(urls), url)) && written))
      ensures ok ==> urls == Toggled(old(urls), url) && (now <==> url in urls) && Saved()
      ensures !ok ==> urls == old(urls) && file == old(file)
    {
      hide Less;
      now := false;
      if !ValidUrl(url) {
        return false, now;
      }
      ToggleSorted(urls, url);
      MemberAtPlace(urls, url);
      ToggleMembers(urls, url, url);
      hide ValidUrl, Fits, Encode;
      var index := LowerBound(url);
      if index < |urls| && urls[index] == url {
        ok := Persist(urls[..index] + urls[index + 1..], written);
        if ok {
          urls := urls[..index] + urls[index + 1..];
        }
        return;
      }
      ok := Persist(urls[..index] + [url] + urls[index..], written);
      if ok {
        urls := urls[..index] + [url] + urls[index..];
        now := true;
      }
    }
  }

  /** Left of a smaller URL all are smaller; right of one that is not, none is. */
  lemma {:induction false} BelowMiddle(urls: seq<Url>, url: Url, middle: nat)
    requires Sorted(urls) && middle < |urls|
    ensures Less(urls[middle], url) ==> forall k :: 0 <= k <= middle ==> Less(urls[k], url)
    ensures !Less(urls[middle], url) ==> forall k :: middle <= k < |urls| ==> !Less(urls[k], url)
  {
    hide Less;
    if Less(urls[middle], url) {
      forall k | 0 <= k < middle ensures Less(urls[k], url) {
        LessTransitive(urls[k], urls[middle], url);
      }
    } else {
      forall k | middle <= k < |urls| ensures !Less(urls[k], url) {
        if k > middle && Less(urls[k], url) {
          LessTransitive(urls[middle], urls[k], url);
        }
      }
    }
  }
}
