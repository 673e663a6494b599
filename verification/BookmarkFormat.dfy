/** The bookmark file of src/bookmarks.c: valid sorted lists, their encoding, and the reader. */
module BookmarkFormat {
  import opened Results

  type Url = seq<byte>

  const MAX_FILE_BYTES: nat := 16 * 1024 * 1024
  /** "TAIBKM1" and a line feed. */
  const MAGIC: seq<byte> := [84, 65, 73, 66, 75, 77, 49, 10]
  const ABOUT_BLANK: Url := [97, 98, 111, 117, 116, 58, 98, 108, 97, 110, 107]
  const ABOUT_BOOKMARKS: Url := [97, 98, 111, 117, 116, 58, 98, 111, 111, 107, 109, 97, 114, 107, 115]

  // ----- Order and lists -----

  /** strcmp(a, b) < 0. */
  predicate Less(a: Url, b: Url)
    decreases |a|
  {
    b != [] && (a == [] || a[0] < b[0] || (a[0] == b[0] && Less(a[1..], b[1..])))
  }

  lemma {:induction false} LessTotal(a: Url, b: Url)
    ensures Less(a, b) || Less(b, a) || a == b
    ensures !(Less(a, b) && Less(b, a)) && !Less(a, a)
    decreases |a|
  {
    if a != [] {
      LessTotal(a[1..], a[1..]);
      if b != [] {
        LessTotal(a[1..], b[1..]);
        if a[0] == b[0] && a[1..] == b[1..] {
          assert a == [a[0]] + a[1..] && b == [b[0]] + b[1..];
        }
      }
    }
  }

  lemma {:induction false} LessTransitive(a: Url, b: Url, c: Url)
    requires Less(a, b) && Less(b, c)
    ensures Less(a, c)
    decreases |a|
  {
    if a != [] && a[0] == b[0] == c[0] {
      LessTransitive(a[1..], b[1..], c[1..]);
    }
  }

  predicate ValidUrl(url: Url) {
    url != [] && 0 !in url && url != ABOUT_BLANK && url != ABOUT_BOOKMARKS
  }

  predicate Sorted(urls: seq<Url>) {
    forall j, k :: 0 <= j < k < |urls| ==> Less(urls[j], urls[k])
  }

  predicate ValidList(urls: seq<Url>) {
    Sorted(urls) && forall k :: 0 <= k < |urls| ==> ValidUrl(urls[k])
  }

  // ----- Bytes -----

  function U32(n: nat): (r: seq<byte>)
    requires n < 0x1_0000_0000
    ensures |r| == 4
  {
    [n % 0x100, n / 0x100 % 0x100, n / 0x1_0000 % 0x100, n / 0x100_0000]
  }

  function ReadU32(bytes: seq<byte>): nat
    requires |bytes| == 4
  {
    bytes[0] as int + bytes[1] as int * 0x100 + bytes[2] as int * 0x1_0000 + bytes[3] as int * 0x100_0000
  }

  /** The digits of a number to the base 256. */
  lemma {:induction false} Digits(a: nat, b: nat, c: nat, d: nat)
    requires a < 0x100 && b < 0x100 && c < 0x100 && d < 0x100
    ensures var n := a + 0x100 * b + 0x1_0000 * c + 0x100_0000 * d;
      && n < 0x1_0000_0000 && n % 0x100 == a && n / 0x100 % 0x100 == b && n / 0x1_0000 % 0x100 == c && n / 0x100_0000 == d
  {
    var n := a + 0x100 * b + 0x1_0000 * c + 0x100_0000 * d;
    assert n / 0x100 == b + 0x100 * c + 0x1_0000 * d;
    assert n / 0x1_0000 == c + 0x100 * d;
  }

  lemma {:induction false} U32Is(a: nat, b: nat, c: nat, d: nat)
    requires a < 0x100 && b < 0x100 && c < 0x100 && d < 0x100
    ensures var n := a + 0x100 * b + 0x1_0000 * c + 0x100_0000 * d;
      && n < 0x1_0000_0000 && |U32(n)| == 4
      && U32(n)[0] as int == a && U32(n)[1] as int == b && U32(n)[2] as int == c && U32(n)[3] as int == d
  {
    Digits(a, b, c, d);
  }

  lemma {:induction false} HasDigits(n: nat) returns (a: nat, b: nat, c: nat, d: nat)
    requires n < 0x1_0000_0000
    ensures a < 0x100 && b < 0x100 && c < 0x100 && d < 0x100 && n == a + 0x100 * b + 0x1_0000 * c + 0x100_0000 * d
  {
    var p, q := n / 0x100, n / 0x100 / 0x100;
    a, b, c, d := n % 0x100, p % 0x100, q % 0x100, q / 0x100;
  }

  lemma {:induction false} U32Read(n: nat)
    requires n < 0x1_0000_0000
    ensures ReadU32(U32(n)) == n
  {
    var a, b, c, d := HasDigits(n);
    U32Is(a, b, c, d);
    hide U32;
  }

  lemma {:induction false} ReadU32Write(bytes: seq<byte>)
    requires |bytes| == 4
    ensures ReadU32(bytes) < 0x1_0000_0000 && U32(ReadU32(bytes)) == bytes
  {
    U32Is(bytes[0] as int, bytes[1] as int, bytes[2] as int, bytes[3] as int);
    hide U32;
  }

  function Items(urls: seq<Url>): (r: seq<byte>)
    requires forall k :: 0 <= k < |urls| ==> |urls[k]| < 0x1_0000_0000
    ensures |r| == Size(urls)
    decreases |urls|
  {
    if urls == [] then []
    else
      var last := urls[|urls| - 1];
      Items(urls[..|urls| - 1]) + (U32(|last|) + last)
  }

  function Size(urls: seq<Url>): nat
    decreases |urls|
  {
    if urls == [] then 0 else Size(urls[..|urls| - 1]) + 4 + |urls[|urls| - 1]|
  }

  /** The file of a list that fits. */
  function Encode(urls: seq<Url>): (r: seq<byte>)
    requires Fits(urls)
    ensures |r| == 12 + Size(urls) <= MAX_FILE_BYTES
  {
    SizeBounds(urls);
    MAGIC + U32(|urls|) + Items(urls)
  }

  predicate Fits(urls: seq<Url>) {
    12 + Size(urls) <= MAX_FILE_BYTES
  }

  lemma {:induction false} SizeBounds(urls: seq<Url>)
    ensures 4 * |urls| <= Size(urls)
    ensures forall k :: 0 <= k < |urls| ==> |urls[k]| <= Size(urls)
    decreases |urls|
  {
    if urls != [] {
      SizeBounds(urls[..|urls| - 1]);
    }
  }

  /** A list that can be stored. */
  predicate Storable(urls: seq<Url>) {
    ValidList(urls) && Fits(urls)
  }

  lemma {:induction false} SizeSplit(urls: seq<Url>, i: nat)
    requires i < |urls|
    ensures Size(urls[..i + 1]) == Size(urls[..i]) + 4 + |urls[i]| <= Size(urls)
    decreases |urls|
  {
    assert urls[..i + 1][..i] == urls[..i];
    if i + 1 < |urls| {
      var front := urls[..|urls| - 1];
      SizeSplit(front, i);
      assert front[..i + 1] == urls[..i + 1] && front[..i] == urls[..i];
    } else {
      assert urls[..i + 1] == urls;
    }
  }

  lemma {:induction false} Slices(a: seq<byte>, b: seq<byte>, c: seq<byte>)
    ensures var all := a + (b + c);
      && all[|a|..|a| + |b|] == b && all[|a| + |b|..|a| + |b| + |c|] == c
      && forall i, j :: 0 <= i <= j <= |a| ==> all[i..j] == a[i..j]
  {
  }

  /** Where the i-th item starts, and what stands there. */
  lemma {:induction false} ItemsLast(urls: seq<Url>)
    requires urls != [] && forall k :: 0 <= k < |urls| ==> |urls[k]| < 0x1_0000_0000
    ensures var front, last := urls[..|urls| - 1], urls[|urls| - 1];
      Items(urls) == Items(front) + (U32(|last|) + last) && |Items(front)| == Size(front)
  {
    hide U32;
  }

  lemma {:induction false} ItemAt(urls: seq<Url>, i: nat)
    requires i < |urls| && forall k :: 0 <= k < |urls| ==> |urls[k]| < 0x1_0000_0000
    ensures var at := Size(urls[..i]);
      && at + 4 + |urls[i]| <= |Items(urls)|
      && Items(urls)[at..at + 4] == U32(|urls[i]|)
      && Items(urls)[at + 4..at + 4 + |urls[i]|] == urls[i]
    decreases |urls|
  {
    hide U32, Items, Size;
    var n := |urls| - 1;
    var front, last := urls[..n], urls[n];
    ItemsLast(urls);
    SizeSplit(urls, i);
    Slices(Items(front), U32(|last|), last);
    if i < n {
      ItemAt(front, i);
      assert front[..i] == urls[..i];
    }
  }

  lemma {:induction false} SizeMin(urls: seq<Url>)
    requires forall k :: 0 <= k < |urls| ==> urls[k] != []
    ensures 5 * |urls| <= Size(urls)
    decreases |urls|
  {
    if urls != [] {
      SizeMin(urls[..|urls| - 1]);
    }
  }

  /** What the reader finds at the start of the file of a list. */
  lemma {:induction false} HeaderOf(bytes: seq<byte>, urls: seq<Url>)
    requires Storable(urls) && bytes == Encode(urls)
    ensures 12 <= |bytes| <= MAX_FILE_BYTES && bytes[..8] == MAGIC
    ensures ReadU32(bytes[8..12]) == |urls| <= (|bytes| - 12) / 5
    ensures |bytes| == 12 + Size(urls)
  {
    SizeBounds(urls);
    SizeMin(urls);
    U32Read(|urls|);
    assert bytes[8..12] == U32(|urls|);
  }

  /** What the reader finds at its i-th item. */
  lemma {:induction false} Shifted(a: seq<byte>, b: seq<byte>, from: nat, to: nat)
    requires from <= to <= |b|
    ensures (a + b)[|a| + from..|a| + to] == b[from..to]
  {
  }

  lemma {:induction false} EncodeSplit(urls: seq<Url>) returns (head: seq<byte>)
    requires Storable(urls)
    ensures |head| == 12 && forall k :: 0 <= k < |urls| ==> |urls[k]| < 0x1_0000_0000
    ensures Encode(urls) == head + Items(urls)
  {
    SizeBounds(urls);
    head := MAGIC + U32(|urls|);
    hide U32, Items, Size;
  }

  lemma {:induction false} ItemOf(bytes: seq<byte>, urls: seq<Url>, i: nat)
    requires Storable(urls) && bytes == Encode(urls) && i < |urls|
    ensures var at := 12 + Size(urls[..i]);
      && at + 4 + |urls[i]| <= |bytes| && ReadU32(bytes[at..at + 4]) == |urls[i]|
      && bytes[at + 4..at + 4 + |urls[i]|] == urls[i] && Size(urls[..i + 1]) == Size(urls[..i]) + 4 + |urls[i]|
  {
    var head := EncodeSplit(urls);
    hide U32, ReadU32, Items, Encode, Storable, Size;
    SizeSplit(urls, i);
    ItemAt(urls, i);
    var at, n := Size(urls[..i]), |urls[i]|;
    assert bytes == head + Items(urls) && 12 + at + 4 + n <= |bytes|;
    assert bytes[12 + at..12 + at + 4] == U32(n) by {
      Shifted(head, Items(urls), at, at + 4);
    }
    assert bytes[12 + at + 4..12 + at + 4 + n] == urls[i] by {
      Shifted(head, Items(urls), at + 4, at + 4 + n);
    }
    U32Read(n);
  }

  // ----- Reading -----

  /** A list this file might hold agrees with what has been read. */
  ghost predicate Agrees(bytes: seq<byte>, read: seq<Url>, position: nat) {
    forall urls :: Storable(urls) && bytes == Encode(urls) ==>
      |read| <= |urls| && urls[..|read|] == read && position == 12 + Size(read)
  }

  lemma {:induction false} NextAgrees(bytes: seq<byte>, read: seq<Url>, position: nat, count: nat, urls: seq<Url>)
    requires Agrees(bytes, read, position) && |read| < count && 12 <= |bytes| && ReadU32(bytes[8..12]) == count
    requires Storable(urls) && bytes == Encode(urls)
    ensures |urls| == count && position + 4 <= |bytes|
    ensures var length := ReadU32(bytes[position..position + 4]);
      && length == |urls[|read|]| <= |bytes| - position - 4
      && bytes[position + 4..position + 4 + length] == urls[|read|]
      && urls[..|read| + 1] == read + [urls[|read|]]
      && ValidUrl(urls[|read|])
      && (read != [] ==> Less(read[|read| - 1], urls[|read|]))
  {
    hide Encode, ReadU32, Less, Fits, Size, ValidUrl;
    HeaderOf(bytes, urls);
    assert urls[..|read|] == read && position == 12 + Size(read) && |read| < |urls|;
    hide Agrees, Storable;
    ListAt(urls, read);
    ItemOf(bytes, urls, |read|);
  }

  lemma {:induction false} ListAt(urls: seq<Url>, read: seq<Url>)
    requires ValidList(urls) && |read| < |urls| && urls[..|read|] == read
    ensures urls[..|read| + 1] == read + [urls[|read|]] && ValidUrl(urls[|read|])
    ensures read != [] ==> Less(read[|read| - 1], urls[|read|])
  {
    hide Less, ValidUrl;
    assert read != [] ==> read[|read| - 1] == urls[|read| - 1];
  }

  lemma {:induction false} SortedAppend(urls: seq<Url>, url: Url)
    requires ValidList(urls) && ValidUrl(url) && (urls != [] ==> Less(urls[|urls| - 1], url))
    ensures ValidList(urls + [url])
  {
    forall j | 0 <= j < |urls| ensures Less(urls[j], url) {
      if j < |urls| - 1 {
        LessTransitive(urls[j], urls[|urls| - 1], url);
      }
    }
  }

  /** What has been read is what the bytes so far say. */
  ghost predicate ReadSoFar(bytes: seq<byte>, read: seq<Url>, position: nat) {
    && position == 12 + Size(read) <= |bytes| <= MAX_FILE_BYTES
    && ReadItems(read, bytes[12..position])
  }

  ghost predicate ReadItems(read: seq<Url>, items: seq<byte>) {
    (forall k :: 0 <= k < |read| ==> |read[k]| < 0x1_0000_0000) && Items(read) == items
  }

  lemma {:induction false} ReadNext(bytes: seq<byte>, read: seq<Url>, position: nat, url: Url)
    requires ReadSoFar(bytes, read, position)
    requires position + 4 + |url| <= |bytes|
    requires ReadU32(bytes[position..position + 4]) == |url|
    requires bytes[position + 4..position + 4 + |url|] == url
    ensures ReadSoFar(bytes, read + [url], position + 4 + |url|)
    ensures position + 4 + |url| == 12 + Size(read + [url])
  {
    ReadU32Write(bytes[position..position + 4]);
    assert (read + [url])[..|read|] == read;
    hide U32, ReadU32;
    Consecutive(bytes, 12, position, position + 4, position + 4 + |url|);
  }

  lemma {:induction false} Consecutive(bytes: seq<byte>, a: nat, b: nat, c: nat, d: nat)
    requires a <= b <= c <= d <= |bytes|
    ensures bytes[a..d] == bytes[a..b] + (bytes[b..c] + bytes[c..d])
  {
  }

  lemma {:induction false} ReadAll(bytes: seq<byte>, read: seq<Url>)
    requires ReadSoFar(bytes, read, |bytes|) && ValidList(read)
    requires |bytes| >= 12 && bytes[..8] == MAGIC && ReadU32(bytes[8..12]) == |read|
    ensures Storable(read) && bytes == Encode(read)
  {
    ReadU32Write(bytes[8..12]);
    hide U32, ReadU32, ValidList;
    assert bytes == bytes[..8] + bytes[8..12] + bytes[12..|bytes|];
  }

  lemma {:induction false} ReadDone(bytes: seq<byte>, read: seq<Url>, position: nat, urls: seq<Url>)
    requires Agrees(bytes, read, position) && Storable(urls) && bytes == Encode(urls)
    requires |bytes| >= 12 && ReadU32(bytes[8..12]) == |read|
    ensures urls == read && position == |bytes|
  {
    hide Encode, ReadU32;
    HeaderOf(bytes, urls);
    assert urls[..|read|] == urls;
  }

  /** load_file: it accepts exactly the files of storable lists, and reads each back. */
  method LoadFile(bytes: seq<byte>) returns (r: Option<seq<Url>>)
    ensures r.Some? ==> Storable(r.value) && bytes == Encode(r.value)
    ensures r.None? ==> forall urls :: Storable(urls) ==> bytes != Encode(urls)
  {
    hide Encode, ReadU32, Less, Fits, Size, Items, ValidUrl, Agrees, ReadSoFar;
    if |bytes| < 12 || |bytes| > MAX_FILE_BYTES || bytes[..8] != MAGIC {
      NoHeader(bytes);
      return None;
    }
    var position: nat := 12;
    var count := ReadU32(bytes[8..12]);
    if count > (|bytes| - position) / 5 {
      NoHeader(bytes);
      return None;
    }
    var read: seq<Url> := [];
    StartReading(bytes);
    var i := 0;
    while i < count
      invariant i == |read| <= count && ValidList(read) && position == 12 + Size(read) <= |bytes|
      invariant ReadSoFar(bytes, read, position) && Agrees(bytes, read, position)
    {
      if |bytes| - position < 4 {
        Refused(bytes, read, position, count);
        break;
      }
      var length := ReadU32(bytes[position..position + 4]);
      if length == 0 || length > |bytes| - position - 4 || 0 in bytes[position + 4..position + 4 + length] {
        Refused(bytes, read, position, count);
        break;
      }
      var url := bytes[position + 4..position + 4 + length];
      if !ValidUrl(url) || (read != [] && !Less(read[|read| - 1], url)) {
        Refused(bytes, read, position, count);
        break;
      }
      SortedAppend(read, url);
      ReadNext(bytes, read, position, url);
      AgreesNext(bytes, read, position, count, url);
      read := read + [url];
      position := position + 4 + length;
      i := i + 1;
    }
    if |read| != count || position != |bytes| {
      if |read| == count {
        Leftover(bytes, read, position);
      }
      return None;
    }
    ReadAll(bytes, read);
    r := Some(read);
  }

  lemma {:induction false} NoHeader(bytes: seq<byte>)
    requires |bytes| < 12 || |bytes| > MAX_FILE_BYTES || bytes[..8] != MAGIC ||
      ReadU32(bytes[8..12]) > (|bytes| - 12) / 5
    ensures forall urls :: Storable(urls) ==> bytes != Encode(urls)
  {
    hide Encode, ReadU32;
    forall urls | Storable(urls)
      ensures bytes != Encode(urls)
    {
      HeaderOf(Encode(urls), urls);
    }
  }

  lemma {:induction false} StartReading(bytes: seq<byte>)
    requires 12 <= |bytes| <= MAX_FILE_BYTES
    ensures ReadSoFar(bytes, [], 12) && Agrees(bytes, [], 12) && ValidList([]) && Size([]) == 0
  {
    assert bytes[12..12] == [];
  }

  ghost predicate Refuses(bytes: seq<byte>) {
    forall urls :: Storable(urls) ==> bytes != Encode(urls)
  }

  /** The reader stops early only when there is no such list. */
  lemma {:induction false} Refused(bytes: seq<byte>, read: seq<Url>, position: nat, count: nat)
    requires Agrees(bytes, read, position) && |read| < count && 12 <= |bytes| && ReadU32(bytes[8..12]) == count
    requires position <= |bytes|
    requires |bytes| - position < 4 ||
      var length := ReadU32(bytes[position..position + 4]);
      length == 0 || length > |bytes| - position - 4 ||
      var url := bytes[position + 4..position + 4 + length];
      0 in url || !ValidUrl(url) || (read != [] && !Less(read[|read| - 1], url))
    ensures Refuses(bytes)
  {
    hide Agrees, Encode, ReadU32, Less, Fits;
    forall urls | Storable(urls)
      ensures bytes != Encode(urls)
    {
      if bytes == Encode(urls) {
        NextAgrees(bytes, read, position, count, urls);
        assert false;
      }
    }
  }

  lemma {:induction false} AgreesNext(bytes: seq<byte>, read: seq<Url>, position: nat, count: nat, url: Url)
    requires Agrees(bytes, read, position) && |read| < count && 12 <= |bytes| && ReadU32(bytes[8..12]) == count
    requires position + 4 + |url| <= |bytes| && ReadU32(bytes[position..position + 4]) == |url|
    requires url == bytes[position + 4..position + 4 + |url|] && position == 12 + Size(read)
    ensures Agrees(bytes, read + [url], position + 4 + |url|)
  {
    hide Encode, ReadU32, Less, Fits;
    forall urls | Storable(urls) && bytes == Encode(urls)
      ensures |read| + 1 <= |urls| && urls[..|read| + 1] == read + [url]
      ensures position + 4 + |url| == 12 + Size(read + [url])
    {
      NextAgrees(bytes, read, position, count, urls);
      assert (read + [url])[..|read|] == read;
    }
  }

  lemma {:induction false} Leftover(bytes: seq<byte>, read: seq<Url>, position: nat)
    requires Agrees(bytes, read, position) && |bytes| >= 12 && ReadU32(bytes[8..12]) == |read| && position != |bytes|
    ensures Refuses(bytes)
  {
    hide Agrees, Encode, ReadU32;
    forall urls | Storable(urls)
      ensures bytes != Encode(urls)
    {
      if bytes == Encode(urls) {
        ReadDone(bytes, read, position, urls);
        assert false;
      }
    }
  }

  /** Different lists have different files. */
  lemma {:induction false} EncodeOnce(a: seq<Url>, b: seq<Url>)
    requires Storable(a) && Storable(b) && Encode(a) == Encode(b)
    ensures a == b
  {
    hide Encode, Fits, ValidList;
    HeaderOf(Encode(a), a);
    HeaderOf(Encode(b), b);
    EncodeOnceTo(a, b, |a|);
    assert a[..|a|] == a && b[..|a|] == b;
  }

  lemma {:induction false} EncodeOnceTo(a: seq<Url>, b: seq<Url>, i: nat)
    requires Storable(a) && Storable(b) && Encode(a) == Encode(b) && i <= |a| == |b|
    ensures a[..i] == b[..i]
    decreases i
  {
    hide Encode, Fits, ValidList, ReadU32;
    if i > 0 {
      EncodeOnceTo(a, b, i - 1);
      ItemOf(Encode(a), a, i - 1);
      ItemOf(Encode(b), b, i - 1);
      assert a[..i] == a[..i - 1] + [a[i - 1]] && b[..i] == b[..i - 1] + [b[i - 1]];
    }
  }
}
