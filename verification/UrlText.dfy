/** Searching text, for src/url.c.

    strchr, strstr and strncmp on sequences of characters: the first position of a character or of a
    word, or that there is none. The scanning loops are proved to find it.
*/
module UrlText {
  import opened Results

  /** The first position of c, or the length of s. */
  function IndexOf(s: string, c: char): (i: nat)
    ensures i <= |s| && (i < |s| ==> s[i] == c)
    ensures forall k :: 0 <= k < i ==> s[k] != c
  {
    if s == "" || s[0] == c then 0 else 1 + IndexOf(s[1..], c)
  }

  predicate HasPrefix(s: string, prefix: string) {
    |prefix| <= |s| && s[..|prefix|] == prefix
  }

  /** The first position of word in s, if any. */
  function Find(s: string, word: string): (r: Option<nat>)
    ensures r.Some? ==> r.value + |word| <= |s| && HasPrefix(s[r.value..], word)
    ensures r.Some? ==> forall k :: 0 <= k < r.value ==> !HasPrefix(s[k..], word)
    ensures r.None? ==> forall k :: 0 <= k <= |s| ==> !HasPrefix(s[k..], word)
  {
    if HasPrefix(s, word) then assert s[0..] == s; Some(0)
    else if s == "" then None
    else
      var r := Find(s[1..], word);
      assert forall k :: 0 < k <= |s| ==> s[1..][k - 1..] == s[k..];
      assert s[0..] == s;
      if r.Some? then Some(r.value + 1) else None
  }

  lemma {:induction false} IndexIs(s: string, c: char, i: nat)
    requires i <= |s| && (i < |s| ==> s[i] == c)
    requires forall k :: 0 <= k < i ==> s[k] != c
    ensures IndexOf(s, c) == i
  {
  }

  lemma {:induction false} FindIs(s: string, word: string, i: nat)
    requires i + |word| <= |s| && HasPrefix(s[i..], word)
    requires forall k :: 0 <= k < i ==> !HasPrefix(s[k..], word)
    ensures Find(s, word) == Some(i)
  {
  }

  method Strchr(s: string, c: char) returns (i: nat)
    ensures i == IndexOf(s, c)
  {
    i := 0;
    while i < |s| && s[i] != c
      invariant i <= |s| && forall k :: 0 <= k < i ==> s[k] != c
    {
      i := i + 1;
    }
    IndexIs(s, c, i);
  }

  method Strstr(s: string, word: string) returns (r: Option<nat>)
    ensures r == Find(s, word)
  {
    var i := 0;
    while i + |word| <= |s|
      invariant i <= |s| + 1 && forall k :: 0 <= k < i && k <= |s| ==> !HasPrefix(s[k..], word)
    {
      if s[i..i + |word|] == word {
        assert s[i..][..|word|] == s[i..i + |word|];
        FindIs(s, word, i);
        return Some(i);
      }
      assert s[i..][..|word|] == s[i..i + |word|];
      i := i + 1;
    }
    assert forall k :: 0 <= k <= |s| ==> !HasPrefix(s[k..], word);
    r := None;
  }
}
