/** parse and attributes of src/dom.c: from characters to tags and texts. */
module HtmlScan {
  import opened HtmlMachine
  import opened DomSerialize
  import S = Selectors

  /** A text, or what stands between the angle brackets of a tag. */
  datatype Raw = RawText(text: string) | RawTag(text: string)

  const NONE: char := '\0'

  predicate IsQuote(c: char) {
    c == '\'' || c == '"'
  }

  /** The open quote after c. */
  function Quoted(quote: char, c: char): char {
    if !IsQuote(c) then quote
    else if quote == c then NONE
    else if quote == NONE then c
    else quote
  }

  function Word(s: string): nat
    ensures Word(s) <= |s|
    decreases |s|
  {
    if s == "" || S.Space(s[0]) then 0 else 1 + Word(s[1..])
  }

  function Blank(s: string): nat
    ensures Blank(s) <= |s|
    decreases |s|
  {
    if s == "" || !S.Space(s[0]) then 0 else 1 + Blank(s[1..])
  }

  /** What follows the end of a comment. */
  function AfterComment(s: string): (r: string)
    ensures |r| <= |s|
    decreases |s|
  {
    if |s| < 3 then ""
    else if s[..3] == "-->" then s[3..]
    else AfterComment(s[1..])
  }

  function Lower(c: char): char {
    if 'A' <= c <= 'Z' then (c as int + 32) as char else c
  }

  predicate EndsScript(s: string) {
    |s| >= 9 && (forall i :: 0 <= i < 9 ==> Lower(s[i]) == "</script>"[i])
  }

  /** The length of a script, up to its end tag. */
  function ScriptLength(s: string): nat
    ensures ScriptLength(s) <= |s|
    decreases |s|
  {
    if s == "" || EndsScript(s) then 0 else 1 + ScriptLength(s[1..])
  }

  predicate OpensScript(fold: string -> string, raw: string) {
    var word := raw[Blank(raw)..];
    fold(word[..Word(word)]) == "script"
  }

  function Flushed(b: string): seq<Raw> {
    if b == "" then [] else [RawText(b)]
  }

  /** The texts and tags of s, from inside a tag or not, with the open quote and the characters gathered
      so far. */
  function Scan(fold: string -> string, s: string, inTag: bool, quote: char, b: string): seq<Raw>
    decreases |s|
  {
    if s == "" then if inTag then [] else Flushed(b)
    else if !inTag then
      if |s| >= 4 && s[..4] == "<!--" then Flushed(b) + Scan(fold, AfterComment(s[4..]), false, NONE, "")
      else if s[0] == '<' then Flushed(b) + Scan(fold, s[1..], true, NONE, "")
      else Scan(fold, s[1..], false, NONE, b + [s[0]])
    else if quote != NONE || s[0] != '>' then Scan(fold, s[1..], true, Quoted(quote, s[0]), b + [s[0]])
    else if OpensScript(fold, b) then
      var n := ScriptLength(s[1..]);
      [RawTag(b)] + Flushed(s[1..][..n]) + Scan(fold, s[1..][n..], false, NONE, "")
    else [RawTag(b)] + Scan(fold, s[1..], false, NONE, "")
  }

  // ----- Inside a tag -----

  /** The length of an attribute: up to a space outside quotes. */
  function ItemLength(s: string, quote: char): nat
    ensures ItemLength(s, quote) <= |s|
    ensures s != "" && !S.Space(s[0]) ==> ItemLength(s, quote) > 0
    decreases |s|
  {
    if s == "" then 0
    else if Quoted(quote, s[0]) == NONE && S.Space(s[0]) then 0
    else 1 + ItemLength(s[1..], Quoted(quote, s[0]))
  }

  function KeyLength(s: string): nat
    ensures KeyLength(s) <= |s|
    decreases |s|
  {
    if s == "" || s[0] == '=' then 0 else 1 + KeyLength(s[1..])
  }

  /** The key and the value of an attribute; quotes around the whole value are dropped. */
  function Pair(fold: string -> string, item: string): (string, string) {
    var k := KeyLength(item);
    var value := if k < |item| then item[k + 1..] else "";
    (fold(item[..k]),
     if |value| >= 2 && IsQuote(value[0]) && value[0] == value[|value| - 1] then value[1..|value| - 1] else value)
  }

  /** A later value of a key takes the place of an earlier one. */
  function Put(list: Attributes, key: string, value: string): Attributes
    decreases |list|
  {
    if list == [] then [(key, value)]
    else if list[0].0 == key then [(key, value)] + list[1..]
    else [list[0]] + Put(list[1..], key, value)
  }

  function Pairs(fold: string -> string, s: string, list: Attributes): Attributes
    decreases |s|
  {
    var rest := s[Blank(s)..];
    BlankEnds(s);
    if rest == "" then list
    else
      var n := ItemLength(rest, NONE);
      var (key, value) := Pair(fold, rest[..n]);
      Pairs(fold, rest[n..], Put(list, key, value))
  }

  lemma {:induction false} BlankEnds(s: string)
    ensures Blank(s) < |s| ==> !S.Space(s[Blank(s)])
    decreases |s|
  {
    if s != "" && S.Space(s[0]) {
      BlankEnds(s[1..]);
    }
  }

  function ShortName(s: string): Name {
    if s == "p" then P else if s == "b" then Format(FmtB) else if s == "i" then Format(FmtI)
    else if s == "u" then Format(FmtU) else if s == "li" then Li else if s == "ul" then Ul else if s == "ol" then Ol
    else if s == "br" then Void(Br) else if s == "hr" then Void(Hr)
    else Other(s)
  }

  function ThreeName(s: string): Name {
    if s == "big" then Format(FmtBig) else if s == "col" then Void(Col) else if s == "img" then Void(Img)
    else if s == "wbr" then Void(Wbr)
    else Other(s)
  }

  function FourName(s: string): Name {
    if s == "html" then Html else if s == "head" then Head else if s == "body" then Body
    else if s == "base" then HeadVoid(BaseTag) else if s == "link" then HeadVoid(LinkTag)
    else if s == "meta" then HeadVoid(MetaTag) else if s == "area" then Void(Area)
    else Other(s)
  }

  function FiveName(s: string): Name {
    if s == "small" then Format(FmtSmall) else if s == "title" then HeadContent(Title)
    else if s == "style" then HeadContent(Style) else if s == "embed" then Void(Embed)
    else if s == "input" then Void(Input) else if s == "param" then Void(Param) else if s == "track" then Void(Track)
    else Other(s)
  }

  function LongName(s: string): Name {
    if s == "script" then HeadContent(Script) else if s == "source" then Void(Source)
    else if s == "bgsound" then HeadContent(Bgsound) else if s == "basefont" then HeadContent(Basefont)
    else if s == "noscript" then HeadContent(Noscript)
    else Other(s)
  }

  /** The names in the lists of the parser; any other is Other. */
  function NameOf(s: string): Name {
    if |s| <= 2 then ShortName(s)
    else if |s| == 3 then ThreeName(s)
    else if |s| == 4 then FourName(s)
    else if |s| == 5 then FiveName(s)
    else LongName(s)
  }

  function TagOf(fold: string -> string, raw: string): Tag {
    var name := fold(raw[..Word(raw)]);
    if name != "" && name[0] == '!' then Declaration
    else if name != "" && name[0] == '/' then End(NameOf(name[1..]))
    else Start(NameOf(name), Pairs(fold, raw[Word(raw)..], []))
  }

  function TokenOf(fold: string -> string, raw: Raw): Token {
    match raw
    case RawText(text) => TextToken(Unescape(text))
    case RawTag(text) => TagToken(TagOf(fold, text))
  }

  function TokensOf(fold: string -> string, raws: seq<Raw>): (r: seq<Token>)
    ensures |r| == |raws|
  {
    seq(|raws|, i requires 0 <= i < |raws| => TokenOf(fold, raws[i]))
  }

  /** The tokens of markup. */
  function Read(fold: string -> string, s: string): seq<Token> {
    TokensOf(fold, Scan(fold, s, false, NONE, ""))
  }

  /** What follows a tag. */
  function AfterTag(fold: string -> string, raw: string, rest: string): seq<Raw> {
    if OpensScript(fold, raw) then
      var n := ScriptLength(rest);
      Flushed(rest[..n]) + Scan(fold, rest[n..], false, NONE, "")
    else Scan(fold, rest, false, NONE, "")
  }

  // ----- The loops -----

  lemma {:induction false} From(s: string, i: nat)
    requires i < |s|
    ensures s[i..] != "" && s[i..][0] == s[i] && s[i..][1..] == s[i + 1..]
  {
  }

  /** Past the end of a comment, or of the input. */
  method CommentEnd(s: string, start: nat) returns (end: nat)
    requires start <= |s|
    ensures start <= end <= |s| && s[end..] == AfterComment(s[start..])
  {
    end := start;
    while end + 3 <= |s|
      invariant start <= end <= |s| && AfterComment(s[end..]) == AfterComment(s[start..])
    {
      assert s[end..][..3] == s[end..end + 3];
      if s[end..end + 3] == "-->" {
        end := end + 3;
        return;
      }
      From(s, end);
      end := end + 1;
    }
    end := |s|;
  }

  /** script_end: where the end tag of a script is, or the end of the input. */
  method ScriptEnd(s: string, start: nat) returns (end: nat)
    requires start <= |s|
    ensures end == start + ScriptLength(s[start..]) && end <= |s|
  {
    hide EndsScript;
    end := start;
    while end < |s| && !EndsScript(s[end..])
      invariant start <= end <= |s| && end + ScriptLength(s[end..]) == start + ScriptLength(s[start..])
    {
      From(s, end);
      end := end + 1;
    }
  }

  /** What the rest of the input still gives at i. */
  function Rest(fold: string -> string, s: string, i: nat, inTag: bool, quote: char, b: string): seq<Raw>
    requires i <= |s|
  {
    Scan(fold, s[i..], inTag, quote, b)
  }

  lemma {:induction false} RestEnds(fold: string -> string, s: string, i: nat, inTag: bool, quote: char, b: string)
    requires i == |s|
    ensures Rest(fold, s, i, inTag, quote, b) == if inTag then [] else Flushed(b)
  {
  }

  /** One more character outside of a tag. */
  lemma {:induction false} RestText(fold: string -> string, s: string, i: nat, b: string)
    requires i < |s| && !(i + 4 <= |s| && s[i..i + 4] == "<!--")
    ensures Rest(fold, s, i, false, NONE, b) ==
      if s[i] == '<' then Flushed(b) + Rest(fold, s, i + 1, true, NONE, "")
      else Rest(fold, s, i + 1, false, NONE, b + [s[i]])
  {
    From(s, i);
    hide Flushed, OpensScript, ScriptLength, AfterComment;
    if i + 4 <= |s| {
      assert s[i..][..4] == s[i..i + 4];
    }
  }

  lemma {:induction false} RestComment(fold: string -> string, s: string, i: nat, end: nat, b: string)
    requires i + 4 <= |s| && s[i..i + 4] == "<!--" && end <= |s| && s[end..] == AfterComment(s[i + 4..])
    ensures Rest(fold, s, i, false, NONE, b) == Flushed(b) + Rest(fold, s, end, false, NONE, "")
  {
    hide Flushed, OpensScript, ScriptLength, AfterComment;
    assert s[i..][..4] == s[i..i + 4] && s[i..][4..] == s[i + 4..];
  }

  /** One more character inside of a tag. */
  lemma {:induction false} RestTag(fold: string -> string, s: string, i: nat, quote: char, b: string)
    requires i < |s|
    ensures Rest(fold, s, i, true, quote, b) ==
      if quote != NONE || s[i] != '>' then Rest(fold, s, i + 1, true, Quoted(quote, s[i]), b + [s[i]])
      else [RawTag(b)] + AfterTag(fold, b, s[i + 1..])
  {
    From(s, i);
    hide Flushed, OpensScript, ScriptLength, AfterComment;
    var rest := s[i + 1..];
    var n := ScriptLength(rest);
    assert [RawTag(b)] + Flushed(rest[..n]) + Scan(fold, rest[n..], false, NONE, "") ==
      [RawTag(b)] + (Flushed(rest[..n]) + Scan(fold, rest[n..], false, NONE, ""));
  }

  /** parse: the loop over the characters. */
  method Tokenize(fold: string -> string, s: string) returns (raws: seq<Raw>)
    ensures raws == Scan(fold, s, false, NONE, "")
  {
    hide Scan, Flushed, OpensScript, ScriptLength, AfterComment;
    raws := [];
    var i, inTag, quote, b := 0, false, NONE, "";
    assert s[0..] == s;
    while i < |s|
      invariant i <= |s| && (!inTag ==> quote == NONE)
      invariant raws + Rest(fold, s, i, inTag, quote, b) == Scan(fold, s, false, NONE, "")
      decreases |s| - i
    {
      if !inTag && i + 4 <= |s| && s[i..i + 4] == "<!--" {
        var end := CommentEnd(s, i + 4);
        RestComment(fold, s, i, end, b);
        Assoc(raws, Flushed(b), Rest(fold, s, end, false, NONE, ""));
        raws, b, i := raws + Flushed(b), "", end;
      } else if !inTag {
        RestText(fold, s, i, b);
        if s[i] == '<' {
          Assoc(raws, Flushed(b), Rest(fold, s, i + 1, true, NONE, ""));
          raws, b, inTag := raws + Flushed(b), "", true;
        } else {
          b := b + [s[i]];
        }
        i := i + 1;
      } else if quote != NONE || s[i] != '>' {
        RestTag(fold, s, i, quote, b);
        b, quote := b + [s[i]], Quoted(quote, s[i]);
        i := i + 1;
      } else {
        RestTag(fold, s, i, quote, b);
        var more;
        more, i := TagEnd(fold, s, i + 1, b);
        Assoc(raws, [RawTag(b)] + more, Rest(fold, s, i, false, NONE, ""));
        raws, b, inTag := raws + ([RawTag(b)] + more), "", false;
      }
    }
    RestEnds(fold, s, i, inTag, quote, b);
    if !inTag {
      raws := raws + Flushed(b);
    }
  }

  /** The text of a script right after its tag. */
  method TagEnd(fold: string -> string, s: string, start: nat, raw: string) returns (more: seq<Raw>, i: nat)
    requires start <= |s|
    ensures start <= i <= |s|
    ensures [RawTag(raw)] + AfterTag(fold, raw, s[start..]) == ([RawTag(raw)] + more) + Rest(fold, s, i, false, NONE, "")
  {
    hide Scan, OpensScript, Flushed;
    more, i := [], start;
    if OpensScript(fold, raw) {
      i := ScriptEnd(s, start);
      more := Flushed(s[start..i]);
      assert s[start..][..i - start] == s[start..i] && s[start..][i - start..] == s[i..];
      Assoc([RawTag(raw)], more, Rest(fold, s, i, false, NONE, ""));
    } else {
      assert [RawTag(raw)] + more == [RawTag(raw)];
    }
  }

  method BlankEnd(s: string, start: nat) returns (end: nat)
    requires start <= |s|
    ensures start <= end <= |s| && end == start + Blank(s[start..])
  {
    hide S.Space;
    end := start;
    while end < |s| && S.Space(s[end])
      invariant start <= end <= |s| && end + Blank(s[end..]) == start + Blank(s[start..])
    {
      From(s, end);
      end := end + 1;
    }
    if end < |s| {
      From(s, end);
    }
  }

  method ItemEnd(s: string, start: nat) returns (end: nat)
    requires start <= |s|
    ensures start <= end <= |s| && end == start + ItemLength(s[start..], NONE)
  {
    hide S.Space;
    end := start;
    var quote := NONE;
    while end < |s|
      invariant start <= end <= |s| && end + ItemLength(s[end..], quote) == start + ItemLength(s[start..], NONE)
    {
      From(s, end);
      quote := Quoted(quote, s[end]);
      if quote == NONE && S.Space(s[end]) {
        return;
      }
      end := end + 1;
    }
  }

  method WordEnd(s: string) returns (end: nat)
    ensures end == Word(s)
  {
    hide S.Space;
    end := 0;
    assert s[0..] == s;
    while end < |s| && !S.Space(s[end])
      invariant end <= |s| && end + Word(s[end..]) == Word(s)
    {
      From(s, end);
      end := end + 1;
    }
    if end < |s| {
      From(s, end);
    }
  }

  /** attributes: the name and the attributes of a tag. */
  method ReadAttributes(fold: string -> string, raw: string) returns (name: string, list: Attributes)
    ensures name == fold(raw[..Word(raw)]) && list == Pairs(fold, raw[Word(raw)..], [])
  {
    hide *;
    var i := WordEnd(raw);
    name, list := fold(raw[..i]), [];
    while i < |raw|
      invariant i <= |raw| && Pairs(fold, raw[i..], list) == Pairs(fold, raw[Word(raw)..], [])
      decreases |raw| - i
    {
      var begin := BlankEnd(raw, i);
      if begin == |raw| {
        PairsEnd(fold, raw[i..], list);
        return;
      }
      var end := ItemEnd(raw, begin);
      PairsStep(fold, raw, i, begin, end, list);
      var (key, value) := Pair(fold, raw[begin..end]);
      list := Put(list, key, value);
      i := end;
    }
    PairsEnd(fold, raw[i..], list);
  }

  lemma {:induction false} PairsEnd(fold: string -> string, s: string, list: Attributes)
    requires Blank(s) == |s| || s == ""
    ensures Pairs(fold, s, list) == list
  {
  }

  lemma {:induction false} PairsStep(fold: string -> string, raw: string, i: nat, begin: nat, end: nat,
                                     list: Attributes)
    requires i <= begin < |raw| && begin == i + Blank(raw[i..]) && end == begin + ItemLength(raw[begin..], NONE)
    ensures begin < end <= |raw|
    ensures var (key, value) := Pair(fold, raw[begin..end]);
      Pairs(fold, raw[i..], list) == Pairs(fold, raw[end..], Put(list, key, value))
  {
    hide S.Space, Blank, Pair, Put;
    BlankEnds(raw[i..]);
    assert raw[i..][begin - i..] == raw[begin..];
    From(raw, begin);
    ItemSome(raw[begin..]);
    hide ItemLength;
    assert raw[begin..][..end - begin] == raw[begin..end] && raw[begin..][end - begin..] == raw[end..];
  }

  lemma {:induction false} ItemSome(s: string)
    requires s != "" && !S.Space(s[0])
    ensures ItemLength(s, NONE) > 0
  {
  }

  // ----- Texts and tags read alone -----

  lemma {:induction false} Assoc<T>(a: seq<T>, b: seq<T>, c: seq<T>)
    ensures (a + b) + c == a + (b + c)
  {
  }

  lemma {:induction false} Parted(c: char, s: string)
    ensures ([c] + s)[0] == c && ([c] + s)[1..] == s
  {
  }

  /** Characters that open nothing are gathered. */
  lemma {:induction false} TextScans(fold: string -> string, e: string, rest: string, b: string)
    requires '<' !in e
    ensures Scan(fold, e + rest, false, NONE, b) == Scan(fold, rest, false, NONE, b + e)
    decreases |e|
  {
    if e == "" {
      assert e + rest == rest && b + e == b;
    } else {
      assert (e + rest)[0] == e[0] && (e + rest)[1..] == e[1..] + rest;
      assert [e[0]] + e[1..] == e;
      TextScans(fold, e[1..], rest, b + [e[0]]);
      Assoc(b, [e[0]], e[1..]);
      ScanChar(fold, e + rest, b);
    }
  }

  lemma {:induction false} ScanChar(fold: string -> string, s: string, b: string)
    requires s != "" && s[0] != '<'
    ensures Scan(fold, s, false, NONE, b) == Scan(fold, s[1..], false, NONE, b + [s[0]])
  {
    if |s| >= 4 {
      assert s[..4][0] == s[0];
    }
  }

  /** The open quote after s. */
  function Quoting(quote: char, s: string): char
    decreases |s|
  {
    if s == "" then quote else Quoting(Quoted(quote, s[0]), s[1..])
  }

  lemma {:induction false} QuotingTwo(quote: char, a: string, b: string)
    ensures Quoting(quote, a + b) == Quoting(Quoting(quote, a), b)
    decreases |a|
  {
    if a == "" {
      assert a + b == b;
    } else {
      assert (a + b)[1..] == a[1..] + b;
      QuotingTwo(Quoted(quote, a[0]), a[1..], b);
    }
  }

  lemma {:induction false} QuotingPlain(quote: char, s: string)
    requires '\'' !in s && '"' !in s
    ensures Quoting(quote, s) == quote
    decreases |s|
  {
    if s != "" {
      assert s[0] in s;
      QuotingPlain(quote, s[1..]);
    }
  }

  /** Inside a tag everything up to its end is gathered. */
  lemma {:induction false} TagGathers(fold: string -> string, e: string, rest: string, quote: char, b: string)
    requires '>' !in e
    ensures Scan(fold, e + rest, true, quote, b) == Scan(fold, rest, true, Quoting(quote, e), b + e)
    decreases |e|
  {
    if e == "" {
      assert e + rest == rest && b + e == b;
    } else {
      assert (e + rest)[0] == e[0] && (e + rest)[1..] == e[1..] + rest;
      assert [e[0]] + e[1..] == e;
      TagGathers(fold, e[1..], rest, Quoted(quote, e[0]), b + [e[0]]);
      Assoc(b, [e[0]], e[1..]);
    }
  }

  /** A whole tag is read as what stands between its brackets. */
  lemma {:induction false} TagScans(fold: string -> string, raw: string, rest: string, b: string)
    requires raw != "" && raw[0] != '!' && '>' !in raw && Quoting(NONE, raw) == NONE
    ensures Scan(fold, "<" + (raw + (">" + rest)), false, NONE, b) ==
      Flushed(b) + ([RawTag(raw)] + AfterTag(fold, raw, rest))
  {
    var s := "<" + (raw + (">" + rest));
    Parted('<', raw + (">" + rest));
    if |s| >= 4 {
      assert s[..4][1] == raw[0];
    }
    hide OpensScript, ScriptLength, Quoting, Flushed;
    assert Scan(fold, s, false, NONE, b) == Flushed(b) + Scan(fold, raw + (">" + rest), true, NONE, "");
    TagGathers(fold, raw, ">" + rest, NONE, "");
    assert "" + raw == raw;
    TagEnds(fold, raw, rest);
  }

  lemma {:induction false} TagEnds(fold: string -> string, raw: string, rest: string)
    ensures Scan(fold, ">" + rest, true, NONE, raw) == [RawTag(raw)] + AfterTag(fold, raw, rest)
  {
    Parted('>', rest);
    hide OpensScript, ScriptLength, Flushed;
    var n := ScriptLength(rest);
    assert [RawTag(raw)] + Flushed(rest[..n]) + Scan(fold, rest[n..], false, NONE, "") ==
      [RawTag(raw)] + (Flushed(rest[..n]) + Scan(fold, rest[n..], false, NONE, ""));
  }

  // ----- Written attributes -----

  /** A name with no character that ends it. */
  predicate Simple(s: string) {
    s != "" && forall c :: c in s ==> !S.Space(c) && !IsQuote(c) && c != '>' && c != '='
  }

  /** A key with its value in quotes. */
  function Item(key: string, value: string): string {
    key + ("=\"" + (Escape(value, true) + "\""))
  }

  /** Nothing in s ends an attribute that starts with this open quote. */
  predicate Solid(s: string, quote: char)
    decreases |s|
  {
    s == "" || ((Quoted(quote, s[0]) != NONE || !S.Space(s[0])) && Solid(s[1..], Quoted(quote, s[0])))
  }

  lemma {:induction false} SolidTwo(quote: char, a: string, b: string)
    requires Solid(a, quote) && Solid(b, Quoting(quote, a))
    ensures Solid(a + b, quote)
    decreases |a|
  {
    hide S.Space;
    if a == "" {
      assert a + b == b;
    } else {
      assert (a + b)[1..] == a[1..] + b;
      SolidTwo(Quoted(quote, a[0]), a[1..], b);
    }
  }

  lemma {:induction false} SolidPlain(quote: char, s: string)
    requires forall c :: c in s ==> !IsQuote(c) && (quote != NONE || !S.Space(c))
    ensures Solid(s, quote)
    decreases |s|
  {
    hide S.Space;
    if s != "" {
      assert s[0] in s;
      SolidPlain(quote, s[1..]);
    }
  }

  lemma {:induction false} SolidPasses(s: string, rest: string, quote: char)
    requires Solid(s, quote)
    ensures ItemLength(s + rest, quote) == |s| + ItemLength(rest, Quoting(quote, s))
    decreases |s|
  {
    hide S.Space;
    if s == "" {
      assert s + rest == rest;
    } else {
      assert (s + rest)[1..] == s[1..] + rest;
      SolidPasses(s[1..], rest, Quoted(quote, s[0]));
    }
  }

  /** The value keeps quotes balanced, ends no tag and no attribute. */
  lemma {:induction false} ItemWhole(key: string, value: string)
    requires Simple(key)
    ensures Quoting(NONE, Item(key, value)) == NONE && '>' !in Item(key, value) && Solid(Item(key, value), NONE)
  {
    var v := Escape(value, true);
    EscapeClean(value, true);
    hide Escape, S.Space;
    ItemValue(v);
    QuotingPlain(NONE, key);
    QuotingTwo(NONE, key, "=\"" + (v + "\""));
    SolidPlain(NONE, key);
    SolidTwo(NONE, key, "=\"" + (v + "\""));
  }

  lemma {:induction false} ItemValue(v: string)
    requires '\'' !in v && '"' !in v
    ensures Quoting(NONE, "=\"" + (v + "\"")) == NONE && Solid("=\"" + (v + "\""), NONE)
  {
    assert Quoting('"', "\"") == NONE by {
      assert "\""[1..] == "";
    }
    assert Solid("\"", '"') by {
      assert "\""[1..] == "" && !S.Space('"');
    }
    assert Quoting(NONE, "=\"") == '"' && Solid("=\"", NONE) by {
      assert "=\""[1..] == "\"" && "\""[1..] == "" && !S.Space('=') && !S.Space('"');
    }
    hide S.Space;
    QuotingPlain('"', v);
    QuotingTwo('"', v, "\"");
    QuotingTwo(NONE, "=\"", v + "\"");
    SolidPlain('"', v);
    SolidTwo('"', v, "\"");
    SolidTwo(NONE, "=\"", v + "\"");
  }

  lemma {:induction false} KeyEnds(key: string, rest: string)
    requires '=' !in key && rest != "" && rest[0] == '='
    ensures KeyLength(key + rest) == |key|
    decreases |key|
  {
    if key == "" {
      assert key + rest == rest;
    } else {
      assert (key + rest)[1..] == key[1..] + rest;
      KeyEnds(key[1..], rest);
    }
  }

  lemma {:induction false} ItemPair(fold: string -> string, key: string, value: string)
    requires Simple(key) && fold(key) == key
    ensures Pair(fold, Item(key, value)) == (key, Escape(value, true))
  {
    var v := Escape(value, true);
    hide Escape, S.Space;
    var rest := "=\"" + (v + "\"");
    assert '=' !in key;
    KeyEnds(key, rest);
    var item := Item(key, value);
    assert item == key + rest;
    assert item[..|key|] == key && item[|key| + 1..] == "\"" + (v + "\"");
    var w := "\"" + (v + "\"");
    assert w[1..|w| - 1] == v && w[0] == '"' && w[|w| - 1] == '"';
  }

  lemma {:induction false} PairsOne(fold: string -> string, key: string, value: string, rest: string, list: Attributes)
    requires Simple(key) && fold(key) == key && (rest == "" || rest[0] == ' ')
    ensures Pairs(fold, " " + (Item(key, value) + rest), list) == Pairs(fold, rest, Put(list, key, Escape(value, true)))
  {
    var item := Item(key, value);
    var s := " " + (item + rest);
    Parted(' ', item + rest);
    assert item[0] == key[0] && key[0] in key;
    assert Blank(s) == 1 by {
      assert (item + rest)[0] == key[0];
    }
    ItemWhole(key, value);
    SolidPasses(item, rest, NONE);
    ItemPair(fold, key, value);
    assert ItemLength(rest, NONE) == 0;
    hide Item, Escape, S.Space, Solid, Quoting, Pair, Put;
    assert (item + rest)[..|item|] == item && (item + rest)[|item|..] == rest;
  }

  lemma {:induction false} AttributeLast(list: Attributes)
    requires list != []
    ensures AttributeText(list) ==
      AttributeText(list[..|list| - 1]) + (" " + Item(list[|list| - 1].0, list[|list| - 1].1))
  {
    hide Escape;
    var (key, value) := list[|list| - 1];
    assert " " + key + "=\"" + Escape(value, true) + "\"" == " " + Item(key, value);
  }

  lemma {:induction false} AttributeNone(list: Attributes)
    requires list == []
    ensures AttributeText(list) == ""
  {
  }

  lemma {:induction false} AttributeFirst(list: Attributes)
    requires list != []
    ensures AttributeText(list) == " " + (Item(list[0].0, list[0].1) + AttributeText(list[1..]))
    decreases |list|
  {
    hide AttributeText, Item;
    var n := |list| - 1;
    AttributeLast(list);
    if n == 0 {
      AttributeNone(list[..0]);
      AttributeNone(list[1..]);
      assert " " + Item(list[0].0, list[0].1) + "" == " " + (Item(list[0].0, list[0].1) + "");
    } else {
      var front := list[..n];
      AttributeFirst(front);
      AttributeLast(list[1..]);
      assert front[1..] == list[1..][..n - 1];
      assert list[1..][n - 1] == list[n];
      var one := " " + Item(list[n].0, list[n].1);
      Assoc(" ", Item(list[0].0, list[0].1) + AttributeText(front[1..]), one);
      Assoc(Item(list[0].0, list[0].1), AttributeText(front[1..]), one);
    }
  }

  /** Keys that are simple, folded and distinct. */
  ghost predicate Keyed(fold: string -> string, list: Attributes) {
    && (forall i :: 0 <= i < |list| ==> Simple(list[i].0) && fold(list[i].0) == list[i].0)
    && (forall i, j :: 0 <= i < j < |list| ==> list[i].0 != list[j].0)
  }

  /** Attributes as they are written: the parser does not undo the escapes of a value. */
  function Written(list: Attributes): (r: Attributes)
    ensures |r| == |list|
  {
    seq(|list|, i requires 0 <= i < |list| => (list[i].0, Escape(list[i].1, true)))
  }

  lemma {:induction false} PutNew(list: Attributes, key: string, value: string)
    requires forall i :: 0 <= i < |list| ==> list[i].0 != key
    ensures Put(list, key, value) == list + [(key, value)]
    decreases |list|
  {
    if list != [] {
      PutNew(list[1..], key, value);
    }
  }

  /** Written attributes are read back with their keys and escaped values. */
  lemma {:induction false} PairsAll(fold: string -> string, list: Attributes, k: nat)
    requires Keyed(fold, list) && k <= |list|
    ensures Pairs(fold, AttributeText(list[k..]), Written(list[..k])) == Written(list)
    decreases |list| - k
  {
    hide *;
    if k == |list| {
      assert list[..k] == list;
      PairsNone(fold, list[k..], Written(list));
    } else {
      PairsAll(fold, list, k + 1);
      PairsNext(fold, list, k);
    }
  }

  lemma {:induction false} PairsNone(fold: string -> string, none: Attributes, list: Attributes)
    requires none == []
    ensures Pairs(fold, AttributeText(none), list) == list
  {
  }

  lemma {:induction false} PairsNext(fold: string -> string, list: Attributes, k: nat)
    requires Keyed(fold, list) && k < |list|
    ensures Pairs(fold, AttributeText(list[k..]), Written(list[..k])) ==
      Pairs(fold, AttributeText(list[k + 1..]), Written(list[..k + 1]))
  {
    var (key, value) := list[k];
    WrittenNext(list, k);
    hide Escape, Simple, Put, Pairs, AttributeText, Item;
    AttributeFirst(list[k..]);
    assert list[k..][1..] == list[k + 1..];
    SpaceFirst(list[k + 1..]);
    PairsOne(fold, key, value, AttributeText(list[k + 1..]), Written(list[..k]));
    PutNew(Written(list[..k]), key, Escape(value, true));
  }

  lemma {:induction false} WrittenNext(list: Attributes, k: nat)
    requires k < |list|
    ensures Written(list[..k + 1]) == Written(list[..k]) + [(list[k].0, Escape(list[k].1, true))]
  {
    hide Escape;
  }

  lemma {:induction false} SpaceFirst(list: Attributes)
    ensures AttributeText(list) == "" || AttributeText(list)[0] == ' '
  {
    if list != [] {
      AttributeFirst(list);
    }
  }

  /** A tag name the parser keeps. */
  predicate PlainTag(fold: string -> string, tag: string) {
    Simple(tag) && tag[0] != '!' && tag[0] != '/' && fold(tag) == tag && fold("/" + tag) == "/" + tag
  }

  lemma {:induction false} AttributesWhole(fold: string -> string, list: Attributes)
    requires Keyed(fold, list)
    ensures Quoting(NONE, AttributeText(list)) == NONE && '>' !in AttributeText(list)
    decreases |list|
  {
    hide Item, Simple;
    if list == [] {
      assert AttributeText(list) == "";
    } else {
      AttributeFirst(list);
      var (key, value) := list[0];
      ItemWhole(key, value);
      AttributesWhole(fold, list[1..]);
      QuotingTwo(NONE, Item(key, value), AttributeText(list[1..]));
      Parted(' ', Item(key, value) + AttributeText(list[1..]));
    }
  }

  lemma {:induction false} WordEnds(word: string, rest: string)
    requires (forall c :: c in word ==> !S.Space(c)) && (rest == "" || rest[0] == ' ')
    ensures Word(word + rest) == |word|
    decreases |word|
  {
    hide S.Space;
    if word == "" {
      assert word + rest == rest;
      SpaceIs();
    } else {
      assert word[0] in word;
      assert (word + rest)[1..] == word[1..] + rest;
      WordEnds(word[1..], rest);
    }
  }

  lemma {:induction false} SpaceIs()
    ensures S.Space(' ')
  {
  }

  /** A written start tag is read back as itself, with the values as they are written. */
  lemma {:induction false} StartTagRead(fold: string -> string, tag: string, list: Attributes)
    requires PlainTag(fold, tag) && Keyed(fold, list)
    ensures var raw := tag + AttributeText(list);
      && raw != "" && raw[0] != '!' && '>' !in raw && Quoting(NONE, raw) == NONE
      && TagOf(fold, raw) == Start(NameOf(tag), Written(list))
      && (OpensScript(fold, raw) <==> tag == "script")
  {
    var text := AttributeText(list);
    AttributesWhole(fold, list);
    QuotingPlain(NONE, tag);
    QuotingTwo(NONE, tag, text);
    SpaceFirst(list);
    WordEnds(tag, text);
    assert list[..0] == [] && list[0..] == list;
    assert Written([]) == [];
    PairsAll(fold, list, 0);
    assert (tag + text)[..|tag|] == tag && (tag + text)[|tag|..] == text;
    assert tag[0] in tag;
    assert Blank(tag + text) == 0;
    assert (tag + text)[0..] == tag + text;
    hide AttributeText, S.Space, NameOf, Written, Pairs;
  }

  /** A written end tag is read back as itself. */
  lemma {:induction false} EndTagRead(fold: string -> string, tag: string)
    requires PlainTag(fold, tag)
    ensures var raw := "/" + tag;
      && raw != "" && raw[0] != '!' && '>' !in raw && Quoting(NONE, raw) == NONE
      && TagOf(fold, raw) == End(NameOf(tag)) && !OpensScript(fold, raw)
  {
    var raw := "/" + tag;
    Parted('/', tag);
    QuotingPlain(NONE, raw);
    WordEnds(raw, "");
    assert raw + "" == raw && raw[..|raw|] == raw;
    assert Blank(raw) == 0;
    assert raw[0..] == raw;
    hide S.Space, NameOf, Pairs;
  }

  // ----- Whole trees -----

  /** Names and keys the parser keeps, no text without characters or beside another, and nothing but
      one text in a script. */
  ghost predicate Readable(fold: string -> string, t: DomTree)
    decreases t, 1
  {
    match t
    case Leaf(text) => text != ""
    case Branch(tag, attributes, children) =>
      && PlainTag(fold, tag) && Keyed(fold, attributes)
      && (if tag in VOID then children == [] else ReadableAll(fold, children))
      && (tag == "script" ==> children == [] || (|children| == 1 && children[0].Leaf?))
  }

  ghost predicate ReadableAll(fold: string -> string, ts: seq<DomTree>)
    decreases ts, 0
  {
    ts == [] ||
    (Readable(fold, ts[0]) && ReadableAll(fold, ts[1..]) && (|ts| > 1 ==> ts[0].Branch? || ts[1].Branch?))
  }

  /** The tags and texts of a tree as they are written. */
  function Raws(t: DomTree): seq<Raw>
    decreases t, 1
  {
    match t
    case Leaf(text) => [RawText(Escape(text, false))]
    case Branch(tag, attributes, children) =>
      [RawTag(tag + AttributeText(attributes))] + (if tag in VOID then [] else RawsAll(children) + [RawTag("/" + tag)])
  }

  function RawsAll(ts: seq<DomTree>): seq<Raw>
    decreases ts, 0
  {
    if ts == [] then [] else Raws(ts[0]) + RawsAll(ts[1..])
  }

  /** The text gathered so far ends where a tag or the input ends it. */
  predicate Ends(rest: string) {
    rest == "" || (rest[0] == '<' && !(|rest| >= 4 && rest[..4] == "<!--"))
  }

  lemma {:induction false} Flushes(fold: string -> string, rest: string, b: string)
    requires Ends(rest)
    ensures Scan(fold, rest, false, NONE, b) == Flushed(b) + Scan(fold, rest, false, NONE, "")
  {
    assert Flushed("") == [];
    hide OpensScript, ScriptLength;
  }

  lemma {:induction false} TagText3(tag: string, text: string, rest: string)
    ensures ("<" + tag + text + ">") + rest == "<" + ((tag + text) + (">" + rest))
  {
  }

  lemma {:induction false} CloseText3(tag: string, rest: string)
    ensures CloseTag(tag) + rest == "<" + (("/" + tag) + (">" + rest))
  {
  }

  lemma {:induction false} OpenScans(fold: string -> string, tag: string, list: Attributes, rest: string, b: string)
    requires PlainTag(fold, tag) && Keyed(fold, list)
    ensures Scan(fold, OpenTag(tag, list) + rest, false, NONE, b) ==
      Flushed(b) + ([RawTag(tag + AttributeText(list))] + AfterTag(fold, tag + AttributeText(list), rest))
  {
    StartTagRead(fold, tag, list);
    TagText3(tag, AttributeText(list), rest);
    hide AttributeText, Scan, PlainTag, Keyed, AfterTag;
    TagScans(fold, tag + AttributeText(list), rest, b);
  }

  lemma {:induction false} CloseScans(fold: string -> string, tag: string, rest: string)
    requires PlainTag(fold, tag)
    ensures Ends(CloseTag(tag) + rest)
    ensures Scan(fold, CloseTag(tag) + rest, false, NONE, "") == [RawTag("/" + tag)] + Scan(fold, rest, false, NONE, "")
  {
    EndTagRead(fold, tag);
    CloseText3(tag, rest);
    Parted('<', ("/" + tag) + (">" + rest));
    var s := CloseTag(tag) + rest;
    if |s| >= 4 {
      assert s[..4][1] == '/';
    }
    hide Scan, PlainTag, CloseTag;
    TagScans(fold, "/" + tag, rest, "");
  }

  lemma {:induction false} ScriptEnds(e: string, rest: string)
    requires '<' !in e && EndsScript(rest)
    ensures ScriptLength(e + rest) == |e|
    decreases |e|
  {
    if e == "" {
      assert e + rest == rest;
    } else {
      assert e[0] in e;
      assert Lower((e + rest)[0]) != "</script>"[0];
      assert (e + rest)[1..] == e[1..] + rest;
      ScriptEnds(e[1..], rest);
    }
  }

  lemma {:induction false} ScriptClosed(rest: string)
    ensures EndsScript(CloseTag("script") + rest)
  {
    var s := CloseTag("script") + rest;
    assert CloseTag("script") == "</script>";
    assert forall i :: 0 <= i < 9 ==> s[i] == "</script>"[i];
  }

  /** A script is read up to its end tag. */
  lemma {:induction false} ScriptScans(fold: string -> string, children: seq<DomTree>, rest: string)
    requires children == [] || (|children| == 1 && children[0].Leaf? && children[0].text != "")
    ensures var s := Inner(children) + (CloseTag("script") + rest);
      && RawsAll(children) == Flushed(s[..ScriptLength(s)])
      && s[ScriptLength(s)..] == CloseTag("script") + rest
  {
    var e, end := Inner(children), CloseTag("script") + rest;
    assert children != [] ==> e == Escape(children[0].text, false) && e != "" by {
      OneLeaf(children);
    }
    assert '<' !in e by {
      if children != [] {
        EscapeClean(children[0].text, false);
      }
    }
    assert RawsAll(children) == Flushed(e) by {
      OneLeaf(children);
    }
    hide Inner, Escape, CloseTag, EndsScript, RawsAll;
    ScriptClosed(rest);
    ScriptEnds(e, end);
    assert (e + end)[..|e|] == e && (e + end)[|e|..] == end;
  }

  lemma {:induction false} OneLeaf(children: seq<DomTree>)
    requires children == [] || (|children| == 1 && children[0].Leaf? && children[0].text != "")
    ensures if children == [] then Inner(children) == "" && RawsAll(children) == []
      else
        && Inner(children) == Escape(children[0].text, false) != ""
        && RawsAll(children) == [RawText(Escape(children[0].text, false))]
  {
    if children != [] {
      EscapeSome(children[0].text);
      hide Escape;
      assert children[1..] == [];
      assert Inner(children[1..]) == "" && RawsAll(children[1..]) == [];
    }
  }

  lemma {:induction false} EscapeSome(text: string)
    requires text != ""
    ensures Escape(text, false) != ""
  {
    assert Escaped(text[|text| - 1], false) != "";
  }

  /** A written element is read as its tags and what is in it. */
  lemma {:induction false} BranchScans(fold: string -> string, t: DomTree, rest: string, b: string)
    requires Readable(fold, t) && t.Branch?
    ensures Scan(fold, Outer(t) + rest, false, NONE, b) ==
      Flushed(b) + (Raws(t) + Scan(fold, rest, false, NONE, ""))
    decreases t, 0
  {
    var raw := t.tag + AttributeText(t.attributes);
    if t.tag in VOID {
      VoidScans(fold, t, rest, b);
    } else {
      var inner, end := Inner(t.children), CloseTag(t.tag) + rest;
      assert ReadableAll(fold, t.children) && PlainTag(fold, t.tag) && Keyed(fold, t.attributes);
      CloseScans(fold, t.tag, rest);
      assert AfterTag(fold, raw, inner + end) ==
        RawsAll(t.children) + ([RawTag("/" + t.tag)] + Scan(fold, rest, false, NONE, "")) by {
        StartTagRead(fold, t.tag, t.attributes);
        if t.tag == "script" {
          assert t.children != [] ==> Readable(fold, t.children[0]);
          hide Scan, Inner, CloseTag, Flushed, ScriptLength, RawsAll, OpensScript;
          ScriptScans(fold, t.children, rest);
        } else {
          ForestScans(fold, t.children, end, "");
          hide Scan, Inner, CloseTag, RawsAll, OpensScript;
        }
      }
      ElementScans(fold, t, rest, b);
    }
  }

  lemma {:induction false} VoidScans(fold: string -> string, t: DomTree, rest: string, b: string)
    requires Readable(fold, t) && t.Branch? && t.tag in VOID
    ensures Scan(fold, Outer(t) + rest, false, NONE, b) ==
      Flushed(b) + (Raws(t) + Scan(fold, rest, false, NONE, ""))
  {
    StartTagRead(fold, t.tag, t.attributes);
    hide Scan, OpenTag, OpensScript, AttributeText, PlainTag, Keyed;
    OpenScans(fold, t.tag, t.attributes, rest, b);
    assert Raws(t) == [RawTag(t.tag + AttributeText(t.attributes))];
  }

  lemma {:induction false} ElementScans(fold: string -> string, t: DomTree, rest: string, b: string)
    requires Readable(fold, t) && t.Branch? && t.tag !in VOID
    requires AfterTag(fold, t.tag + AttributeText(t.attributes), Inner(t.children) + (CloseTag(t.tag) + rest)) ==
      RawsAll(t.children) + ([RawTag("/" + t.tag)] + Scan(fold, rest, false, NONE, ""))
    ensures Scan(fold, Outer(t) + rest, false, NONE, b) ==
      Flushed(b) + (Raws(t) + Scan(fold, rest, false, NONE, ""))
  {
    var raw := t.tag + AttributeText(t.attributes);
    var inner, close, after := Inner(t.children), CloseTag(t.tag), Scan(fold, rest, false, NONE, "");
    assert Outer(t) == OpenTag(t.tag, t.attributes) + (inner + close);
    assert Raws(t) == [RawTag(raw)] + (RawsAll(t.children) + [RawTag("/" + t.tag)]);
    hide *;
    Assoc(OpenTag(t.tag, t.attributes), inner + close, rest);
    Assoc(inner, close, rest);
    ReadableParts(fold, t);
    OpenScans(fold, t.tag, t.attributes, inner + (close + rest), b);
    Assoc([RawTag(raw)], RawsAll(t.children) + [RawTag("/" + t.tag)], after);
    Assoc(RawsAll(t.children), [RawTag("/" + t.tag)], after);
  }

  lemma {:induction false} ReadableParts(fold: string -> string, t: DomTree)
    requires Readable(fold, t) && t.Branch?
    ensures PlainTag(fold, t.tag) && Keyed(fold, t.attributes)
  {
  }

  lemma {:induction false} ForestScans(fold: string -> string, ts: seq<DomTree>, rest: string, b: string)
    requires ReadableAll(fold, ts) && Ends(rest) && (b == "" || ts == [] || ts[0].Branch?)
    ensures Scan(fold, Inner(ts) + rest, false, NONE, b) ==
      Flushed(b) + (RawsAll(ts) + Scan(fold, rest, false, NONE, ""))
    decreases ts, 0
  {
    var after := Scan(fold, rest, false, NONE, "");
    if ts == [] {
      Flushes(fold, rest, b);
      assert Inner(ts) + rest == rest && RawsAll(ts) + after == after;
    } else {
      var t, more := ts[0], ts[1..];
      assert Inner(ts) == Outer(t) + Inner(more) && RawsAll(ts) == Raws(t) + RawsAll(more);
      Assoc(Outer(t), Inner(more), rest);
      Assoc(Raws(t), RawsAll(more), after);
      match t
      case Leaf(text) =>
        LeafScans(fold, text, Inner(more) + rest);
        ForestScans(fold, more, rest, Escape(text, false));
        EscapeSome(text);
        hide Scan, Inner, RawsAll, Ends, Escape;
        assert Flushed(b) + (RawsAll(ts) + after) == RawsAll(ts) + after;
      case Branch(_, _, _) =>
        BranchScans(fold, t, Inner(more) + rest, b);
        ForestScans(fold, more, rest, "");
        hide Scan, Inner, RawsAll, Ends, Outer, Raws;
        assert Flushed("") + (RawsAll(more) + after) == RawsAll(more) + after;
    }
  }

  lemma {:induction false} LeafScans(fold: string -> string, text: string, rest: string)
    ensures Scan(fold, Escape(text, false) + rest, false, NONE, "") == Scan(fold, rest, false, NONE, Escape(text, false))
  {
    EscapeClean(text, false);
    hide Escape, Scan;
    TextScans(fold, Escape(text, false), rest, "");
    assert "" + Escape(text, false) == Escape(text, false);
  }
}
