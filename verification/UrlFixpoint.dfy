/** When printing a parsed URL is stable.

    A printed URL is read back part by part: the view-source prefix and the fragment, then the scheme,
    then host, port and path of a web URL. Everything is stable but views of a file's source, whose
    printed form has lost the scheme, and for those the exact condition is that what follows is its own
    key.
*/
module UrlFixpoint {
  import opened Results
  import opened UrlText
  import opened UrlPort
  import opened UrlParse

  lemma {:induction false} PrefixFirst(s: string, prefix: string)
    ensures HasPrefix(s, prefix) ==> s == prefix + s[|prefix|..]
    ensures HasPrefix(s, prefix) && prefix != "" ==> s[0] == prefix[0]
  {
    if HasPrefix(s, prefix) {
      assert s == s[..|prefix|] + s[|prefix|..];
    }
  }

  // ----- Reading back what was printed -----

  lemma {:induction false} JoinTwo(a: string, b: string)
    ensures Join(a, b, "") == a + b
    ensures |Join(a, b, "")| == |a| + |b| && Join(a, b, "")[..|a|] == a && Join(a, b, "")[|a|..] == b
    ensures a != "" ==> Join(a, b, "")[0] == a[0]
    ensures HasPrefix(Join(a, b, ""), a)
    ensures '#' !in a && '#' !in b ==> '#' !in Join(a, b, "")
  {
  }

  /** The text without its fragment. */
  lemma {:induction false} ReadCut(b: string, fragment: string)
    requires '#' !in b
    ensures var s := WithHash(b, fragment);
      IndexOf(s, '#') == |b| && s[..|b|] == b && (if |b| < |s| then s[|b| + 1..] else "") == fragment
  {
    var s := WithHash(b, fragment);
    IndexIs(s, '#', |b|);
    assert fragment != "" ==> s[|b| + 1..] == fragment;
  }

  lemma {:induction false} HashAfter(a: string, b: string, fragment: string)
    ensures WithHash(Join(a, b, ""), fragment) == Join(a, WithHash(b, fragment), "")
  {
    var mark := if fragment != "" then "#" else "";
    assert a + b + "" + mark + fragment == a + (b + mark + fragment) + "";
  }

  lemma {:induction false} HashFirst(b: string, fragment: string)
    requires b != ""
    ensures WithHash(b, fragment) != "" && WithHash(b, fragment)[0] == b[0]
  {
  }

  const VIEW := "view-source:"

  lemma {:induction false} ReadShown(b: string, fragment: string)
    requires '#' !in b
    ensures Parsed(WithHash(Join(VIEW, b, ""), fragment)) ==
      Resource(b).(fragment := fragment, viewSource := true)
  {
    hide Resource, Join, WithHash;
    ReadCut(b, fragment);
    HashAfter(VIEW, b, fragment);
    JoinTwo(VIEW, WithHash(b, fragment));
    hide IndexOf;
  }

  lemma {:induction false} ReadHidden(b: string, fragment: string)
    requires '#' !in b && b != "" && b[0] != 'v'
    ensures Parsed(WithHash(b, fragment)) == Resource(b).(fragment := fragment, viewSource := false)
  {
    hide Resource, Join, WithHash;
    ReadCut(b, fragment);
    HashFirst(b, fragment);
    PrefixFirst(WithHash(b, fragment), "view-source:");
    hide HasPrefix, IndexOf;
  }

  lemma {:induction false} OpaqueStart(s: string)
    requires s != "" && s[0] == 'd'
    ensures !HasPrefix(s, "about:") && !HasPrefix(s, "mailto:")
  {
    PrefixFirst(s, "about:");
    PrefixFirst(s, "mailto:");
  }

  lemma {:induction false} ReadAbout(path: string)
    ensures Resource(Join("about:", path, "")) == Plain("about", path, Join("about:", path, ""))
  {
    var s := Join("about:", path, "");
    JoinTwo("about:", path);
    hide Join;
    IndexIs(s, ':', 5) by { forall k | 0 <= k < 6 ensures s[k] == "about:"[k] { assert s[..6][k] == s[k]; } }
    assert s[..5] == s[..6][..5];
  }

  lemma {:induction false} ReadMail(path: string)
    ensures Resource(Join("mailto:", path, "")) == Plain("mailto", path, Join("mailto:", path, ""))
  {
    var s := Join("mailto:", path, "");
    JoinTwo("mailto:", path);
    hide Join;
    IndexIs(s, ':', 6) by { forall k | 0 <= k < 7 ensures s[k] == "mailto:"[k] { assert s[..7][k] == s[k]; } }
    assert s[..6] == s[..7][..6];
  }

  lemma {:induction false} ReadData(path: string)
    ensures Resource(Join("data:", path, "")) == Plain("data", path, Join("data:", path, ""))
  {
    var s := Join("data:", path, "");
    JoinTwo("data:", path);
    OpaqueStart(s);
    hide Join;
  }

  predicate Layered(scheme: string) {
    Http(scheme) || scheme == "file"
  }

  function SchemeText(scheme: string, rest: string): string {
    scheme + "://" + rest
  }

  /** The scheme of a layered URL is read up to its delimiter. */
  lemma {:induction false} SplitScheme(scheme: string, rest: string)
    ensures var s := SchemeText(scheme, rest);
      && |s| == |scheme| + 3 + |rest| && s[..|scheme|] == scheme
      && HasPrefix(s[|scheme|..], "://") && s[|scheme| + 3..] == rest
  {
    var s := SchemeText(scheme, rest);
    assert s == scheme + ("://" + rest);
    assert s[|scheme|..] == "://" + rest;
    assert s[..|scheme|] == scheme;
    assert ("://" + rest)[..3] == "://";
  }

  lemma {:induction false} FindScheme(scheme: string, rest: string)
    requires ':' !in scheme
    ensures Find(SchemeText(scheme, rest), "://") == Some(|scheme|)
  {
    var s := SchemeText(scheme, rest);
    SplitScheme(scheme, rest);
    hide SchemeText;
    forall k | 0 <= k < |scheme|
      ensures !HasPrefix(s[k..], "://")
    {
      assert s[k] == scheme[k];
      PrefixFirst(s[k..], "://");
    }
    FindIs(s, "://", |scheme|);
  }

  lemma {:induction false} LayeredStart(scheme: string, rest: string)
    requires Layered(scheme)
    ensures var s := SchemeText(scheme, rest);
      !HasPrefix(s, "about:") && !HasPrefix(s, "mailto:") && !HasPrefix(s, "data:")
  {
    var s := SchemeText(scheme, rest);
    assert s[0] == scheme[0];
    hide SchemeText;
    PrefixFirst(s, "about:");
    PrefixFirst(s, "mailto:");
    PrefixFirst(s, "data:");
  }

  lemma {:induction false} ReadLayered(scheme: string, rest: string)
    requires Layered(scheme)
    ensures Resource(SchemeText(scheme, rest)) ==
      if scheme == "file" then Plain("file", rest, rest) else WebUrl(scheme, rest)
  {
    hide Find, HasPrefix, SchemeText, WebUrl;
    SplitScheme(scheme, rest);
    FindScheme(scheme, rest);
    LayeredStart(scheme, rest);
  }

  /** What a web URL is made of. */
  ghost predicate WebParts(scheme: string, host: string, portText: string, port: int, path: string) {
    && Http(scheme)
    && '/' !in host && ':' !in host && '#' !in host && '#' !in path
    && Spelled(portText) && port == Number(portText)
    && path != "" && path[0] == '/'
  }

  lemma {:induction false} DefaultsSpelled(scheme: string)
    requires Http(scheme)
    ensures Spelled(DefaultText(scheme)) && Number(DefaultText(scheme)) == DefaultPort(scheme)
  {
    assert Unsigned("80") == "80" && Unsigned("443") == "443";
    assert Magnitude("") == 0;
    assert "80"[..1] == "8" && "8"[..0] == "" && Magnitude("8") == 8 && Magnitude("80") == 80;
    assert "443"[..2] == "44" && "44"[..1] == "4" && "4"[..0] == "";
    assert Magnitude("4") == 4 && Magnitude("44") == 44 && Magnitude("443") == 443;
  }

  lemma {:induction false} SpelledChars(number: string)
    requires Spelled(number)
    ensures '/' !in number && '#' !in number && ':' !in number
  {
    forall k | 0 <= k < |number|
      ensures Digit(number[k]) || number[k] == '-'
    {
      if number[0] == '-' && k > 0 {
        assert Unsigned(number)[k - 1] == number[k];
      }
    }
  }

  lemma {:induction false} WebShape(scheme: string, rest: string)
    requires Http(scheme) && '#' !in rest
    ensures var u := WebUrl(scheme, rest);
      if u.scheme == "about" then u.path == "blank" && u.key == "about:blank"
      else
        && u.scheme == scheme && WebParts(scheme, u.host, u.portText, u.port, u.path)
        && u.key == WebKey(scheme, u.host, u.portText, u.path)
  {
    hide Decimal, Number, Spelled, Join;
    var slash := IndexOf(rest, '/');
    var authority := rest[..slash];
    var colon := IndexOf(authority, ':');
    var host := authority[..colon];
    assert '/' !in authority && ':' !in host && '#' !in authority;
    assert forall c :: c in host ==> c in authority;
    CleanTail(rest, slash);
    DefaultsSpelled(scheme);
    if colon < |authority| {
      DecimalSpelled(authority[colon + 1..]);
    }
  }

  /** The text after the delimiter of a printed web URL. */
  function WebRest(host: string, portPart: string, path: string): string {
    host + portPart + path
  }

  lemma {:induction false} WebText(scheme: string, host: string, portPart: string, path: string)
    ensures Join(Prefix(scheme, host), portPart, path) == SchemeText(scheme, WebRest(host, portPart, path))
  {
  }

  lemma {:induction false} RestSplit(authority: string, path: string)
    requires '/' !in authority && path != "" && path[0] == '/'
    ensures var rest := authority + path;
      IndexOf(rest, '/') == |authority| < |rest| && rest[..|authority|] == authority && rest[|authority|..] == path
  {
    IndexIs(authority + path, '/', |authority|);
  }

  lemma {:induction false} AuthoritySplit(host: string, portText: string)
    requires '/' !in host && ':' !in host && '/' !in portText
    ensures var authority := host + PortPart(portText);
      && '/' !in authority && IndexOf(authority, ':') == |host| < |authority|
      && authority[..|host|] == host && authority[|host| + 1..] == portText
  {
    IndexIs(host + PortPart(portText), ':', |host|);
  }

  /** A web URL printed with its port is read back. */
  lemma {:induction false} ReadWeb(scheme: string, host: string, portText: string, port: int, path: string)
    requires WebParts(scheme, host, portText, port, path)
    ensures WebUrl(scheme, WebRest(host, PortPart(portText), path)) ==
      Parts(scheme, host, path, "", WebKey(scheme, host, portText, path), portText, port, false)
  {
    SpelledChars(portText);
    SpelledDecimal(portText);
    AuthoritySplit(host, portText);
    hide Decimal, Number, Spelled, Join, PortPart, IndexOf;
    RestSplit(host + PortPart(portText), path);
  }

  /** A web URL printed without its port is read back with the default port. */
  lemma {:induction false} ReadWebDefault(scheme: string, host: string, path: string)
    requires Http(scheme) && '/' !in host && ':' !in host && path != "" && path[0] == '/'
    ensures WebUrl(scheme, WebRest(host, "", path)) ==
      Parts(scheme, host, path, "", WebKey(scheme, host, DefaultText(scheme), path),
            DefaultText(scheme), DefaultPort(scheme), false)
  {
    assert host + "" == host;
    IndexIs(host, ':', |host|);
    assert host[..|host|] == host;
    hide Decimal, Number, Spelled, Join, PortPart, IndexOf;
    RestSplit(host, path);
  }

  // ----- The printed form is stable -----

  /** The shape of a parsed resource. */
  ghost predicate Shape(u: Parts) {
    && '#' !in u.path
    && (|| (u.scheme == "about" && u.key == Join("about:", u.path, ""))
        || (u.scheme == "mailto" && u.key == Join("mailto:", u.path, ""))
        || (u.scheme == "data" && u.key == Join("data:", u.path, ""))
        || (u.scheme == "file" && u.key == u.path)
        || (WebParts(u.scheme, u.host, u.portText, u.port, u.path) &&
            u.key == WebKey(u.scheme, u.host, u.portText, u.path)))
  }

  lemma {:induction false} CleanTail(s: string, k: nat)
    requires '#' !in s && k <= |s|
    ensures '#' !in s[k..]
  {
  }

  lemma {:induction false} Rejoin(s: string, prefix: string)
    requires HasPrefix(s, prefix)
    ensures |prefix| <= |s| && s == Join(prefix, s[|prefix|..], "")
  {
    PrefixFirst(s, prefix);
  }

  lemma {:induction false} BlankShape(u: Parts)
    requires u.scheme == "about" && u.path == "blank" && u.key == "about:blank"
    ensures Shape(u)
  {
    assert Join("about:", "blank", "") == "about:blank";
  }

  lemma {:induction false} LayeredShape(scheme: string, rest: string)
    requires '#' !in rest && scheme != "about" && scheme != "mailto" && scheme != "data"
    ensures Shape(Hierarchical(scheme, rest))
  {
    hide WebUrl, Join, Number, Spelled, Shape;
    var u := Hierarchical(scheme, rest);
    if !Supported(scheme) {
      BlankShape(u);
    } else if Http(scheme) {
      WebShape(scheme, rest);
      if u.scheme == "about" {
        BlankShape(u);
      } else {
        IsWebShape(u);
      }
    } else {
      FileShape(u);
    }
  }

  lemma {:induction false} FileShape(u: Parts)
    requires u.scheme == "file" && '#' !in u.path && u.key == u.path
    ensures Shape(u)
  {
  }

  /** A scheme before a delimiter starts the text, with its colon. */
  lemma {:induction false} NotOpaque(s: string, at: nat, scheme: string)
    requires at + 3 <= |s| && HasPrefix(s[at..], "://")
    ensures s[..at] == scheme ==> HasPrefix(s, scheme + ":")
  {
    PrefixFirst(s[at..], "://");
    assert s[at] == ':';
    assert s[..at + 1] == s[..at] + ":";
  }

  lemma {:induction false} IsWebShape(u: Parts)
    requires WebParts(u.scheme, u.host, u.portText, u.port, u.path)
    requires u.key == WebKey(u.scheme, u.host, u.portText, u.path)
    ensures Shape(u)
  {
  }

  lemma {:induction false} ResourceShape(s: string)
    requires '#' !in s
    ensures Shape(Resource(s))
  {
    hide WebUrl, Join, Number, Spelled, Find, HasPrefix, Shape, Hierarchical;
    if HasPrefix(s, "about:") {
      Rejoin(s, "about:");
      CleanTail(s, 6);
      ReadAbout(s[6..]);
      OpaqueShape(Resource(s));
    } else if HasPrefix(s, "mailto:") {
      Rejoin(s, "mailto:");
      CleanTail(s, 7);
      ReadMail(s[7..]);
      OpaqueShape(Resource(s));
    } else if HasPrefix(s, "data:") {
      Rejoin(s, "data:");
      CleanTail(s, 5);
      ReadData(s[5..]);
      OpaqueShape(Resource(s));
    } else if Find(s, "://").Some? {
      assert "about" + ":" == "about:" && "mailto" + ":" == "mailto:" && "data" + ":" == "data:";
      NotOpaque(s, Find(s, "://").value, "about");
      NotOpaque(s, Find(s, "://").value, "mailto");
      NotOpaque(s, Find(s, "://").value, "data");
      CleanTail(s, Find(s, "://").value + 3);
      LayeredShape(s[..Find(s, "://").value], s[Find(s, "://").value + 3..]);
    } else {
      BlankShape(Resource(s));
    }
  }

  lemma {:induction false} OpaqueShape(u: Parts)
    requires '#' !in u.path
    requires
      || (u.scheme == "about" && u.key == Join("about:", u.path, ""))
      || (u.scheme == "mailto" && u.key == Join("mailto:", u.path, ""))
      || (u.scheme == "data" && u.key == Join("data:", u.path, ""))
    ensures Shape(u)
  {
  }

  /** What a second pass makes of the printed base of u. */
  ghost predicate Again(u: Parts, b: string) {
    var shown := u.viewSource && u.scheme != "mailto";
    && Base(u) == (if shown then Join(VIEW, b, "") else b)
    && '#' !in b && b != "" && b[0] != 'v'
    && Resource(b).scheme == u.scheme
    && Base(Resource(b).(viewSource := shown)) == Base(u)
  }

  lemma {:induction false} OpaqueAgain(u: Parts)
    requires Shape(u) && (u.scheme == "about" || u.scheme == "mailto" || u.scheme == "data")
    ensures Again(u, u.key)
  {
    if u.scheme == "about" {
      ReadAbout(u.path);
      JoinTwo("about:", u.path);
    } else if u.scheme == "mailto" {
      ReadMail(u.path);
      JoinTwo("mailto:", u.path);
    } else {
      ReadData(u.path);
      JoinTwo("data:", u.path);
    }
    hide Resource, Join, Number, Spelled;
  }

  lemma {:induction false} FileText(path: string)
    ensures Join("file://", path, "") == SchemeText("file", path)
  {
    assert "file" + "://" == "file://";
  }

  lemma {:induction false} FileAgain(u: Parts)
    requires u.scheme == "file" && !u.viewSource && '#' !in u.path
    ensures Again(u, Join("file://", u.path, ""))
  {
    ReadLayered("file", u.path);
    FileText(u.path);
    JoinTwo("file://", u.path);
    hide Resource, Join, SchemeText;
  }

  lemma {:induction false} WebClean(scheme: string, host: string, portPart: string, path: string)
    requires Http(scheme) && '#' !in host && '#' !in portPart && '#' !in path
    ensures var b := SchemeText(scheme, WebRest(host, portPart, path));
      '#' !in b && b != "" && b[0] != 'v'
  {
    assert '#' !in WebRest(host, portPart, path);
    hide WebRest;
    assert SchemeText(scheme, WebRest(host, portPart, path))[0] == scheme[0];
  }

  lemma {:induction false} PortClean(portText: string)
    requires '#' !in portText
    ensures '#' !in PortPart(portText)
  {
  }

  /** A web URL printed with its port, or without the default one, is read back. */
  lemma {:induction false} WebRead(u: Parts, portPart: string)
    requires WebParts(u.scheme, u.host, u.portText, u.port, u.path)
    requires portPart == PortPart(u.portText) || (portPart == "" && ShownPort(u) == "")
    ensures var v := Resource(SchemeText(u.scheme, WebRest(u.host, portPart, u.path)));
      && v.scheme == u.scheme && v.host == u.host && v.path == u.path && v.port == u.port
      && v.key == WebKey(u.scheme, u.host, v.portText, u.path)
      && (portPart == PortPart(u.portText) ==> v.portText == u.portText)
  {
    hide Resource, WebKey, Number, Spelled, WebRest, SchemeText, Join;
    ReadLayered(u.scheme, WebRest(u.host, portPart, u.path));
    hide WebUrl;
    if portPart == PortPart(u.portText) {
      ReadWeb(u.scheme, u.host, u.portText, u.port, u.path);
    } else {
      DefaultsSpelled(u.scheme);
      assert u.port != 0;
      ReadWebDefault(u.scheme, u.host, u.path);
    }
  }

  lemma {:induction false} WebBase(u: Parts)
    requires Http(u.scheme)
    ensures Base(u) == if u.viewSource then Join(VIEW, u.key, "") else Join(Prefix(u.scheme, u.host), ShownPort(u), u.path)
    ensures u.scheme != "mailto"
  {
  }

  lemma {:induction false} WebAgain(u: Parts)
    requires WebParts(u.scheme, u.host, u.portText, u.port, u.path)
    requires u.key == WebKey(u.scheme, u.host, u.portText, u.path)
    ensures Again(u, if u.viewSource then u.key else Base(u))
  {
    SpelledChars(u.portText);
    PortClean(u.portText);
    WebBase(u);
    hide Resource, Number, Spelled, Join, WebRest, PortPart, SchemeText, Base, Prefix;
    var portPart := if u.viewSource then PortPart(u.portText) else ShownPort(u);
    WebText(u.scheme, u.host, portPart, u.path);
    WebClean(u.scheme, u.host, portPart, u.path);
    WebRead(u, portPart);
    hide Http;
    WebBase(Resource(SchemeText(u.scheme, WebRest(u.host, portPart, u.path))).(viewSource := u.viewSource));
  }

  lemma {:induction false} BaseAgain(u: Parts) returns (b: string)
    requires Shape(u) && !FileSource(u)
    ensures Again(u, b)
  {
    hide Again, Join, Number, Spelled;
    if u.scheme == "about" || u.scheme == "mailto" || u.scheme == "data" {
      b := u.key;
      OpaqueAgain(u);
    } else if u.scheme == "file" {
      b := Join("file://", u.path, "");
      FileAgain(u);
    } else {
      b := if u.viewSource then u.key else Base(u);
      WebAgain(u);
    }
  }

  lemma {:induction false} CleanCut(s: string)
    ensures '#' !in s[..IndexOf(s, '#')]
  {
  }

  /** The shape does not depend on the fragment or the view. */
  lemma {:induction false} ParsedShape(text: string)
    ensures Shape(Parsed(text))
  {
    hide Resource, Join, Number, Spelled;
    var s := if HasPrefix(text, "view-source:") then text[12..] else text;
    CleanCut(s);
    ResourceShape(s[..IndexOf(s, '#')]);
  }

  lemma {:induction false} SameBase(u: Parts, fragment: string)
    ensures Base(u.(fragment := fragment)) == Base(u)
  {
  }

  /** Outside views of a file's source, printing is stable. */
  lemma {:induction false} PrintStable(text: string)
    requires !FileSource(Parsed(text))
    ensures Canonical(Canonical(text)) == Canonical(text)
  {
    hide Resource, Base, Parsed, Shape, WithHash, Join;
    var u := Parsed(text);
    ParsedShape(text);
    var b := BaseAgain(u);
    var shown := u.viewSource && u.scheme != "mailto";
    var fragment := if u.scheme == "mailto" then "" else u.fragment;
    SameBase(Resource(b).(viewSource := shown), fragment);
    if shown {
      ReadShown(b, fragment);
    } else {
      ReadHidden(b, fragment);
    }
  }

  /** tai_url_resolve of a fragment reference: only the fragment of the printed base changes. */
  function ResolveFragment(base: Parts, fragment: string): Parts {
    var text := Serialized(base);
    Parsed(WithHash(text[..IndexOf(text, '#')], fragment))
  }

  lemma {:induction false} BaseClean(u: Parts, b: string)
    requires Again(u, b)
    ensures '#' !in Base(u)
  {
    hide Base, Resource;
    JoinTwo(VIEW, b);
  }

  /** Outside views of a file's source, a fragment reference changes only the fragment of the printed
      base, which a mailto base does not show, and the target prints stably. */
  lemma {:induction false} FragmentTarget(text: string, fragment: string)
    requires !FileSource(Parsed(text))
    ensures var base, target := Parsed(text), ResolveFragment(Parsed(text), fragment);
      && target.fragment == fragment && Base(target) == Base(base) && !FileSource(target)
      && Serialized(target) == WithHash(Base(base), if base.scheme == "mailto" then "" else fragment)
      && Canonical(Serialized(target)) == Serialized(target)
  {
    hide Resource, Base, Parsed, Shape, WithHash, Join;
    var u := Parsed(text);
    ParsedShape(text);
    var b := BaseAgain(u);
    var shown := u.viewSource && u.scheme != "mailto";
    BaseClean(u, b);
    ReadCut(Base(u), if u.scheme == "mailto" then "" else u.fragment);
    SameBase(Resource(b).(viewSource := shown), fragment);
    if shown {
      ReadShown(b, fragment);
    } else {
      ReadHidden(b, fragment);
    }
    PrintStable(WithHash(Base(u), fragment));
  }

  // ----- The exact condition -----

  /** An http or https resource that spells out its port and its path. */
  predicate ShowsPort(s: string) {
    var at := Find(s, "://");
    at.Some? && Http(s[..at.value]) && RestShowsPort(s[at.value + 3..])
  }

  predicate RestShowsPort(rest: string) {
    var slash := IndexOf(rest, '/');
    var colon := IndexOf(rest[..slash], ':');
    slash < |rest| && colon < slash && Spelled(rest[colon + 1..slash])
  }

  /** The texts that are their own keys. */
  predicate SelfKeyed(s: string) {
    || HasPrefix(s, "about:") || HasPrefix(s, "data:")
    || (!HasPrefix(s, "mailto:") && ShowsPort(s))
  }

  lemma {:induction false} SameKey(scheme: string, host: string, portPart: string, path: string, rest: string)
    ensures Join(Prefix(scheme, host), portPart, path) == SchemeText(scheme, rest) <==> WebRest(host, portPart, path) == rest
  {
    WebText(scheme, host, portPart, path);
    hide WebRest, Join, SchemeText;
    SplitScheme(scheme, rest);
    SplitScheme(scheme, WebRest(host, portPart, path));
  }

  lemma {:induction false} SameMiddle(p: string, a: string, b: string, q: string)
    ensures p + a + q == p + b + q <==> a == b
  {
    if p + a + q == p + b + q {
      assert |a| == |b|;
      assert (p + a + q)[|p|..|p| + |a|] == a;
      assert (p + b + q)[|p|..|p| + |a|] == b;
    }
  }

  lemma {:induction false} SamePort(a: string, b: string)
    ensures PortPart(a) == PortPart(b) <==> a == b
  {
    assert PortPart(a)[1..] == a && PortPart(b)[1..] == b;
  }

  /** Another number in place of the port, or a path where there is none, changes the text. */
  lemma {:induction false} OtherPort(rest: string, slash: nat, colon: nat, number: string)
    requires colon < slash <= |rest| && rest[colon] == ':'
    requires slash == |rest| ==> '/' !in rest
    ensures var path := if slash < |rest| then rest[slash..] else "/";
      WebRest(rest[..colon], PortPart(number), path) == rest <==> slash < |rest| && number == rest[colon + 1..slash]
  {
    var was := rest[colon + 1..slash];
    if slash < |rest| {
      assert rest == rest[..colon] + PortPart(was) + rest[slash..];
      hide Join, PortPart;
      SameMiddle(rest[..colon], PortPart(number), PortPart(was), rest[slash..]);
      SamePort(number, was);
    } else {
      var text := WebRest(rest[..colon], PortPart(number), "/");
      assert text[|text| - 1] == '/';
    }
  }

  lemma {:induction false} NotBlank(scheme: string, rest: string)
    requires Http(scheme)
    ensures SchemeText(scheme, rest) != "about:blank"
  {
    assert SchemeText(scheme, rest)[0] == scheme[0];
  }

  lemma {:induction false} AddedPort(host: string, portText: string, path: string, rest: string)
    requires |rest| <= |host| + |path|
    ensures WebRest(host, PortPart(portText), path) != rest
  {
    assert |PortPart(portText)| == |portText| + 1;
  }

  /** A web resource is its own key exactly when it shows its port. */
  lemma {:induction false} WebSelfKeyed(scheme: string, rest: string)
    requires Http(scheme)
    ensures WebUrl(scheme, rest).key == SchemeText(scheme, rest) <==> RestShowsPort(rest)
  {
    hide Decimal, Number, Spelled, Join, SchemeText, WebRest, PortPart;
    var slash := IndexOf(rest, '/');
    var authority := rest[..slash];
    var colon := IndexOf(authority, ':');
    var host := authority[..colon];
    var path := if slash < |rest| then rest[slash..] else "/";
    NotBlank(scheme, rest);
    if colon < slash {
      var number := authority[colon + 1..];
      assert number == rest[colon + 1..slash] && host == rest[..colon];
      DecimalStable(number);
      if Decimal(number).Some? {
        SameKey(scheme, host, PortPart(Decimal(number).value), path, rest);
        OtherPort(rest, slash, colon, Decimal(number).value);
      }
    } else {
      SameKey(scheme, host, PortPart(DefaultText(scheme)), path, rest);
      AddedPort(host, DefaultText(scheme), path, rest);
    }
  }

  lemma {:induction false} WebScheme(scheme: string, rest: string)
    requires Http(scheme)
    ensures WebUrl(scheme, rest).scheme != "mailto" && WebUrl(scheme, rest).scheme != "file"
  {
  }

  lemma {:induction false} Delimited(s: string, at: nat)
    requires at + 3 <= |s| && HasPrefix(s[at..], "://")
    ensures s == SchemeText(s[..at], s[at + 3..])
  {
    PrefixFirst(s[at..], "://");
    assert s == s[..at] + s[at..];
  }

  lemma {:induction false} BlankStart(s: string)
    ensures s == "about:blank" ==> HasPrefix(s, "about:")
  {
    assert "about:blank"[..6] == "about:";
  }

  lemma {:induction false} LayeredKeyed(s: string, at: nat)
    requires Find(s, "://") == Some(at)
    requires !HasPrefix(s, "about:") && !HasPrefix(s, "mailto:") && !HasPrefix(s, "data:")
    ensures ShowsPort(s) <==> Resource(s).key == s && Resource(s).scheme != "mailto"
  {
    BlankStart(s);
    Delimited(s, at);
    assert "mailto" + ":" == "mailto:";
    NotOpaque(s, at, "mailto");
    hide HasPrefix, Find, WebUrl, RestShowsPort, SchemeText;
    if Http(s[..at]) {
      WebSelfKeyed(s[..at], s[at + 3..]);
      WebScheme(s[..at], s[at + 3..]);
    }
  }

  lemma {:induction false} KeyedExactly(s: string)
    ensures SelfKeyed(s) <==> Resource(s).key == s && Resource(s).scheme != "mailto"
  {
    hide HasPrefix, Find, ShowsPort, Join, Hierarchical;
    if HasPrefix(s, "about:") {
      Rejoin(s, "about:");
      ReadAbout(s[6..]);
    } else if HasPrefix(s, "mailto:") {
      Rejoin(s, "mailto:");
      ReadMail(s[7..]);
      MailNotData(s);
    } else if HasPrefix(s, "data:") {
      Rejoin(s, "data:");
      ReadData(s[5..]);
    } else if Find(s, "://").Some? {
      LayeredKeyed(s, Find(s, "://").value);
    } else {
      BlankStart(s);
      NoPort(s);
    }
  }

  lemma {:induction false} NoPort(s: string)
    ensures Find(s, "://").None? ==> !ShowsPort(s)
  {
  }

  lemma {:induction false} MailNotData(s: string)
    requires HasPrefix(s, "mailto:")
    ensures !HasPrefix(s, "data:") && !HasPrefix(s, "about:")
  {
    PrefixFirst(s, "mailto:");
    PrefixFirst(s, "data:");
    PrefixFirst(s, "about:");
  }

  lemma {:induction false} PrintShown(u: Parts)
    requires u.viewSource && u.scheme != "mailto"
    ensures Serialized(u) == WithHash(Join(VIEW, u.key, ""), u.fragment)
  {
  }

  lemma {:induction false} PrintMail(u: Parts)
    requires u.scheme == "mailto"
    ensures Serialized(u) != "" && Serialized(u)[0] == 'm'
  {
  }

  lemma {:induction false} PrintView(b: string, fragment: string)
    ensures var s := WithHash(Join(VIEW, b, ""), fragment);
      s != "" && s[0] == 'v'
  {
  }

  lemma {:induction false} SameView(a: string, b: string, fragment: string)
    ensures WithHash(Join(VIEW, a, ""), fragment) == WithHash(Join(VIEW, b, ""), fragment) <==> a == b
  {
    hide Join, WithHash;
    HashAfter(VIEW, a, fragment);
    HashAfter(VIEW, b, fragment);
    JoinTwo(VIEW, WithHash(a, fragment));
    JoinTwo(VIEW, WithHash(b, fragment));
    SameHash(a, b, fragment);
  }

  lemma {:induction false} SameHash(a: string, b: string, fragment: string)
    ensures WithHash(a, fragment) == WithHash(b, fragment) <==> a == b
  {
    if WithHash(a, fragment) == WithHash(b, fragment) {
      assert |a| == |b|;
      assert WithHash(a, fragment)[..|a|] == a && WithHash(b, fragment)[..|a|] == b;
    }
  }

  /** A view of a file's source prints stably exactly when what follows file:// is its own key. */
  lemma {:induction false} FileSourceStable(text: string)
    requires FileSource(Parsed(text))
    ensures Canonical(Canonical(text)) == Canonical(text) <==> SelfKeyed(Parsed(text).path)
  {
    hide Resource, SelfKeyed, Parsed, Serialized, WithHash, Join, Number, Spelled;
    var u := Parsed(text);
    ParsedShape(text);
    PrintShown(u);
    ReadShown(u.path, u.fragment);
    KeyedExactly(u.path);
    var w := Resource(u.path).(fragment := u.fragment, viewSource := true);
    if w.scheme == "mailto" {
      PrintMail(w);
      PrintView(u.path, u.fragment);
    } else {
      PrintShown(w);
      SameView(w.key, u.path, u.fragment);
    }
  }

  /** Printing is stable exactly for texts that are no view of a file's source, and for such views
      of something that is its own key. */
  lemma {:induction false} Stable(text: string)
    ensures Canonical(Canonical(text)) == Canonical(text) <==>
      !FileSource(Parsed(text)) || SelfKeyed(Parsed(text).path)
  {
    hide Canonical, Parsed, SelfKeyed;
    if FileSource(Parsed(text)) {
      FileSourceStable(text);
    } else {
      PrintStable(text);
    }
  }

  /** In a view of a file's source the reference leads to whatever the path names by itself. */
  lemma {:induction false} FileSourceTarget(text: string, fragment: string)
    requires FileSource(Parsed(text))
    ensures var base, target := Parsed(text), ResolveFragment(Parsed(text), fragment);
      && target == Resource(base.path).(fragment := fragment, viewSource := true)
      && (Canonical(Serialized(target)) == Serialized(target) <==> !FileSource(target) || SelfKeyed(target.path))
  {
    hide Resource, Parsed, Serialized, WithHash, Join, SelfKeyed, Number, Spelled;
    var u := Parsed(text);
    ParsedShape(text);
    PrintShown(u);
    JoinTwo(VIEW, u.path);
    ReadCut(Join(VIEW, u.path, ""), u.fragment);
    ReadShown(u.path, fragment);
    Stable(WithHash(Join(VIEW, u.path, ""), fragment));
  }

  lemma {:induction false} NoFragment(b: string)
    ensures WithHash(b, "") == b
  {
  }

  /** The printed view of a resource without fragment shows its key. */
  lemma {:induction false} KeyView(b: string)
    requires '#' !in b && Resource(b).scheme != "mailto"
    ensures Canonical(Join(VIEW, b, "")) == Join(VIEW, Resource(b).key, "")
  {
    hide Resource, Join, Parsed, Serialized, WithHash;
    NoFragment(Join(VIEW, b, ""));
    NoFragment(Join(VIEW, Resource(b).key, ""));
    ReadShown(b, "");
    PrintShown(Parsed(Join(VIEW, b, "")));
  }

  lemma {:induction false} SampleTexts()
    ensures SchemeText("file", "/x") == "file:///x"
    ensures Join(VIEW, "file:///x", "") == "view-source:file:///x"
    ensures Join(VIEW, "/x", "") == "view-source:/x"
    ensures Join(VIEW, "about:blank", "") == "view-source:about:blank"
  {
  }

  /** A view of a file's source that does not survive being printed and read twice. */
  lemma {:induction false} FileSourceUnstable()
    ensures Canonical("view-source:file:///x") == "view-source:/x"
    ensures Canonical("view-source:/x") == "view-source:about:blank"
  {
    ReadLayered("file", "/x");
    BlankPath();
    SampleTexts();
    hide Resource, Canonical, SchemeText, Join;
    KeyView("file:///x");
    KeyView("/x");
  }

  lemma {:induction false} BlankPath()
    ensures Resource("/x") == Fallback(Plain("", "", ""))
  {
    PrefixFirst("/x", "about:");
    PrefixFirst("/x", "mailto:");
    PrefixFirst("/x", "data:");
  }
}
