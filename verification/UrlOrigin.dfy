/** What the text of a URL means, spelled out: the fields, the printed form and the origin. */
module UrlOrigin {
  import opened Results
  import opened UrlText
  import opened UrlPort
  import opened UrlParse
  import opened UrlFixpoint

  // ----- Web URLs -----

  /** A host and a path as they stand in a URL without view-source prefix. */
  predicate Named(scheme: string, host: string, path: string) {
    && (scheme == "http" || scheme == "https")
    && '/' !in host && ':' !in host && '#' !in host
    && '#' !in path && (path != "" ==> path[0] == '/')
  }

  /** A number as it is usually written. */
  predicate Plainly(number: string) {
    && 0 < |number| <= 4300 && (number[0] == '0' ==> number == "0")
    && (forall k :: 0 <= k < |number| ==> '0' <= number[k] <= '9')
  }

  function Tail(fragment: string): string {
    if fragment == "" then "" else "#" + fragment
  }

  lemma {:induction false} SplitAuthority(authority: string, path: string)
    requires '/' !in authority && (path != "" ==> path[0] == '/')
    ensures var rest := authority + path;
      && IndexOf(rest, '/') == |authority| && rest[..|authority|] == authority
      && (if |authority| < |rest| then rest[|authority|..] else "/") == if path == "" then "/" else path
  {
    if path == "" {
      assert authority + path == authority;
      IndexIs(authority, '/', |authority|);
    } else {
      RestSplit(authority, path);
    }
  }

  lemma {:induction false} SplitPort(host: string, port: string)
    requires ':' !in host
    ensures var authority := host + ":" + port;
      IndexOf(authority, ':') == |host| && authority[..|host|] == host && authority[|host| + 1..] == port
  {
    IndexIs(host + ":" + port, ':', |host|);
  }

  lemma {:induction false} SplitHost(host: string)
    requires ':' !in host
    ensures IndexOf(host, ':') == |host| && host[..|host|] == host
  {
    IndexIs(host, ':', |host|);
  }

  lemma {:induction false} PlainSpelled(number: string)
    requires Plainly(number)
    ensures Decimal(number) == Some(number) && '/' !in number && '#' !in number && Spelled(number)
  {
    SpelledDecimal(number);
    SpelledChars(number);
  }

  lemma {:induction false} KeyMeans(scheme: string, host: string, portText: string, path: string)
    ensures WebKey(scheme, host, portText, path) == scheme + "://" + host + ":" + portText + path
  {
    assert Join(Prefix(scheme, host), PortPart(portText), path) == scheme + "://" + host + ":" + portText + path;
  }

  /** Without a port the default one is taken. */
  lemma {:induction false} FieldsDefault(scheme: string, host: string, path: string)
    requires Named(scheme, host, path)
    ensures var u := WebUrl(scheme, host + path);
      && u.scheme == scheme && u.host == host && u.path == (if path == "" then "/" else path)
      && u.portText == (if scheme == "http" then "80" else "443") && u.port == (if scheme == "http" then 80 else 443)
      && u.key == scheme + "://" + host + ":" + u.portText + u.path
  {
    hide Decimal, Number, Spelled, IndexOf, WebKey;
    SplitAuthority(host, path);
    SplitHost(host);
    KeyMeans(scheme, host, if scheme == "http" then "80" else "443", if path == "" then "/" else path);
  }

  /** A port that can be read is taken in its plain spelling, any other makes the URL blank. */
  lemma {:induction false} FieldsPort(scheme: string, host: string, port: string, path: string)
    requires Named(scheme, host, path) && '/' !in port
    ensures var u := WebUrl(scheme, host + ":" + port + path);
      match Decimal(port)
      case None => u.scheme == "about" && u.path == "blank" && u.key == "about:blank"
      case Some(number) =>
        && u.scheme == scheme && u.host == host && u.path == (if path == "" then "/" else path)
        && u.portText == number && u.key == scheme + "://" + host + ":" + number + u.path
        && Spelled(number) && u.port == Number(number)
  {
    hide Decimal, Number, Spelled, IndexOf, WebKey;
    SplitAuthority(host + ":" + port, path);
    SplitPort(host, port);
    if Decimal(port).Some? {
      DecimalSpelled(port);
      KeyMeans(scheme, host, Decimal(port).value, if path == "" then "/" else path);
    }
  }

  lemma {:induction false} HashTail(b: string, fragment: string)
    ensures WithHash(b, fragment) == b + Tail(fragment)
  {
  }

  /** A text that is no view is read up to its first number sign. */
  lemma {:induction false} ReadText(b: string, fragment: string)
    requires '#' !in b && b != "" && b[0] != 'v'
    ensures Parsed(b + Tail(fragment)) == Resource(b).(fragment := fragment, viewSource := false)
  {
    hide Parsed, Resource, WithHash, Tail;
    HashTail(b, fragment);
    ReadHidden(b, fragment);
  }

  lemma {:induction false} LayeredText(scheme: string, rest: string)
    requires (scheme == "http" || scheme == "https") && '#' !in rest
    ensures SchemeText(scheme, rest) == scheme + "://" + rest
    ensures '#' !in SchemeText(scheme, rest) && SchemeText(scheme, rest) != "" && SchemeText(scheme, rest)[0] != 'v'
  {
    assert SchemeText(scheme, rest)[0] == scheme[0];
  }

  lemma {:induction false} WebTextRead(scheme: string, rest: string, fragment: string)
    requires (scheme == "http" || scheme == "https") && '#' !in rest
    ensures Parsed(scheme + "://" + rest + Tail(fragment)) == WebUrl(scheme, rest).(fragment := fragment, viewSource := false)
  {
    hide Resource, WebUrl, Parsed, SchemeText, Tail;
    LayeredText(scheme, rest);
    ReadLayered(scheme, rest);
    ReadText(SchemeText(scheme, rest), fragment);
  }

  lemma {:induction false} OriginMeans(u: Parts)
    ensures Origin(u) == u.scheme + "://" + u.host + ":" + u.portText
  {
    assert Join(Prefix(u.scheme, u.host), PortPart(u.portText), "") == u.scheme + "://" + u.host + ":" + u.portText;
  }

  lemma {:induction false} WebPrinted(u: Parts)
    requires (u.scheme == "http" || u.scheme == "https") && !u.viewSource
    ensures var port := if u.port == (if u.scheme == "http" then 80 else 443) then "" else ":" + u.portText;
      Serialized(u) == u.scheme + "://" + u.host + port + u.path + Tail(u.fragment)
    ensures Origin(u) == u.scheme + "://" + u.host + ":" + u.portText
  {
    var port := if u.port == (if u.scheme == "http" then 80 else 443) then "" else ":" + u.portText;
    assert ShownPort(u) == port by {
      PortColon(u.portText);
      hide PortPart;
    }
    WebJoin(u.scheme, u.host, port, u.path);
    OriginMeans(u);
    hide Join, WithHash, Tail, Prefix, ShownPort, Origin;
    HashTail(u.scheme + "://" + u.host + port + u.path, u.fragment);
  }

  lemma {:induction false} PortColon(portText: string)
    ensures PortPart(portText) == ":" + portText
  {
  }

  lemma {:induction false} WebJoin(scheme: string, host: string, port: string, path: string)
    ensures Join(Prefix(scheme, host), port, path) == scheme + "://" + host + port + path
  {
  }

  /** A web URL without a port: its fields, its printed form and its origin. */
  lemma {:induction false} DefaultPortMeans(scheme: string, host: string, path: string, fragment: string)
    requires Named(scheme, host, path)
    ensures var text := scheme + "://" + host + path + Tail(fragment);
      var shown, port := if path == "" then "/" else path, if scheme == "http" then "80" else "443";
      && Parsed(text).scheme == scheme && Parsed(text).host == host && Parsed(text).path == shown
      && Parsed(text).fragment == fragment && Parsed(text).portText == port
      && Canonical(text) == scheme + "://" + host + shown + Tail(fragment)
      && Origin(Parsed(text)) == scheme + "://" + host + ":" + port
  {
    hide WebUrl, Parsed, Serialized, Origin;
    var text := scheme + "://" + host + path + Tail(fragment);
    assert text == scheme + "://" + (host + path) + Tail(fragment);
    FieldsDefault(scheme, host, path);
    WebTextRead(scheme, host + path, fragment);
    WebPrinted(Parsed(text));
    assert scheme + "://" + host + "" == scheme + "://" + host;
  }

  /** A web URL with a plainly written port. The printed form leaves the default port out, the origin
      never does. */
  lemma {:induction false} PortMeans(scheme: string, host: string, port: string, path: string, fragment: string)
    requires Named(scheme, host, path) && Plainly(port)
    ensures var text := scheme + "://" + host + ":" + port + path + Tail(fragment);
      var shown := if path == "" then "/" else path;
      var printed := if port == (if scheme == "http" then "80" else "443") then "" else ":" + port;
      && Parsed(text).scheme == scheme && Parsed(text).host == host && Parsed(text).path == shown
      && Parsed(text).fragment == fragment && Parsed(text).portText == port
      && Canonical(text) == scheme + "://" + host + printed + shown + Tail(fragment)
      && Origin(Parsed(text)) == scheme + "://" + host + ":" + port
  {
    hide WebUrl, Parsed, Serialized, Origin, Decimal, Number, Spelled;
    PlainSpelled(port);
    DefaultNumber(scheme, port);
    var text := scheme + "://" + host + ":" + port + path + Tail(fragment);
    assert text == scheme + "://" + (host + ":" + port + path) + Tail(fragment);
    FieldsPort(scheme, host, port, path);
    WebTextRead(scheme, host + ":" + port + path, fragment);
    WebPrinted(Parsed(text));
  }

  /** Only the default port has the default number. */
  lemma {:induction false} DefaultNumber(scheme: string, port: string)
    requires Plainly(port) && Spelled(port) && (scheme == "http" || scheme == "https")
    ensures Number(port) == (if scheme == "http" then 80 else 443) <==> port == if scheme == "http" then "80" else "443"
  {
    DefaultsSpelled(scheme);
    assert Unsigned(port) == port;
    MagnitudeDigits(port);
  }

  /** A number without leading zeros is as large as its length says. */
  lemma {:induction false} MagnitudeLarge(digits: string)
    requires digits != "" && digits[0] != '0' && forall k :: 0 <= k < |digits| ==> '0' <= digits[k] <= '9'
    ensures Magnitude(digits) >= 1 && (|digits| >= 2 ==> Magnitude(digits) >= 10)
    ensures (|digits| >= 3 ==> Magnitude(digits) >= 100) && (|digits| >= 4 ==> Magnitude(digits) >= 1000)
    decreases |digits|
  {
    if |digits| == 1 {
      assert digits[..0] == "";
    } else {
      MagnitudeLarge(digits[..|digits| - 1]);
    }
  }

  lemma {:induction false} MagnitudeTwo(digits: string)
    requires |digits| == 2 && forall k :: 0 <= k < |digits| ==> '0' <= digits[k] <= '9'
    ensures Magnitude(digits) == 10 * (digits[0] as int - '0' as int) + (digits[1] as int - '0' as int)
  {
    assert digits[..1][..0] == "" && Magnitude("") == 0;
    assert Magnitude(digits[..1]) == digits[0] as int - '0' as int;
  }

  lemma {:induction false} MagnitudeThree(digits: string)
    requires |digits| == 3 && forall k :: 0 <= k < |digits| ==> '0' <= digits[k] <= '9'
    ensures Magnitude(digits) ==
      100 * (digits[0] as int - '0' as int) + 10 * (digits[1] as int - '0' as int) + (digits[2] as int - '0' as int)
  {
    MagnitudeTwo(digits[..2]);
  }

  lemma {:induction false} MagnitudeDigits(digits: string)
    requires Plainly(digits)
    ensures forall k :: 0 <= k < |digits| ==> Digit(digits[k])
    ensures Magnitude(digits) == 80 ==> digits == "80"
    ensures Magnitude(digits) == 443 ==> digits == "443"
  {
    if digits == "0" {
      assert digits[..0] == "" && Magnitude("") == 0;
    } else {
      MagnitudeLarge(digits);
      if |digits| == 1 {
        assert digits[..0] == "" && Magnitude("") == 0;
      } else if |digits| == 2 {
        MagnitudeTwo(digits);
      } else if |digits| == 3 {
        MagnitudeThree(digits);
      }
      hide Magnitude;
    }
  }

  /** A port the conversion refuses makes the whole URL blank. */
  lemma {:induction false} BadPortMeans(scheme: string, host: string, port: string, path: string, fragment: string)
    requires Named(scheme, host, path) && '/' !in port && '#' !in port && Decimal(port).None?
    ensures var text := scheme + "://" + host + ":" + port + path + Tail(fragment);
      Canonical(text) == "about:blank" + Tail(fragment)
  {
    hide WebUrl, Parsed, Decimal;
    var text := scheme + "://" + host + ":" + port + path + Tail(fragment);
    assert text == scheme + "://" + (host + ":" + port + path) + Tail(fragment);
    FieldsPort(scheme, host, port, path);
    WebTextRead(scheme, host + ":" + port + path, fragment);
    assert Join("about:", "blank", "") == "about:blank";
    assert WithHash("about:blank", fragment) == "about:blank" + Tail(fragment);
  }

  /** A view of a web URL shows its port always. */
  lemma {:induction false} ViewMeans(scheme: string, host: string, path: string, fragment: string)
    requires Named(scheme, host, path)
    ensures var text := "view-source:" + (scheme + "://" + host + path) + Tail(fragment);
      var shown, port := if path == "" then "/" else path, if scheme == "http" then "80" else "443";
      Canonical(text) == "view-source:" + (scheme + "://" + host + ":" + port + shown) + Tail(fragment)
  {
    var b := SchemeText(scheme, host + path);
    LayeredText(scheme, host + path);
    assert b == scheme + "://" + host + path && '#' !in host + path;
    FieldsDefault(scheme, host, path);
    ReadLayered(scheme, host + path);
    hide WebUrl, Parsed, Resource, WithHash, Tail, SchemeText, Join;
    ReadShown(b, fragment);
    ViewJoin(b);
    HashTail("view-source:" + b, fragment);
    var u := Resource(b).(fragment := fragment, viewSource := true);
    PrintShown(u);
    ViewJoin(u.key);
    HashTail("view-source:" + u.key, fragment);
  }

  lemma {:induction false} ViewJoin(b: string)
    ensures Join(VIEW, b, "") == "view-source:" + b
  {
  }

  /** A text that starts with a name and a colon has that name before its first colon. */
  lemma {:induction false} NameBefore(scheme: string, rest: string, name: string)
    requires ':' !in scheme && ':' !in name
    ensures HasPrefix(scheme + ":" + rest, name + ":") ==> name == scheme
  {
    var s, prefix := scheme + ":" + rest, name + ":";
    if HasPrefix(s, prefix) {
      IndexIs(s, ':', |scheme|);
      forall k | 0 <= k < |name| ensures s[k] != ':' {
        assert s[k] == s[..|prefix|][k] == prefix[k] == name[k];
      }
      assert s[|name|] == s[..|prefix|][|name|] == ':';
      IndexIs(s, ':', |name|);
      assert s[..|name|] == s[..|prefix|][..|name|] == name;
    }
  }

  lemma {:induction false} NoKnownName(scheme: string, rest: string)
    requires ':' !in scheme && scheme !in ["about", "mailto", "data", "view-source"]
    ensures var b := scheme + ":" + rest;
      !HasPrefix(b, "about:") && !HasPrefix(b, "mailto:") && !HasPrefix(b, "data:") && !HasPrefix(b, "view-source:")
  {
    assert "about" + ":" == "about:" && "mailto" + ":" == "mailto:" && "data" + ":" == "data:";
    assert "view-source" + ":" == "view-source:";
    hide HasPrefix;
    NameBefore(scheme, rest, "about");
    NameBefore(scheme, rest, "mailto");
    NameBefore(scheme, rest, "data");
    NameBefore(scheme, rest, "view-source");
  }

  lemma {:induction false} UnknownResource(scheme: string, rest: string)
    requires ':' !in scheme && scheme !in ["http", "https", "file", "data", "about", "mailto", "view-source"]
    ensures Resource(SchemeText(scheme, rest)) == Fallback(Plain("", "", ""))
  {
    assert SchemeText(scheme, rest) == scheme + ":" + ("//" + rest);
    hide SchemeText, HasPrefix, Find;
    SplitScheme(scheme, rest);
    FindScheme(scheme, rest);
    NoKnownName(scheme, "//" + rest);
  }

  /** A text whose first part is no view prefix is read up to its first number sign. */
  lemma {:induction false} ReadUnviewed(b: string, fragment: string)
    requires '#' !in b && !HasPrefix(WithHash(b, fragment), "view-source:")
    ensures Parsed(WithHash(b, fragment)) == Resource(b).(fragment := fragment, viewSource := false)
  {
    hide Resource, Join, WithHash, HasPrefix;
    ReadCut(b, fragment);
    hide IndexOf;
  }

  /** Any other scheme is blank. */
  lemma {:induction false} UnknownMeans(scheme: string, rest: string, fragment: string)
    requires ':' !in scheme && '#' !in scheme && '#' !in rest
    requires scheme !in ["http", "https", "file", "data", "about", "mailto", "view-source"]
    ensures Canonical(scheme + "://" + rest + Tail(fragment)) == "about:blank" + Tail(fragment)
  {
    var b := SchemeText(scheme, rest);
    assert b == scheme + "://" + rest && '#' !in b;
    assert b + Tail(fragment) == scheme + ":" + ("//" + rest + Tail(fragment));
    assert Join("about:", "blank", "") == "about:blank";
    hide Parsed, WithHash, Tail, SchemeText, Join, HasPrefix, Resource;
    UnknownResource(scheme, rest);
    HashTail(b, fragment);
    NoKnownName(scheme, "//" + rest + Tail(fragment));
    ReadUnviewed(b, fragment);
    HashTail("about:blank", fragment);
  }

  // ----- Origins -----

  lemma {:induction false} SameUpTo(a: string, b: string, x: string, y: string, c: char)
    requires c !in a && c !in b && a + [c] + x == b + [c] + y
    ensures a == b && x == y
  {
    var s, t := a + [c] + x, b + [c] + y;
    IndexIs(s, c, |a|);
    IndexIs(t, c, |b|);
    assert s[..|a|] == a && t[..|b|] == b;
    assert s[|a| + 1..] == x && t[|b| + 1..] == y;
  }

  lemma {:induction false} OriginParts(scheme: string, host: string, port: string, scheme': string, host': string,
                                       port': string)
    requires ':' !in scheme && ':' !in scheme' && ':' !in host && ':' !in host'
    requires scheme + "://" + host + ":" + port == scheme' + "://" + host' + ":" + port'
    ensures scheme == scheme' && host == host' && port == port'
  {
    var x, y := "//" + host + ":" + port, "//" + host' + ":" + port';
    assert scheme + "://" + host + ":" + port == scheme + [':'] + x;
    assert scheme' + "://" + host' + ":" + port' == scheme' + [':'] + y;
    SameUpTo(scheme, scheme', x, y, ':');
    assert x[2..] == host + [':'] + port && y[2..] == host' + [':'] + port';
    SameUpTo(host, host', port, port', ':');
  }

  lemma {:induction false} WebFieldsClean(text: string)
    requires Parsed(text).scheme == "http" || Parsed(text).scheme == "https"
    ensures var u := Parsed(text); ':' !in u.host && '/' !in u.host && u.path != "" && u.path[0] == '/'
    ensures Origin(Parsed(text)) == Parsed(text).scheme + "://" + Parsed(text).host + ":" + Parsed(text).portText
  {
    ParsedShape(text);
    var u := Parsed(text);
    hide Parsed, Spelled, Number;
    assert u.scheme != "about" && u.scheme != "mailto" && u.scheme != "data" && u.scheme != "file";
    assert Origin(u) == u.scheme + "://" + u.host + ":" + u.portText + "";
  }

  /** Two web URLs have the same origin exactly when scheme, host and port are the same. */
  lemma {:induction false} SameOrigin(a: string, b: string)
    requires Parsed(a).scheme == "http" || Parsed(a).scheme == "https"
    requires Parsed(b).scheme == "http" || Parsed(b).scheme == "https"
    ensures Origin(Parsed(a)) == Origin(Parsed(b)) <==>
      Parsed(a).scheme == Parsed(b).scheme && Parsed(a).host == Parsed(b).host && Parsed(a).portText == Parsed(b).portText
  {
    hide Parsed, Origin;
    WebFieldsClean(a);
    WebFieldsClean(b);
    var u, v := Parsed(a), Parsed(b);
    if Origin(u) == Origin(v) {
      OriginParts(u.scheme, u.host, u.portText, v.scheme, v.host, v.portText);
    }
  }

  // ----- Other URLs -----

  lemma {:induction false} PlainResource(scheme: string, path: string)
    requires scheme == "about:" || scheme == "data:" || scheme == "file://"
    ensures var u := Resource(scheme + path);
      u.path == path && u.scheme == if scheme == "about:" then "about" else if scheme == "data:" then "data" else "file"
  {
    if scheme == "about:" {
      ReadAbout(path);
      assert Join("about:", path, "") == scheme + path;
    } else if scheme == "data:" {
      ReadData(path);
      assert Join("data:", path, "") == scheme + path;
    } else {
      ReadLayered("file", path);
      assert SchemeText("file", path) == scheme + path;
    }
    hide Resource;
  }

  lemma {:induction false} PlainBase(scheme: string, u: Parts)
    requires scheme == "about:" || scheme == "data:" || scheme == "file://"
    requires u.scheme == (if scheme == "about:" then "about" else if scheme == "data:" then "data" else "file")
    requires !u.viewSource
    ensures Serialized(u) == WithHash(scheme + u.path, u.fragment)
  {
    assert Join(scheme, u.path, "") == scheme + u.path;
    hide WithHash;
  }

  /** about, data and file URLs keep all of their text. */
  lemma {:induction false} PlainMeans(scheme: string, path: string, fragment: string)
    requires scheme == "about:" || scheme == "data:" || scheme == "file://"
    requires '#' !in path
    ensures var text := scheme + path + Tail(fragment);
      && Parsed(text).path == path && Parsed(text).fragment == fragment
      && Parsed(text).scheme == (if scheme == "about:" then "about" else if scheme == "data:" then "data" else "file")
      && Canonical(text) == text
  {
    var b := scheme + path;
    assert b[0] == scheme[0] && '#' !in b;
    hide Parsed, Resource, WithHash, Tail, Serialized;
    PlainResource(scheme, path);
    ReadText(b, fragment);
    PlainBase(scheme, Parsed(b + Tail(fragment)));
    HashTail(b, fragment);
  }

  /** A mail address prints without the fragment. */
  lemma {:induction false} MailMeans(path: string, fragment: string)
    requires '#' !in path
    ensures var text := "mailto:" + path + Tail(fragment);
      Parsed(text).scheme == "mailto" && Parsed(text).path == path && Canonical(text) == "mailto:" + path
  {
    var b := "mailto:" + path;
    assert b[0] == 'm' && '#' !in b;
    ReadMail(path);
    assert Join("mailto:", path, "") == b;
    hide Parsed, Resource, WithHash, Tail, Join;
    ReadText(b, fragment);
    HashTail(b, "");
    NoTail(b);
  }

  lemma {:induction false} NoTail(b: string)
    ensures b + Tail("") == b
  {
  }
}
