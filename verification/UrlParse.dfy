/** tai_url_parse and finalize of src/url.c.

    The pure functions split a text into the fields of a URL and print them again; the class Url does
    it field by field, cutting its input as it goes. Canonical is one round of parsing and printing,
    and UrlFixpoint says when a second round changes nothing.
*/
module UrlParse {
  import opened UrlText
  import opened UrlPort

  /** The fields of a parsed URL before it is printed. */
  datatype Parts = Parts(scheme: string, host: string, path: string, fragment: string, key: string,
                         portText: string, port: int, viewSource: bool)

  function Join(a: string, b: string, c: string): string {
    a + b + c
  }

  function Prefix(scheme: string, host: string): string {
    Join(scheme, "://", host)
  }

  function PortPart(portText: string): string {
    Join(":", portText, "")
  }

  predicate Http(scheme: string) {
    scheme == "http" || scheme == "https"
  }

  predicate Supported(scheme: string) {
    Http(scheme) || scheme == "file" || scheme == "data" || scheme == "about" || scheme == "mailto"
  }

  function DefaultPort(scheme: string): int {
    if scheme == "http" then 80 else if scheme == "https" then 443 else 0
  }

  function DefaultText(scheme: string): string {
    if scheme == "http" then "80" else if scheme == "https" then "443" else "0"
  }

  function Plain(scheme: string, path: string, key: string): Parts {
    Parts(scheme, "", path, "", key, "0", 0, false)
  }

  function Fallback(u: Parts): Parts {
    u.(scheme := "about", path := "blank", key := "about:blank")
  }

  /** The key of a web resource always shows its port. */
  function WebKey(scheme: string, host: string, portText: string, path: string): string {
    Join(Prefix(scheme, host), PortPart(portText), path)
  }

  function WebUrl(scheme: string, rest: string): Parts
    requires Http(scheme)
  {
    var slash := IndexOf(rest, '/');
    var path := if slash < |rest| then rest[slash..] else "/";
    var authority := rest[..slash];
    var colon := IndexOf(authority, ':');
    var host := authority[..colon];
    if colon == |authority| then
      Parts(scheme, host, path, "", WebKey(scheme, host, DefaultText(scheme), path),
            DefaultText(scheme), DefaultPort(scheme), false)
    else
      match Decimal(authority[colon + 1..])
      case None =>
        Fallback(Parts(scheme, host, path, "", "", DefaultText(scheme), DefaultPort(scheme), false))
      case Some(number) =>
        DecimalSpelled(authority[colon + 1..]);
        Parts(scheme, host, path, "", WebKey(scheme, host, number, path), number, Number(number), false)
  }

  function Hierarchical(scheme: string, rest: string): Parts {
    if !Supported(scheme) then Fallback(Plain("", "", ""))
    else if Http(scheme) then WebUrl(scheme, rest)
    else Plain(scheme, if scheme == "file" then rest else "", rest)
  }

  /** A URL without view-source prefix and fragment. */
  function Resource(s: string): Parts {
    if HasPrefix(s, "about:") || HasPrefix(s, "mailto:") then
      var colon := IndexOf(s, ':');
      Plain(s[..colon], if colon < |s| then s[colon + 1..] else "", s)
    else if HasPrefix(s, "data:") then Plain("data", s[5..], s)
    else
      match Find(s, "://")
      case None => Fallback(Plain("", "", ""))
      case Some(at) =>
        Hierarchical(s[..at], s[at + 3..])
  }

  function Parsed(text: string): Parts {
    var viewSource := HasPrefix(text, "view-source:");
    var s := if viewSource then text[12..] else text;
    var cut := IndexOf(s, '#');
    Resource(s[..cut]).(fragment := if cut < |s| then s[cut + 1..] else "", viewSource := viewSource)
  }

  function ShownPort(u: Parts): string {
    if (u.scheme == "http" && u.port == 80) || (u.scheme == "https" && u.port == 443) then "" else PortPart(u.portText)
  }

  /** The printed form up to the fragment. */
  function Base(u: Parts): string {
    if u.scheme == "mailto" then Join("mailto:", u.path, "")
    else if u.viewSource then Join("view-source:", u.key, "")
    else if u.scheme == "about" then Join("about:", u.path, "")
    else if u.scheme == "data" then Join("data:", u.path, "")
    else if u.scheme == "file" then Join("file://", u.path, "")
    else Join(Prefix(u.scheme, u.host), ShownPort(u), u.path)
  }

  function WithHash(base: string, fragment: string): string {
    Join(base, if fragment != "" then "#" else "", fragment)
  }

  function Serialized(u: Parts): string {
    WithHash(Base(u), if u.scheme == "mailto" then "" else u.fragment)
  }

  function Origin(u: Parts): string {
    Join(Prefix(u.scheme, u.host), PortPart(u.portText), "")
  }

  /** Parsing and printing again. */
  function Canonical(text: string): string {
    Serialized(Parsed(text))
  }

  /** A view of a file's source: its printed form has lost the scheme. */
  predicate FileSource(u: Parts) {
    u.viewSource && u.scheme == "file"
  }

  class Url {
    var scheme: string
    var host: string
    var path: string
    var fragment: string
    var key: string
    var portText: string
    var port: int
    var viewSource: bool
    var serialized: string
    var origin: string

    ghost function Fields(): Parts
      reads this
    {
      Parts(scheme, host, path, fragment, key, portText, port, viewSource)
    }

    constructor (text: string)
      ensures Fields() == Parsed(text)
      ensures serialized == Canonical(text) && origin == Origin(Parsed(text))
    {
      scheme, host, path, fragment, key, portText := "", "", "", "", text, "0";
      port, viewSource := 0, false;
      serialized, origin := "", "";
      new;
      var s := text;
      if HasPrefix(s, "view-source:") {
        viewSource, s := true, s[12..];
      }
      var cut := Strchr(s, '#');
      if cut < |s| {
        fragment, s := s[cut + 1..], s[..cut];
      }
      assert s == (if HasPrefix(text, "view-source:") then text[12..] else text)[..cut];
      ReadResource(s);
      Finalize();
    }

    method ReadResource(s: string)
      requires (scheme, host, path, portText, port) == ("", "", "", "0", 0)
      modifies this
      ensures Fields() == Resource(s).(fragment := old(fragment), viewSource := old(viewSource))
    {
      hide WebUrl, IndexOf, Find;
      if HasPrefix(s, "about:") || HasPrefix(s, "mailto:") {
        var colon := Strchr(s, ':');
        key, scheme := s, s[..colon];
        path := if colon < |s| then s[colon + 1..] else "";
        return;
      }
      if HasPrefix(s, "data:") {
        scheme, path, key := "data", s[5..], s;
        return;
      }
      var delimiter := Strstr(s, "://");
      if delimiter.None? {
        FallBack();
        return;
      }
      ReadHierarchical(s[..delimiter.value], s[delimiter.value + 3..]);
    }

    method ReadHierarchical(name: string, rest: string)
      requires (host, path, portText, port) == ("", "", "0", 0)
      modifies this
      ensures Fields() == Hierarchical(name, rest).(fragment := old(fragment), viewSource := old(viewSource))
    {
      hide WebUrl;
      scheme := name;
      if !Supported(scheme) {
        FallBack();
        return;
      }
      port := DefaultPort(scheme);
      if Http(scheme) {
        ReadWeb(rest);
      } else {
        if scheme == "file" {
          path := rest;
        }
        key := rest;
      }
    }

    method ReadWeb(rest: string)
      requires Http(scheme) && port == DefaultPort(scheme)
      modifies this
      ensures Fields() == WebUrl(old(scheme), rest).(fragment := old(fragment), viewSource := old(viewSource))
    {
      hide Decimal, Spelled, Number, Join, IndexOf;
      portText := DefaultText(scheme);
      var slash := Strchr(rest, '/');
      path := if slash < |rest| then rest[slash..] else "/";
      var authority := rest[..slash];
      host := authority;
      var colon := Strchr(host, ':');
      if colon < |host| {
        var number := DecimalPort(host[colon + 1..]);
        host := host[..colon];
        if number.None? {
          FallBack();
          return;
        }
        DecimalSpelled(authority[colon + 1..]);
        portText, port := number.value, Number(number.value);
      } else {
        assert host[..colon] == host;
      }
      key := Join(Prefix(scheme, host), PortPart(portText), path);
    }

    method FallBack()
      modifies `scheme, `path, `key
      ensures (scheme, path, key) == ("about", "blank", "about:blank")
    {
      scheme, path, key := "about", "blank", "about:blank";
    }

    method Finalize()
      modifies `serialized, `origin
      ensures serialized == Serialized(Fields()) && origin == Origin(Fields())
    {
      hide Join;
      var portPart := Join(":", portText, "");
      var prefix := Join(scheme, "://", host);
      origin := Join(prefix, portPart, "");
      var base;
      if scheme == "mailto" {
        base := Join("mailto:", path, "");
      } else if viewSource {
        base := Join("view-source:", key, "");
      } else if scheme == "about" {
        base := Join("about:", path, "");
      } else if scheme == "data" {
        base := Join("data:", path, "");
      } else if scheme == "file" {
        base := Join("file://", path, "");
      } else {
        if (scheme == "http" && port == 80) || (scheme == "https" && port == 443) {
          portPart := "";
        }
        base := Join(prefix, portPart, path);
      }
      serialized := Join(base, if fragment != "" && scheme != "mailto" then "#" else "",
                         if scheme != "mailto" then fragment else "");
    }
  }
}
