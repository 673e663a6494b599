/** src/session.c: one tab's page and history. A page is known by the text of its URL. */
module Sessions {
  import opened Results

  datatype History = History(urls: seq<string>, index: nat, page: Option<string>)

  const EMPTY: History := History([], 0, None)

  predicate Sound(h: History) {
    && (if h.urls == [] then h.index == 0 else h.index < |h.urls|)
    && (h.page.Some? ==> h.urls != [])
  }

  /** A new entry replaces whatever lay ahead. */
  function Appended(h: History, url: string, page: Option<string>): (r: History)
    requires Sound(h)
    ensures r.index == |r.urls| - 1
  {
    var kept := if h.urls == [] then 0 else h.index + 1;
    History(h.urls[..kept] + [url], kept, if page.Some? then page else h.page)
  }

  function Navigated(h: History, url: string): History
    requires Sound(h)
  {
    Appended(h, url, Some(url))
  }

  /** A page may take a history position only with the URL recorded there. */
  predicate Traversable(h: History, url: string, target: nat) {
    target < |h.urls| && url == h.urls[target]
  }

  function Traversed(h: History, url: string, target: nat): History {
    h.(page := Some(url), index := target)
  }

  /** A fragment is recorded for the page that shows it. */
  function Recorded(h: History, url: string): History
    requires Sound(h)
  {
    if h.page == Some(url) then Appended(h, url, None) else h
  }

  datatype Move = Back | Forward

  function Target(h: History, move: Move): Option<(string, nat)>
    requires Sound(h)
  {
    match move
    case Back => if h.urls == [] || h.index == 0 then None else Some((h.urls[h.index - 1], h.index - 1))
    case Forward => if h.index + 1 >= |h.urls| then None else Some((h.urls[h.index + 1], h.index + 1))
  }

  /** Committing a page for the target of a move always succeeds, and moving back from there finds
      the entry the session was at. */
  lemma {:induction false} MoveReturns(h: History, move: Move)
    requires Sound(h) && Target(h, move).Some?
    ensures var (url, target) := Target(h, move).value;
      && Traversable(h, url, target)
      && var r := Traversed(h, url, target);
         && Sound(r) && r.urls == h.urls
         && Target(r, if move.Back? then Forward else Back) == Some((h.urls[h.index], h.index))
  {
  }

  /** After an append the entry before is where the session was, and nothing lies ahead. */
  lemma {:induction false} AppendBack(h: History, url: string, page: Option<string>)
    requires Sound(h) && h.urls != []
    ensures var r := Appended(h, url, page);
      && Sound(r) && Target(r, Back) == Some((h.urls[h.index], h.index)) && Target(r, Forward) == None
      && r.urls[..h.index + 1] == h.urls[..h.index + 1]
  {
  }

  class Session {
    var urls: seq<string>
    var index: nat
    var page: Option<string>

    ghost function Abs(): History
      reads this
    {
      History(urls, index, page)
    }

    ghost predicate Valid()
      reads this
    {
      Sound(Abs())
    }

    constructor ()
      ensures Valid() && Abs() == EMPTY
    {
      urls, index, page := [], 0, None;
    }

    method AppendUrl(url: string, candidate: Option<string>)
      requires Valid()
      modifies this
      ensures Valid() && Abs() == Appended(old(Abs()), url, candidate)
    {
      var kept := if |urls| > 0 then index + 1 else 0;
      urls := urls[..kept] + [url];
      index := kept;
      if candidate.Some? {
        page := candidate;
      }
    }

    method RecordFragment(url: string) returns (ok: bool)
      requires Valid()
      modifies this
      ensures Valid() && Abs() == Recorded(old(Abs()), url) && ok == (old(page) == Some(url))
    {
      ok := page == Some(url);
      if ok {
        AppendUrl(url, None);
      }
    }

    method CommitNavigation(candidate: string)
      requires Valid()
      modifies this
      ensures Valid() && Abs() == Navigated(old(Abs()), candidate)
    {
      AppendUrl(candidate, Some(candidate));
    }

    method CommitHistory(candidate: string, target: nat) returns (ok: bool)
      requires Valid()
      modifies this
      ensures Valid() && ok == old(Traversable(Abs(), candidate, target))
      ensures Abs() == if ok then Traversed(old(Abs()), candidate, target) else old(Abs())
    {
      if |urls| == 0 || target >= |urls| || candidate != urls[target] {
        return false;
      }
      page, index := Some(candidate), target;
      ok := true;
    }

    method HistoryTarget(move: Move) returns (target: Option<(string, nat)>)
      requires Valid()
      ensures target == Target(Abs(), move)
    {
      if |urls| == 0 {
        return None;
      }
      if move.Back? && index == 0 {
        return None;
      }
      var at: nat := if move.Back? then index - 1 else index + 1;
      if at >= |urls| {
        return None;
      }
      target := Some((urls[at], at));
    }
  }
}
