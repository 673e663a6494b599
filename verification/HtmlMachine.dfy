/** The HTML tree builder of src/dom.c as a machine over tag and text tokens.

    The machine keeps the open elements as a zipper: `open[i]` is the element at stack index `i`
    together with the children already attached to it.  HtmlBuilder.dfy proves that the
    imperative builder, which edits child arrays and parent links in place, computes exactly
    these functions; the properties of the builder are proved here. */
module HtmlMachine {
  import opened Results

  // ----- Tags and tokens -----

  datatype FormatName = FmtB | FmtI | FmtU | FmtSmall | FmtBig
  datatype HeadVoidName = BaseTag | LinkTag | MetaTag
  datatype HeadName = Basefont | Bgsound | Noscript | Title | Style | Script
  datatype VoidName = Area | Br | Col | Embed | Hr | Img | Input | Param | Source | Track | Wbr

  /** A case-folded tag name; `Other` stands for every name no list of the parser mentions. */
  datatype Name =
    | Html | Head | Body | P | Li | Ul | Ol
    | Format(format: FormatName)
    | HeadVoid(headVoid: HeadVoidName)
    | HeadContent(headContent: HeadName)
    | Void(void: VoidName)
    | Other(text: string)

  /** Names and values, in the order they were first set. */
  type Attributes = seq<(string, string)>

  datatype Tag = Declaration | Start(name: Name, attributes: Attributes) | End(name: Name)

  datatype Token = TextToken(text: string) | TagToken(tag: Tag)

  predicate IsVoid(name: Name) {
    name.HeadVoid? || name.Void?
  }

  /** "base basefont bgsound noscript link meta title style script" */
  predicate IsHeadStart(t: Option<Tag>) {
    t.Some? && t.value.Start? && (t.value.name.HeadVoid? || t.value.name.HeadContent?)
  }

  predicate IsStart(t: Option<Tag>, name: Name) {
    t.Some? && t.value.Start? && t.value.name == name
  }

  predicate IsEnd(t: Option<Tag>, name: Name) {
    t.Some? && t.value.End? && t.value.name == name
  }

  // ----- The machine -----

  datatype Content = Element(name: Name, attributes: Attributes) | Text(text: string)

  datatype Tree = Tree(id: nat, content: Content, kids: seq<Tree>)

  /** An entry of the list of active formatting elements. */
  datatype Opened = Opened(id: nat, content: Content)

  /** `limit` is None for the reference machine without a depth cap, `budget` is 0 for no limit
      on the number of nodes. */
  datatype Machine = Machine(
    limit: Option<nat>, budget: nat, count: nat,
    open: seq<Tree>, excess: nat, format: seq<Opened>, early: set<nat>)

  datatype Outcome<+T> = Ok(value: T) | Invalid | OverBudget {
    predicate IsFailure() { !Ok? }
    function PropagateFailure<U>(): Outcome<U>
      requires !Ok?
    {
      if Invalid? then Invalid else OverBudget
    }
    function Extract(): T
      requires Ok?
    {
      value
    }
  }

  function Initial(limit: Option<nat>, budget: nat): Machine {
    Machine(limit, budget, 0, [], 0, [], {})
  }

  predicate HasName(content: Content, name: Name) {
    content.Element? && content.name == name
  }

  predicate IsFormat(content: Content) {
    content.Element? && content.name.Format?
  }

  predicate Fits(limit: Option<nat>) {
    limit.Some? ==> limit.value >= 3
  }

  predicate Below(n: nat, limit: Option<nat>) {
    limit.Some? ==> n < limit.value
  }

  function Attach(open: seq<Tree>, kid: Tree): seq<Tree>
    requires open != []
  {
    var top := open[|open| - 1];
    open[..|open| - 1] + [top.(kids := top.kids + [kid])]
  }

  /** Closes the deepest open element: it becomes the last child of the one above it. */
  function PopAttach(m: Machine): Machine
    requires |m.open| >= 2
  {
    m.(open := Attach(m.open[..|m.open| - 1], m.open[|m.open| - 1]))
  }

  function NewNode(m: Machine, content: Content): (r: Outcome<Machine>)
    ensures r.Ok? ==> r.value == m.(count := m.count + 1)
  {
    if m.budget != 0 && m.count >= m.budget then OverBudget else Ok(m.(count := m.count + 1))
  }

  /** A formatting element at the top is remembered before it is closed early. */
  function Marked(m: Machine): Machine
    requires m.open != []
  {
    var top := m.open[|m.open| - 1];
    if IsFormat(top.content) then m.(early := m.early + {top.id}) else m
  }

  /** Opens t; when the stack is full the deepest element is closed first and counted in excess. */
  function OpenElement(m: Machine, t: Tree): Machine
    requires Fits(m.limit)
  {
    var n := |m.open|;
    var c :=
      if Below(n, m.limit) then m
      else
        PopAttach(Marked(m).(excess := m.excess + 1));
    c.(open := c.open + [t])
  }

  function OpenNew(m: Machine, content: Content): (r: Machine)
    requires Fits(m.limit)
    ensures r.limit == m.limit && r.open != []
  {
    OpenElement(m.(count := m.count + 1), Tree(m.count, content, []))
  }

  function AddLeaf(m: Machine, content: Content): Machine
    requires m.open != []
  {
    m.(count := m.count + 1, open := Attach(m.open, Tree(m.count, content, [])))
  }

  function Remember(m: Machine, id: nat, content: Content): Machine {
    m.(format := m.format + [Opened(id, content)])
  }

  /** A start tag after its implied tags have been handled. */
  function StartElement(m: Machine, name: Name, attributes: Attributes): (r: Outcome<Machine>)
    requires Fits(m.limit)
    requires m.open == [] ==> !IsVoid(name)
    ensures r.Ok? ==> r.value.limit == m.limit && r.value.open != []
  {
    var content := Element(name, attributes);
    var c :- NewNode(m, content);
    Ok(if IsVoid(name) then AddLeaf(m, content)
       else if name.Format? then Remember(OpenNew(m, content), m.count, content)
       else OpenNew(m, content))
  }

  predicate Named(m: Machine, i: nat, name: Name) {
    i < |m.open| && HasName(m.open[i].content, name)
  }

  /** `t` is not allowed in an open head. */
  predicate LeavesHead(m: Machine, t: Option<Tag>) {
    |m.open| == 2 && Named(m, 0, Html) && Named(m, 1, Head) && !IsEnd(t, Head) && !IsHeadStart(t)
  }

  /** `t` needs a head or a body to be open. */
  predicate LeavesRoot(m: Machine, t: Option<Tag>) {
    |m.open| == 1 && Named(m, 0, Html) && !IsStart(t, Head) && !IsStart(t, Body) && !IsEnd(t, Html)
  }

  /** Leaves the head and opens a head or a body as `t` demands. */
  function Descend(m: Machine, t: Option<Tag>): (r: Outcome<Machine>)
    requires Fits(m.limit)
    requires m.open != []
    ensures r.Ok? ==> r.value.limit == m.limit && r.value.open != []
  {
    var c := if LeavesHead(m, t) then PopAttach(m.(excess := 0)) else m;
    if LeavesRoot(c, t) then StartElement(c, if IsHeadStart(t) then Head else Body, []) else Ok(c)
  }

  /** The tags `implicit` supplies before `t`, in closed form; None stands for text. */
  function Implied(m: Machine, t: Option<Tag>): (r: Outcome<Machine>)
    requires Fits(m.limit)
    ensures r.Ok? ==> r.value.limit == m.limit && (r.value.open == [] ==> IsStart(t, Html))
  {
    if m.open == [] then
      if IsStart(t, Html) then Ok(m)
      else
        var root :- StartElement(m, Html, []);
        Descend(root, t)
    else Descend(m, t)
  }

  /** An end tag that is not a formatting one. */
  function EndPlain(m: Machine): Machine
    requires m.open != []
  {
    if m.excess > 0 && Below(|m.open|, m.limit) then m.(excess := m.excess - 1)
    else if |m.open| == 1 then m
    else PopAttach(m)
  }

  /** One pop of a formatting end tag; the root is dropped with everything in it. */
  function PopOne(m: Machine): Machine
    requires m.open != []
  {
    var n := |m.open|;
    m.(excess := if Below(n, m.limit) then 0 else m.excess,
       open := if n >= 2 then Attach(m.open[..n - 1], m.open[n - 1]) else [])
  }

  /** The pops of a formatting end tag: down to and including the nearest element of that name,
      or the whole stack when there is none. */
  function PopTo(m: Machine, name: Name): (r: Machine)
    ensures r.limit == m.limit
    decreases |m.open|
  {
    if m.open == [] then m
    else if HasName(m.open[|m.open| - 1].content, name) then PopOne(m)
    else PopTo(PopOne(m), name)
  }

  function Reopen(m: Machine, entries: seq<Opened>): (r: Outcome<Machine>)
    requires Fits(m.limit)
    ensures r.Ok? ==> r.value.limit == m.limit
    decreases |entries|
  {
    if entries == [] then Ok(m)
    else if m.open == [] then Invalid
    else
      var c :- NewNode(m, entries[0].content);
      Reopen(Remember(OpenNew(m, entries[0].content), m.count, entries[0].content), entries[1..])
  }

  /** The index of the last formatting entry of that name among the first n, or |format|. */
  function LastFormat(format: seq<Opened>, name: Name, n: nat): (found: nat)
    requires n <= |format|
    ensures found < n || found == |format|
    ensures found < n ==> HasName(format[found].content, name)
    ensures forall i :: (if found == |format| then 0 else found + 1) <= i < n ==> !HasName(format[i].content, name)
  {
    if n == 0 then |format|
    else if HasName(format[n - 1].content, name) then n - 1
    else LastFormat(format, name, n - 1)
  }

  function EndFormat(m: Machine, name: Name): Outcome<Machine>
    requires Fits(m.limit)
  {
    var found := LastFormat(m.format, name, |m.format|);
    if found == |m.format| then Ok(m)
    else if m.format[found].id in m.early then
      Ok(m.(format := m.format[..found] + m.format[found + 1..],
            excess := if m.excess > 0 then m.excess - 1 else 0))
    else
      Reopen(PopTo(m.(format := m.format[..found]), name), m.format[found + 1..])
  }

  /** An open li not separated from the top by a list. */
  predicate OpenItem(open: seq<Tree>) {
    open != [] &&
    var content := open[|open| - 1].content;
    HasName(content, Li) ||
    (!HasName(content, Ul) && !HasName(content, Ol) && OpenItem(open[..|open| - 1]))
  }

  predicate OpenParagraph(open: seq<Tree>) {
    exists i :: 0 <= i < |open| && HasName(open[i].content, P)
  }

  /** The element a start tag closes first. */
  predicate ClosesOne(m: Machine, t: Tag) {
    t.Start? && ((t.name == P && OpenParagraph(m.open)) || (t.name == Li && OpenItem(m.open)))
  }

  function HandleTag(m: Machine, t: Tag): Outcome<Machine>
    requires Fits(m.limit)
  {
    if t.Declaration? then Ok(m)
    else
      var m1 :- Implied(m, Some(t));
      var m2 := if ClosesOne(m1, t) then EndPlain(m1) else m1;
      match t
      case End(name) =>
        if name.Format? then EndFormat(m2, name)
        else Ok(EndPlain(m2))
      case Start(name, attributes) =>
        StartElement(m2, name, attributes)
  }

  function HandleText(m: Machine, text: string): Outcome<Machine>
    requires Fits(m.limit)
  {
    var m1 :- Implied(m, None);
    var m2 :- NewNode(m1, Text(text));
    Ok(AddLeaf(m1, Text(text)))
  }

  function Step(m: Machine, token: Token): Outcome<Machine>
    requires Fits(m.limit)
  {
    match token
    case TextToken(text) => HandleText(m, text)
    case TagToken(tag) => HandleTag(m, tag)
  }

  function Run(m: Machine, tokens: seq<Token>): (r: Outcome<Machine>)
    requires Fits(m.limit)
    ensures r.Ok? ==> r.value.limit == m.limit
    decreases |tokens|
  {
    if tokens == [] then Ok(m)
    else
      var c :- Run(m, tokens[..|tokens| - 1]);
      Step(c, tokens[|tokens| - 1])
  }

  function CloseAll(open: seq<Tree>): Tree
    requires open != []
    decreases |open|
  {
    var n := |open|;
    if n == 1 then open[0] else CloseAll(Attach(open[..n - 1], open[n - 1]))
  }

  /** The end of the input: something is open. */
  function Finish(m: Machine): (r: Outcome<Machine>)
    requires Fits(m.limit)
    ensures r.Ok? ==> r.value.open != []
  {
    if m.open == [] then Implied(m, None) else Ok(m)
  }

  /** The whole parse: the number of nodes made and the tree of the document's root. */
  function Parse(limit: Option<nat>, budget: nat, tokens: seq<Token>): Outcome<(nat, Tree)>
    requires Fits(limit)
  {
    var m :- Run(Initial(limit, budget), tokens);
    var c :- Finish(m);
    Ok((c.count, CloseAll(c.open)))
  }
}
