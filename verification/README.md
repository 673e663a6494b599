# Verification of the browser core

These modules model the portable core of the browser in Dafny and prove what it promises: no socket,
window or script engine takes part, only the algorithms and protocols themselves. The project
verifies with `dafny verify dfyconfig.toml`.

Each imperative part of the program is modelled twice: as a class whose methods change fields and
loop as the C code does, and as pure functions that say what each method does. The methods are
proved equal to the functions, and the lemmas are about the functions.

* **HTML tree builder** (`HtmlMachine`, `HtmlOrder`, `HtmlCap`, `HtmlWrapped`, `HtmlArena`,
  `HtmlBuilder`). Tokens drive a stack machine with implied tags, formatting elements that are
  reopened, and a depth cap. `HtmlMachine` keeps the open elements as trees; `HtmlBuilder.Builder`
  keeps an array of nodes, stacks of ids and child lists changed in place, with the mutual recursion
  of `implicit` and `tag`. A cap of `None` is the reference parser that never flattens.
  `HtmlContents`, `HtmlRoundTrip` and `HtmlLeftOut` say what a parse gives without naming a step of
  the machine: what the nodes hold, that nested documents come back, and what a missing or misplaced
  tag stands for.
* **Markup** (`HtmlScan`, `HtmlMarkup`). The loops from characters to tags and texts, and the way from
  a tree through its markup back to a tree.
* **Document mutation** (`DomForest`, `DomDepth`, `DomDocument`, `DomInsert`, `DomText`, `DomAdopt`,
  `DomInnerHtml`, `DomInnerTree`, `DomBound`, `DeepFragment`, `DomRuns`, `DomSerialize`). `Document` holds the nodes; `HtmlParse`
  builds the one of a page; every operation has its exact status, and a failing one changes nothing.
  `SetInnerHtml` runs the builder under the cap of its place, and `DomBound` says when that keeps
  every node within the depth bound. `DomRuns.Run` is any sequence of calls a script may make.
* **Display list** (`DisplayCommands`, `DisplayBuild`, `DisplayMeaning`, `DisplayGeometry`,
  `DisplayHit`, `DisplayReplay`). The walk of a layout tree compiles to a flat bracketed list. Its meaning is a
  sequence of spots: a drawing, the scroll offset it appears at, and the effects around it. Hit
  testing and replay are proved against that meaning of the tree, which `DisplayGeometry` spells out
  in the items, rectangles and scroll positions of the tree itself.
* **URLs** (`UrlText`, `UrlPort`, `UrlParse`, `UrlFixpoint`, `UrlOrigin`). Parser, printer, the exact
  condition under which printing is stable, and the fields, printed form and origin of every form of
  URL written out.
* **Sessions, tabs and loads** (`Sessions`, `TabMachine`, `TabCustody`, `TabOrder`, `TabRuns`,
  `TabShutdown`, `TabHistory`, `TabRefusal`, `TabPump`, `TabPumpRuns`, `TabDelivery`, `TabApp`). The window thread
  and the loader thread take atomic steps in any order: `TabMachine.Step` lists them, `Enabled`
  guards them, and `TabRuns.Reached` is any interleaving. `TabApp.App` holds the steps as methods,
  and the whole pump of a window as a loop of them.
* **XMLHttpRequest** (`XhrMachine`, `XhrRuns`, `XhrExit`, `XhrApp`). Page threads, the window thread
  and the loader share fetches by reference count and hand synchronous jobs over; `XhrExit` is about
  the loader's passes over its lists and its end.
* **Scheduler** (`SchedulerMachine`, `SchedulerRuns`, `SchedulerLog`, `SchedulerObject`), **selectors
  and cascade** (`Selectors`, `Cascade`, `CascadeMeaning`), **open-addressing sets** (`Probing`,
  `ProbeSets`), **bookmarks** (`BookmarkFormat`, `BookmarkStore`), **UTF-8 repair** (`Utf8Repair`).

## Results

* A parsed document has html at its root and is in source order: a pre-order walk meets consecutive
  ids, whatever was implied, reopened or closed early, and no node is deeper than the cap
  (`HtmlOrder.ParsedDocument`). On streams without p, li and formatting tags the capped tree is the
  uncapped one with each node's depth a stated function of the uncapped pre-order
  (`HtmlCap.CapOnlyFlattens`).
* Every start tag and text of the stream is one node of the parsed tree, in stream order and with
  exactly its name, attributes or text; all else is an implied html, head or body or a copy of a
  formatting element, and only a formatting end tag that drops the root loses what came before it
  (`HtmlContents.WrittenOnce`). The tokens of a properly nested document parse to
  that document (`HtmlRoundTrip.ReadsBack`), and an omitted or misplaced tag means what the tags in
  full and in order mean (`HtmlLeftOut`).
* The document of every page the parser builds, and whatever any sequence of script calls makes of it,
  is an acyclic forest with agreeing links and distinct children, in which no node a script can hold
  has more than 512 ancestors and no other node more than 513; what a script holds it goes on holding,
  created nodes included (`DomRuns.ScriptKeeps`). Setting inner markup never fails for depth at depth
  510 or less.
* The hit test on the flat list returns the topmost drawing of the layout tree whose shape and
  surrounding scrolled boxes hold the point, each tested where scrolling has put it, and the replay
  paints the tree, for every layout tree (`DisplayHit.HitTest`, `DisplayReplay.ReplayLayout`).
* The markup written for a properly nested document gives that document back when it is read and
  parsed, except that the parser undoes the escapes of texts but not those of attribute values: it is
  the same document exactly when no value has one of the characters `&`, `<`, `>`, `"` and `'`
  (`HtmlMarkup.MarkupBack`); a value `&` comes back as `&amp;` (`HtmlMarkup.ValueChanges`).
* Setting inner markup puts the trees of the parsed body under the node (`DomInnerTree.InnerTree`),
  and setting a text puts that text there (`DomText.TextBack`).
* Each load task is in exactly one place in every interleaving and released exactly once by app
  destroy; the generations committed into a tab strictly increase; the virtual history is what the
  session becomes; after a pump no tab of the window waits for a load that had completed before it
  began, wherever the loader's steps fall (`TabPumpRuns.NobodyLeftWaitingAnyway`). A load keeps the
  page it ended with to the end, and the next pump of the window shows it (`TabDelivery.Delivered`).
* A scheduled task runs with the priority, generation and time it was accepted with, and only while
  nothing has ousted it since (`SchedulerLog`).
* Every accepted XMLHttpRequest job is finished exactly once, a fetch no page waits for any more was
  delivered, once and finished, or abandoned, and it is freed exactly when both sides have let go
  (`XhrRuns.FetchLife`). The loader's last pass finishes exactly what its lists held.

Three promises hold only under a condition, which is proved to be exact:

* Printing a parsed URL is stable unless the URL is a view of a file's source, and for such a view
  exactly when what follows `file://` is its own key (`UrlFixpoint.Stable`); `view-source:file:///x`
  is a text for which it fails (`UrlFixpoint.FileSourceUnstable`).
* A fragment recorded while a traversal is pending leaves the traversal's target valid exactly when
  the target is not ahead of the current entry, or is the next entry and carries the fragment's URL
  (`TabHistory.FragmentExactly`). `TabRefusal.RefusedRun` is a run for which it fails: the user goes
  back, asks for the entry ahead, follows another fragment before it arrives, and the page that comes
  is current but refused. The theorems about traversals are about runs whose fragments spare the
  target and whose URLs print stably, as fragment references of a printed page do
  (`TabHistory.FragmentCareful`).
* include/tai/dom.h promises at most 512 ancestors for every node. For the nodes a script can hold
  that always holds. Setting the markup of a node can leave nodes outside the adopted body, out of
  every script's reach, and for a node without a parent the fragment's cap is 513. Whatever the
  markup, every node stays within 512 exactly when the node has a parent or the document has no room
  for 515 nodes more (`DomBound.SafeExactly`). `DeepFragment.DeepBreaks` is the markup for which it
  fails: 511 nested elements, a text in the deepest, and a second body. So a script that sets markup
  only on such nodes stays within 512 throughout (`DomRuns.ScriptKeeps`), and one that creates an
  element and gives it that markup does not (`DomRuns.DeepRun`).

## Model

| member | source | states |
|---|---|---|
| HtmlOrder.StepKeeps | src/dom.c:428-648 | one token, whatever it is, keeps html at the bottom of the open elements and the concatenated pre-orders of the open elements numbered in creation order and within the depth cap |
| HtmlOrder.EndFormatKeeps | src/dom.c:575-622 | a formatting end tag that pops and reopens elements keeps the same invariant, even when it empties the stack and drops the old root |
| HtmlOrder.RunKeeps | src/dom.c:661-749 | every prefix of every token stream keeps it |
| HtmlOrder.ParsedDocument | src/dom.c:752-777 | every parsed document has html at its root, a pre-order walk meets strictly consecutive node ids up to the last one made, and no node has more ancestors than the cap |
| HtmlContents.WrittenOnce | src/dom.c:540-749 | in every parsed tree the start tags and texts of the stream stand in pre-order, each once, in stream order, with exactly their token's name, attributes or text; all other nodes are html, head or body without attributes or copies of formatting elements some start tag wrote; only when the first root was dropped do the tokens begin after its end |
| HtmlContents.WrittenExactly | src/dom.c:540-749 | when no formatting end tag has a start tag of its name before it, nothing is dropped and nothing is copied |
| HtmlContents.EveryContent | src/dom.c:461-472 | every node of every parsed tree is the text of a text token, the name and attributes of a start tag of the stream, or an html, head or body without attributes |
| HtmlRoundTrip.ReadsBack | src/dom.c:540-749 | the start tags, texts and end tags of any properly nested document within the cap parse to that very document, formatting, void, p, li and list elements included |
| HtmlLeftOut.HtmlSupplied | src/dom.c:428-433 | before anything but an html tag a stream means what it means with an html tag in front |
| HtmlLeftOut.ContainerSupplied | src/dom.c:434-440 | in html alone a token means what it means behind a head start tag, if it stands in a head, or a body start tag |
| HtmlLeftOut.HeadClosed | src/dom.c:441-447 | what does not stand in a head means what it means behind a head end tag, and one more for each element closed early at the cap |
| HtmlLeftOut.OneCloses | src/dom.c:554-573 | a p in an open p and an li in an open li with no list between end exactly one element, one closed early at the cap if the stack has room again, otherwise the deepest; any other start tag none |
| HtmlLeftOut.OutOfPlace | src/dom.c:575-622 | a formatting end tag out of place means the end tags of the formatting elements inside, its own, and the start tags of those again |
| HtmlScan.Tokenize | src/dom.c:649-734 | the loop over the characters computes the texts and tags of the markup: quotes inside tags, comments, scripts up to their end tag |
| HtmlScan.ReadAttributes | src/dom.c:473-516 | the loops over a tag compute its folded name and its attributes, a later value of a key in the place of an earlier one |
| HtmlScan.StartTagRead | src/dom.c:1007-1017 | a written start tag is read back with its name, its keys and its values as written |
| HtmlScan.ForestScans | src/dom.c:661-734 | the markup of any readable trees is read as exactly their tags and texts, whatever follows |
| HtmlMarkup.MarkupBack | src/dom.c:661-777 | the markup of a properly nested document, read and parsed, is that document with its attribute values as written, and so the same document exactly when no value has one of the five escaped characters: the parser undoes the escapes of texts only |
| HtmlMarkup.ValueChanges | src/dom.c:503-508 | an ampersand as a value comes back as its escape |
| HtmlMarkup.InnerBack | src/dom.c:804-812 | the inner markup of an element, wrapped as for setting it, parses to its children below html and body |
| HtmlCap.OpenSimulates | src/dom.c:527-539 | opening an element keeps the capped and the uncapped parser related: equal stacks below the cap, and the excess counts the elements past it |
| HtmlCap.TagSimulates | src/dom.c:540-648 | any plain tag keeps them related |
| HtmlCap.RunSimulates | src/dom.c:527-648 | after every token of a stream without p, li and formatting tags the two parsers are still related |
| HtmlCap.CapOnlyFlattens | src/dom.c:527-648 | on such streams, with a cap of at least 4, both parses succeed together, and the capped pre-order is the uncapped one with every node where LandDepth puts it |
| HtmlCap.FlattenedAt | src/dom.c:527-539 | that place, node by node: an element at min(depth, cap - 1), a text or void element past the cap at the cap when the last element before it is its uncapped parent, one above otherwise |
| HtmlArena.PopSettled | src/dom.c:517-524 | popping an open element into its parent keeps parent and child links agreed, children distinct and every level within the cap |
| HtmlArena.LeafSettled | src/dom.c:461-472 | so does appending a text or void node |
| HtmlArena.PushSettled | src/dom.c:527-539 | so does opening an element, linked below its parent once the cap is reached |
| HtmlArena.LinkTree | src/dom.c:88-110 | linking an orphan makes its tree the last child tree of its new parent |
| HtmlBuilder.Builder.constructor | src/dom.c:752-768 | a new parser is the machine's initial state for its cap and budget |
| HtmlBuilder.Builder.NewNode | src/dom.c:400-406 | a node is made unless the budget is spent, which is recorded |
| HtmlBuilder.Builder.Append | src/dom.c:88-110 | moves the node to the end of the parent's children, out of its old parent |
| HtmlBuilder.Builder.PopAttach | src/dom.c:517-524 | the in-place pop is the machine's pop, or an invalid parse on fewer than two elements |
| HtmlBuilder.Builder.CloseEarly | src/dom.c:527-539 | at the cap the top is linked below its parent, marked and left |
| HtmlBuilder.Builder.OpenElement | src/dom.c:527-539 | is the machine's opening of that element, cap and excess included |
| HtmlBuilder.Builder.AppendLeaf | src/dom.c:461-472 | is the machine's leaf, outside the top when the top is full |
| HtmlBuilder.Builder.Remember | src/dom.c:619-642 | grows or overwrites the list of active formatting elements as the machine does |
| HtmlBuilder.Builder.StartTag | src/dom.c:628-643 | is the machine's start tag, whose name and attributes HtmlContents finds in the finished tree |
| HtmlBuilder.Builder.EndPlainTag | src/dom.c:623-627 | an end tag first uses up the excess, then pops |
| HtmlBuilder.Builder.PopFormatted | src/dom.c:600-611 | pops up to the named element, through the root if need be |
| HtmlBuilder.Builder.FindFormat | src/dom.c:576-585 | finds the last active formatting element of that name |
| HtmlBuilder.Builder.ReopenAll | src/dom.c:612-621 | reopens the later formatting elements as fresh copies, in order |
| HtmlBuilder.Builder.Retire | src/dom.c:589-597 | takes the closed entry out of the active list |
| HtmlBuilder.Builder.EndFormatTag | src/dom.c:575-622 | is the machine's formatting end tag |
| HtmlBuilder.Builder.Implicit | src/dom.c:428-449 | is the machine's implied tags; it terminates with HandleTag by a measure on the tag, the stack, the excess and the head |
| HtmlBuilder.Builder.HandleTag | src/dom.c:540-648 | is the machine's step for that tag, implied tags and closed p or li included |
| HtmlBuilder.Builder.CloseFirst | src/dom.c:554-573 | closes one open p or li exactly when the machine's condition holds |
| HtmlBuilder.Builder.AddText | src/dom.c:461-472 | is the machine's text step |
| HtmlBuilder.Builder.Parse | src/dom.c:661-749 | is the reference parse of the whole stream, leaves the stack empty and the node array a forest whose root tree is the reference tree, with no level above the cap; what that tree holds and how it nests is in HtmlContents, HtmlRoundTrip and HtmlLeftOut |
| DomForest.Moved | src/dom.c:125-211 | giving a node another parent shifts the depth of exactly its subtree |
| DomForest.DetachLinked | src/dom.c:125-137 | taking a node out keeps links agreed and children distinct and leaves it nobody's child |
| DomForest.InsertLinked | src/dom.c:174-211 | so does moving it before a reference or to the end |
| DomForest.PlacedAt | src/dom.c:174-211 | the new child list is the old one with the child before the reference |
| DomForest.InsertThenRemove | src/dom.c:174-219 | removing a node just inserted restores the document, wherever it was put |
| DomForest.RankUnique | src/dom.c:168-173 | a document has at most one rank, the number of ancestors of each node |
| DomDepth.FitsBelow | src/dom.c:141-167 | the walk with an explicit stack succeeds exactly when the subtree's height is within the budget |
| DomDocument.MoveReachable | src/dom.c:174-211 | a move within the height check keeps every node a script can hold at no more than 512 ancestors |
| DomDocument.InsertKeeps | src/dom.c:174-211 | an accepted insertion keeps the acyclic forest and the depth bound |
| DomDocument.DetachKeeps | src/dom.c:125-137 | so does taking a node out |
| DomDocument.NewKeeps | src/dom.c:111-124 | so does a new parentless node |
| DomDocument.TextKeeps | src/dom.c:891-936 | setting a text keeps the forest and both depth bounds, and the new text node is in the script's reach |
| DomDocument.Document.CreateElement | src/dom.c:111-124 | a new node, which the script holds, unless the document holds a million; otherwise nothing changes |
| DomDocument.Document.Ancestors | src/dom.c:168-173 | counts the ancestors |
| DomDocument.Document.IsUnder | src/dom.c:174-190 | tells whether one node is the other or inside it |
| DomDocument.Document.Detach | src/dom.c:125-137 | the child list without the child, the child without a parent, nothing else |
| DomDocument.Document.RemoveChild | src/dom.c:212-219 | the exact status, the child taken out on success, nothing changed on failure |
| DomDocument.Document.InsertBefore | src/dom.c:174-211 | the exact status in the order of the checks; on success the old list without the child, then with it before the reference; nothing changed on failure |
| DomInsert.InsertExactly | src/dom.c:174-198 | the answer, from the document asked for: CYCLE exactly when its links would close a circle, OK exactly when it can be ranked with the moved subtree within 512 ancestors or the node is its own reference, REFERENCE_NOT_CHILD exactly for a reference elsewhere |
| DomDocument.Document.FreeChildren | src/dom.c:891-936 | every old child becomes a root and the list is handed over |
| DomDocument.Document.SetTextContent | src/dom.c:891-936 | the exact status; a text node's text, or one text child in place of all children, which the script may then hold; nothing changed on failure |
| DomText.TextContent | src/dom.c:938-961 | the walk with an explicit stack gathers the texts of the tree in order |
| DomText.TextBack | src/dom.c:891-961 | the text content of a node is what it was last set to, as its only child or as its own text |
| DomAdopt.AdoptLinked | src/dom.c:858-882 | handing all children of one node to another keeps links agreed |
| DomAdopt.AdoptRanked | src/dom.c:858-882 | and keeps the document acyclic |
| DomInnerHtml.FindBody | src/dom.c:826-838 | the walk with an explicit stack finds the last body of the pre-order |
| DomInnerHtml.BodyInside | src/dom.c:809-838 | the body of a parsed fragment is not its root |
| DomInnerHtml.BodyFits | src/dom.c:809-848 | what is below the body of a fragment parsed for depth at most 510 fits there |
| DomInnerHtml.ParsedFits | src/dom.c:809-848 | so it does for every token stream, from the parser's own guarantees |
| DomInnerHtml.AdoptReachable | src/dom.c:841-882 | after the move nothing a script can hold has more than 512 ancestors |
| DomInnerHtml.AdoptBounded | src/dom.c:841-882 | and no node at all more than the bound before, unless the fragment left a deeper one outside its body |
| DomInnerHtml.Adopting | src/dom.c:841-882 | together: the adopted document is a forest within both bounds, and the nodes left outside the body keep their levels |
| DomInnerHtml.InnerKeeps | src/dom.c:858-882 | clearing, joining and adopting in one: exactly what comes under the node comes into the script's reach, and the bound on all nodes grows only with what stays outside the body |
| DomInnerHtml.MoveChildren | src/dom.c:867-875 | the loops hand over exactly the children of the body |
| DomInnerHtml.Adopt | src/dom.c:858-882 | the old children become roots, the fragment's nodes join renumbered, the body's children become the node's |
| DomInnerHtml.ParseFragment | src/dom.c:809-824 | the parse under the place's cap and the room left, with its status |
| DomInnerHtml.SetInnerHtml | src/dom.c:794-889 | the exact status from the parse, the body's height and the node count; the exact new document on success; nothing changed on failure; never DEPTH_LIMIT up to depth 510; below a parent the bound on all nodes stays what it was, elsewhere it grows by at most one, exactly with what the fragment leaves outside its body |
| DomInnerTree.InnerTree | src/dom.c:858-882 | after inner markup is set, the tree of the node is its own tag around the trees of the parsed body's children, and no other content or child list of the old document has changed |
| DomInnerTree.MarkupCopies | src/dom.c:794-889 | setting the inner markup written for some properly nested trees puts those trees under the node, attribute values as written |
| DomInnerHtml.HtmlParse | src/dom.c:752-777 | a page's document satisfies the invariant of all mutations, with every node within 512 ancestors and in a script's reach, and its tree is the reference parse |
| DomDocument.ArenaForest | src/dom.c:752-777 | whatever the parser leaves under the page's cap is an acyclic forest of agreeing links within 512 ancestors |
| DomDocument.Document.FromArena | src/dom.c:752-777 | such an array makes a document |
| HtmlWrapped.WrappedBody | src/dom.c:804-812 | in every parse of markup behind html and body tags, the node with id 1 is a body if it is still in the document |
| DomBound.ParentKeeps | src/dom.c:809-882 | for a node with a parent no markup whatever leaves any node with more than 512 ancestors |
| DomBound.NoRoomKeeps | src/dom.c:809-882 | nor does any for a parentless node of a document with no room for 515 nodes more |
| DomBound.WalkLevels | src/dom.c:826-838 | the depths a pre-order walk meets are the levels of its nodes |
| DomBound.SafeExactly | include/tai/dom.h:27-32 | every markup keeps every node within 512 ancestors exactly when the node has a parent or the document has no room for 515 nodes more |
| DeepFragment.DeepParse | src/dom.c:540-648 | nested elements up to the cap, a text and a second body parse to a text as deep as the cap beside the body |
| DeepFragment.DeepBreaks | src/dom.c:809-882 | for a node without a parent that markup is accepted and can leave a text with 513 ancestors outside its body |
| DeepFragment.DeepAlways | src/dom.c:809-882 | and it always does, however the parser numbers and links its nodes |
| DomRuns.CallKeeps | src/dom.c:111-936 | every call a script may make, innerHTML and textContent included, keeps the acyclic forest and the 512 and 513 bounds, and all handles |
| DomRuns.RunKeeps | src/dom.c:111-936 | so does every sequence of such calls, on nodes created during it too |
| DomRuns.ScriptKeeps | include/tai/dom.h:27-68 | from every parsed page on: after every call of every script, held nodes are within 512 ancestors and all nodes within 513, and within 512 as long as markup is set only on nodes with a parent or where there is no room for deeper markup |
| DomRuns.DeepRun | src/dom.c:794-889 | creating an element and setting deep markup on it ends beyond 512 on every page with room for it |
| DomRuns.Perform | include/tai/dom.h:42-88 | each method of the document is the call of that name, for every document and every call a script may make |
| DomRuns.RunScript | include/tai/dom.h:42-88 | a whole script run on a document is such a sequence of calls |
| DomSerialize.EscapeReads | src/dom.c:990-1002 | escaped text reads back as the text |
| DomSerialize.EscapeClean | src/dom.c:990-1002 | escaped text holds no angle bracket, and no quote inside attribute values |
| DomSerialize.EscapeInto | src/dom.c:990-1002 | appends the escaped text |
| DomSerialize.Serialize | src/dom.c:1018-1070 | on the node array of any forest, the loop over frames of a node and its next child writes the markup of the node's tree, inner or outer |
| DomSerialize.WriteNext | src/dom.c:1040-1062 | one turn of the loop writes the end tag of the innermost frame or its next child and leaves the rest of the markup pending |
| DomSerialize.SerializeNode | src/dom.c:1018-1070 | so for every node of every document the mutations can reach |
| DisplayBuild.AroundLinear | src/render.c:590-620 | closing an effect completes its bracket or takes an empty one back |
| DisplayBuild.Build.Enter | src/render.c:622-698 | entering an item pushes its brackets and starts and leaves everything below untouched |
| DisplayBuild.Build.LeaveClip | src/render.c:597-609 | an empty clip disappears, a clip around one hit test alone collapses to it, any other is closed |
| DisplayBuild.Build.Leave | src/render.c:570-621 | leaving an item pops its starts and turns what was appended into its compiled pictures |
| DisplayBuild.Build.Walk | src/render.c:567-699 | the walk of any subtree appends exactly its compiled list and restores all three side stacks |
| DisplayBuild.CreateDisplayList | src/render.c:709-740 | every layout tree compiles to a well-nested list, with all side stacks empty at the end |
| DisplayMeaning.CompileDraws | src/render.c:567-699 | the nested pictures of the compiled list show what the layout tree shows: the same drawings in the same order under the same scroll offsets and effects |
| DisplayGeometry.SpotsAre | src/render.c:622-698 | the spots of a layout tree are its own drawings, and the hit rectangle of each scrolling box, in pre-order, each with the sum of the scroll offsets around it and the blends, blurs and clips of the boxes around it, written out |
| DisplayMeaning.DrawnLone | src/render.c:601-605 | a hit test alone in its clip means the same without the clip |
| DisplayHit.FindPush | src/render.c:817-829 | going backwards, the depth count finds the push that matches a pop |
| DisplayHit.HitRange | src/render.c:812-855 | the backwards search of a range finds what the recursive search of its pictures finds; what that is in terms of rectangles is the contract of HitTest |
| DisplayHit.HitDrawn | src/render.c:812-855 | the recursive search finds the topmost drawing under the point, offsets summed and each scrolled clip tested in its own frame |
| DisplayHit.HitTest | src/render.c:812-862 | a hit is a drawing of the layout tree of a kind that can be hit, whose shape holds the point moved by the scroll offsets of all scrolling boxes around it, inside the rectangle of every one of these, itself moved by those further out; no later drawing has all this, and without a hit no drawing has |
| DisplayReplay.PlayForest | src/render.c:1072-1204 | replaying any well-nested list never underflows or meets a mismatched pair and ends where it began |
| DisplayReplay.NestedPlays | src/render.c:1072-1204 | a list replays to the end exactly when its brackets nest with matching kinds |
| DisplayReplay.Replay | src/render.c:1072-1204 | the loop with its fixed stack accepts exactly the well-nested lists and paints what they say |
| DisplayReplay.ReplayLayout | src/render.c:1072-1204 | the replay of a layout tree's list is accepted and paints the tree's drawings, each inside the effects and offsets of the boxes around it |
| UrlText.Find | src/url.c:155-159 | the first position of a word, or that there is none |
| UrlText.Strchr | src/url.c:138-147 | the scan finds the first position |
| UrlText.Strstr | src/url.c:155-159 | the scan finds the first position of the word |
| UrlPort.DecimalPort | src/url.c:45-85 | the scanning loop accepts and normalizes as the character-by-character definition |
| UrlPort.DecimalStable | src/url.c:45-85 | the normal spellings are exactly the ones conversion leaves alone, and converting twice changes nothing |
| UrlParse.Url.constructor | src/url.c:102-206 | the field-by-field parse, the printing and the origin are the functions UrlOrigin gives the meaning of, for every text |
| UrlParse.Url.ReadWeb | src/url.c:161-190 | host, path, port and key of a web URL, or the fallback that keeps the host, as UrlOrigin writes them out |
| UrlParse.Url.Finalize | src/url.c:102-126 | the printed form and the origin, as UrlOrigin writes them out |
| UrlFixpoint.ReadShown | src/url.c:136-142 | a printed view-source text is read back as its resource with its fragment |
| UrlFixpoint.ReadWeb | src/url.c:163-190 | a web URL printed with its port is read back field by field |
| UrlFixpoint.ReadWebDefault | src/url.c:163-190 | printed without its port it is read back with the default one |
| UrlOrigin.DefaultPortMeans | src/url.c:102-190 | scheme, "://", host and path, without a port, is read as exactly these, with / for no path, is printed so, and has the origin scheme://host:80 or :443 |
| UrlOrigin.PortMeans | src/url.c:102-190 | the same with a plainly written port, which the origin always shows and the printed form unless it is the default one |
| UrlOrigin.BadPortMeans | src/url.c:45-190 | with a port the conversion refuses the text prints as about:blank |
| UrlOrigin.ViewMeans | src/url.c:110-142 | a view of a web URL is printed with its port |
| UrlOrigin.UnknownMeans | src/url.c:128-206 | an unknown scheme prints as about:blank |
| UrlOrigin.PlainMeans | src/url.c:102-160 | about, data and file URLs keep all of their text |
| UrlOrigin.MailMeans | src/url.c:102-160 | a mail address prints without the fragment |
| UrlOrigin.SameOrigin | src/browser.c:402-403 | two web URLs have equal origins exactly when scheme, host and port are equal |
| UrlFixpoint.PrintStable | src/url.c:102-206 | printing a parsed URL and parsing it again prints the same text, for every text that is no view-source of a file |
| UrlFixpoint.FileSourceStable | src/url.c:110-123 | for view-source of a file it does so exactly when what follows file:// is its own key |
| UrlFixpoint.Stable | src/url.c:102-206 | the exact condition for every text |
| UrlFixpoint.FileSourceUnstable | src/url.c:110-123 | view-source:file:///x prints as view-source:/x, which prints as view-source:about:blank |
| UrlFixpoint.FragmentTarget | src/url.c:221-230 | outside views of a file's source a fragment reference changes only the fragment of the printed base, which a mailto base does not show, and its target prints stably |
| UrlFixpoint.FileSourceTarget | src/url.c:221-230 | in such a view it leads to the resource its path names, and that prints stably exactly unless it is such a view again whose path is not its own key |
| Sessions.MoveReturns | src/session.c:254-290 | a traversal's page is always accepted, and the opposite move finds the entry left |
| Sessions.AppendBack | src/session.c:66-89 | after an append one move back is the entry before, and nothing lies ahead |
| Sessions.Session.AppendUrl | src/session.c:66-89 | drops what lay ahead and appends |
| Sessions.Session.RecordFragment | src/session.c:246-252 | appends exactly when the page shows that URL |
| Sessions.Session.CommitNavigation | src/session.c:271-277 | appends the page's URL and shows the page |
| Sessions.Session.CommitHistory | src/session.c:279-290 | accepts a page exactly with the URL recorded at the target, else changes nothing |
| Sessions.Session.HistoryTarget | src/session.c:254-269 | the neighbouring entry, if there is one |
| TabCustody.StepAccounted | src/tabset.c:529-1512 | no step of either thread loses, copies or twice releases a task, and a new task is in one place |
| TabCustody.LoaderAccounted | src/tabset.c:529-619 | the loader's steps in particular |
| TabCustody.RouteAccounted | src/tabset.c:1292-1311 | routing one completion moves it to one inbox or releases it |
| TabCustody.CommitAccounted | src/tabset.c:1323-1405 | so does committing or dropping one |
| TabOrder.TaskAdded | src/tabset.c:742-806 | a new load cancels the one it supersedes and carries the tab's next generation |
| TabOrder.CommitOrdered | src/tabset.c:1323-1405 | a commit keeps the generations of the tab in order |
| TabOrder.NobodyWaits | src/tabset.c:1283-1311 | a completion without an owner is one no tab waits for |
| TabOrder.CloseKeeps | src/tabset.c:1484-1512 | closing a window keeps the order of all other tabs' loads |
| TabOrder.StepKeeps | src/tabset.c:529-1512 | every step, whichever thread takes it, keeps: a pending load is live, uncancelled and of its tab's generation; every other held load is cancelled; routed completions lie at the window of their tab |
| TabRuns.AlwaysGood | src/tabset.c:529-1512 | so in every interleaving each task is in exactly one place and the loads of each tab are in order |
| TabRuns.AllReleasedOnce | src/tabset.c:963-990 | when the app is destroyed every task ever created has been released exactly once |
| TabRuns.ReleasedIsGone | src/tabset.c:529-619 | neither thread holds a released task |
| TabRuns.CommittedInOrder | src/tabset.c:1326-1362 | the generations committed into a tab strictly increase |
| TabRuns.OnlyNewestCommits | src/tabset.c:1326-1328 | only a tab's newest load may commit, and no other completion of the tab is current with it |
| TabRuns.OnlyPendingLives | src/tabset.c:789-806 | a held load is uncancelled exactly when its tab waits for it |
| TabShutdown.StoppingDrains | src/tabset.c:638-664 | while the app stops, each loader step that hands a load on brings the exit closer, and nothing else happens |
| TabShutdown.StoppingMoves | src/tabset.c:638-664 | until its exit the loader can always take such a step |
| TabHistory.FragmentExactly | src/tabset.c:1251-1266 | a fragment recorded during a pending traversal leaves its target valid exactly when the target is not ahead, or is the next entry with that very URL |
| TabHistory.FragmentCareful | src/browser.c:1744-1771 | moving a page to a fragment reference of a printed URL is a careful step, outside views of a file's source |
| TabRefusal.Refused | src/tabset.c:1251-1266 | for any two stably printing URLs and a third other than the second, a run in which the page of a current traversal is refused |
| TabRefusal.RefusedRun | src/tabset.c:1251-1266 | such a run on a page and two of its fragments |
| TabHistory.Predicted | src/tabset.c:1153-1164 | the virtual history before a commit is the session's count and index after it, and a welcome page is accepted |
| TabHistory.MoveFinds | src/tabset.c:1231-1249 | a move within the virtual history stays within the recorded entries |
| TabHistory.CarefulKeeps | src/tabset.c:1078-1266 | steps with stably printing URLs and fragments that spare a pending target keep every pending load welcome |
| TabHistory.CommitsAsShown | src/tabset.c:1358-1375 | on every such run no current page is refused, and the session becomes what its virtual history showed |
| TabHistory.TraversalFinds | src/tabset.c:1231-1249 | on every such run a traversal within the virtual history becomes a load of an existing entry |
| TabHistory.SafeToNavigate | src/url.c:102-206 | which URLs are safe in this sense, exactly |
| TabApp.App.AppendNewSlot | src/tabset.c:1078-1108 | the step that opens a tab, refused at 25 tabs or when IDs run out |
| TabApp.App.Publish | src/tabset.c:742-806 | the step that creates and publishes a load, refused when generations run out |
| TabApp.App.VirtualView | src/tabset.c:1153-1164 | computes the virtual history |
| TabApp.App.History | src/tabset.c:1231-1249 | is the machine's traversal step |
| TabApp.App.NavigateUrl | src/tabset.c:1166-1174 | is the machine's navigation step |
| TabApp.App.FindOwner | src/tabset.c:1283-1288 | finds the first window with the tab |
| TabApp.App.Route | src/tabset.c:1298-1310 | is the machine's routing step |
| TabApp.App.Commit | src/tabset.c:1323-1405 | is the machine's commit step, and says whether the completion was current and whether its page, if any, took its place |
| TabPump.PumpSettles | src/tabset.c:1292-1405 | after a whole pump every published completion lies at the inbox of its window or is released, the pumped window's inbox is empty and released, and each tab's slot is settled by its pending load exactly if that had arrived |
| TabPump.NobodyLeftWaiting | src/tabset.c:1313-1405 | no tab of the pumped window still waits for a load that had completed |
| TabPumpRuns.PumpSettlesAnyway | src/tabset.c:1292-1405 | in every run in which the loader takes any steps during a pump, the pump leaves windows, released completions and slots as it does alone |
| TabPumpRuns.NobodyLeftWaitingAnyway | src/tabset.c:1313-1405 | so no tab of the window still waits for a load completed before the pump began |
| TabDelivery.PageStays | src/tabset.c:529-1405 | in every interleaving a load keeps its tab, URL and kind, and from its end on its page, through the active list, publication, routing and the inbox |
| TabDelivery.EndedPageStays | src/tabset.c:529-619 | in particular the page it ended with, at the network's end of the load or made by the loader at once |
| TabDelivery.Delivered | src/tabset.c:1313-1405 | when a tab's pending load has its page and was published, the next pump of the window, whatever the loader does meanwhile, logs its commit and leaves the session showing that page, if its size fits and its traversal finds its entry |
| TabDelivery.AskedFor | src/tabset.c:1166-1174 | asking for a URL makes an uncancelled load of it that the selected tab waits for, the session as it was |
| TabDelivery.OpenedFor | src/tabset.c:1078-1108 | a new tab is selected, waits for the load of its URL and has no entry yet |
| TabDelivery.ShownAsAsked | src/tabset.c:529-1405 | in every interleaving the page a load brings in the end is the printed form of the very URL it was asked for |
| TabApp.App.Pump | src/tabset.c:1313-1405 | the three loops are that pump; it reports a change exactly when a tab waited for one of the arrivals, and success exactly when none of their pages was refused |
| TabApp.App.CommitAll | src/tabset.c:1321-1404 | its commit loop, with both reports |
| TabApp.App.CancelPending | src/tabset.c:1489-1495 | cancels exactly the pending loads of the window's tabs |
| TabApp.App.DestroyWindow | src/tabset.c:1484-1512 | is the machine's closing step |
| TabApp.App.BeginShutdown | src/tabset.c:963-975 | stops the app and cancels what is queued |
| TabApp.App.Release | src/tabset.c:977-983 | releases all published completions, then all queued loads |
| TabApp.App.CancelOrReap | src/tabset.c:595-619 | one pass over the active list is the machine's reaping steps in list order; that they publish each load with its page is TabDelivery.PageStays |
| TabApp.NothingDue | src/tabset.c:595-619 | such a pass leaves no load that is completed or cancelled, and none at all when forced |
| XhrRuns.StepFetch | src/browser.c:352-425 | every step of either side keeps a fetch's reference count equal to the references held, its free, finish and delivery counted at most once |
| XhrRuns.StepJob | src/tabset.c:269-413 | every step keeps a synchronous job in one list of the loader or finished |
| XhrRuns.AlwaysGood | src/tabset.c:269-527 | so in every interleaving |
| XhrRuns.FetchLife | src/browser.c:352-373 | references = page holds + owner holds; freed exactly when both let go; finished exactly when the owner let go; once no page waits for it any more, it was either delivered, once and finished, or abandoned |
| XhrRuns.JobLife | src/tabset.c:269-277 | a job is done exactly when no list of the loader holds it, and finished once |
| XhrRuns.NothingLeft | src/tabset.c:665-676 | after the loader's exit every accepted job is finished exactly once and nothing more is accepted |
| XhrRuns.ClosedDrains | src/tabset.c:665-676 | once closed nothing adds to the loader's work and each of its steps takes from it |
| XhrRuns.ClosedMoves | src/tabset.c:665-676 | until its exit the closed loader can take a step |
| XhrApp.Net.FetchRelease | src/browser.c:352-363 | drops one reference; the last one frees |
| XhrApp.Net.FetchFinish | src/browser.c:365-372 | marks it done, then drops the owner's reference |
| XhrApp.Net.CreateFetch | src/browser.c:382-416 | a new fetch with the page's and the owner's reference |
| XhrApp.Net.AppStart | src/tabset.c:511-527 | queues the job exactly while the loader takes jobs, else the page finishes the fetch itself |
| XhrApp.Net.AppendFetch | src/browser.c:420-424 | lists the fetch behind those sent before |
| XhrApp.Net.AsyncDone | src/tabset.c:304-310 | unlinks the job from the loader's list and finishes it |
| XhrApp.Net.AsyncExpire | src/tabset.c:343-362 | the pass over the fetches in flight finishes all of them on a failure, else the abandoned and the late ones |
| XhrExit.ExpiredShape | src/tabset.c:343-362 | such a pass finishes exactly those that are due and keeps the others in their order |
| XhrApp.Net.LoaderExpireJobs | src/tabset.c:399-413 | the same for synchronous jobs, which cannot be abandoned |
| XhrExit.SyncExpiredShape | src/tabset.c:399-413 | that pass finishes exactly the late jobs, or all |
| XhrExit.SubmittedShape | src/tabset.c:317-341 | of the fetches taken, those the network refuses or the page abandoned are finished and the others are in flight, the last first |
| XhrApp.Net.LoaderTakeJobs | src/tabset.c:364-397 | takes both queues and submits or finishes what was in them |
| XhrExit.FinishesAll | src/tabset.c:665-676 | when the loader ends, exactly the fetches and jobs of its queues and lists have been finished, each once; every job is done, and every fetch but a request on its way |
| XhrApp.Net.LoaderEnd | src/tabset.c:665-676 | the end of the loader's thread does that and nothing else |
| XhrApp.Net.TakeQueues | src/tabset.c:366-371 | takes both queues at once |
| XhrApp.Net.StartDelivery | src/browser.c:2101-2112 | unlinks a finished fetch for its one delivery |
| XhrApp.Net.FinishDelivery | src/browser.c:2111-2113 | drops the page's reference after it |
| XhrApp.Net.DestroyPage | src/browser.c:1140-1148 | abandons and lets go of every fetch of the page |
| SchedulerRuns.AlwaysGood | src/scheduler.c:57-221 | after any calls each accepted task is queued, has run or was discarded, once; accepted = ran + discarded + pending; queues hold generation 0 or the current one, oldest first; tasks ran in acceptance order within a priority, in FIFO mode over all |
| SchedulerRuns.HeldExactly | src/scheduler.c:143-184 | HELD_FOR_FRAME exactly when only timers wait, a frame is armed within the guard and the mode is not FIFO; EMPTY exactly when nothing waits |
| SchedulerRuns.TurnOrder | src/scheduler.c:148-167 | exactly who runs: render, then input, then a timer that is old enough or whose burst is over, then normal, then any unguarded timer, each the head of its queue |
| SchedulerRuns.FifoFirst | src/scheduler.c:127-141 | in FIFO mode the task that runs was accepted before every task that waits |
| SchedulerRuns.BurstBound | src/scheduler.c:112-167 | while a timer waits unguarded, at most max_foreground_burst normal tasks run before one does |
| SchedulerRuns.FairShare | src/scheduler.c:112-167 | over any calls that leave a timer ready, none of them a clear, normal tasks get at most max_foreground_burst turns per turn of a timer, and one burst more |
| SchedulerRuns.AgedFirst | src/scheduler.c:148-167 | while a waiting timer is old enough, no normal task runs |
| SchedulerRuns.FilterTimes | src/scheduler.c:201-218 | a change of generation splits each queue into kept and dropped without loss |
| SchedulerLog.CarriesRequest | src/scheduler.c:81-110 | after any calls the k-th accepted task, wherever it is, has the priority, the generation and the time of the k-th accepted call |
| SchedulerLog.RunsStanding | src/scheduler.c:169-218 | the task that runs has not been ousted since its call: no clear since, and if it was scheduled under a generation, no change to another one |
| SchedulerLog.DiscardedOusted | src/scheduler.c:57-218 | a discarded task has been ousted: one scheduled under no generation only by a clear |
| SchedulerLog.GenerationExactly | src/scheduler.c:195-218 | a change of generation lets exactly the tasks of no generation or of the new one wait on |
| SchedulerObject.Scheduler.Schedule | src/scheduler.c:81-110 | appends the task, or refuses a stale generation and changes nothing; that it keeps priority, generation and time is SchedulerLog.CarriesRequest |
| SchedulerObject.Scheduler.PickFifo | src/scheduler.c:127-141 | the loop finds the earliest head |
| SchedulerObject.Scheduler.PickPriority | src/scheduler.c:148-167 | chooses by priority, guard, age and burst |
| SchedulerObject.Scheduler.RunNext | src/scheduler.c:169-184 | runs the chosen task and reports why none ran |
| SchedulerObject.Scheduler.SetGeneration | src/scheduler.c:195-221 | filters all queues and discards the rest |
| SchedulerObject.Scheduler.Clear | src/scheduler.c:57-72 | discards everything that waits |
| Selectors.GreedyComplete | src/css.c:265-273 | taking every match as soon as it comes succeeds exactly when some chain of ancestors matches the parts in order |
| Selectors.DescendantExactly | src/css.c:249-273 | a descendant selector matches exactly when its last part matches and a strictly ascending chain of ancestors matches the others, for any parts including :has |
| Selectors.HasExactly | src/css.c:249-255 | the search below finds a match exactly when some node inside matches |
| Selectors.WordExactly | src/css.c:282-300 | a class matches exactly when its name stands between spaces or ends of the attribute |
| Selectors.MatchesSelector | src/css.c:256-301 | the matcher with its loops computes the definition |
| Selectors.HasDescendant | src/css.c:249-255 | so does the search below |
| Selectors.FindWord | src/css.c:288-300 | the word loop finds exactly the words |
| Cascade.SortSpec | src/css.c:653-679 | the reference sorts by rank and keeps source order within a rank |
| Cascade.OnePassSorts | src/css.c:495-504 | one pass with rank >= current leaves for every property what stable sorting and letting the last writer win leaves |
| Cascade.StyledNode.Apply | src/css.c:495-504 | one body of declarations, in its order |
| Cascade.StyledNode.ApplyRules | src/css.c:666-670 | applies exactly the rules whose selector matches the node, with the rank of the selector |
| Cascade.StyledNode.Cascade | src/css.c:653-679 | defaults and, for an element, the rules the matcher finds and the style attribute together leave the winners of the stable sort |
| CascadeMeaning.PriorityCounts | src/css.c:126-226 | a selector's rank is a hundred for every id in it, ten for every class, :visited and :has, one for every tag, at any nesting |
| CascadeMeaning.MatchesExactly | src/css.c:249-301 | what each kind of selector asks of a node, written out |
| CascadeMeaning.StrongestWins | src/css.c:495-679 | the value of a property is that of the strongest declaration, the last among equals: 10000 for important, 1000 for the style attribute, the counted weight of the selector for a rule that matches, nothing for a default; and none exactly when nobody gives one |
| Probing.FindFree | src/js.c:276-277 | the probe for a free slot ends and finds the first one |
| Probing.FindKey | src/dom.c:349-357 | the probe finds the element exactly when the set has it |
| Probing.ReachableUpdate | src/js.c:284-288 | taking the first free slot keeps every element reachable from its home |
| Probing.Absent | src/js.c:284-286 | a free slot before any match means the element is not there |
| Probing.Rehash | src/js.c:274-279 | doubling keeps the contents, the count and reachability |
| ProbeSets.IdSet.Add | src/js.c:268-290 | adds to the mathematical set and returns true exactly for a new id; the load stays at most one half of a doubling of 64 |
| ProbeSets.NodeSet.HasNode | src/dom.c:349-357 | true exactly for added nodes |
| ProbeSets.NodeSet.Add | src/dom.c:358-381 | adds to the mathematical set; the load stays at most one half of a doubling of 16 |
| BookmarkFormat.EncodeOnce | src/bookmarks.c:87-146 | different lists have different files |
| BookmarkFormat.ItemOf | src/bookmarks.c:62-73 | the length and the bytes of each item stand where the reader looks |
| BookmarkFormat.Refused | src/bookmarks.c:204-225 | whatever makes the reader stop, no list has this file |
| BookmarkFormat.LoadFile | src/bookmarks.c:153-232 | accepts exactly the files of sorted valid lists up to 16 MiB, and reads each back |
| BookmarkStore.MemberAtPlace | src/bookmarks.c:346-350 | in a sorted list a URL stands at its place or nowhere |
| BookmarkStore.ToggleSorted | src/bookmarks.c:352-400 | toggling keeps the list strictly sorted and valid |
| BookmarkStore.ToggleMembers | src/bookmarks.c:352-400 | it changes the membership of that URL and of no other |
| BookmarkStore.ToggleTwice | src/bookmarks.c:352-400 | twice restores the list |
| BookmarkStore.Bookmarks.Open | src/bookmarks.c:234-256 | reads the stored list back, starts empty without a file, or refuses a file no list has |
| BookmarkStore.Bookmarks.LowerBound | src/bookmarks.c:315-329 | the binary search finds the first place not less |
| BookmarkStore.Bookmarks.Contains | src/bookmarks.c:346-350 | membership, exactly |
| BookmarkStore.Bookmarks.Persist | src/bookmarks.c:87-146 | writes the encoding of the new list, or refuses one over the limit and leaves the file |
| BookmarkStore.Bookmarks.Toggle | src/bookmarks.c:352-400 | on success the list is toggled and the file is its encoding; on failure neither changes |
| Utf8Repair.CharLength | src/network.c:313-315 | the length of the well-formed sequence at the front, or that there is none |
| Utf8Repair.RepairedWellFormed | src/network.c:304-344 | the output is well-formed UTF-8 (section 4 of RFC 3629) |
| Utf8Repair.RepairedExactly | src/network.c:302-344 | it equals the input exactly when the input is well-formed |
| Utf8Repair.RepairedTwice | src/network.c:304-344 | repairing twice changes nothing more |
| Utf8Repair.ReplacedPart | src/network.c:320-339 | each replacement stands for one byte or for the longest proper beginning of a well-formed sequence |
| Utf8Repair.CountFitting | src/network.c:325-335 | the loop counts that beginning |
| Utf8Repair.DecodeUtf8 | src/network.c:304-344 | fills the buffer with the repaired text, at most three bytes per input byte |

## Left out

- Allocation failure: every allocation succeeds, except that a page's request may be refused by a failed one.
- HtmlScan.Tokenize: the source hands each tag and text to the tree builder as it finds it, here the list of them comes first; the builder and `SetInnerHtml` take tokens, whatever they are, and `DomBound` whatever tokens follow the two tags in front of the markup. The view mode, which only escapes, is left out.
- HtmlScan.ReadAttributes: case folding is a parameter, any function on strings. Of the entities only the five the serializer writes are read back; numeric references are left out and html_entities.inc is not part of this model; text written by the serializer has no others.
- HtmlMarkup.MarkupBack: about trees a parse can give and markup can tell apart: p and li not nested in the ways the parser closes, no empty or adjacent texts, names and keys without the characters that end them, and nothing but one text in a script.
- HtmlLeftOut.OutOfPlace: about open formatting elements none of which was closed early at the depth cap; what the cap does is the subject of `HtmlCap`.
- The builder's set of nodes closed early is a set there; that the open-addressing set behaves like one is proved in `ProbeSets`.
- Layout arithmetic, colours, fonts, blur kernels and pixels: a drawing is its command, and whether a point lies in it is a predicate. The replay theorem is about which drawings appear inside which effects; removing an empty destination-in group can change pixels, and nothing is claimed about them.
- NaN opacity or blur, which only a failed allocation produces, so `collect` never fails.
- Float rounding of scroll offsets and deadlines: they are real numbers.
- DomRuns.May: a script names a node it holds, or one of another document; by which of the document's links it came to hold a node is not followed, only that live trees are whole. Attribute changes leave the tree alone and are left out.
- DomDocument.Document: a null handle or one of another document is an id out of range, and node pointers are ids in the order of creation.
- DomInnerHtml.Adopt: the fragment's nodes get their ids before the children move, not after; no step in between can be seen.
- tai_node_find_by_id: its explicit-stack walk has the shape of the ones proved for FitsBelow, FindBody and TextContent.
- UrlPort.DecimalPort: Unicode digits and spaces are not modelled; a port is ASCII here, so a port in other digits falls back to about:blank in the model.
- Resolving relative references other than fragments, and stripping spaces around them.
- Limits of counters: task sequence numbers of the scheduler, capacities and string lengths do not wrap; tab ids and generations stop at 2^64 - 1 as in the code.
- Opening external URLs (mailto), bookmarks pages, visited links, resizing failures beyond their effect on a commit, and the text of error messages.
- TabMachine: what a page load does while it is in the loader's hand is one step, its end; network polls only appear as ends of loads and as the network's failure.
- TabApp.App: tab slots are found through each window's list of ids, not through an array of structures, and the array of windows is a sequence.
- TabApp.App.Pump: the method runs without steps of the loader in between; `TabPumpRuns` proves for the machine that such steps do not change how a pump ends.
- TabApp.App.CancelOrReap: the pass is proved without steps of the other thread in between; each of its removals is a step of the machine, which may interleave.
- XhrApp.Net.LoaderEnd: like the passes it is made of, proved without steps of the other threads in between; each of its parts is a step of the machine, and `XhrRuns.NothingLeft` and `XhrRuns.ClosedMoves` are about all interleavings.
- Condition variables and deadlines: a waiting thread may wake when its condition holds, and a job may expire at any time.
- XhrMachine: any number of window-thread requests may wait at once, more than the one the window thread can make.
- Scheduler configurations: the C constructor refuses negative times and a burst limit of 0; here any configuration is taken.
- The scheduler's task callbacks: a callback that schedules more is a later call.
- CSS parsing, the resolution of inherit, and relative font sizes.
- CascadeMeaning.MatchesExactly: for class names that are not empty, as the parser makes them.
- Selectors.MatchesSelector: class names are split at white space code points, and text is a sequence of characters.
- Hash functions: the sets are proved for any hash function; the mask of the low bits is the remainder by a capacity proved to be a doubling of the first one.
- File replacement is one step, and a failed write leaves the old file; temporary names, directories, symbolic links and permissions are not modelled.
- utf8proc: a sequence is accepted exactly when section 4 of RFC 3629 says it is well-formed.
- src/visited.c, src/presentation.c, src/main.c, src/trace.c and src/external.c are not part of this model.
