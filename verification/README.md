# Graphviz runtime and graph tools: a verified model

This project models, in Dafny, three parts of Graphviz and proves what they promise for every input,
every run and every reachable state.

**The runtime of lefty** (`cmd/lefty`), an interpreter whose data live in hash tables.
- `Collector`, `CollectorRuns`, `CollectorGarbage`, `CollectorHeap`: the incremental two-area mark and
  sweep collector of mem.c. Its steps are functions on a state; runs of them never lose a reachable
  object, garbage is freed by the end of the cycle, and the class `Heap` does the same in place.
- `CollectorEffects`: what each step does to marks and objects, and what a mark keeps in use.
- `CollectorExact`: how far the invariant of the collector can be weakened without losing objects: not at all.
- `CollectorCopy`, `CollectorShallow`, `CollectorDeep`, `CollectorLoss`: the deep copy while the collector
  runs: what it keeps, when it is safe for what comes after, and a run after which an object is lost.
- `Table`, `TableOps`, `TableEffects`, `Allocator`, `TableCells`: the hash tables of tbl.c as a finite map, their
  iteration, what happens to each entry, the memory they own, and the two put together.
- `TableCopy`, `TableCopier`: the deep copy with its sharing and cycles, and the code that makes it, with the
  collections it starts.
- `ExecState`, `ExecMeaning`, `Exec`, `ExecLeak`, `ExecUnits`: the evaluator of exec.c, whose locals live on the
  mark stack and whose break, continue and return are long jumps. ExecMeaning says what a program means, without
  stacks and jumps, and Exec is proved against it; `ExecPrograms` and `ExecValues` write out what it says.

**The language of lefty**: tokens to cells and back.
- `LeftySyntax`, `LeftyGrammar`, `LeftyPrint`: tokens, trees, what parse.c accepts and what str.c prints.
  `LeftyPrecedence` and `LeftyForms` write out what each form of the language becomes.
  `LeftyRoundTrip` and `LeftyImage` prove that the two undo each other, and exactly when; `LeftyStrip` and
  `LeftyElse` say what happens otherwise.
- `CodeCells`, `CodeTrees`, `CodeReads`, `CodeBuild`, `CodeInjective`, `CodeForms`: the array of linked cells of
  code.c, its many-cell strings, and the relocation done by Tcode.
- `ParserRules`, `Parser`, `WriterRules`, `Writer`, `Reprint`: the recursive descent of parse.c that fills
  the cell array and the recursive walk of str.c over it, each proved against grammar and printer, and put together.

**Algorithms** that stand alone.
- `Digraph`, `AcyclicSteps`, `Acyclic`: acyclic.c, which reverses back edges in the graph it is walking.
- `Undirected`, `BlockTheory`, `BlockConnect`, `BcompsState`, `BcompsSteps`, `BcompsWalk`,
  `BcompsRoots`, `Bcomps`, `BcompsTool`: bcomps.c, biconnected components with an intrusive edge stack.
- `Ccomps`: ccomps.c, connected components over a chunked stack.
- `Md5Block`, `Md5`, `Md5Vectors`: md5.c against RFC 1321 and two of its test values.

Where the code works in place the model does too: a class with the source's fields, and methods with
the source's loops. Each is proved against a function, and the theorems are about that function. A C
function that was too large for one proof is several methods here, one for each part of its body.

Some things the code does are not what one would expect. They are kept, and stated exactly:
- A block of one statement prints without its braces, so an else can change sides
  (`LeftyImage.PrintThenParse`, `LeftyElse.PrintLost`). `LeftyStrip.PrintUnwraps` says what the print
  parses to.
- bcomps flags every node that a search starts from and that has a neighbour. `BcompsTool.CutFlags` gives
  the flags in terms of the graph and the order of its nodes, `BcompsTool.CutCorrect` says when they are
  right, and `BcompsTool.TwoNodes` is a graph for which they are wrong.
- The deep copy stores keys and scalars without shading them. The copy itself is always right
  (`TableCopier.Copier.Tcopy`), but it can leave a state from which an object in use is freed:
  `CollectorLoss.CopyLoses` is such a run. `CollectorExact.SafeIff` says of every state after a copy whether it
  is one of these; Tcopy has two conditions on the call under which it is not, and
  `CollectorDeep.DeepLoses` shows how it comes about where they fail.
- A break or continue jumps to pljbufp1, which a call does not reset (cmd/lefty/exec.c:408-416). Where it stands
  in no loop of its function, which the parser does not ask for, the call record, the marks and the frame
  of the function stay (`Exec.Machine.EEval`, `ExecUnits.LeaverLeaves`).
- While the body of a "for in" or an index is evaluated, nothing marks the table that the variable is looked
  up in, so it can be freed before the assignment. `CollectorExact.HeldIff` says which tables cannot.
- A "for in" over something that is no table leaves a mark behind if its variable is indexed by an
  object (`Exec.Machine.EForIn`, `ExecLeak.LeakOne`; cmd/lefty/exec.c:644-647). The mark goes when the
  function returns.
- A bucket array of one bucket would go back in the wrong size class (`Allocator.FreedInClass`); the
  code never makes one.
- The third part of a "for" cannot be left out (cmd/lefty/parse.c:589-593), a declaration may leave out
  its commas (cmd/lefty/parse.c:429-443), and `{}` and `;` are the same statement.
- For a function without statements str.c looks at the cell before the array
  (cmd/lefty/str.c:246-247). The model takes that cell as not being C_INTERNAL.

## Model

| member | source | states |
|---|---|---|
| Collector.ShadeKeeps | cmd/lefty/mem.c:263-273 | shading a live object keeps the queue invariant (each marked object is queued once, scanned ones have marked children), marks the object and changes nothing else |
| Collector.ScanOneKeeps | cmd/lefty/mem.c:290-302 | scanning the next queued table marks all its keys and values, so the scanned prefix stays closed, and advances by one |
| Collector.ScanUpToKeeps | cmd/lefty/mem.c:290-302 | k scan steps keep the invariant and stop after k objects or at the end of the queue, whichever comes first |
| Collector.BeginKeeps | cmd/lefty/mem.c:281-288 | flipping the areas and shading the whole mark stack establishes the full invariant, with nothing scanned yet |
| CollectorRuns.GcSafe | cmd/lefty/mem.c:275-325 | one collection step, of any size and in any state, frees no object reachable from the mark stack and changes no object that it keeps; a full one leaves the collector off |
| CollectorRuns.SweepKeeps | cmd/lefty/mem.c:306-313 | a sweep with nothing left to scan keeps exactly the marked objects |
| CollectorRuns.QueueFits | cmd/lefty/mem.c:263-302 | an object is queued at most once a cycle: queue and scan index never exceed the number of objects |
| CollectorRuns.PushKeeps | cmd/lefty/mem.c:237-248 | pushing a mark during a cycle keeps the invariant, because it shades |
| CollectorRuns.PopKeeps | cmd/lefty/mem.c:250-255 | popping to any index, in range or not, keeps the invariant |
| CollectorRuns.ResetKeeps | cmd/lefty/mem.c:257-261 | overwriting a mark keeps the invariant, because it shades |
| CollectorRuns.PrepareKeeps | cmd/lefty/mem.c:121-131 | the collection an allocation may trigger frees nothing reachable and keeps the invariant |
| CollectorRuns.PlaceKeeps | cmd/lefty/mem.c:132-135 | the new object is marked when it appears, and the invariant holds again |
| CollectorRuns.BareStore | cmd/lefty/tbl.c:613-616 | a store into a table that shades nothing keeps the invariant if and only if the table is not scanned yet or everything stored is marked |
| CollectorRuns.RootedStoreKeeps | cmd/lefty/tbl.c:213-264 | storing entries made of old entries and of live, marked pointers keeps the invariant |
| CollectorRuns.WithKeyKeeps | cmd/lefty/tbl.c:213-264 | an insert guards table and value on the mark stack while its key is allocated, so both are still live and marked when they are stored |
| CollectorRuns.StepKeeps | cmd/lefty/mem.c:237-325 | every step of a run - allocate, push, pop, reset, insert, delete, collect - keeps the invariant and every reachable object, which changes only if it is the table being updated |
| CollectorRuns.RunKeeps | cmd/lefty/mem.c:237-325 | after any sequence of steps the invariant holds and everything reachable from the mark stack is still allocated |
| CollectorEffects.StepMarks | cmd/lefty/mem.c:237-261 | the mark stack after each step, written out: one mark more, a cut at the index if it is in range, one mark replaced, and no change by all other steps |
| CollectorEffects.StepStores | cmd/lefty/tbl.c:213-264 | after an update the table holds just the entries that the update gives; a new object is what was asked for |
| CollectorEffects.AllocCollects | cmd/lefty/mem.c:118-143 | between two cycles an allocation collects only if it has to carve a buffer; if that collection is in full, or ends, exactly the reachable objects and the new one are left |
| CollectorEffects.CollectExtent | cmd/lefty/mem.c:289-304 | a call that does not end the cycle has scanned as many objects as it was asked for |
| CollectorEffects.MarkHolds | cmd/lefty/mem.c:281-288 | an object on a mark stays allocated, reachable and unchanged through every run that leaves this mark and the object alone |
| CollectorEffects.ResetHolds | cmd/lefty/mem.c:257-261 | an object put into mark m by a reset is reachable at once, and in use through every such run |
| CollectorEffects.PushHolds | cmd/lefty/mem.c:237-248 | the same for an object that is pushed |
| CollectorEffects.ReleasedFreed | cmd/lefty/mem.c:250-261 | an object that a pop or a reset leaves on no path from the marks is gone after two full collections |
| CollectorRuns.InitialInv | cmd/lefty/mem.c:73-96 | the state set up by Minit satisfies the invariant |
| CollectorGarbage.BeginSealed | cmd/lefty/mem.c:281-288 | what is unreachable when a cycle starts is unmarked, and nothing marked points to it |
| CollectorGarbage.GcSealed | cmd/lefty/mem.c:289-325 | a collection step keeps the garbage unmarked, or ends the cycle and frees all of it |
| CollectorGarbage.StepSealed | cmd/lefty/mem.c:237-325 | no step that does not itself name garbage can bring it back while the cycle lasts |
| CollectorGarbage.GarbageFreed | cmd/lefty/mem.c:275-325 | whatever runs in between, an object unreachable when a cycle starts is gone when that cycle ends |
| CollectorGarbage.TwoFullCollections | cmd/lefty/mem.c:275-325 | two full collections in a row leave exactly the objects reachable from the mark stack, whatever state the first one found |
| CollectorGarbage.CycleBound | cmd/lefty/mem.c:118-143 | a cycle ends: with at least k scan steps an allocation, the allocations made while it is on, times k - 1, are bounded by what was left to scan |
| CollectorExact.SafeIff | cmd/lefty/mem.c:263-325 | where the invariant holds but for what given tables hold, the state is safe for every way the program can go on if and only if the full invariant holds, that is if every such table that was scanned holds marked objects only; otherwise a losing run is given |
| CollectorExact.Loses | cmd/lefty/mem.c:275-325 | the losing run: hold the scanned table, empty the tables still queued, and collect; then an object reached from the mark stack is gone |
| CollectorExact.HeldIff | cmd/lefty/exec.c:632-668 | an object stays allocated through every evaluation that leaves given marks alone if and only if one of these marks holds it; so the table that an assignment or a "for in" has looked up for its variable is safe exactly if it is on such a mark |
| CollectorCopy.LaxScans | cmd/lefty/mem.c:290-302 | a scan step keeps the invariant but for the entries of the copies, and marks all entries of what it scans |
| CollectorCopy.CopyMarked | cmd/lefty/tbl.c:607-629 | when all is scanned every copy is marked: it is on the mark stack, or an older copy holds it by an entry that was stored when it was marked or before its holder was scanned |
| CollectorCopy.CollectKeeps | cmd/lefty/mem.c:275-325 | a collection of any size in the middle of a deep copy frees nothing that is in use, and keeps what was in use when the copy began and all copies |
| CollectorCopy.BornKeeps | cmd/lefty/tbl.c:618-621 | the invariant of a copy in the making holds after the birth of a new copy |
| CollectorCopy.AppendMaking | cmd/lefty/tbl.c:611-626 | it holds after an unshaded store, which also takes in a copy that was finished just before |
| CollectorCopy.PopMaking | cmd/lefty/tbl.c:629 | it holds when the mark of a finished copy is taken off |
| CollectorShallow.MarksInOrder | cmd/lefty/mem.c:286-287 | the start of a cycle queues the marks from the bottom of the mark stack up |
| CollectorShallow.CollectKeepsOrder | cmd/lefty/mem.c:275-325 | while a table is copied, whatever collection runs keeps the source ahead of its copy in the queue |
| CollectorShallow.KnownMarked | cmd/lefty/tbl.c:607-626 | when the copy was scanned the source was scanned before, so all keys and values of the source are marked |
| CollectorDeep.DeepLoses | cmd/lefty/tbl.c:607-626 | whenever a cycle begins at the allocation for a table in the middle of a nested table that is on no mark, there is a number of scan steps for which the next value that no marked table shares is stored so that it can be lost |
| CollectorLoss.CopyLoses | cmd/lefty/tbl.c:607-626 | a run from the initial state, with the marks of Tinit and Einit and four scan steps at a time, whose deep copy of the root table leaves a state from which an object in use can be freed |
| CollectorHeap.Heap.constructor | cmd/lefty/mem.c:73-96 | starts in the initial state of the runs above |
| CollectorHeap.Heap.Mmkcurr | cmd/lefty/mem.c:263-273 | in place: refines the shading step |
| CollectorHeap.Heap.Mpushmark | cmd/lefty/mem.c:237-248 | returns the old height; the mark array is the old one with p at its end; refines the push step |
| CollectorHeap.Heap.Mpopmark | cmd/lefty/mem.c:250-255 | the mark array is cut at m if m is below its height, and stays as it is otherwise; refines the pop step and keeps the invariant |
| CollectorHeap.Heap.Mresetmark | cmd/lefty/mem.c:257-261 | the mark array is the old one with p at index m; refines the reset step and keeps the invariant |
| CollectorHeap.Heap.Tgchelper | cmd/lefty/tbl.c:100-111 | refines shading all entries of one table, in order |
| CollectorHeap.Heap.ScanNext | cmd/lefty/mem.c:290-302 | refines one scan step |
| CollectorHeap.Heap.StartCycle | cmd/lefty/mem.c:281-288 | refines the start of a cycle: areas and queues exchanged, every mark shaded |
| CollectorHeap.Heap.FreeUnmarked | cmd/lefty/mem.c:306-313 | the sweep loop over the old queue frees exactly what the sweep step removes |
| CollectorHeap.Heap.Mdogc | cmd/lefty/mem.c:275-325 | the whole collection step refines the specified one, keeps the invariant, and leaves the mark array alone |
| CollectorHeap.Heap.ScanAll | cmd/lefty/mem.c:290-295 | scans until the growing queue is exhausted; the number of objects bounds the loop |
| CollectorHeap.Heap.ScanSome | cmd/lefty/mem.c:296-304 | scans at most gcsteps objects |
| CollectorHeap.Heap.Mnew | cmd/lefty/mem.c:118-143 | refines the allocation step; the new object holds what was asked for and is marked, and the mark array is as before |
| Digraph.OrderedAcyclic | cmd/tools/acyclic.c:82-111 | a graph whose edges, self-loops apart, all lead from later-finished to earlier-finished nodes has no cycle of two or more nodes |
| AcyclicSteps.BackEdgeOriginal | cmd/tools/acyclic.c:95-105 | an edge to a node on the stack is an edge of the input graph: an edge that was added never shows up as a back edge |
| AcyclicSteps.ReverseEdges | cmd/tools/acyclic.c:95-105 | the reversal removes exactly the back edge and adds exactly its mirror image, if it adds one |
| AcyclicSteps.ReverseAdjacency | cmd/tools/acyclic.c:95-105 | the set of adjacent unordered pairs is unchanged by a reversal, strict graph or not, keyed edge or not |
| AcyclicSteps.ReverseAccounted | cmd/tools/acyclic.c:69-105 | every edge left is an input edge or the mirror of an input edge that is gone |
| AcyclicSteps.ReverseCount | cmd/tools/acyclic.c:95-105 | a reversal never increases the number of edges |
| AcyclicSteps.ReverseExact | cmd/tools/acyclic.c:95-105 | each input edge that is gone has its own mirror in the graph, made for it, unless the graph is strict or the edge is named, where an edge the other way that is there already may stand for it |
| AcyclicSteps.SameCount | cmd/tools/acyclic.c:101-103 | a graph that is not strict and has unnamed edges only keeps its number of edges |
| AcyclicSteps.CycleOnStack | cmd/tools/acyclic.c:95-105 | an edge back to a node on the stack closes a cycle of the graph |
| AcyclicSteps.EnterKeeps | cmd/tools/acyclic.c:88-89 | entering a node keeps the invariant of the search |
| AcyclicSteps.LeaveKeeps | cmd/tools/acyclic.c:109-110 | leaving a node whose edges are all settled keeps the invariant: its edges lead to nodes finished before it |
| AcyclicSteps.ReverseKeeps | cmd/tools/acyclic.c:95-105 | reversing a back edge keeps the invariant of the search, with the graph changing under it |
| Acyclic.Tool.Reverse | cmd/tools/acyclic.c:95-105 | in place: refines the specified reversal, adding before deleting |
| Acyclic.Tool.WalkEdge | cmd/tools/acyclic.c:90-108 | one turn of the edge loop: the edge saved before a reversal is still in the list afterwards, and edges added to the node meanwhile are still visited |
| Acyclic.Tool.Dfs | cmd/tools/acyclic.c:82-111 | terminates although edges are added, finishes its node, restores the stack and reports the cycles found inside |
| Acyclic.Tool.Run | cmd/tools/acyclic.c:195-198 | the result has no cycle of two or more nodes; the returned value is 1 exactly when the input had one; adjacency is kept, edges do not grow in number, each removed edge has its own mirror where the code makes one, so a graph that is not strict and has unnamed edges only keeps their number, and an acyclic input is returned unchanged |
| Acyclic.AllDone | cmd/tools/acyclic.c:82-111 | when all nodes are marked and the stack is empty, the invariant gives the result: acyclic, and a reversal happened exactly if the input was cyclic |
| BlockTheory.EdgeInBlock | cmd/tools/bcomps.c:193-227 | both ends of every edge, self-loops apart, lie in one block of the finished search tree |
| BlockTheory.BlocksMeetOnce | cmd/tools/bcomps.c:193-227 | two different blocks have at most one node in common |
| BlockConnect.BlockStaysConnected | cmd/tools/bcomps.c:193-227 | a block without any one node is still connected, by walks inside the block |
| BlockConnect.HeadSeparates | cmd/tools/bcomps.c:212-219 | where low(child) reaches no higher than the node, removing the node cuts the child off from everything outside its subtree |
| BlockConnect.NonRootCut | cmd/tools/bcomps.c:212-213 | a node that is not a root is an articulation point if and only if it has a child that starts a block |
| BlockConnect.RootCut | cmd/tools/bcomps.c:212-213 | a root is an articulation point if and only if it has two children |
| BcompsSteps.ReachKeeps | cmd/tools/bcomps.c:201-202 | numbering a new node keeps the invariant of the search and the blocks found so far |
| BcompsSteps.SetLowKeeps | cmd/tools/bcomps.c:211-222 | lowering the low value of a node on the path keeps the invariant |
| BcompsSteps.LeaveKeeps | cmd/tools/bcomps.c:226-227 | leaving a node with all neighbours numbered fixes its low value and keeps the invariant |
| BcompsSteps.CloseKeeps | cmd/tools/bcomps.c:212-220 | recording a block and flagging its top node keeps the invariant |
| BcompsWalk.EndsAreBlock | cmd/tools/bcomps.c:214-219 | the ends of the edges stacked since the tree edge are exactly the nodes of the block |
| Bcomps.TreeEdge | cmd/tools/bcomps.c:208-220 | after a child returns: the test low(child) >= N(node) holds exactly if the child starts a block, and either way the walk of the node goes on with its invariant |
| Bcomps.PushedOnce | cmd/tools/bcomps.c:208-225 | an edge about to be pushed is not on the stack, so the intrusive link of an edge is never overwritten |
| BcompsRoots.NotReached | cmd/tools/bcomps.c:275-278 | between two searches, no unnumbered node is connected with a numbered one |
| BcompsRoots.RootsAre | cmd/tools/bcomps.c:275-278 | a search starts at a node if and only if no earlier node of the order is in the same component |
| BcompsTool.AfterRoot | cmd/tools/bcomps.c:275-278 | when the search from a root returns, the edge stack is empty |
| BcompsTool.EdgesCovered | cmd/tools/bcomps.c:193-227 | after the root loop both ends of every edge are in one recorded block |
| BcompsTool.BlocksShareOne | cmd/tools/bcomps.c:193-227 | two recorded blocks share at most one node |
| BcompsTool.BlockBiconnected | cmd/tools/bcomps.c:193-227 | a recorded block stays connected when any one node is removed |
| BcompsTool.CutExact | cmd/tools/bcomps.c:212-213 | a node with a parent in the search is flagged if and only if it is an articulation point |
| BcompsTool.RootMark | cmd/tools/bcomps.c:212-213 | a root is flagged if and only if it has a neighbour other than itself |
| BcompsTool.CutFlags | cmd/tools/bcomps.c:212-213 | a node is flagged if and only if it is an articulation point, or the first node in the node order of a component that has an edge other than loops |
| BcompsTool.CutCorrect | cmd/tools/bcomps.c:212-213 | the flags are the articulation points if and only if the first node of every component with an edge other than loops is an articulation point |
| BcompsTool.TwoNodes | cmd/tools/bcomps.c:193-227 | the shortest wrong result: on two nodes and one edge the first node is flagged and is no articulation point |
| BcompsTool.Tool.Push | cmd/tools/bcomps.c:79-83 | sets NEXT(e) and the top; the linked list is the old one with e on top, and no link in it is overwritten, since e is not on it |
| BcompsTool.Tool.Pop | cmd/tools/bcomps.c:85-92 | follows NEXT of the top; the linked list is the old one without its top |
| BcompsTool.Tool.MakeBlock | cmd/tools/bcomps.c:214-219 | pops down to and including the tree edge; the block is the set of all ends popped, and the rest of the stack is untouched |
| BcompsTool.Tool.AfterReturn | cmd/tools/bcomps.c:211-220 | the branch after a recursive call: lower, then flag and close a block, or keep the edges |
| BcompsTool.Tool.WalkEdge | cmd/tools/bcomps.c:203-226 | one turn of the edge loop keeps the invariant of the walk, for tree, back, parent and loop edges |
| BcompsTool.Tool.Dfs | cmd/tools/bcomps.c:193-227 | numbers the whole reachable part and leaves on the stack only its open edges |
| BcompsTool.Tool.Process | cmd/tools/bcomps.c:275-278 | after the loop over all nodes everything is numbered, all blocks are recorded and the stack is empty; the roots are the first nodes of their components, and the flags are as CutFlags says |
| LeftyRoundTrip.RtI | cmd/lefty/parse.c:189-214 | printing an operator tree of a level and parsing it back gives the same tree, left association included |
| LeftyRoundTrip.RtE | cmd/lefty/parse.c:156-169 | the same for a whole expression, right-associative assignment included |
| LeftyRoundTrip.Rt7 | cmd/lefty/parse.c:242-281 | the same for primaries: parentheses, calls, constants, variables, tables, functions |
| LeftyRoundTrip.RtPath | cmd/lefty/parse.c:325-361 | the same for a variable path with dots and brackets |
| LeftyRoundTrip.RtFunc | cmd/lefty/parse.c:363-414 | the same for functions, with slots of parameters and locals resolved to the same numbers |
| LeftyRoundTrip.RtS | cmd/lefty/parse.c:479-534 | the same for every statement, if an open "if" is not followed by an else |
| LeftyRoundTrip.RtSs | cmd/lefty/parse.c:488-502 | the same for statement lists |
| LeftyImage.ImE | cmd/lefty/parse.c:156-169 | every expression the parser can build is well formed in its scope, and its braces are paid for by braces of the input |
| LeftyImage.UnitWf | cmd/lefty/parse.c:78-98 | the result of a parsed unit is well formed |
| LeftyImage.PrEBraces | cmd/lefty/str.c:137-436 | the braces printed for a tree are those of its functions and of its blocks of two or more statements, one-statement blocks apart |
| LeftyImage.PrintThenParse | cmd/lefty/str.c:298-302 | a printable tree that the parser built is rebuilt exactly by parsing its print if and only if it has no one-statement block |
| LeftyImage.DanglingElse | cmd/lefty/str.c:298-302 | the tree of "if (c) { if (d) a; } else b;" prints without the braces and parses back with the else on the inner "if" |
| LeftyImage.PrintNeverBack | cmd/lefty/str.c:298-302 | the print of a unit with a one-statement block never parses to that unit, whatever it parses to |
| LeftyElse.BracedParses | cmd/lefty/parse.c:536-553 | the parser builds that tree from "if (c) { if (d) a; } else b;", for all expressions |
| LeftyElse.PrintLost | cmd/lefty/str.c:298-302 | a function with that statement is accepted and can be printed, and its print parses to something else |
| LeftyElse.ShortestLost | cmd/lefty/str.c:298-302 | in tokens: function () { if (1) { if (2) 3; } else 4; } |
| LeftyStrip.PrintUnwraps | cmd/lefty/str.c:292-348 | a printed unit parses back with its one-statement blocks unwrapped if and only if no branch before an else ends, inside such blocks, in an "if" that would take the else |
| CodeCells.StringSizes | cmd/lefty/code.c:88-102 | the number of cells a string takes, as Cstring counts it, is the number that Tcode steps over |
| CodeCells.CeilingIsFloor | cmd/lefty/tbl.c:166-180 | for every length, offset and cell size, the rounding up of the one and the rounding down plus one of the other agree |
| CodeCells.EmitMoves | cmd/lefty/tbl.c:152-193 | relocating the cells of a tree gives the cells of the same tree laid out at the new place |
| CodeCells.LinksInside | cmd/lefty/parse.c:363-414 | every link in the cells of a tree stays in the span of the tree, save the next link of its top cell |
| CodeCells.RowGrows | cmd/lefty/parse.c:283-303 | appending a sibling and setting one next link turns the cells of a list into the cells of the longer list |
| CodeReads.EmitReads | cmd/lefty/tbl.c:152-193 | following the links from the top cell of a laid-out tree reads that tree |
| CodeReads.ReadsOnce | cmd/lefty/str.c:137-436 | cells read as at most one tree, so equal cells mean equal programs |
| CodeReads.FuncLength | cmd/lefty/parse.c:363-414 | the length stored in a function node is the number of cells of the function |
| CodeInjective.SameCode | cmd/lefty/parse.c:78-98 | two units with equal code objects are the same unit |
| CodeReads.Extract | cmd/lefty/exec.c:349-352 | cutting a function out with its stored length and relocating it gives, at index 0, the same function |
| CodeTrees.StringIsRead | cmd/lefty/code.c:88-102 | a string packed over several cells is read back unchanged |
| CodeTrees.EmitLaid | cmd/lefty/tbl.c:152-193 | the cells of a tree can be stepped through one object at a time |
| CodeTrees.Tcode | cmd/lefty/tbl.c:152-193 | the copy loop, which skips over string cells, moves the links of every cell and nothing else |
| CodeBuild.Operator | cmd/lefty/parse.c:198-214 | the cells left by "operand, operator cell, first link" are those of the operator tree |
| CodeBuild.FirstChild | cmd/lefty/parse.c:283-292 | the cells left by "node cell, child, first link" are those of the node with one child |
| CodeBuild.NextChild | cmd/lefty/parse.c:293-301 | the cells left by "child, next link" are those of the node with one more child |
| CodeBuild.Numbered | cmd/lefty/parse.c:363-414 | filling in the two counts of a function afterwards gives the cells of the function with these counts |
| CodeForms.LongString | cmd/lefty/code.c:88-102 | the cells of a string of ten characters, byte for byte |
| CodeForms.Operator | cmd/lefty/parse.c:198-214 | the cells, links and all, of 1 op 2, for every operator: its cell comes behind its first operand |
| CodeForms.Later | cmd/lefty/parse.c:198-214 | the cells, links and all, of 1 + 2 * 3 |
| CodeForms.Earlier | cmd/lefty/parse.c:198-214 | the cells, links and all, of 1 - 2 - 3 |
| CodeForms.Negative | cmd/lefty/parse.c:216-227 | the cells, links and all, of - 1 |
| CodeForms.Negated | cmd/lefty/parse.c:229-240 | the cells, links and all, of ! 1 |
| CodeForms.InParens | cmd/lefty/parse.c:242-255 | the cells, links and all, of (1) |
| CodeForms.Stored | cmd/lefty/parse.c:156-169 | the cells, links and all, of x = 1: the cell of the assignment comes behind its variable |
| CodeForms.GlobalPath | cmd/lefty/parse.c:325-361 | the cells, links and all, of x[1].y |
| CodeForms.LocalPath | cmd/lefty/parse.c:325-361 | the cells, links and all, of x[1] for a local: its name, its slot, and the index |
| CodeForms.NoArguments | cmd/lefty/parse.c:283-303 | the cells, links and all, of f () |
| CodeForms.TwoArguments | cmd/lefty/parse.c:283-303 | the cells, links and all, of f (1, 2): the call comes behind its function, and the arguments under a cell of their own |
| CodeForms.TableOfTwo | cmd/lefty/parse.c:447-477 | the cells, links and all, of [ 1 = 2; 3 = 4; ] |
| CodeForms.FunctionOfOne | cmd/lefty/parse.c:363-414 | the cells, links and all, of function (p) { local x; 1; }: the length in cells, the number of locals, the names and the body |
| CodeForms.InternalOfOne | cmd/lefty/parse.c:382-393 | the cells, links and all, of an internal function |
| CodeForms.EmptyStatement | cmd/lefty/parse.c:484-487 | the cells, links and all, of a semicolon |
| CodeForms.TwoInBlock | cmd/lefty/parse.c:488-503 | the cells, links and all, of { 1; 2; } |
| CodeForms.IfOnly | cmd/lefty/parse.c:536-553 | the cells, links and all, of if (1) 2; |
| CodeForms.IfElse | cmd/lefty/parse.c:536-553 | the cells, links and all, of if (1) 2; else 3; |
| CodeForms.WhileOne | cmd/lefty/parse.c:555-567 | the cells, links and all, of while (1) 2; |
| CodeForms.ForThree | cmd/lefty/parse.c:569-597 | the cells, links and all, of for (1; 2; 3) 4; |
| CodeForms.ForOpen | cmd/lefty/parse.c:569-597 | the cells, links and all, of for (;; 3) 4;: a cell of its own for each part left out |
| CodeForms.ForTable | cmd/lefty/parse.c:569-597 | the cells, links and all, of for (x in 1) 2; |
| CodeForms.BreakOnly | cmd/lefty/parse.c:599-607 | the cells, links and all, of break; |
| CodeForms.ContinueOnly | cmd/lefty/parse.c:609-617 | the cells, links and all, of continue; |
| CodeForms.ReturnOnly | cmd/lefty/parse.c:619-633 | the cells, links and all, of return; |
| CodeForms.ReturnValue | cmd/lefty/parse.c:619-633 | the cells, links and all, of return 1; |
| CodeForms.ParseSum | cmd/lefty/parse.c:78-98 | the parser leaves just these six cells for the tokens 1 + 2 * 3 |
| Parser.Reader.Cstring | cmd/lefty/code.c:88-102 | appends the cells of the string |
| Parser.Reader.Expr | cmd/lefty/parse.c:156-169 | succeeds exactly if the grammar does, and leaves exactly the cells of the parsed tree, whose index it returns |
| Parser.Reader.ExpI | cmd/lefty/parse.c:198-214 | the same for the operator levels, whose rows LeftyPrecedence writes out; the loop links each operator over what was built so far |
| Parser.Reader.Exp5 | cmd/lefty/parse.c:216-227 | the same for unary minus |
| Parser.Reader.Exp6 | cmd/lefty/parse.c:229-240 | the same for not |
| Parser.Reader.Exp7 | cmd/lefty/parse.c:242-281 | the same for primaries |
| Parser.Reader.Args | cmd/lefty/parse.c:283-303 | the same for argument lists; a trailing comma is an error |
| Parser.Reader.VarPath | cmd/lefty/parse.c:325-361 | the same for variables; a name in scope becomes a local with the slot of its first declaration |
| Parser.Reader.Function | cmd/lefty/parse.c:363-414 | the same for functions; the scope of the enclosing function is restored |
| Parser.Reader.Header | cmd/lefty/parse.c:367-381 | the function node, its two counts and its parameters, which become the new scope |
| Parser.Reader.CodeBody | cmd/lefty/parse.c:394-412 | locals and statements; the number of slots is that of parameters and locals |
| Parser.Reader.InternalBody | cmd/lefty/parse.c:382-393 | an internal function is the first one of that name; an unknown name is an error |
| Parser.Reader.Decl | cmd/lefty/parse.c:416-445 | declared names as strings in cells and in the local stack; a name declared twice is an error, a missing comma is not |
| Parser.Reader.Addlv | cmd/lefty/parse.c:635-646 | succeeds exactly if the name is new in this function |
| Parser.Reader.TableCons | cmd/lefty/parse.c:447-477 | the same for table constructors: keys and values in turn |
| Parser.Reader.Stmts | cmd/lefty/parse.c:488-502 | the same for the statements up to a closing brace |
| Parser.Reader.Statement | cmd/lefty/parse.c:479-534 | the same for every statement |
| Parser.Reader.IfSt | cmd/lefty/parse.c:536-553 | the same for "if"; an else goes with the nearest one |
| Parser.Reader.WhileSt | cmd/lefty/parse.c:555-567 | the same for "while" |
| Parser.Reader.ForSt | cmd/lefty/parse.c:569-597 | the same for both kinds of "for"; the node changes its type at the "in" |
| Parser.Reader.JumpSt | cmd/lefty/parse.c:599-617 | the same for break and continue |
| Parser.Reader.ReturnSt | cmd/lefty/parse.c:619-633 | the same for return, with and without a value |
| Parser.Reader.Unit | cmd/lefty/parse.c:78-98 | a unit is an object exactly if the grammar accepts it, and its cells are those of the parsed tree |
| LeftyPrecedence.RowOf | cmd/lefty/parse.c:171-196 | the rows of operators, each token written beside its node: getop finds just those of its row |
| LeftyPrecedence.OneOperator | cmd/lefty/parse.c:198-214 | two operands and one operator, at every level that reads them |
| LeftyPrecedence.TwoOperators | cmd/lefty/parse.c:198-214 | a op1 b op2 c, for all operands that pexp5 reads: op2 takes b if it is in a later row of the written-out list, and op1 does otherwise |
| LeftyPrecedence.Numbers | cmd/lefty/parse.c:171-214 | the same for three numbers, as a whole unit |
| LeftyPrecedence.Parens | cmd/lefty/parse.c:242-249 | (a op1 b) op2 c keeps its parentheses as a node, for each two operators |
| LeftyPrecedence.PrefixOperand | cmd/lefty/parse.c:216-240 | a minus takes an operand with its own minus or not; a not takes one that does not start with a minus |
| LeftyPrecedence.Prefixes | cmd/lefty/parse.c:216-240 | - a op b and ! a op b: the prefix binds tighter than every operator, on both sides |
| LeftyPrecedence.Assignments | cmd/lefty/parse.c:156-169 | v = w = a op b assigns from the right, and binds looser than every operator |
| LeftyForms.EmptyForms | cmd/lefty/parse.c:484-492 | a semicolon is the empty statement; a return without a value |
| LeftyForms.JumpForms | cmd/lefty/parse.c:599-617 | break; and continue; |
| LeftyForms.ExprForms | cmd/lefty/parse.c:528-531 | an expression with its semicolon is a statement; a return with its value |
| LeftyForms.WhileForm | cmd/lefty/parse.c:555-567 | while (c) s |
| LeftyForms.IfForms | cmd/lefty/parse.c:536-553 | if (c) s, and if (c) s else t: which branch is which |
| LeftyForms.ForForms | cmd/lefty/parse.c:569-597 | for (a; b; c) s keeps the order of its parts; for (a in b) s has the variable first |
| LeftyForms.BareFor | cmd/lefty/parse.c:569-597 | for (;;c) s leaves its first parts open; for (;;) s is an error |
| LeftyForms.BlockForms | cmd/lefty/parse.c:488-502 | a block keeps the order of its statements; an empty one is the empty statement |
| LeftyForms.AtomForms | cmd/lefty/parse.c:305-361 | numbers, strings and names |
| LeftyForms.PathForm | cmd/lefty/parse.c:325-361 | v.w[e]: the name after the dot is a string index, the bracket an index of its own |
| LeftyForms.CallForms | cmd/lefty/parse.c:283-303 | f(), f(a, b): the arguments in order |
| LeftyForms.TrailingComma | cmd/lefty/parse.c:283-303 | f(a,) is an error |
| LeftyForms.TableForms | cmd/lefty/parse.c:447-477 | [] and [ a = v; b = w; ]: each key with its value |
| LeftyForms.FunctionForm | cmd/lefty/parse.c:363-414 | function (p, q) { local x, y; s t }: its names are the locals 0 to 3 of s and t |
| LeftyForms.DeclForms | cmd/lefty/parse.c:416-445 | names with commas, without one, with one too many, and declared twice |
| LeftyForms.InternalForm | cmd/lefty/parse.c:382-393 | function () internal "f" stands for the first internal function of that name |
| Writer.Writer.Expr | cmd/lefty/str.c:137-282 | walking the cells of a tree appends exactly the tokens the printer specifies for that tree |
| Writer.Writer.Variable | cmd/lefty/str.c:208-238 | the same for variables: string indices after a dot, all others in brackets |
| Writer.Writer.Function | cmd/lefty/str.c:242-265 | the same for functions, internal ones included |
| Writer.Writer.Body | cmd/lefty/str.c:254-260 | the same for the declarations and statements of a function |
| Writer.Writer.TableCons | cmd/lefty/str.c:266-282 | the same for table constructors |
| Writer.Writer.Args | cmd/lefty/str.c:424-432 | the same for argument lists |
| Writer.Writer.Stmt | cmd/lefty/str.c:292-314 | the same for statements: none, one and several inner cells |
| Writer.Writer.If | cmd/lefty/str.c:315-348 | the same for "if" |
| Writer.Writer.While | cmd/lefty/str.c:349-365 | the same for "while" |
| Writer.Writer.For | cmd/lefty/str.c:366-388 | the same for the three-part "for" |
| Writer.Writer.ForIn | cmd/lefty/str.c:389-408 | the same for "for in" |
| Reprint.Reprint | cmd/lefty/parse.c:78-98 | parse, print the cells, parse the print: the second code object equals the first, cell for cell, if and only if no block of the unit holds one statement |
| Md5Block.Rotation | cmd/smyrna/md5.c:198 | shift-and-or is rotation, for each of the sixteen amounts in use |
| Md5Block.WordBytes | cmd/smyrna/md5.c:154-194 | the word read from four bytes holds them from its low end up |
| Md5Block.Step | cmd/smyrna/md5.c:204-208 | one macro step with its register names is one step of the indexed loop |
| Md5Block.Round1 | cmd/smyrna/md5.c:200-224 | the sixteen macro steps of round 1 are steps 1 to 16 of the loop of RFC 1321 section 3.4, on every state and block |
| Md5Block.Round2 | cmd/smyrna/md5.c:226-250 | steps 17 to 32 |
| Md5Block.Round3 | cmd/smyrna/md5.c:252-276 | steps 33 to 48 |
| Md5Block.Round4 | cmd/smyrna/md5.c:278-302 | steps 49 to 64 |
| Md5.FoldAppend | cmd/smyrna/md5.c:350-352 | compressing whole blocks in two portions is compressing them in one |
| Md5.Continue | cmd/smyrna/md5.c:322-357 | digesting the tail together with new data continues the digest of everything before |
| Md5.CountAdds | cmd/smyrna/md5.c:332-336 | the two count words, carry and wrap-around included, hold 8 times the length modulo 2^64 after an addition |
| Md5.CountInBlock | cmd/smyrna/md5.c:326 | the low count word gives the length modulo 64 |
| Md5.FeedEnds | cmd/smyrna/md5.c:338-356 | the blocks taken from buffer and data are the whole blocks of tail plus data, and what stays is their rest |
| Md5.State.constructor | cmd/smyrna/md5.c:313-320 | the state of the empty message |
| Md5.State.Process | cmd/smyrna/md5.c:131-311 | the unrolled function is the compression of RFC 1321 section 3.4 on the block |
| Md5.State.Count | cmd/smyrna/md5.c:332-336 | the count words after nbytes more bytes |
| Md5.State.Feed | cmd/smyrna/md5.c:338-356 | the three phases together compress exactly the whole blocks of tail plus data and buffer the rest |
| Md5.State.Append | cmd/smyrna/md5.c:322-357 | if the state holds a message it then holds the message followed by the data; no data, or a negative count, changes nothing |
| Md5.State.SaveLength | cmd/smyrna/md5.c:370-372 | the eight length bytes of RFC 1321 section 3.2 |
| Md5.LongLength | cmd/smyrna/md5.c:370-372 | the eight length bytes of a length above 2^64, in which all bytes differ: the low one first, the rest left out |
| Md5.State.Pad | cmd/smyrna/md5.c:373-374 | appends the padding of RFC 1321 section 3.1 |
| Md5.State.Finish | cmd/smyrna/md5.c:359-379 | gives the digest RFC 1321 defines, in sections 3.1 to 3.5, for the message held; Md5Vectors has the digests of two messages in numbers |
| Md5.Streamed | cmd/smyrna/md5.c:313-379 | for any split of a message into appends, empty ones included, the result is the digest of the concatenation |
| Md5Vectors.EmptyDigest | cmd/smyrna/md5.c:131-379 | the digest of the empty message is the one printed in RFC 1321 appendix A.5 |
| Md5Vectors.AbcDigest | cmd/smyrna/md5.c:131-379 | so is the digest of "abc" |
| Md5Vectors.AbcInParts | cmd/smyrna/md5.c:313-379 | the code gives it for "abc" fed in two parts with an empty one between them |
| Table.SameName | cmd/lefty/tbl.c:25-33 | the key comparison holds exactly if both keys have the same value; integers and reals compare as numbers |
| Table.HashAgrees | cmd/lefty/tbl.c:35-37 | equal keys, integer or real form, fall into the same bucket at every table size |
| Table.OneBucket | cmd/lefty/tbl.c:461-495 | whatever the whole table says about a key, the key's own bucket says |
| Table.AppendAt | cmd/lefty/tbl.c:432-454 | appending an entry to its bucket adds just that key to the map and keeps every entry in its own bucket |
| Table.MapDrops | cmd/lefty/tbl.c:497-535 | closing the gap of a removed entry removes just its key from the map |
| TableOps.Located | cmd/lefty/tbl.c:461-495 | what a linear search of one bucket finds is what the table holds under the key |
| TableOps.MadeName | cmd/lefty/tbl.c:443-449 | the key object made for an integer, real or string key equals the key it was made for |
| TableOps.Counted | cmd/lefty/tbl.c:389-459 | the entry count is the number of keys of the map |
| TableOps.ChangeIsBuilt | cmd/lefty/tbl.c:213-264 | a change of the table that stores only old entries and given pointers is one that the collector's steps allow |
| TableOps.Ttable.constructor | cmd/lefty/tbl.c:195-210 | an empty map, with at least two buckets |
| TableOps.Ttable.Find | cmd/lefty/tbl.c:461-495 | returns the value last stored under an equal key, or none |
| TableOps.Ttable.Insert | cmd/lefty/tbl.c:389-459 | the map is changed at this key only, growing and rehashing included; the count follows; the bucket array grows to the new count exactly if it exceeds four entries to a bucket and is below the size limit; only the given pointers are new |
| TableOps.Ttable.Add | cmd/lefty/tbl.c:423-454 | adds a key that is absent, doubling its list or rehashing when due |
| TableOps.Ttable.Delete | cmd/lefty/tbl.c:497-535 | removes exactly this key and nothing else |
| TableOps.Ttable.Copytable | cmd/lefty/tbl.c:537-588 | rehashing into any number of buckets changes neither map, count nor pointers, and puts every entry into its new bucket |
| TableEffects.WholeBucket | cmd/lefty/tbl.c:35 | the bucket of an integer key, a negative one as its two's complement |
| TableEffects.RealBucket | cmd/lefty/tbl.c:36 | the bucket of a real key: it is cut towards zero |
| TableEffects.StringBucket | cmd/lefty/tbl.c:37 | the bucket of a string key goes by its first character alone |
| TableEffects.MadeKeys | cmd/lefty/tbl.c:134-142 | the key object made for a real that is whole is an integer; all others are as they are |
| TableEffects.SetsOne | cmd/lefty/tbl.c:456-458 | insertion under a key that is there changes one value; its key object, all other entries and their order stay |
| TableEffects.DropsOne | cmd/lefty/tbl.c:497-535 | deletion takes out one entry, and the others keep their order |
| TableEffects.PutsOne | cmd/lefty/tbl.c:432-454 | a new entry goes to the end of its bucket |
| TableEffects.AddsOne | cmd/lefty/tbl.c:423-454 | insertion under a new key, rehashing included, adds this entry to the bag of entries and loses none |
| TableEffects.RehashTight | cmd/lefty/tbl.c:537-588 | after a rehash the room of every list is the least power of two that its entries fit in |
| TableOps.Cursor.First | cmd/lefty/tbl.c:360-373 | stands on the first entry of the table, if it has one |
| TableOps.Cursor.Next | cmd/lefty/tbl.c:375-387 | moves by exactly one entry, over empty buckets |
| TableOps.Walk | cmd/lefty/tbl.c:360-387 | a walk over the table meets every entry once, in order |
| TableCopy.EndCopied | cmd/lefty/tbl.c:338-358 | when nothing is left to copy, the map of copies is one-to-one from the reachable tables onto fresh ones, and each copy is the image of its table |
| TableCopy.CopyFinds | cmd/lefty/tbl.c:590-630 | a copied table has the same keys, each with the image of its value |
| TableCopy.CopyOk | cmd/lefty/tbl.c:590-630 | the copy of a well-formed hash table is well formed |
| TableCopy.PathsCopied | cmd/lefty/tbl.c:338-358 | following any path of keys from the copy ends at the image of where it ends from the source |
| TableCopy.SharingKept | cmd/lefty/tbl.c:338-358 | two paths meet in the copy if and only if they meet in the source, cycles included, and the copy shares no table with the source |
| TableCopier.Copier.NewCopy | cmd/lefty/tbl.c:618-620 | a new table, with whatever collection its allocation starts: source and copies survive, and the new one is none of them |
| TableCopier.Copier.CopyValue | cmd/lefty/tbl.c:614-625 | a table met again becomes the copy it already has; a new one is copied; a scalar is shared; NULL fails |
| TableCopier.Copier.RecCopy | cmd/lefty/tbl.c:590-630 | copies one table, collections included; terminates on cyclic tables since each call takes a table that was not in the map |
| TableCopier.Copier.Tcopy | cmd/lefty/tbl.c:338-358 | fails exactly if the value is NULL or a table that can be reached holds NULL; a scalar is returned as it is; a table gives a fresh isomorphic graph, whatever collections run meanwhile; all that was in use is as it was. Afterwards the program is safe if and only if every copy that was scanned holds marked objects only, and so it is if the collector was off and every table found a free cell, or if nested tables hold no further tables |
| Allocator.FreedInClass | cmd/lefty/tbl.c:113-124 | the size given to Mfree is the class allocated for every entry list, and for a bucket array if and only if it has two or more buckets |
| Allocator.ClassFits | cmd/lefty/mem.c:148-150 | a size class has room for the bytes asked for and for the link of a free cell, and is the smallest that has |
| Allocator.CellsApart | cmd/lefty/mem.c:371-404 | the cells cut from a buffer lie one after the other inside its bytes |
| Allocator.SpreadMore | cmd/lefty/mem.c:371-404 | the cells of a new buffer overlap none of those before it |
| Allocator.TableFits | cmd/lefty/tbl.c:432-454 | in a valid table every list with its room, and the bucket array, lies within its own cell, and no other cell of the memory overlaps these bytes |
| Allocator.Memory.Allocbuffer | cmd/lefty/mem.c:371-404 | a new buffer is cut into free cells of one class, which overlap no other cell: 1000, 100 or 1 of them, by their size |
| Allocator.Memory.Mallocate | cmd/lefty/mem.c:145-155 | gives a free cell of the class of the bytes asked for, which has room for them and overlaps no other cell; no other cell changes hands |
| Allocator.Memory.Mfree | cmd/lefty/mem.c:157-165 | returns a cell to the list of its own class; every cell is still in exactly one place |
| Allocator.TableMemory.constructor | cmd/lefty/tbl.c:195-210 | a new table owns cells that nothing else owned |
| Allocator.TableMemory.Append | cmd/lefty/tbl.c:432-454 | an entry added to a list, with or without a new cell, takes nothing that others own; the room of the list grows as in insert |
| Allocator.TableMemory.Drop | cmd/lefty/tbl.c:529-533 | a removed entry leaves the cell of its list |
| Allocator.TableMemory.Double | cmd/lefty/tbl.c:435-442 | the old list goes back in its own class, the new one is twice as long |
| Allocator.TableMemory.Rehash | cmd/lefty/tbl.c:537-588 | all old lists and the old bucket array go back in the class they were allocated in; the new lists have the room that adding the old entries one by one gives |
| Allocator.TableMemory.CopyOf | cmd/lefty/tbl.c:594-606 | the table of a copy owns new cells only: a bucket array of the same length and a list of the same room for each list; the source keeps its cells |
| Allocator.OtherStays | cmd/lefty/tbl.c:113-124 | what is done to one table leaves the cells of every other table in place |
| Allocator.TableMemory.Free | cmd/lefty/tbl.c:113-124 | freeing a table returns exactly its cells, after any growth and rehash |
| TableCells.RehashNeeds | cmd/lefty/tbl.c:537-588 | the lists that rehashing makes need exactly the cells that the allocator side of it takes |
| TableCells.CopyNeeds | cmd/lefty/tbl.c:594-606 | the lists of a copied table need exactly the cells that reccopytable takes |
| TableCells.Stored.constructor | cmd/lefty/tbl.c:195-210 | a table and its cells, in agreement |
| TableCells.Stored.Insert | cmd/lefty/tbl.c:389-459 | insertion, with growth and rehash, in the table and in its memory together: they agree on every list, its entries and its room, and no cell of others is touched |
| TableCells.Stored.Delete | cmd/lefty/tbl.c:497-535 | the same for deletion, which takes and frees no cell |
| ExecState.PushMarkKeeps | cmd/lefty/mem.c:237-248 | a temporary mark leaves every local a root |
| ExecState.PopMarkKeeps | cmd/lefty/mem.c:250-255 | popping the temporary marks leaves every local a root |
| ExecState.SetSlotKeeps | cmd/lefty/exec.c:800-804 | an assignment sets slot and mark together, so the local is still a root, and touches nothing else |
| ExecState.PlaceKeeps | cmd/lefty/mem.c:118-143 | a new object in an unmarked cell changes no object that the mark stack holds |
| ExecState.ArgPushed | cmd/lefty/exec.c:475 | an evaluated argument becomes a local of the callee and a root at once; the locals before it stay |
| ExecState.CallEnds | cmd/lefty/exec.c:539-548 | whatever the body did, by falling through or by returning from inside loops, the exit restores mark height, locals, call record and both jump targets |
| ExecState.CallStops | cmd/lefty/exec.c:463-523 | the same for the exits after a failed argument or a wrong number of arguments |
| Exec.Machine.constructor | cmd/lefty/exec.c:138-155 | the marks are those of Ttrue, Tfalse and the root table, and no jump target is set |
| Exec.Machine.EEval | cmd/lefty/exec.c:230-429 | any expression that ends gives the value that the reference semantics ExecMeaning defines for it, wherever that defines one, with the locals it says; it leaves all stacks and jump targets as it found them, and every local a root; a jump out of a running function, which leaves its record, marks and frame behind, comes only from a break or continue that stands in no loop of its function |
| Exec.Machine.EAssign | cmd/lefty/exec.c:245-259 | the value of the right side is stored in the local and is the value of the assignment; it is marked while the place is looked for |
| Exec.Machine.EBin | cmd/lefty/exec.c:260-333 | each operator gives what the reference semantics says, and leaves the stacks as they were, short-circuiting or not, with a failing operand or not |
| Exec.Machine.EBool | cmd/lefty/exec.c:260-280 | and, or: the second operand is evaluated only if the first does not decide; a failing operand is false |
| Exec.Machine.ECompare | cmd/lefty/exec.c:284-299 | comparisons, the first value on a mark while the second is evaluated |
| Exec.Machine.EArith | cmd/lefty/exec.c:300-333 | arithmetic, constants being taken from the code without an object |
| Exec.Machine.EMinus | cmd/lefty/exec.c:300-319 | unary minus |
| Exec.Machine.Boolop | cmd/lefty/exec.c:828-849 | NULL, zero and the null table are false |
| Exec.Machine.Orderop | cmd/lefty/exec.c:851-894 | the comparison of two objects: as the reference semantics says, and by identity for two functions or two tables |
| Exec.Machine.Arithop | cmd/lefty/exec.c:896-941 | a new number, or NULL if an operand is none |
| Exec.Machine.New | cmd/lefty/mem.c:118-143 | a new object, which is no object that a mark holds; what the marks hold is unchanged |
| Exec.Machine.ETable | cmd/lefty/exec.c:353-377 | the same for table constructors, failing entries included |
| Exec.Machine.GetVal | cmd/lefty/exec.c:675-715 | a local gives the object in its slot; for other variables only the stacks are followed, whose indices may be calls |
| Exec.Machine.GetVar | cmd/lefty/exec.c:717-796 | the same for finding the place of an assignment, which may make tables on the way; a local target is a slot of the running function, the key is an object if and only if the last index is neither a string nor an integer constant, and with constant indices the place is always found |
| Exec.Machine.SetVar | cmd/lefty/exec.c:798-826 | sets the slot and its mark together, and touches no other slot |
| Exec.Machine.EFcall | cmd/lefty/exec.c:431-549 | a call gives the value that the reference semantics defines: that of the body run on the values of the arguments; it leaves mark height, llvari, flvari, sinfoi and both jump targets as it found them on every exit: no function, bad argument, wrong count, internal, fall-through, return |
| Exec.Machine.ECall | cmd/lefty/exec.c:457-548 | the part of a call after the function is found |
| Exec.Machine.EArgs | cmd/lefty/exec.c:463-515 | the new locals of the callee are the values of the arguments, in order, each held by its own mark and by its slot while the later ones are evaluated; an argument that is a constant is in its slot as that number or string |
| Exec.Machine.EArg | cmd/lefty/exec.c:505-514 | one argument: evaluated, stored and marked |
| Exec.ArgHeld | cmd/lefty/exec.c:475-513 | an argument that was stored is still in its slot, on its mark and of the same value after the later ones are evaluated |
| Exec.Machine.Fill | cmd/lefty/exec.c:524-525 | the locals that are no parameters start as NULL |
| Exec.Machine.Body | cmd/lefty/exec.c:524-548 | starts with the arguments and then NULL in each further local, runs the statements as the reference semantics says, and restores the state at the call, by its end or by a return jump out of nested loops |
| Exec.Machine.EStmt | cmd/lefty/exec.c:378-424 | a statement ends as the reference semantics says, with the locals it says: normally, with the targets as before, or by a jump: a return, with its value, to the exit of its function, a break or continue to the innermost loop of its function, and out of the function where it stands in none |
| Exec.Machine.EIf | cmd/lefty/exec.c:389-398 | the branch that the condition selects is run, a failing condition being false |
| Exec.Machine.EWhile | cmd/lefty/exec.c:551-577 | runs the rounds that the reference semantics says; break and continue from any depth come back to this loop, which restores the outer target |
| Exec.Machine.EFor | cmd/lefty/exec.c:579-617 | the same for the three-part "for"; a continue goes on with the third part |
| Exec.Machine.LoopBody | cmd/lefty/exec.c:568-574 | one run of the body, with the break or continue that ends it |
| Exec.Machine.ForRound | cmd/lefty/exec.c:598-615 | one round of a "for": test, body, third part |
| Exec.Machine.ETest | cmd/lefty/exec.c:564-567 | the test of a condition |
| Exec.Machine.EForIn | cmd/lefty/exec.c:619-673 | the same for "for in"; it leaves one mark behind if the last index of its variable is not a string or integer constant and the value to go through is an object but no table, and none otherwise |
| ExecLeak.LeakOne | cmd/lefty/exec.c:636-647 | the program for (a[(1)] in 2) ; leaves one mark behind from every state, each time it is run |
| ExecLeak.KeyForms | cmd/lefty/exec.c:717-796 | the variables that can always be found, and those whose key is an object, for indices that are constants with or without parentheses |
| ExecLeak.LeakParses | cmd/lefty/parse.c:569-597 | the parser builds that program from its source |
| ExecUnits.UnitRuns | cmd/lefty/parse.c:78-98 | whatever the parser accepts can be evaluated: every local has a slot of its own function |
| ExecUnits.LeaverParses | cmd/lefty/parse.c:599-607 | the parser accepts function () { break; } |
| ExecUnits.LeaverLeaves | cmd/lefty/exec.c:408-416 | its call always ends in a jump out of the function that leaves its record, marks and frame behind |
| Exec.Machine.Eunit | cmd/lefty/exec.c:165-213 | evaluating a unit leaves everything as it was, with the same exception |
| ExecPrograms.Identity | cmd/lefty/exec.c:431-549 | a call of a local that holds function (x) { return x; } with a constant returns an object that holds this constant |
| ExecPrograms.FactMeans | cmd/lefty/exec.c:431-549 | the body of function (self, n) { if (n == 0) return 1; return n * self (self, n - 1); } means n!, for every n |
| ExecPrograms.RunFactorial | cmd/lefty/exec.c:431-549 | the evaluator returns n! for a call of a local that holds this function |
| ExecPrograms.FactParses | cmd/lefty/parse.c:78-98 | the parser builds this function from its tokens |
| ExecPrograms.RoundsMean | cmd/lefty/exec.c:551-577 | a while loop that counts n down and adds it up ends with the sum of the numbers up to n, for every n |
| ExecPrograms.TotalMeans | cmd/lefty/exec.c:431-577 | so the function with that loop returns this sum |
| ExecPrograms.SumsMean | cmd/lefty/exec.c:896-941 | the arithmetic operators on any two numbers |
| ExecPrograms.OrdersMean | cmd/lefty/exec.c:851-894 | the comparisons of any two numbers |
| ExecPrograms.LogicMeans | cmd/lefty/exec.c:260-280 | and, or and not of any two numbers |
| ExecPrograms.StringsMean | cmd/lefty/exec.c:851-941 | strings are equal if their characters are, a string and a number are neither equal nor unequal, and have no sum |
| ExecPrograms.JumpsMean | cmd/lefty/exec.c:551-577 | while (1) break; ends at once; while (1) continue; never ends |
| ExecPrograms.ForIsWhile | cmd/lefty/exec.c:579-617 | a "for" is the "while" with its third part after the body, if the body never ends in a continue |
| ExecValues.Truths | cmd/lefty/exec.c:828-849 | for all values of a local: NULL and zero are false in a not and in an if, other numbers, strings and functions true |
| ExecValues.ShortCircuits | cmd/lefty/exec.c:266-278 | the second operand of an or, and of an and, is evaluated just if the first does not decide; the value is that of Ttrue or Tfalse |
| ExecValues.Nulls | cmd/lefty/exec.c:857-861 | NULL is equal to nothing, and different from every other value |
| ExecValues.Strings | cmd/lefty/exec.c:863-864 | two strings with a common beginning compare by the first character that differs, and a string comes before the longer ones that begin with it |
| ExecValues.Mixed | cmd/lefty/exec.c:851-894 | values of different types are neither equal, different, less nor greater |
| ExecValues.Objects | cmd/lefty/exec.c:877-883 | two tables are equal if they are the same one, functions with different code are different, and neither have an order |
| ExecValues.Remainders | cmd/lefty/exec.c:935 | the remainder of two numbers, fractions and negative ones included: of the whole parts, with the sign of the first |
| ExecValues.NoNumbers | cmd/lefty/exec.c:896-925 | arithmetic on what is no number has no value; after a NULL the second operand is not evaluated |
| ExecValues.FirstOperandFirst | cmd/lefty/exec.c:306-333 | operands are evaluated from left to right |
| ExecValues.Assigns | cmd/lefty/exec.c:245-259 | the local has the value and so has the assignment; NULL is not assigned |
| ExecValues.Indexed | cmd/lefty/exec.c:675-715 | there is nothing in a number, string or function |
| ExecValues.Differs | cmd/lefty/exec.c:496-516 | function (x, y) { return x - y; } on two numbers gives their difference |
| ExecValues.BadCalls | cmd/lefty/exec.c:463-523 | too few arguments, too many, one that is NULL, or no function: no value; which arguments are not evaluated |
| ExecValues.OwnLocals | cmd/lefty/exec.c:524-549 | locals that are no parameters start as NULL; a function that does not return has no value, and its locals are its own |
| ExecValues.ForCounts | cmd/lefty/exec.c:579-617 | for (x = 0; x < y; x = x + 1) counts to y, for every y, with an empty body or a continue |
| ExecValues.ForStops | cmd/lefty/exec.c:579-617 | with a break it ends before its third part, and with a return it gives the value |
| ExecValues.ForOpen | cmd/lefty/exec.c:579-617 | a "for" without its first two parts |
| Ccomps.Stk.constructor | cmd/tools/ccomps.c:248-254 | an empty sequence over one block |
| Ccomps.Stk.Push | cmd/tools/ccomps.c:256-280 | the chunked stack appends to one unbounded sequence, crossing into an old or a new block when full |
| Ccomps.Stk.Pop | cmd/tools/ccomps.c:282-292 | takes the last element of that sequence, stepping back over block boundaries; tells the empty stack apart |
| Ccomps.EdgeScans | cmd/tools/ccomps.c:305-310 | looking at one edge pushes the other end if and only if it was never pushed, and keeps the invariant of the search |
| Ccomps.SearchEnds | cmd/tools/ccomps.c:294-313 | when the stack is empty, what was taken off it is exactly the connected component of the start |
| Ccomps.OneMore | cmd/tools/ccomps.c:750-757 | a component added to the list meets none of those before it |
| Ccomps.AllFound | cmd/tools/ccomps.c:749-757 | when every node is marked the list partitions the nodes into their components; it has two or more exactly if some nodes are not connected |
| Ccomps.Tool.Push | cmd/tools/ccomps.c:256-280 | pushes and marks, so a node is pushed once |
| Ccomps.Tool.ScanEdges | cmd/tools/ccomps.c:305-310 | the edge loop of one node |
| Ccomps.Tool.Dfs | cmd/tools/ccomps.c:294-313 | out is the connected component of the start, the count is its size, and only its nodes are marked |
| Ccomps.Tool.Process | cmd/tools/ccomps.c:749-796 | the components found partition the nodes; the result says whether there is more than one |

## Left out

Collector and allocator
- The tuning of the collector: how many steps it takes and when an allocation runs it in full are
  parameters of the steps. Callback, statistics and report are not modelled.
- The free cell that an allocation gets, the growth of queue and mark array, and failing malloc: a new
  object is any reference not in use. The order of the entries of a table is not part of the collector.
- `Allocator` follows the bytes of bucket arrays and lists beside any number of other cells in use; buffers lie
  one after the other. The panic for sizes above M_SIZEMAX and the width of the size field are not modelled.
- CollectorDeep.DeepLoses: the number of scan steps is that of the objects on the mark stack; gcsteps is a
  power of two from four on. `CollectorLoss` has a run with four.

Tables
- TableOps.Ttable.Insert: the average load stays at most 4 while the count is below M_SIZEMAX; a table that
  passed it and was then emptied by deletions may hold more until the next new key.
- Integer keys are taken within 2^53, and the cast of a real key as truncation modulo 2^64. Characters
  of string keys are below 128. The entry list of a bucket is a value, not an array of its own.
- Ttime, and with it the check for a table that changes while it is walked.
- The hash map from tables to copies is a map; its buckets are not modelled.

Language
- Characters: the round trip is on tokens. The lexer is taken as given, strings are free of quotes,
  names and string indices are shaped like identifiers. White space, indentation and the highlight of
  the running statement are not modelled.
- Real numbers, whose printing loses digits: all numbers are integers.
- Code built by Pfunction and Pfcall, and C_PVAR and C_CODE nodes in it.
- LeftyImage.PrintThenParse: asks that the tree is printable, since the printer stops at a C_NOP
  (cmd/lefty/str.c:433-434), that is at a "for" whose first or second part is left out.
- An internal function whose number is out of range prints with an empty name, where the code reads
  past the table of functions.
- The bytes of a cell that the code leaves unset are null links and zero bytes here. Growing arrays are
  sequences.

Evaluator
- Values: locals, numbers, strings and functions have the values that ExecMeaning gives. It leaves open what is
  in tables and global variables, what internal functions return, and whether two functions with the same code are
  one object; where a program depends on these, only its stacks and jumps are followed.
  Internal functions do not touch the stacks. Error output is left out.
- Numbers are reals without rounding or overflow. A division by zero is left open.
- Exec.Machine.EEval: a bound on depth and rounds ends a run that needs more with `Stopped`, for which
  nothing is said about the stacks; every run that ends is covered by some bound.
- A run is followed up to a break or continue that leaves its function (`Gone`), not beyond it. Tables are not
  part of the evaluator, so what is freed while a variable is being looked up is stated on the collector.

Graph tools
- Reading and writing graphs, options, attributes, ports and names of subgraphs. A graph is its nodes with
  the ordered edges of each; new edges come last.
- acyclic: self-loops stay, as in the code (cmd/tools/acyclic.c:92-93).
- bcomps: the names and the list order of blocks, the edges induced in a block, and the block tree.
- ccomps: clusters, sorting, extraction of single components and induced edges.

MD5
- The choice of byte order and alignment: the words of a block are decoded as RFC 1321 says. The table T is
  the table of constants of the RFC, not computed from the sine.
- Md5.State.Append: takes nbytes below 2^31, as an int holds it, and the sum of offset and nbytes without overflow.
