# RAGFlow: agent canvas, canvas migration, RAPTOR, MCP sessions and metadata

A Dafny model of the parts of RAGFlow whose correctness depends on many steps working together, with proofs about
every run, every interleaving or every input.

| area | files |
|---|---|
| the canvas scheduler (`agent/canvas.py`, `agent/component/`) | `CanvasModel`, `CanvasInvariants`, `CanvasRouting`, `CanvasSteps`, `CanvasTermination`, `CanvasAccounting`, `CanvasSessions`, `CanvasStops`, `CanvasIteration`, `CanvasIterationRun`, `CanvasBranches`, `CanvasIterationBeside`, `Canvas` |
| migration of saved canvases (`agent/dsl_migration.py`) and template rendering | `Scanning`, `References`, `Rendering`, `RenderingParts`, `RenderingPreserved`, `RenderingExact`, `RenderingLimits`, `Json`, `Migration`, `MigrationIdempotent`, `MigrationGraph`, `MigrationPlaces`, `MigrationRaises`, `MigrationEdgeIds`, `MigrationCode` |
| RAPTOR layering (`rag/raptor.py`) | `RaptorTree`, `Raptor` |
| the MCP tool-call session (`common/mcp_tool_call_conn.py`) | `McpSession`, `McpSessionObject` |
| metadata filters and merging (`common/metadata_utils.py`) | `MetaFilter`, `MetaUpdate` |
| flattening of nested settings, combining of dictionaries | `Flatten`, `CombineModel`, `Combine` |

How the model is laid out:

- Code that changes state step by step is a class or a method with loops (`Canvas`, `MigrationCode`, `Layering`,
  `McpToolCallSession`, `Combine`, `FlattenObject`, `SelectDocuments`, `UpdateMetadata`).  Such a method is proved to
  compute a specification function of its inputs or of the old state; the theorems are about those functions.
- Everything the code asks of the outside is an oracle.  Component bodies, message streams, loop conditions and the
  cancel flag of a canvas are the functions of a `World`; the language model, the embedder and the cancel flag of RAPTOR
  are arbitrary functions and its clusterings arbitrary choices; the coroutines of an MCP session are steps taken in any order.  The
  results hold for all of them.
- Where the code raises, the model has a value for it (`None`, `Failed`, `Raised`, a `Halt`), not a precondition.

What the code does that its surroundings might not lead one to expect, each with a proof:

- A run that is cancelled leaves entries on the saved path that were never executed.  The next run takes them for
  executed; the path is still a trustworthy one exactly when the cancelled batch would have dropped none of them
  (`PendingTrusted`, `HandsOnExactly`; `CanceledRunBreaksClosure` has a canvas on which it is not).
- After a stop for user input, the next run starts at a fill-up only when nothing but fill-ups was pending, and then
  executes the last of them only; otherwise it adds a new Begin and executes that (`ResumeAfterSuspend`).  While the path
  begins at a fill-up nothing pending is dropped, so a component may be executed without its references
  (`WaivedScan`, `RunTakes`, `StopBreaksClosure`).
- A loop makes at most as many passes as its maximum says when it is entered for the first time, and at most one more when
  it is entered again after it has ended: its counter is then -1 and not 0 (`LoopPasses`).
- The migration loses a component exactly when two ids get the same new name (`ComponentCount`).
- The migration also renames references that rendering treats as plain text: those with white space inside the braces,
  before or after the reference, and those whose id has a `_` or `-`.  A template that renders keeps its text exactly
  when it has no such reference (`RenderExactly`, `UnreadDiffers`; `UnderscoreRefChanges` is one).  A template that
  fails goes on failing exactly when some variable that fails is not rescued, that is, captured by the new name of a component
  whose output has a text (`FailsAlike`; `CapturedRefRenders` is a captured one).
- A session closed from a loop other than its own, as `close_multiple_mcp_toolcall_sessions` does, can leave two
  requests without an answer exactly when, at the moment the flag is set, a caller is between its test of the flag and
  its put while the worker holds or has lost a request (`CloseOnOtherLoopExactly`).
- `_combine` extends the very lists it is given.  The result is the concatenation exactly when every list that is extended
  (by something, as the input stands at the start) is the value of no later entry and the first value of no other key
  (`Combine`, `ConservesExactly`).  One dictionary of one list given n times comes out right exactly for n up to two, or
  when the list is empty: it doubles instead of growing by one (`RepeatedExactly`, `RepeatedDoubles`).
- The "and" of metadata filters forgets filters at the front that match nothing (`ConjunctionExactly`,
  `LeadingEmptyFilterIgnored`).  Dates written in other digits than ASCII ones are compared by code point, which is not
  the order of dates (`ForeignDigitsOutOfOrder`).
- With a cluster limit of at most one, RAPTOR raises whenever it would have to cluster; and one error of the model or
  the embedder makes a call raise while it clusters, also below the error limit, because a cluster is left without its
  summary (`Layering.Call`).

## Model

| member | source | states |
|---|---|---|
| CanvasInvariants.PostOneAppends | agent/canvas.py:577-627 | whatever a post-processed component does (error, goto, branch, iteration, loop, plain), it appends only its own successors, after the path as it was |
| CanvasInvariants.PostRangeAppends | agent/canvas.py:513-627 | post-processing a batch keeps the path inside the graph, and every appended entry is the successor of a member of the batch |
| CanvasInvariants.BatchKeeps | agent/canvas.py:500-632 | a whole batch keeps the path and the branch targets inside the graph, and everything after the batch follows from a member of it |
| CanvasRouting.TakesOnly | agent/canvas.py:599-612 | ids handed on are found on the new path in order, from the old last entry on, every new entry is one of them and none equals the entry before it; there is only one such path |
| CanvasRouting.PostOneRouted | agent/canvas.py:577-627 | where a component sends the run: an error with targets to all of these and nothing else; a categorize or switch to the branches in its `_next`; a container to its item; an ended item and an exit-loop to the container's downstream; the last of a body back to the item; any other to its whole downstream |
| CanvasRouting.RunRouted | agent/canvas.py:500-627 | the same of every component in every batch of a run |
| CanvasRouting.PostOneErrors | agent/canvas.py:577-587 | an error with neither targets nor a default, and nothing else, becomes the error of the run; a message is sent by a message component and for a default, and otherwise not |
| CanvasRouting.RunErrs | agent/canvas.py:629-631 | a run ends with an error if and only if in some batch an error goes unhandled |
| CanvasSteps.ScanKeeps | agent/canvas.py:453-475 | the scan keeps, in order, exactly the pending entries that are inputs, or have their references before them among what was kept, or any behind a fill-up at the head |
| CanvasSteps.BodyRaises | agent/component/base.py:407-419 | an exception leaves what the body had written, and becomes the `result` where a default is set for it and the `_ERROR` where none is |
| CanvasSteps.CancelNoticed | agent/component/base.py:396-405 | a container or item that notices a cancellation only reports it |
| CanvasSteps.IterationChecks | agent/component/iteration.py:59-65 | an iteration passes over a list without a change, and reports anything else |
| CanvasSteps.ItemRaises | agent/component/iterationitem.py:35-43 | an item whose iteration has no list raises; it counts as ended if there is a value that is no list, and keeps its turn if there is none |
| CanvasSteps.ContentAfter | agent/canvas.py:516-597 | a message's stream is read to its end and leaves its text; a stream left when the run has an error is dropped; any other content stays |
| CanvasSteps.Defers | agent/canvas.py:570-597 | a message, and nothing else, lets go the deferred entries up to the first that still streams; a component is deferred exactly when it is left streaming |
| CanvasSteps.LoopPasses | agent/component/loopitem.py:35-46 | a loop that has not ended is at turn n after n visits, never past its maximum, and the next visit ends it if and only if the maximum is reached or its condition holds; entered again it makes at most one pass more |
| CanvasSteps.SuspendAsks | agent/canvas.py:634-648 | a stop for user input invokes the pending fill-ups, all of them and in order, and asks for the inputs of just these |
| CanvasSteps.BatchRuns | agent/canvas.py:500-511 | a batch announces what is pending, keeps what may run, and invokes just that, one after the other in its order |
| CanvasSteps.RunIsChain | agent/canvas.py:500-648 | a run is a chain of batches: it goes on as long as no error stands and no fill-up is pending, and the state after the last batch decides how it ends |
| CanvasSteps.RunAnnounces | agent/canvas.py:427-672 | a run announces its start first and once, and its end last and once, if and only if it finishes or its error tells of a cancellation |
| CanvasSteps.RunForgets | agent/canvas.py:382-383 | a run depends on an earlier one only by the path, the globals, the turns of items and which outputs there are; every output begins empty |
| CanvasInvariants.ScanSupplied | agent/canvas.py:453-475 | although entries are popped while scanning, every entry that survives has all components it references before it (inputs excepted) |
| CanvasInvariants.BatchSupplied | agent/canvas.py:453-482 | one batch never alters the executed prefix, and what it executes has its references at smaller positions |
| CanvasInvariants.RunSupplied | agent/canvas.py:423-632 | dependency closure over a whole run, one that stops for user input included: at every batch the executed prefix is kept and every executed component has its references before it; a run that finishes or errs hands on a path of which the same holds |
| CanvasSessions.RunManySupplied | agent/canvas.py:423-425 | dependency closure at every batch of every run of a series that carries the path, as long as each run hands on a path to trust |
| CanvasSessions.HandsOnExactly | agent/canvas.py:423-648 | after which ways of ending the next run is handed a path that begins at no fill-up and on which every component has its references before it: finishing and erring, a cancellation if and only if the scan of the pending entries would drop none, never a stop for user input |
| CanvasStops.WaivedScan | agent/canvas.py:464-468 | behind a fill-up at the head of the path the scan drops nothing |
| CanvasStops.RunTakes | agent/canvas.py:453-475 | a run handed a path that begins at a fill-up executes everything that comes to be pending, and keeps what was on the path, at every batch |
| CanvasStops.StopBreaksClosure | agent/canvas.py:423-648 | a concrete canvas whose second run, after a stop for user input, executes a component although what it references never ran |
| CanvasSessions.CanceledPath | agent/canvas.py:435-439 | a run cancelled in any batch, the first included, keeps the pending entries; the closure still holds of its path if and only if the scan would have dropped none of them |
| CanvasSessions.CanceledRunBreaksClosure | agent/canvas.py:435-475 | a concrete well-formed canvas and run after which the closure fails |
| CanvasTermination.LongChainsCycle | agent/canvas.py:614-627 | a chain of successors longer than the number of components repeats one, so the successor relation has a cycle |
| CanvasTermination.BatchDeepens | agent/canvas.py:500-632 | if every pending entry ends a chain of n successors, after a batch every pending entry ends a chain of n+1 |
| CanvasTermination.RunHalts | agent/canvas.py:500-632 | with an acyclic successor relation every run, whatever its components do, ends within as many batches as there are components |
| CanvasAccounting.FlushKeeps | agent/canvas.py:570-575 | emitting deferred events moves entries from the deferred list to the emitted events without losing, repeating or reordering any |
| CanvasAccounting.HandleErrorKeeps | agent/canvas.py:577-587 | whichever way an error is handled (goto, default value, or stopping the run), no component is reported or deferred by it |
| CanvasAccounting.FinishCounts | agent/canvas.py:589-597 | a post-processed component is reported or deferred, exactly once, also when it streams while an error stands |
| CanvasAccounting.PostOneBalanced | agent/canvas.py:516-597 | post-processing one entry keeps the books: executed entries other than iterations and loops are, as a multiset, their emitted node_finished events plus the deferred ones; deferred ones leave first in first out, and their events come in that order |
| CanvasAccounting.RunBalanced | agent/canvas.py:498-632 | the books balance at every point between two post-processed components of every batch of every run |
| CanvasAccounting.SuspendConserves | agent/canvas.py:634-648 | the path saved for user input is a permutation of the pending suffix, and is the only sequence with the fill-ups first and both groups in their original order |
| CanvasAccounting.ResumeAfterSuspend | agent/canvas.py:423-425 | the next run resumes without adding Begin if and only if the id of the last saved entry names a fill-up, and executes that entry; when ids name fill-ups as they should, that is if and only if only fill-ups were pending |
| CanvasIteration.CollateAppends | agent/component/iterationitem.py:62-85 | collation appends to each collected output of the iteration exactly the referenced value, at its end |
| CanvasIteration.CollateSucceeds | agent/component/iterationitem.py:76-85 | collation goes through if and only if every output it appends to is empty or a list |
| CanvasIteration.CollateElsewhere | agent/component/iterationitem.py:62-85 | collation succeeds on appendable outputs and changes no other output and no other component |
| CanvasIteration.VisitsClosedForm | agent/component/iterationitem.py:45-60 | k passes over a body of m components take k times m+1 batches |
| CanvasIteration.ReferenceIntact | agent/component/iterationitem.py:35-60 | in the plain loop that is the reference, after k passes every collected output is the list of the first k results in order, and the list iterated over is unchanged |
| CanvasIterationRun.ItemStepOuts | agent/component/iterationitem.py:35-60 | an invocation at turn k collects the finished pass and then offers element k and index k |
| CanvasIterationRun.ItemEndOuts | agent/component/iterationitem.py:50-52 | the invocation after the last pass collects once more, offers nothing and ends the iteration |
| CanvasIterationRun.RestOfPass | agent/canvas.py:614-627 | the scheduler takes one batch per body component, in chain order, and then comes back to the item |
| CanvasIterationRun.TrailCounts | agent/canvas.py:614-627 | after k passes the path has the iteration once more than before, its item k+1 times and every member of the body k times |
| CanvasIterationRun.IterationIsMap | agent/canvas.py:614-627 | iteration is a map: pending alone, over n items the run visits the item n+1 times and the chain, messages included, n times in alternation, each collected output ends as the list of the results in order (untouched for n = 0), and the run goes on with the iteration's downstream |
| CanvasBranches.ForeignInvoke | agent/component/base.py:407-461 | invoking a component of another branch leaves the outputs and turns of this one alone |
| CanvasBranches.ForeignPost | agent/canvas.py:513-627 | post-processing a component of another branch does so too, and appends only entries of other branches |
| CanvasBranches.BesideBatch | agent/canvas.py:500-627 | a batch with a ready entry among entries of other branches is that entry's step as far as this branch can tell |
| CanvasIterationBeside.ItemStep | agent/component/iterationitem.py:35-60 | a batch with the item due at turn k, whatever else is pending: it collects, and then binds element k and hands on to the body, or ends and schedules the iteration's downstream |
| CanvasIterationBeside.VisitStep | agent/canvas.py:614-627 | a batch with a member of the body due, whatever else is pending: the next member, or the item, is due then, and no other output of the iteration changes |
| CanvasIterationBeside.IterationBesideIsMap | agent/canvas.py:614-627 | iteration is a map also with other branches pending beside it: the item is due n+1 times with turns 0 to n, each body component n times in order with element and index k in pass k, each collected output ends as the list of what the body had left each time, and the downstream is scheduled |
| CanvasObject.Canvas.FindStart | agent/component/iteration.py:52-57 | finds an item of the iteration or loop if and only if there is one, the first in dictionary order |
| CanvasObject.Canvas.OutputCollation | agent/component/iterationitem.py:62-85 | the two nested loops over components and outputs compute the collation of the iteration's targets |
| CanvasObject.Canvas.InvokeItem | agent/component/iterationitem.py:35-60 | the item's state machine on `_idx`, with its three looks at the cancel flag and the exceptions it can raise, is the specified step |
| CanvasObject.Canvas.InvokeOne | agent/component/base.py:407-419 | invoking a component changes outputs, turn and clock as specified for its kind; what its body raises becomes the default value or an error, and what an iteration, its item or a loop item notices of a cancellation an error |
| CanvasObject.Canvas.DropUnready | agent/canvas.py:453-475 | popping from the path during the scan leaves exactly the specified path, keeps the prefix, and runs the entries that stay |
| CanvasObject.Canvas.ExecuteTasks | agent/canvas.py:502-511 | announcing, scanning and invoking a batch is the specified batch |
| CanvasObject.Canvas.FlushPartials | agent/canvas.py:570-575 | releases a prefix of the deferred entries and stops at the first that still streams |
| CanvasObject.Canvas.SendMessage | agent/canvas.py:516-575 | a message is read to its end, announced, and followed by the deferred events |
| CanvasRouting.Lookups | agent/canvas.py:614-627 | on a well-formed graph every lookup that routing makes succeeds |
| CanvasObject.Canvas.Dispatch | agent/canvas.py:614-627 | the cascade of branches puts exactly the ids on the path that the kind of the component hands on, in order and skipping an entry equal to the last; none when diverted |
| CanvasObject.Canvas.PostProcess | agent/canvas.py:513-627 | one turn of post-processing is the specified step, and obeys the routing law |
| CanvasObject.Canvas.ExecuteBatch | agent/canvas.py:500-627 | a batch, loops included, is the specified batch |
| CanvasObject.Canvas.SuspendForInput | agent/canvas.py:634-648 | the stop for user input reorders the path and runs the fill-ups as specified |
| CanvasObject.Canvas.ExecuteBatches | agent/canvas.py:500-648 | the batch loop refines the specified run loop, with the same way of ending |
| CanvasObject.Canvas.ExecuteRun | agent/canvas.py:423-659 | a run of the object, from the saved path to the saved path, is the specified run, and every component in it is routed by the law |
| References.MatchRefIff | agent/dsl_migration.py:32 | the longest-run scan finds a reference at the start of a text if and only if the text splits as the pattern says, and the split is unique |
| References.RewriteReplaces | agent/dsl_migration.py:67-76 | at a reference, rewriting replaces the component id and nothing else, and goes on after it |
| References.UnrenamedStep | agent/dsl_migration.py:67-76 | a reference that is not renamed is no different from plain text |
| References.RewriteIdentity | agent/dsl_migration.py:67-76 | with nothing to rename every text stays as it is |
| Rendering.KeyStable | agent/canvas.py:168-193 | rewriting commutes with the group of the runtime pattern |
| RenderingParts.MatchVarIff | agent/canvas.py:169 | the scan reads a key and leaves a rest if and only if the text is a variable as the pattern says, with that key, before that rest |
| RenderingParts.RenderIs | agent/canvas.py:168-210 | a template renders to a text if and only if that is its parts put together in order, literals as they stand and every variable replaced by its value: what the output of a known component shows, or a known global |
| RenderingParts.RenderedByParts | agent/canvas.py:168-193 | every template splits into literals where no variable begins and variables in the pattern's form; whatever the split, it has the keys that are read, in order, and gives the rendered text |
| RenderingPreserved.MatchStable | agent/canvas.py:169-171 | rewriting commutes with the whole runtime pattern, braces and blanks included: same match, renamed component, rewritten rest |
| RenderingPreserved.LiteralStep | agent/dsl_migration.py:67-76 | where nothing is renamed, the rewritten text agrees for one character |
| RenderingExact.FormIsKey | agent/canvas.py:169 | the runtime recognises a reference if and only if it has no white space inside the braces and only letters, digits and colons in its id |
| RenderingExact.FormWithin | agent/canvas.py:169-177 | a reference that begins inside what the runtime reads as one variable is one it recognises |
| RenderingExact.KeysMigrate | agent/canvas.py:168-193 | the migrated template reads the same variables in the same order, with their components renamed |
| RenderingExact.UnreadDiffers | agent/dsl_migration.py:67-76 | a renamed reference that the runtime does not recognise, whatever follows it, changes the text of a template that renders, for every pair of runtimes |
| RenderingExact.FailsAlike | agent/canvas.py:195-201 | the migrated template fails if and only if some variable that failed before, because it did not resolve or had no text, is not rescued |
| RenderingExact.RenderExactly | agent/canvas.py:168-210 | for an injective rename, the rewritten template against the renamed components renders as before if and only if: it rendered and all its renamed references are in the runtime's form, or it failed and some failing variable is not rescued |
| RenderingExact.RenderPreserved | agent/canvas.py:168-210 | with references in the runtime's form and none captured, the rewritten template renders to the same text, or fails as before |
| RenderingLimits.UnderscoreRefChanges | agent/dsl_migration.py:32 | a concrete template, with an underscore in an id, that renders to another text after the migration |
| RenderingLimits.CapturedRefRenders | agent/dsl_migration.py:67-76 | a reference to an unknown id that equals a new name fails before the migration and renders after it |
| Json.PipeAt | agent/dsl_migration.py:98-111 | field edits made one after the other, on different fields, leave each field as its own edit makes it |
| MigrationIdempotent.NewIdSettles | agent/dsl_migration.py:53-61 | renaming an id twice is renaming it once: no new name has a legacy prefix |
| MigrationIdempotent.NewIdUnfold | agent/dsl_migration.py:53-61 | exactly the ids with one of the three legacy prefixes change, and how |
| MigrationIdempotent.NewNameUnfold | agent/dsl_migration.py:22-26 | exactly the three legacy names change, and how |
| MigrationIdempotent.EdgeIdSettles | agent/dsl_migration.py:168-172 | replacing ids in an edge id twice is doing it once |
| MigrationIdempotent.NodeSettles | agent/dsl_migration.py:127-155 | migrating a node twice is doing it once, its type, label, name and form included |
| MigrationIdempotent.NormalizeIdempotent | agent/dsl_migration.py:35-178 | migration is idempotent on every JSON value on which it does not raise |
| MigrationGraph.ComponentCount | agent/dsl_migration.py:87-115 | the number of components is kept if and only if the rename is injective, and then the i-th component is the edited i-th under its new name |
| MigrationGraph.ListImage | agent/dsl_migration.py:98-107 | a resolved downstream or upstream list becomes its image although it is rewritten twice |
| MigrationGraph.ParentImage | agent/dsl_migration.py:109-111 | a resolved parent becomes its image |
| MigrationGraph.LinkedImage | agent/dsl_migration.py:98-107 | two components are linked after the migration if and only if they were before |
| MigrationGraph.GraphIsomorphism | agent/dsl_migration.py:87-115 | with an injective rename the migrated components are the rename image: downstream and upstream relations in both directions, resolved references stay resolved, duality of the two is kept |
| MigrationGraph.PathImage | agent/dsl_migration.py:117-121 | the saved path becomes its image |
| MigrationGraph.DrawnGraphImage | agent/dsl_migration.py:123-166 | node ids, node parents and edge endpoints of the drawn graph are looked up one by one, in place, in whichever of the two lists there are |
| MigrationGraph.IdMapKeepsClasses | agent/dsl_migration.py:22-61 | the actual rename keeps ids inside the character classes that both patterns use |
| MigrationGraph.MigratedTemplateRenders | agent/dsl_migration.py:63-115 | a template of a canvas that is not itself an id, migrated with its canvas, renders as before if and only if the exact condition holds, with the actual id map and the migrated components |
| MigrationPlaces.RewriteReaches | agent/dsl_migration.py:78-85 | at every path into a value there is the same after the rewriting: a text rewritten, however deep in lists and dictionaries, and every other scalar, length and key as it was |
| MigrationPlaces.DocumentAtPlace | agent/dsl_migration.py:35-178 | what becomes of the value at every path of a document: all texts below a component, below the form of a node, and in history, messages and reference are rewritten, ids are looked up and names and types replaced where they stand, and everything else, keys and lengths included, is as it was; components are found under their new ids |
| MigrationPlaces.DocumentKeys | agent/dsl_migration.py:49-178 | the document keeps its keys in their order |
| MigrationPlaces.TemplateAtPlace | agent/dsl_migration.py:63-178 | a template at any place that is rewritten, in a list as well, is found rewritten in the migrated document, and renders as before if and only if the exact condition holds |
| MigrationRaises.RaisesExactly | agent/dsl_migration.py:88-121 | the migration raises if and only if an id list of a component or the saved path holds a list or a dictionary, or the name of a component object is one; nothing in the drawn graph makes it raise |
| MigrationEdgeIds.ReplaceIs | agent/dsl_migration.py:168-172 | replacing an id in an edge id cuts it at the id's occurrences, leftmost first, and joins the parts with the new id |
| MigrationEdgeIds.LongestIs | agent/dsl_migration.py:159 | the ids are replaced longest first, those of one length in their order |
| MigrationCode.BuildIdMap | agent/dsl_migration.py:53-61 | the loop with its break computes the id map |
| MigrationCode.RewriteComponent | agent/dsl_migration.py:88-113 | the edits in place of one component compute the specified edit, raising in the same cases |
| MigrationCode.RewriteComponents | agent/dsl_migration.py:87-115 | filling the new dictionary computes the specified components, collisions included |
| MigrationCode.RewriteEdgeId | agent/dsl_migration.py:159-172 | the replacement loop computes the replacements, longest ids first |
| MigrationCode.RewriteEdges | agent/dsl_migration.py:157-172 | the edges edited in a loop are the edges edited one by one |
| MigrationCode.RewriteNode | agent/dsl_migration.py:130-155 | the edits in place of one node, with the early end when its data is no dictionary, compute the specified edits |
| MigrationCode.RewriteNodes | agent/dsl_migration.py:125-155 | the nodes edited in a loop, those that are no dictionaries skipped, are the nodes edited one by one |
| MigrationCode.NormalizeDsl | agent/dsl_migration.py:35-178 | the whole migration as it is carried out computes the specified value, or raises with it |
| RaptorTree.BelowNonEmpty | rag/raptor.py:164-215 | only an empty layer can lie over an empty one |
| RaptorTree.LayersCoverInput | rag/raptor.py:164-215 | the chunks of every non-empty layer stand for disjoint sets of input chunks that together are the whole input |
| RaptorTree.NarrowingBounds | rag/raptor.py:99-101 | the k-th layer above the input is at most M-k wide |
| RaptorTree.SizeBound | rag/raptor.py:99-101 | at most M layers, and at most M(M-1)/2 chunks beyond the input |
| Raptor.LabelsPartition | rag/raptor.py:183-205 | labels without an empty cluster split the layer into non-empty disjoint clusters that cover it, in whatever order their tasks finish |
| Raptor.LayerAdded | rag/raptor.py:210-215 | a layer summarising a partition of the last one keeps the tiling and the way all layers are built |
| Raptor.Layering.FinishTask | rag/raptor.py:119-162 | a task appends what the model and the embedder make of the texts it read, past `end`, or counts an error where one of them raises; it raises if and only if it sees a cancellation or the error limit is reached |
| Raptor.Layering.RunTasks | rag/raptor.py:119-162 | for every interleaving of the tasks of a layer, each reads the layer as it was, and the summaries are those of distinct clusters in order of completion |
| Raptor.Layering.SummarizePair | rag/raptor.py:168-175 | the pair branch closes a layer of one summary, or of none after an error, and raises only for a cancellation or too many errors |
| Raptor.Layering.ClusterLayer | rag/raptor.py:177-215 | the clustering branch closes a layer that is strictly narrower, not empty and built from a partition; it raises if and only if there is a cancellation, too many errors, a label or a member of a cluster missing, a cluster without a summary, or a bound of at most one |
| Raptor.UsableSelected | rag/raptor.py:115 | what is kept of the input are the chunks at exactly the places, in order, that have a text and an embedding |
| Raptor.Layering.Call | rag/raptor.py:112-215 | the loop terminates; a successful call begins with the input chunks that have a text and an embedding, in order, and returns layers that tile the chunks, each built from a partition of the one below, within the size bound; it raises only for a cancellation, an error, an incomplete clustering, or a bound of at most one, and succeeds only without these |
| McpSession.NextInv | common/mcp_tool_call_conn.py:122-175 | every step of caller, worker and closer keeps the invariant, from any state that has it |
| McpSession.Delivery | common/mcp_tool_call_conn.py:122-175 | in every interleaving an accepted request is answered at most once, into its own result queue, with exactly what is due: the connection error from a worker without a client, the outcome of its own task from one with a client, the cancellation from the drain; and the worker answers in enqueue order |
| McpSession.AnswersWhom | common/mcp_tool_call_conn.py:122-158 | step by step, the worker with a client session gives the outcome of the task in hand, the one without gives the connection error, and no other result queue changes |
| McpSession.NoErrorWhileConnected | common/mcp_tool_call_conn.py:122-158 | as long as the connection stands no caller gets the connection error |
| McpSession.CloseAnswersWaiting | common/mcp_tool_call_conn.py:232-248 | every request waiting when the session is closed on its own loop gets exactly one answer, the cancellation |
| McpSession.CloseOnOwnLoop | common/mcp_tool_call_conn.py:232-248 | after closing on its own loop the queue stays empty, nothing more is accepted, and only the at most one request in the worker's hands can stay unanswered |
| McpSession.CloseOnOtherLoop | common/mcp_tool_call_conn.py:279-304 | closed from another loop, at most one request in hand and one in the queue stay unanswered |
| McpSession.ClosedIdle | common/mcp_tool_call_conn.py:232-248 | closed from another loop while no caller is between its test and its put, the drain leaves an empty queue and only the request in hand can stay unanswered |
| McpSession.OverForever | common/mcp_tool_call_conn.py:122-175 | once drained, with the worker stopped, no step answers anything any more |
| McpSession.LeavesTwo | common/mcp_tool_call_conn.py:160-175 | from every state with a caller between test and put and a request in hand, a run that leaves both unanswered for good |
| McpSession.CloseOnOtherLoopExactly | common/mcp_tool_call_conn.py:232-248 | two requests can stay unanswered if and only if, when the flag is set, a caller is between its test and its put and a request is held or lost |
| McpSession.CloseOnOtherLoopLeavesTwo | common/mcp_tool_call_conn.py:279-304 | a concrete run from the start that leaves both |
| McpSessionObject.McpToolCallSession.TestClosed | common/mcp_tool_call_conn.py:160-162 | a caller is refused exactly when the session is closed |
| McpSessionObject.McpToolCallSession.Enqueue | common/mcp_tool_call_conn.py:164-165 | the accepted request carries a new, empty result queue of its own |
| McpSessionObject.McpToolCallSession.TestLoop | common/mcp_tool_call_conn.py:122-124 | the worker leaves its loop exactly when the session is closed |
| McpSessionObject.McpToolCallSession.Take | common/mcp_tool_call_conn.py:122-158 | the worker takes the oldest request; without a client session it puts the connection error into that request's result queue and nothing anywhere else |
| McpSessionObject.McpToolCallSession.AnswerHeld | common/mcp_tool_call_conn.py:144-158 | the outcome of the task in hand, and nothing else, goes into the result queue of its request |
| McpSessionObject.McpToolCallSession.CloseOnLoop | common/mcp_tool_call_conn.py:232-248 | the drain loop answers every queued request with the cancellation and is the specified closing step |
| MetaFilter.SelectDocuments | common/metadata_utils.py:48-143 | the loop over the values, which changes the query value as it goes, computes the specified selection |
| MetaFilter.StripIs | common/metadata_utils.py:53-54 | stripping removes white space at both ends, all of it and nothing else |
| MetaFilter.MatchesSelect | common/metadata_utils.py:48-143 | a document is selected if and only if one of its values matches: as a date where the query value is one by then, as the comparison of other operands says where it is not, with the query value the comparison left behind |
| MetaFilter.LessOfDates | common/metadata_utils.py:126-137 | on ASCII YYYY-MM-DD texts the order of texts is the order of year, month and day |
| MetaFilter.DatesIgnoreOrder | common/metadata_utils.py:72-80 | with a date as query, the changing query value makes no difference to any later value |
| MetaFilter.DateFilterByCodePoint | common/metadata_utils.py:51-80 | for a query of date form a document is selected if and only if it has a value of date form that compares as asked by code point, whatever the order of the values |
| MetaFilter.DateFilterIsChronological | common/metadata_utils.py:51-80 | for =, ≠, >, <, ≥, ≤ and an ASCII date as query a document is selected if and only if it has an ASCII date value in that relation of year, month and day, or one in other digits that compares so by code point |
| MetaFilter.ForeignDigitsOutOfOrder | common/metadata_utils.py:56-63 | a concrete record in Arabic-Indic digits that is selected as later than a later date |
| MetaFilter.CombineFilters | common/metadata_utils.py:145-163 | the loop with its early return computes the union, or the intersection from the first filter that matches something |
| MetaFilter.AnyOfMembers | common/metadata_utils.py:160-162 | "or" selects what some filter selects |
| MetaFilter.AllFromFirstMembers | common/metadata_utils.py:154-159 | "and" selects what all filters select from the first on that selects anything |
| MetaFilter.ConjunctionExactly | common/metadata_utils.py:154-159 | "and" is the plain conjunction if and only if the first filter matches something, or no document is in all filters from the first that does |
| MetaFilter.NothingMatches | common/metadata_utils.py:154-159 | if no filter matches anything, "and" selects nothing |
| MetaFilter.LeadingEmptyFilterIgnored | common/metadata_utils.py:145-155 | for any metadata, a first filter on a key that no document has is forgotten: the result is what the second selects, the conjunction is empty |
| MetaFilter.ConjunctionOfNothing | common/metadata_utils.py:145-155 | concrete metadata and filters for which a document is found that the conjunction excludes |
| MetaUpdate.DedupeList | common/metadata_utils.py:231-240 | the loop with its set of seen texts keeps the first items with each text |
| MetaUpdate.DedupeKeepsFirsts | common/metadata_utils.py:231-240 | deduplication keeps exactly the first occurrences, in their order |
| MetaUpdate.UpdateMetadata | common/metadata_utils.py:255-275 | the loop over the update, with its continues, computes the specified merge |
| MetaUpdate.UpdateMetadataTo | common/metadata_utils.py:243-275 | whatever was generated (nothing, a text that parses or does not, a dictionary, something else), the metadata change by exactly the dictionary of updates there is in it |
| MetaUpdate.UpdateIdempotent | common/metadata_utils.py:243-275 | merging the same update twice equals merging it once |
| MetaUpdate.DedupedStrings | common/metadata_utils.py:256-261 | from a list an update takes exactly the strings in it, each once, in the order of their first places |
| MetaUpdate.UpdateWrites | common/metadata_utils.py:255-275 | a key without an update, or with one that holds no string, keeps its value; any other gets the strings of the update, each once, or the first occurrences in the old list followed by them |
| Flatten.FlattenObject | admin/client/ragflow_client.py:660-676 | the recursive function with its growing list computes the rows |
| Flatten.RowsListed | admin/client/ragflow_client.py:660-676 | every row is the value at its path, under the name of that path |
| Flatten.PathsDifferent | admin/client/ragflow_client.py:660-676 | no path is listed twice |
| Flatten.LeafIsListed | admin/client/ragflow_client.py:660-676 | every leaf, empty containers included, is listed |
| Flatten.ParseName | admin/client/ragflow_client.py:664-671 | with keys that are not empty and free of `.`, `[` and `]`, a name reads back as its path |
| Flatten.Faithful | admin/client/ragflow_client.py:660-676 | the rows are exactly the leaves, each once; with clean keys names are pairwise distinct and following one from the root reaches the listed value |
| CombineModel.Slots | agent/component/data_operations.py:121-131 | a key of the result has its first value itself if that is a list or the only one, and a list made by the loop otherwise |
| CombineModel.OnlyFirstsChange | agent/component/data_operations.py:123-127 | on any input, shared lists included, only lists that are the first value of a key that recurs change |
| CombineModel.ExactConserves | agent/component/data_operations.py:117-132 | as long as the exact condition holds every key reads as the concatenation of its values, and lists that were not extended hold what they held |
| CombineModel.InexactLonger | agent/component/data_operations.py:117-132 | once it fails some key reads as more than its values, and goes on doing so |
| CombineModel.ConservesExactly | agent/component/data_operations.py:117-132 | every key reads as the concatenation of its values, in order, if and only if every list that is extended is the value of no later entry and the first value of no other key |
| CombineModel.UnsharedIsExact | agent/component/data_operations.py:117-132 | which is so when no list that is the first value of a recurring key occurs elsewhere |
| CombineModel.RepeatedExactly | agent/component/data_operations.py:117-132 | one dictionary of one list given n times is conserved if and only if n is at most two or the list is empty |
| CombineModel.RepeatedDoubles | agent/component/data_operations.py:123-125 | given n+1 times, the list ends with 2 to the n copies |
| Combine.MergeNew | agent/component/data_operations.py:121-122 | a new key takes the value itself |
| Combine.MergeIntoList | agent/component/data_operations.py:123-127 | a key with a list grows that list in place, for every key that shares it |
| Combine.MergeScalar | agent/component/data_operations.py:128-131 | a key with a scalar gets a new list, and nothing that existed changes |
| Combine.Combine | agent/component/data_operations.py:117-132 | on any dictionaries: for every key the result read as a list is the concatenation, in order, of its values over all objects if and only if the exact condition holds, and the only inputs changed are lists that were the first value of a key that recurs |

## Left out

- CanvasObject.Canvas.ExecuteRun: the number of batches is bounded by a parameter, because a canvas with a cycle can run for ever; what the bound leaves open is whether a cyclic canvas ends.
- CanvasIterationRun.IterationIsMap: the iteration is the only pending entry, and its body one chain of components and messages that, in the states reached, succeed and write only their own outputs, at the item's first entry; re-entering an iteration whose index is already -1, bodies that branch, and list references with a dotted path are not covered.
- CanvasIterationBeside.IterationBesideIsMap: the same for the body; the other branches lead nowhere into the iteration, write only their own outputs, end in no error and ask for no input while it runs.
- CanvasSessions.CanceledPath: states what a cancellation between two batches leaves behind; a component that notices the cancellation itself only reports an error.
- CanvasSteps.LoopPasses: speaks of the visits of one loop item; that nothing in between changes its turn is a hypothesis, which other components keep.
- MigrationPlaces.DocumentAtPlace: for documents in which no two components get the same new id; when they do, one replaces the other (ComponentCount).
- MetaFilter.SelectDocuments: comparisons of values that are not dates (`contains`, `in`, parsed literals and the like) are a parameter, which may change the query value as the code does.
- MetaFilter.CombineFilters: its result is a set; the order of the returned list is not fixed by the code.
- MetaUpdate.UpdateMetadataTo: the repair and parsing of a text is a parameter; the results about whole updates require that every key occurs once, as in a Python dictionary.
- McpSession.CloseOnOwnLoop: the stop of the event loop after the drain, time-outs of callers, and the thread-unsafety of the queue itself are not modelled.
- Raptor.Layering.RunTasks: when a task raises, the call ends; what sibling tasks still append afterwards is not followed.  Retries, callbacks and time-outs are not modelled.
- RenderingExact.RenderExactly: how an output turns into text (streams, JSON, dotted paths) is a parameter shared by both sides.
- Canvases that name components they do not have: the code fails on them with lookups of None; the model requires well-formed graphs and branch targets taken from the configuration.  The error of a failed categorize or switch without `_next` belongs here.
- Tokens of a message stream, think marks, speech, citations, attachments, the conversation history and retrieval records: a stream is read in one step to one text.
- The values that inputs of a component take: bodies see all outputs, and members of a batch run in path order with arbitrary effects.
- Conditions of loops are an oracle, as is the error a loop item may raise on a badly formed condition.
- `set_variable_param_value`: it stores under the last key twice, so a plain read-after-write is not what it does.
- Edge ids: what the replacements do to the text is proved; whether a replaced id is still the front end's id depends on a format that is not part of this model.
- Error texts, time stamps, logging, webhooks, the HTTP and command-line clients, encryption, parsing of commands, and token, time and float helpers.
