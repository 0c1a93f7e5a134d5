# Spaghetti dataflow engine, modelled in Dafny

Spaghetti is a node-based editor. Processors (shaders, readers, scripts,
builtins and groups) are connected by links from the output slots of one
processor to the inputs of another. This project models the engine
underneath it (`Spaghetti/processor.h`, `Spaghetti/processor.cpp`) in
three layers and proves properties of each:

- **Type system and conversion** (`signatures.dfy`, `data.dfy`,
  `conversion.dfy`): `DataSignature`, the link compatibility table
  `CanLink`, typed payloads, `Data::Make`, `VecData::ResetValueTo`,
  `CopyValueData` and `Data::ConvertTo`. Scalars are 32-bit patterns
  (`bv32`), for which zero is the same for all three encodings. The numeric
  cast between encodings is a function parameter.
- **Inputs and processors** (`inputs.dfy`, `propagation.dfy`,
  `registry.dfy`): `Input::GetInputData`, `SetupLink` and
  `ResetDefaultValue` are functions on an input value. The static registry
  (`Processor::processors`, `Processor::count`) is the class
  `Registries.Registry`, which holds a map from id to processor record.
  `Processor::Get` is a lookup in that map. The registry's methods are
  `Make`, `MakeSwap`, `NeedsUpdate`, `SetNeedsUpdate`, `AddInputLink`,
  `AddOutputLink`, `HasLinkedInputs` and `CanProcess`. `SetNeedsUpdate` is
  proved to dirty exactly the processors reachable from the start through
  processors that were clean.
- **Scheduler and link table** (`scheduler.dfy`): `Graph` is a class with
  `links`, `noInputProcessors` and `linkCount`. Its methods are
  `CreateLink`, `RemoveLink` and `Execute`. `Execute` is the ready/backlog
  wave scheduler, with each wave's set walked in an arbitrary order.
  `GroupProcessor::Process` runs one `Execute` of the group's nested graph,
  through mutual recursion.

What a processor's `Process` computes is an opaque `Effect` parameter. It
maps the processor's kind, inputs and outputs to new outputs. The inputs
it sees are the `Input` records (link addresses, defaults and conversion
caches), not the data a producer currently holds: what `GetInputData`
would return is not an argument of `Effect`. `VisitOrder` is therefore
a statement about the visit order only, not about data flowing from
producers to clients.

`Execute` records what it did as a ghost trace: one `Step` per visit,
which skipped a clean processor, processed one that is not a group, or
processed a group together with the trace of its nested run. `Flat`
lists what a trace processed, and every scheduling member ties what
ran to its trace. `StepComplete` and `GroupsRan` say that a group's
step holds a complete nested `Execute`: the nested roots visited first,
every client of a nested visit visited, and the same again for the
groups processed inside. Every member promises this wherever no group
ran cut.

## Defects of the source and how the model shows them

- `Input::SetupLink` has no return statement when the linked producer is
  missing. Its `result` is then `None`.
- `Processor::Make` and `MakeSwap` have no return statement. The model
  returns no pointer from either. `MakeSwap` reports only whether it
  refused.
- `Data::ConvertTo` passes `CopyValueData` its template arguments in the
  wrong order for mixed encodings. The modelled copy therefore casts from
  the target encoding to the source encoding.
  `Conversion.MixedEncodingCastsBackwards` exhibits this on a float source
  and an integer target.
- Converting a value or curve to an image copies into the null pointer
  that `Make(image)` returns. `ConvertTo` gives `Undefined` there.
- A curve-to-value conversion is also `Undefined`, because the value data
  is copied as curve data.
- `CopyValueData` reads the source row by row up to the destination's
  `array_length`. A shorter source is read past its end, which is
  `Undefined` as well (`Conversion.ConvertShortSourceUndefined`). The
  method `Conversion.CopyValueData` requires enough rows.
- `Make(text)` never sets the signature, and a text-to-text conversion
  copies no strings (`DataModel.MadeTextHasWrongSignature`,
  `Conversion.ConvertTextCopiesNothing`).
- `Graph::Execute` never ends when the backlog cannot drain, for example
  on a cycle. It also never ends when `ready` keeps refilling: processors
  without linked inputs whose output links form a cycle are ready again
  each time one of them is processed (`Spaghetti/processor.cpp:149-150`,
  `:163-166`). `Scheduler.Schedule` takes `fuel`, which bounds the number
  of waves and the nesting depth of groups. `exhausted` reports that the
  fuel ran out: processors were still pending after the last wave, or a
  group's nested run was cut short.
- `Processor::Get` returns null for an unknown id. `Input::GetInputData`
  (`Spaghetti/processor.cpp:217`) and `Input::SetupLink` (`:254`) test the
  pointer, and `CheckReady` (`:144`) only looks it up in `done`. The model
  handles an unknown id in each of them: no data, an undefined result, and
  "not ready". The other callers dereference the pointer unchecked:
  `SetNeedsUpdate` (`:82`), `Execute` (`:165-166`, `:172`), `CreateLink`
  (`:189-190`) and `RemoveLink` (`:201-210`). The members that model those
  callers require the id to be registered.

- `Input::GetInputData` and `Input::SetupLink` index the producer's
  outputs with `data_index` unchecked (`Spaghetti/processor.cpp:218`,
  `:255`). `AddOutput` (`:36`) is an empty stub, so only a builtin can
  have outputs, and a link to any other producer reads past the end. The
  model requires the slot to exist (`Resolvable`) and leaves that case out.

## Model

| member | source | states |
|---|---|---|
| Signatures.DefaultSignature | Spaghetti/processor.h:30-34 | a default signature is value, floating, one coordinate, array length one |
| Signatures.SignatureEquality | Spaghetti/processor.h:36 | two signatures are equal exactly when type, encoding, coordinate count and array length all agree |
| Signatures.UnlinkedAddress | Spaghetti/processor.h:91-94 | a default address names processor `UNLINKED` (0) and slot 0 |
| Signatures.CanLink | Spaghetti/processor.cpp:397-409 | value and image inputs accept any output; otherwise the types must match; buffers need equal signatures, curve and text only equal types |
| Signatures.CanLinkReflexive | Spaghetti/processor.cpp:397-409 | every signature can be linked to itself |
| Signatures.CanLinkRejection | Spaghetti/processor.cpp:397-409 | a rejected link has a curve, text or buffer input whose type differs from the output's, or a buffer input with another signature |
| DataModel.Resize | Spaghetti/processor.h:69-71 | `resize(n, v)` gives length `n`, keeps the old prefix and pads with `v` |
| DataModel.ResetFreshIsUniform | Spaghetti/processor.h:68-73 | resetting empty data gives exactly `array_length` rows of `num_coords` copies of `v` |
| DataModel.ResetKeepsOverlap | Spaghetti/processor.h:68-73 | after a reset, the data has the signature's shape; entries inside the old shape survive and every other entry is `v` |
| DataModel.VecData.constructor | Spaghetti/processor.h:52-54 | new vector data has the given signature and no rows |
| DataModel.VecData.ResetValueTo | Spaghetti/processor.h:68-73 | the row loop leaves the rows the resets describe, shaped by the unchanged signature |
| DataModel.Make | Spaghetti/processor.cpp:267-318 | nothing for image and buffer; shaped all-zero values and identity curves with the given signature; one empty string with the default signature for text |
| DataModel.MadeTextHasWrongSignature | Spaghetti/processor.cpp:310-313 | made text data carries a value signature, never the text signature asked for |
| Conversion.CopyRowBroadcast | Spaghetti/processor.cpp:332-334 | when exactly one coordinate is copied it fills the whole destination row |
| Conversion.CopyRowPrefix | Spaghetti/processor.cpp:336-347 | otherwise the first `k` coordinates are copied and the rest are zero |
| Conversion.CopyValueData | Spaghetti/processor.cpp:327-350 | the nested loops leave every destination row as the broadcast or prefix copy of the same source row; the signature is unchanged |
| Conversion.ConvertTo | Spaghetti/processor.cpp:352-395 | null when the link is not allowed; a linkable value-to-value or curve-to-curve conversion succeeds exactly when the source has at least `array_length` rows, with the target signature and shape; image targets and curve-to-value are undefined; other sources give freshly made target data |
| Conversion.ConvertValueElement | Spaghetti/processor.cpp:364-391 | each converted value element is the cast broadcast or prefix copy of the source row, else zero |
| Conversion.ConvertSameEncodingExact | Spaghetti/processor.cpp:365-367 | with equal encodings the converted elements are the source elements themselves |
| Conversion.ConvertCurveElement | Spaghetti/processor.cpp:361-363 | each converted curve is the broadcast or prefix copy of the source row, else the zero curve |
| Conversion.ConvertShortSourceUndefined | Spaghetti/processor.cpp:331-332 | a value or curve source with fewer rows than the target's `array_length` makes the conversion undefined |
| Conversion.ConvertTextCopiesNothing | Spaghetti/processor.cpp:310-313 | text-to-text yields one empty string with the default signature, whatever the source held |
| Conversion.MixedEncodingCastsBackwards | Spaghetti/processor.cpp:368-369 | float-to-integer conversion applies the integer-to-float cast, which can differ from the intended one |
| Inputs.LinkedData | Spaghetti/processor.cpp:217-218 | the linked output exists exactly when the producer is registered, and it is the producer's output in the linked slot |
| Inputs.GetInputData | Spaghetti/processor.cpp:216-230 | priority: a matching producer output, then the converted cache (only for a live producer), then the default |
| Inputs.GetInputDataNull | Spaghetti/processor.cpp:216-230 | null exactly when there is no default and neither a matching output nor, for a live producer, a cache |
| Inputs.SetupLink | Spaghetti/processor.cpp:252-265 | clears the cache; false with no cache when `CanLink` fails; true with no cache on equal signatures; otherwise stores the producer's conversion (or no cache for a null one) and returns true, undefined only when the conversion is; undefined without a producer |
| Inputs.SetupLinkFeedsInput | Spaghetti/processor.cpp:252-264 | after a converting setup the input reads the cache, which has the input's own signature |
| Inputs.ResetDefaultValue | Spaghetti/processor.cpp:232-250 | the default is `Make` of the input's signature renamed to the input: none for image and buffer, all-zero values and identity curves shaped by the signature, one empty string with the default signature for text |
| Inputs.UsableIsNonNull | Spaghetti/processor.cpp:20-32 | unless a processor sits under `UNLINKED`, an input passes `CanProcess` exactly when it yields data |
| Propagation.PropagationStart | Spaghetti/processor.cpp:78-79 | dirtying a clean start processor establishes the invariant the client loop keeps |
| Propagation.PropagationStep | Spaghetti/processor.cpp:81-83 | a recursive call on a client keeps the propagation invariant |
| Propagation.PropagationDone | Spaghetti/processor.cpp:77-86 | once every client of the start is dirty, the propagation is complete |
| Propagation.PropagationReachesPath | Spaghetti/processor.cpp:77-86 | a complete propagation dirties every processor on a clean path from the start |
| Propagation.PropagationExact | Spaghetti/processor.cpp:77-86 | after propagation a processor is dirty exactly when it was dirty before or is reached from the start through clean processors |
| Propagation.NoReachFromDirty | Spaghetti/processor.cpp:78 | from an already dirty processor nothing is reached, so nothing changes |
| Propagation.PropagationIgnoresInputs | Spaghetti/processor.cpp:50-55 | what propagation dirties depends only on flags and links, so rebinding an input first changes nothing about it |
| Registries.Registry.constructor | Spaghetti/processor.h:172-173 | the registry starts empty with `count == 0` |
| Registries.Registry.Get | Spaghetti/processor.cpp:11-16 | the record under the id, or null when there is none |
| Registries.Registry.Make | Spaghetti/processor.h:124-129 | `count` goes up by one, never equals `UNLINKED`, exceeds every older id, and names a new dirty processor; nothing else changes |
| Registries.Registry.MakeSwap | Spaghetti/processor.h:131-138 | refuses exactly when `id >= count`; otherwise only the entry under `id` is replaced by a new dirty processor |
| Registries.Registry.NeedsUpdate | Spaghetti/processor.cpp:69-75 | returns the old flag and leaves it cleared, so a second call returns false; nothing else changes |
| Registries.Registry.SetNeedsUpdate | Spaghetti/processor.cpp:77-86 | no change on a dirty processor; otherwise only flags change, nothing becomes clean, and exactly what is reachable through clean processors becomes dirty |
| Registries.Registry.NotifyClients | Spaghetti/processor.cpp:80-84 | the calls on every client of one slot keep the propagation invariant and visit all those clients |
| Registries.Registry.NotifyClient | Spaghetti/processor.cpp:82 | one recursive call keeps the propagation invariant |
| Registries.Registry.AddInputLink | Spaghetti/processor.cpp:50-55 | only input `k` is rebound, and only when it exists; the processor is dirtied and the flags propagate |
| Registries.Registry.AddOutputLink | Spaghetti/processor.cpp:57-67 | the address is appended to the slot's client list, which is created when missing; nothing else changes |
| Registries.Registry.HasLinkedInputs | Spaghetti/processor.cpp:88-97 | true exactly when some input is linked |
| Registries.Registry.CanProcess | Spaghetti/processor.cpp:20-32 | true exactly when no input is unlinked without a default and every input yields data |
| Registries.Registry.SetOutputs | Spaghetti/processor.cpp:127-131 | a `Process` replaces only the processor's own outputs |
| Scheduler.IsReady | Spaghetti/processor.cpp:141-149 | ready exactly when every linked input's producer is done |
| Scheduler.CheckReady | Spaghetti/processor.cpp:140-156 | a ready processor joins `ready`, any other joins `backlog` |
| Scheduler.CheckClients | Spaghetti/processor.cpp:163-169 | every client of `p` that is ready joins `ready`, every other one joins `backlog`; only ready ones enter `ready`; nothing pending is dropped |
| Scheduler.Process | Spaghetti/processor.h:233 | a group with fuel runs one `Execute` of its nested graph: what ran there is exactly what the traced visits of `nestedOrder` processed, in a visit order that starts with the nested roots, once each; the visited processors end clean, every client of a visited processor is visited or pending, and the group is cut exactly when that run left work pending or cut a group of its own; an uncut run is complete (its visits are closed under clients and every group inside ran completely); a group with no fuel left is cut and runs nothing; other kinds set only their own outputs, run nothing nested and are never cut, and a builtin without a call sets nothing |
| Scheduler.Run | Spaghetti/processor.cpp:158-160 | a clean processor is skipped and left exactly as it was; a dirty one is cleaned and processed once: what ran is `p` alone for a processor that is not a group and `p` followed by its nested run for a group; unless the run was cut, a group's step holds its complete nested `Execute`; a cut run was a dirty group |
| Scheduler.Visit | Spaghetti/processor.cpp:157-170 | the visited processor is a root, or ready and a client of an earlier visit; afterwards it is done and clean, its clients are pending, the visit order gains exactly `p`, and what ran gains exactly what this visit's step processed; unless the visit was cut, a group's step holds its complete nested `Execute`; a cut visit ran a group |
| Scheduler.VisitAll | Spaghetti/processor.cpp:178-180 | every processor of the wave is visited exactly once, after the earlier visits, and what ran gains only what the steps of those visits processed; unless the wave was cut, every group those steps processed ran its nested graph completely; `done` only grows; a cut wave ran a group |
| Scheduler.Recheck | Spaghetti/processor.cpp:181-183 | every backlog entry that is ready joins `ready` and every other one `backlog`; only ready ones enter `ready` |
| Scheduler.Schedule | Spaghetti/processor.cpp:133-186 | the roots are visited first, once each; every later visit is of a client of an earlier visit, after all its linked producers; what ran is exactly what the traced visits processed, each processor at most once and only when dirty at the start; unless `groupCut`, every group processed at any depth ran its nested graph completely; all roots and every visited processor end clean; every client of a visited processor is visited or pending; `exhausted` exactly when work is pending or a group ran cut, so otherwise the visited set is closed under clients |
| Scheduler.Wire | Spaghetti/processor.cpp:189-190 | the input is bound, the producer lists it as a client, and the consumer's dirt propagates |
| Scheduler.Graph.constructor | Spaghetti/processor.h:224-227 | a new graph has no links, no roots and `linkCount == 0` |
| Scheduler.Graph.Execute | Spaghetti/processor.cpp:133-186 | `Schedule` from the processors without inputs, with the same guarantees, including that every group ran its nested graph completely unless `groupCut` |
| Scheduler.FirstVisitRuns | Spaghetti/processor.cpp:157-161 | a processor is processed only at its first visit; every later visit of it is skipped |
| Scheduler.TracedWithoutGroups | Spaghetti/processor.cpp:171-185 | when no visited processor is a group, what ran is exactly the processors dirty at the start, each at its first visit, in visit order |
| Scheduler.RerunProcessesNothing | Spaghetti/processor.cpp:133-186 | after an `Execute` that drained, a second one from the same roots with nothing dirtied in between visits only what the first visited and processes nothing |
| Scheduler.Graph.CreateLink | Spaghetti/processor.cpp:188-195 | returns `linkCount + 1`, stores the link under it, wires both processors, dirties the consumer and drops it from the processors without inputs |
| Scheduler.Graph.RemoveLink | Spaghetti/processor.cpp:197-212 | an unknown id changes nothing; otherwise links and registry stay as they are and the consumer is a root exactly when none of its inputs is linked |

## Left out

- `Spaghetti/app.cpp` and `Spaghetti/app.h` are not part of this model: windowing, GPU setup and the UI loop are I/O and foreign calls.
- The `Process` bodies of the shader, reader and script processors are empty stubs for GPU or script work. A builtin's `BuiltinProcessingCall` is not modelled either. Both are the opaque `Effect` parameter, which sees only the processor's own kind, inputs and outputs.
- Float and integer numerics in conversions are the `Cast` parameter. Curve coordinates are reals: `Make` and the zero curve write only 0 and 1, while an `Effect` may write any real.
- `TextureRef` and `BufferRef` lifetimes are not modelled: images and buffers hold opaque handles.
- The empty stubs `AddInput`, `AddOutput`, `RemoveInput`, `RemoveOutput`, `MoveInput`, `MoveOuput`, `SetInput` and `SetOutput` have no behaviour. `Graph::RemoveLink` therefore neither unlinks the input nor erases the link.
- `OnInputChanged`, `OnOutputChanged`, `display_name` and `template_name` are never used by the core and are left out.
- `Graph::processors` is never read or written and is left out.
- `Graph::no_input_processors` is a `std::set` (`Spaghetti/processor.h:226`), so the roots are visited in ascending id order (`Spaghetti/processor.cpp:171-173`). The model visits them in any order, which includes that one.
- The iteration order of the `unordered_set`s of `Execute` (`Spaghetti/processor.cpp:134-138`) is a nondeterministic choice. So is the order of `std::map` slots inside `SetNeedsUpdate`, which does not affect the final flags.
- The widths of `uint32_t` and `uint64_t` are not modelled: ids, indices and counts are unbounded naturals, so `count` and `linkCount` never wrap.
- The nested graph of a `GroupProcessor` is private in the source and nothing fills it. The model names its roots in the processor's kind, and a group's roots must be registered.
- Inputs are values inside their processor's record rather than objects, so the pointers `GetInputData` returns are the data themselves.
- Scheduler.Schedule: `fuel` bounds the number of waves and the nesting depth of groups. With fuel exhausted, the visited set is closed under clients only up to the pending processors.
- Scheduler.Schedule: the contract does not tell a run that stopped early from one that ran out of fuel. `waves` is only bounded by `fuel`, and no bound is proved on the fuel that an acyclic graph needs to drain, so `pending != {}` does not show that the graph could not drain.
- Scheduler.Schedule: `groupCut` implies that some group ran, and without it every group ran completely. When it is set, the contract does not say which nested run was cut or why; Scheduler.Process states that per group, and `Run`, `Visit` and `VisitAll` pass the flag on without restating it.
- Registries.Registry.CanProcess: requires every input's linked slot to exist, although the source stops at the first unusable input and never reads the later ones.
- Conversion.CopyValueData: a row with nothing to copy (`k == 0`) is filled with zeros. The source first takes the address of element 0 of a possibly empty vector.
- Inputs.GetInputData: a producer's output slot always holds data here, because outputs are a sequence of values. The source dereferences the slot unchecked (`Spaghetti/processor.cpp:218-219`), and it can be null: `Make` gives nothing for image and buffer signatures, and a builtin may write any output.
- Inputs.SetupLink: the same holds for its unchecked dereference (`Spaghetti/processor.cpp:255-256`). Both it and `GetInputData` require `Resolvable`: the linked slot index lies within the producer's outputs.
- Inputs.SetupLink: a conversion with undefined behaviour gives an undefined result (`None`), and the model says nothing more about that case.
