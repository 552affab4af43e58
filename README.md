# ruby-cells in Dafny

A model of the reactive-cell engine of ruby-cells (`cells.rb`). A cell is a
named attribute of an object. `cell` generates a getter and a setter per
name:

- the setter ignores a write of the value already stored;
- otherwise it stores the new value;
- it then builds a notification list: the external observers whose
  pattern matches the new value, followed by every internal observer of
  the cell;
- it then calls the blocks of that list in order. An error raised (or a
  `throw`) by a block stops the rest of the list and escapes the setter.

While a `calculate` is running, the getter records each read in the global
read protocol `$cells_read_protocoll`. `calculate` opens the protocol,
evaluates the formula, and assigns the result through the target's setter.
It then attaches one internal observer per recorded read. That observer
re-evaluates the formula and assigns the target again. Finally `calculate`
closes the protocol. `observe` appends a `(pattern, block)` registration to
the list of each named cell.

The model has six modules:

- `Values` stands for the cells and what they hold: cells (`Ref(obj, name)`),
  the values `Nil | Int | Sym`, and the patterns `Any` (Ruby's default
  `Object`) and integer ranges, which stand in for `===`.
- `Formulas` stands for the blocks passed to `calculate`. They are constants,
  cell reads, `+`/`*` and a `case ... when` over patterns, which covers the
  formulas of test.rb:14-24, 142 and 162. `Eval` gives a formula's outcome and the
  cells it read, in order.
- `Registry` stands for the per-object hashes `@cells_observers` and
  `@cells_internal_observers`. An object without a hash and a name without
  an entry both read as the empty list.
- `Propagation` gives the effect of the setter, `observe` and `calculate` as
  functions on the whole state (`World`): `SetSpec`, with `NotifySpec` and
  `CallSpec` for the blocks it calls, then `ObserveSpec` and
  `CalculateSpec`. It also holds the lemmas about those functions.
- `Cells` is the engine as the program runs it: the class `Engine`. Its
  fields are the store, the two registries, the read protocol and a log of
  external block calls. Its methods (`Get`, `Set`, `Observe`, `Calculate`
  and the loops inside them) change the fields step by step. Each method is
  proved to leave exactly the state, or return exactly the result, that the
  matching function of `Values`, `Formulas` or `Propagation` gives.
- `Scenario` replays the test suite: its fixture (`cell2 = cell1 * 10`, and
  `cell3` classifying `cell2`), the automatic update, and the throwing
  observers.

Callbacks are ids. Calling one appends
`Event(block, new_value, old_value, owner, name)` to the log, so the order
and the arguments of callback calls can be stated. The set `raising` fixes
which blocks raise or throw once called, as the tests' `throw` blocks do.

The code has no cycle detection, so nested setter calls are bounded by a
`fuel` argument, read as the remaining stack depth. When the fuel runs out,
`Failed(StackOverflow)` stands for Ruby's SystemStackError. An error stops
the remaining blocks of the list and propagates. Nothing is rolled back.

Points where the model follows the code rather than what a reader might
expect:

- A recomputation (cells.rb:114-116) never registers an edge. Outside
  `calculate` the protocol is nil unless an earlier `calculate` failed; a
  stale protocol then records the reads of later recomputations, but the
  next `calculate` starts from a fresh one (cells.rb:105,
  `Propagation.CalculateResetsProtocol`). So the dependency edges are those
  the successful `calculate` calls traced, and the re-discovery of sources that
  test.rb:198-213 expects for a branching formula does not happen.
- The protocol is still open while `calculate` calls the setter
  (cells.rb:106). Reads made by the cascaded recomputations are recorded
  and become sources too (`Scenario.CascadedReadIsRecorded`).
- Nothing resets the protocol when an error escapes `calculate`, whether
  the formula raised (`Propagation.CalculateRaises`) or the setter's
  cascade did (`Propagation.CalculateCascadeFails`). It stays open, and no
  computation is attached.
- Observers are held strongly: nothing is ever removed from a registry,
  although test.rb:124-149 expects them to be collected.

## Model

| member | source | states |
|---|---|---|
| Values.Matches | cells.rb:48 | `pattern === value`: the default pattern matches every value; a range matches only integers between its bounds |
| Values.ValueOf | cells.rb:37-41 | a cell never assigned reads as nil, and an assigned cell reads as the value stored for it |
| Values.ValueOfUpdate | cells.rb:42 | assigning one cell changes what that cell reads as and what no other cell reads as |
| Values.PatternExamples | cells.rb:47-50 | the default pattern matches every value; `0..10` matches 2 and 10 but not 20, nil or a symbol; `0...10` excludes 10 |
| Formulas.Apply | test.rb:15 | `left op right` succeeds exactly when both operands are integers, and then gives an integer; otherwise it raises an operand error |
| Formulas.SelectArm | test.rb:18-22 | the `case` expression; what it yields is stated by `SelectArmIsFirstMatch` and `SelectArmOtherwise` |
| Formulas.Eval | test.rb:14-24 | every cell an evaluation reads is mentioned by the formula; the only error a formula raises is an operand error |
| Formulas.SelectArmIsFirstMatch | test.rb:18-22 | a `case` yields the result of the first `when` whose pattern matches the subject |
| Formulas.SelectArmOtherwise | test.rb:18-22 | a `case` yields its `else` value when no `when` matches |
| Formulas.TraceIsSound | cells.rb:71-74 | two stores that agree on every cell an evaluation read give that formula the same outcome and the same reads |
| Formulas.ReadsIndependentOfStore | test.rb:14-24 | a formula that succeeds over two stores reads the same cells, in the same order, over both |
| Registry.Lookup | cells.rb:46-59 | the list registered for a cell; an object without a hash or a name without an entry gives the empty list, as the rescues do |
| Registry.WithHash | cells.rb:86 | creating the object's hash on first use changes no list |
| Registry.Append | cells.rb:89-90 | creating the cell's list on first use, then pushing, adds the item at the end of one cell's list and changes no other list |
| Registry.AppendAll | cells.rb:110-118 | pushing onto the lists of several cells keeps every hash that existed |
| Registry.AppendAllLookup | cells.rb:110-118 | pushing an item onto the list of every cell of a sequence adds it to each cell's list once per occurrence, duplicates included, and leaves every other list unchanged |
| Propagation.Record | cells.rb:71-73 | the getter appends to an active protocol and leaves a nil protocol nil |
| Propagation.RecordTwice | cells.rb:71-73 | two getter calls record what one call over both cells records, in order |
| Propagation.Collect | cells.rb:47-51 | the blocks collected from a cell's registrations are never more than the registrations |
| Propagation.FirstRaising | cells.rb:62-64 | the position of the first block that raises: no block before it raises, and it is the length of the list when none raises |
| Propagation.Notification | cells.rb:45-59 | the setter's list has one entry per collected external block and one per internal observer, and the external entries are exactly those at the front |
| Propagation.SetSpec | cells.rb:35-65 | a setter call and its cascade register nothing, never open or close the protocol, and only append to the protocol and to the callback log |
| Propagation.NotifySpec | cells.rb:62-64 | calling the blocks of a list has the same frame as a setter call |
| Propagation.CallSpec | cells.rb:114-116 | calling one block has the same frame as a setter call |
| Propagation.Cells | cells.rb:87 | the cells a single name or a collection of names denote: one per name, all on the observing object |
| Propagation.CellsNamed | cells.rb:88 | a collection of names denotes the cells with those names on the object, in order |
| Propagation.ObserveSpec | cells.rb:85-96 | `observe` always leaves the object with an observer hash, even for an empty collection |
| Propagation.CalculateSpec | cells.rb:101-122 | `calculate` never changes the external observers |
| Propagation.CollectIsFilter | cells.rb:47-50 | a block is collected exactly when one of its registrations on the cell has a pattern matching the new value (both directions) |
| Propagation.CollectConcat | cells.rb:47-51 | collecting over two lists of registrations is collecting over each, in order |
| Propagation.CollectDefaultPattern | cells.rb:85 | with the default pattern, every registered block is collected, in registration order |
| Propagation.NoChangeIsNoOp | cells.rb:37-39 | writing the value a cell already holds changes nothing and calls no observer |
| Propagation.RecomputeKeepsEdges | cells.rb:114-116 | with a nil protocol, a setter and its recomputations record no reads and attach or remove no observer |
| Propagation.NotifyExternal | cells.rb:62-64 | an external block at the head of the list logs one call with `(new_value, old_value, self, name)`; if it raises, its error ends the list, and otherwise the rest of the list is called |
| Propagation.EventsCons | cells.rb:62-63 | the calls of a list of blocks are the first block's call followed by the calls of the rest |
| Propagation.ExternalsFirst | cells.rb:54-64 | the external blocks at the front of the list are called in order, each with the same arguments; when none of them raises, the rest of the list follows; otherwise the first raising block is the last one called and its error stops the list |
| Propagation.ChangingWrite | cells.rb:41-64 | a changing write stores the new value, then calls the matching external observers in registration order with the new and the previous value, all before any internal observer; a raising observer leaves the new value stored, calls no later block and recomputes nothing; with no raising observer and no internal observer, that is the whole effect |
| Propagation.SetFrame | cells.rb:41-64 | a setter writes only its own cell and the cells its cascade reaches: a cell that no computation reachable from the written cell targets keeps its old value, or the new one if it is the written cell |
| Propagation.NotifyFrame | cells.rb:62-64 | calling a list of blocks leaves a cell alone unless an internal block of the list, or a computation its cascade reaches, targets it |
| Propagation.CallFrame | cells.rb:114-116 | one block leaves a cell alone unless the block itself, or a computation its cascade reaches, targets it |
| Propagation.CountCells | cells.rb:87-91 | the cells named by a collection are registered once per occurrence of the name |
| Propagation.ObserveAppends | cells.rb:85-96 | `observe` appends the same registration to the end of each named cell's list once per occurrence of the name; a single name gets exactly one; every other list is unchanged |
| Propagation.CalculateRegisters | cells.rb:105-121 | after a successful `calculate`, the protocol is nil; the formula's own reads come first among the recorded reads; each recorded read adds one internal observer, duplicates included, and no other list changes; the store and log are those the setter left |
| Propagation.CalculateStoresResult | cells.rb:105-106 | unless a computation reachable from the target writes the target back, `calculate` leaves the target holding the formula's value over the store as it was |
| Propagation.CalculateRaises | cells.rb:105-106 | a formula that raises leaves the store, the registries and the log unchanged, and leaves the protocol open with the reads made before the error |
| Propagation.CalculateCascadeFails | cells.rb:106-121 | a formula that succeeds but whose setter cascade fails ends `calculate` with the setter's state and error: no computation is attached, and the protocol stays open with the formula's reads followed by the cascade's |
| Propagation.CalculateResetsProtocol | cells.rb:105 | `calculate` gives the same result whatever protocol an earlier failure left open |
| Cells.Engine.constructor | cells.rb:23 | a new engine has an empty store, no observers, an empty log, a nil protocol and the given set of raising blocks |
| Cells.Engine.Get | cells.rb:68-75 | the getter returns the stored value (nil when unset) and appends exactly this cell to an active protocol |
| Cells.Engine.Evaluate | cells.rb:71-74 | running a formula block returns its outcome and records its reads, in order, through the getter |
| Cells.Engine.Set | cells.rb:35-65 | the setter leaves exactly the state and status `SetSpec` gives |
| Cells.Engine.NotificationList | cells.rb:45-59 | the list the setter builds is the matching external blocks, in order, followed by all internal ones; a missing hash or entry gives an empty part |
| Cells.Engine.NotifyAll | cells.rb:62-64 | the call loop leaves exactly the state `NotifySpec` gives, stopping at the first error |
| Cells.Engine.Call | cells.rb:63 | one call, which logs an external block and then returns or raises, leaves exactly the state `CallSpec` gives |
| Cells.Engine.Observe | cells.rb:85-96 | `observe` leaves exactly the registry `ObserveSpec` gives |
| Cells.Engine.ObserveEach | cells.rb:87-91 | the loop over a collection pushes the registration onto each named cell's list, in order |
| Cells.Engine.Calculate | cells.rb:101-122 | `calculate` leaves exactly the state and status `CalculateSpec` gives |
| Cells.Engine.Connect | cells.rb:110-118 | the registration loop pushes the computation onto the list of every recorded cell, in order |
| Scenario.Classify | test.rb:17-23 | the classification reads `cell2` once and yields the label its value selects |
| Scenario.ClassifyExamples | test.rb:19-22 | 50 classifies as `:medium`; 80 and 100 classify as `:high`; 200 is `:out_of_range` |
| Scenario.SetCell1 | test.rb:13 | on a fresh object, `cell1 = 5` stores 5 and calls nothing |
| Scenario.CalculateCell2 | test.rb:14-16 | `calculate(:cell2) { cell1 * 10 }` stores 50 and hangs its computation on `cell1` only |
| Scenario.CalculateCell3 | test.rb:17-24 | `calculate(:cell3)` stores `:medium` and hangs its computation on `cell2` only |
| Scenario.UpdateCell3 | test.rb:66-68 | the innermost setter `cell3 = :high` notifies nothing |
| Scenario.UpdateCell2 | test.rb:66-68 | recomputing `cell2` to 80 inside the cascade recomputes `cell3` to `:high` |
| Scenario.UpdateCell1 | test.rb:66-68 | `cell1 = 8` on the fixture gives `cell2 = 80` and `cell3 = :high` |
| Scenario.ChainedUpdate | test.rb:11-25 | the fixture built by the setup has `cell2 = 50` and `cell3 = :medium`, one edge each and a nil protocol; `cell1 = 8` then gives 80 and `:high` and calls no external observer |
| Scenario.Setup | test.rb:11-25 | the setup driven through the engine's methods leaves a new engine in the fixture's state |
| Scenario.CellsUpdated | test.rb:62-69 | driving the engine's methods through the setup, the repeated write `cell1 = 5` and then `cell1 = 8`, the getters read 50 and `:medium` before, and 80 and `:high` after |
| Scenario.WriteComputedCell | cells.rb:41-64 | writing 7 into the computed cell `cell2` keeps 7 there, because its cascade only recomputes `cell3` |
| Scenario.ObserverRegistered | test.rb:44 | after `observe(:cell1)`, that registration is the only one on `cell1` |
| Scenario.SimpleObserverCalled | test.rb:44-47 | `cell1 = 10` stores 10, calls the observer once with `(10, 5, dummy, :cell1)` and stops at its throw |
| Scenario.SimpleObserverThrows | test.rb:43-48 | the throw escapes `cell1 = 10` after 10 was stored and before `cell2` was recomputed |
| Scenario.RangeObserverRegistered | test.rb:52 | with the registration `observe(:cell1, 0..10)`, writing 2 collects the block and writing 20 does not |
| Scenario.ConditionalObserverFires | test.rb:53-55 | with the pattern `0..10`, `cell1 = 2` calls the observer with `(2, 5, dummy, :cell1)` and its throw escapes |
| Scenario.ConditionalObserverSkips | test.rb:56-58 | with the pattern `0..10`, the notification list of `cell1 = 20` holds no external block |
| Scenario.RangeObserverOnlyOnCell1 | test.rb:52 | `observe(:cell1, 0..10)` registers nothing on `cell2` or `cell3` |
| Scenario.QuietCell3 | test.rb:56-58 | in the cascade of `cell1 = 20`, the setter `cell3 = :out_of_range` has nothing to notify |
| Scenario.QuietRecomputeCell3 | test.rb:56-58 | in that cascade, the recomputation of `cell3` classifies 200 as `:out_of_range` |
| Scenario.QuietCell2 | test.rb:56-58 | in that cascade, writing 200 into `cell2` recomputes `cell3` and completes |
| Scenario.QuietRecomputeCell2 | test.rb:56-58 | in that cascade, the recomputation of `cell2` gives 200 |
| Scenario.QuietCell1 | test.rb:56-58 | after the throw, `cell1 = 20` completes without an error and without calling the observer |
| Scenario.ConditionalObserver | test.rb:51-59 | `cell1 = 2` calls the observer and throws, with 2 stored; the following `cell1 = 20` has only the recomputation of `cell2` to notify, completes without an error and logs no further call |
| Scenario.CascadeToCell3 | cells.rb:106 | inside the cascade, the setter of `cell3` has nothing to notify |
| Scenario.RecomputeCell3 | cells.rb:114-116 | with the protocol open, recomputing `cell3` records its read of `cell2` |
| Scenario.CascadeFromCell2 | cells.rb:106 | with the protocol open, writing 100 into `cell2` recomputes `cell3` to `:high`, and that read of `cell2` is recorded |
| Scenario.CascadedReadIsRecorded | cells.rb:105-118 | a second `calculate(:cell2) { cell1 * 20 }` on the fixture hangs its computation on `cell1` and also on its own target `cell2`, whose read came from the cascade; the earlier edges stay |
| Scenario.RegisterTwice | cells.rb:110-118 | registering over the reads `cell1, cell2` appends one computation to each list, after the earlier ones |

## Left out

- Ruby metaprogramming (`define_method`, `instance_variable_get`/`_set`, `instance_eval`, reopening `Module` and `Object`) is modelled as explicit maps keyed by object id and cell name. `cell` itself, which only declares names, has no counterpart: every name of every object is a cell.
- General `===` and `==` on arbitrary Ruby objects are restricted to the value and pattern datatypes. An exception escaping `pattern ===` partway through the collection loop, which the rescue at cells.rb:52-53 would swallow, cannot happen in the model.
- External blocks have a fixed behaviour: each one logs its call and then either returns or raises, as the set `raising` says. They cannot write cells or register observers, because their bodies are arbitrary Ruby code. The kind of error raised, or the tag thrown, is not distinguished.
- Formulas are a small expression language, not arbitrary blocks. They cannot have side effects or call other methods.
- Formulas have no `if`, no `==` test on symbols, and the results of `when` arms are constants, so the cells a successful formula reads never depend on the values it reads (`Formulas.ReadsIndependentOfStore`). The branching formula of test.rb:201-207 cannot be expressed.
- Propagation depth is bounded by `fuel`. A chain deeper than the fuel fails with `StackOverflow`, where Ruby's real limit depends on its stack size; an unbounded cycle is modelled only through that failure.
- `unobserve`, `cell_slicing` and `observe` returning its block are exercised by test.rb:71-122 and test.rb:174-195, but they are not part of `cells.rb` and are not modelled.
- The garbage-collection and weak-reference lifetime of test.rb:124-149 depends on the runtime's collector. The code holds observers strongly, and so does the model.
- The branching re-discovery of test.rb:198-213 is not modelled: the code never re-traces on recomputation (`Propagation.RecomputeKeepsEdges`).
- The custom `hash`/`eql?` overrides of test.rb:152-171 concern Ruby object identity. Objects are plain ids here.
- The Qt demo (model-view.rb) and the console demos (motor-control.rb, cell_slicing.rb) only use the API and do I/O; they are not part of this model.
- Concurrency is not modelled: the global protocol is one field, as in a single-threaded run.
