# A verified model of the calculated-variables engine, the laser unit, the thread pool and the content order

The repository is a quasar-based OPC UA server for the calibration systems of a detector. This project models
its four most intricate parts in Dafny and proves what each of them is for.

* **Calculated variables.** A parser variable (PV) holds the number and the state of one address-space variable
  and a list of calculated variables (CVs) to notify. A CV recomputes from its PVs and publishes; the change
  listener of its own PV passes that on, recursively. `CalcEngine`, `Registration` and `Optimization` hold the
  objects with their methods. Each method is proved against a pure description of the object graph and of the
  values in it (`CalcGraph`): PVs and CVs are numbered in the order of their creation, and ghost fields of the
  engine say which graph the references of the objects amount to. `PushTheorems`, `UpdatePaths` and `GraphGrowth`
  prove what that graph and its nested push guarantee, and `PublishedValues` says in the fields of the objects what
  the published values mean. `SyncDomains` is the search that hands out recursive
  mutexes, `SyncProtocol` the threads that take them; `ConcurrentWrites` adds the values those threads write, and
  `Publications` the moments at which what is published was evaluated. `StartUp` goes from an empty engine to such
  threads, for the smallest configuration in which the optimisation matters.
  `DollarExpressions` is the macro expander working on text, `DollarOperators` what each of its operators does and
  refuses, `FormulaRewriting` what its rewriting means and when it ends, `FormulaElaboration` the addresses it refers
  to, and `Escaping` the rewriting of names.
* **Laser unit.** `LaserStates` is the state machine of commands, cached part bits and detached timers,
  `LaserUnit` the class whose methods are proved to take its steps, and `LaserTables` writes out what each command and
  each timer round leaves of every part. `LaserSafety`, `LaserDeadMan`, `LaserTimes`, `LaserWarmup` and
  `LaserOperation` hold the theorems over whole runs, `ShotCount` the polling loop, `ClockUnits`
  the conversions.
* **Thread pool.** `ThreadPool`: workers, adding threads and the destructor as interleaved steps.
* **Content order.** `ContentOrder`: the validator of the configuration and the two editing helpers.

## How the source is represented

* Formula evaluation (muParser) is an arbitrary function from the values of the inputs to a number; `double` is
  `real`. The conversion to double turns a Boolean into 0 or 1 and refuses everything else that is not a number.
  `BaseDataVariableType::setValue` succeeds.
* A formula is given to `Registration` as the names its parser asks for, constants already taken out.
* Serial calls succeed or fail as an argument of each command says (`Link`). Register writes succeed once the
  registers are mapped; before that the look-up of a register throws, and the command ends there.
* A command of the laser unit and one round of a timer loop are atomic. The safety theorems let timers run at any
  moment, early or late. The dead-man bound lets them run when they are due.
* In `ThreadPool` and `SyncProtocol` the steps are those between two points where another thread may get in:
  taking the lock, releasing it, waiting, notifying, and the test of the quit flag made without the lock.
  `ConcurrentWrites` and `Publications` also separate the evaluation of the formulas from the publication; an
  evaluation reads all its inputs at one moment.

## Where code and comments disagree

The model follows the code.

* `CalculatedVariables/src/CalculatedVariable.cpp:66-69` speaks of an uncertain status when inputs of the status
  formula are wrong. The code (95-101) evaluates the status formula on whatever its inputs hold and publishes Good
  or Bad. The verdict does not reach the variables computed from this one (`DataValues.StateSeenDownstream`).
* `Device/src/DIoLLaserUnit.cpp:1495-1498` says that warmup has the external shutter open and ends in pause. The
  code closes that shutter (1543-1549) and goes to standby (1291). The comment on standby (1756-1757) says that it
  opens the external shutter; the code closes it (1798).
* `Device/src/DIoLLaserUnit.cpp:225-229` calls a new warmup time inconsequential outside ready. The timer compares
  with it at every round (1259), so it can end a warmup (`LaserWarmup.RewrittenTimeEndsWarmup`).
* `Device/src/DIoLLaserUnit.cpp:1283` says that only stop and terminate interfere with warmup. Moving a shutter by
  hand does too (`LaserWarmup.LeavingWarmup`, `LaserWarmup.WarmupCanBeSkipped`).

## What turned out not to hold, and when it does

* `update()` of a CV is not mutually exclusive in general. It is exactly when the inputs that writes can reach share
  one mutex (`SyncProtocol.ExclusiveExactlyWhenOneDomain`), which a CV that still has its own PV guarantees and a
  leaf whose PV was optimised away does not (`StartUp.StartSum`).
* A CV may be left with an outdated value when all pushes have returned. That, too, is excluded exactly when its
  reachable inputs share one mutex (`Publications.UpToDateExactlyWhenOneDomain`).
* A warmup, a pause or a standby may be cut short by the timer of an earlier one. It lasts for its full time exactly
  when no such timer is alive and ahead as it begins, whatever other timers are alive, and the time fits the arithmetic
  of its timer (`LaserTimes.FullTimeExactlyWhenNoneAhead`, for warmup `LaserWarmup.FullWarmupExactlyWhenNoneAhead`).
* A pause of more than 7158278 minutes may end early. Its timer counts tenths of a second in 32 bits, and the second in
  which that count wraps has six of them (`LaserWarmup.LongPauseIsShort`).
* The shot loop may overlook the 32-bit wrap. It ends in time exactly when `num_pulses + d` fits 2^32
  (`ShotCount.InTimeExactlyWhenItFits`).
* The destructor of the thread pool may hang. After its `notify_all` the pool always comes to rest, if addJob is not
  called again, and the workers can be joined then exactly when no more of them were between the test of `m_quit` and
  the queue than there were jobs in it and calls of addJob under way that find room (`ThreadPool.PoolComesToRest`,
  `ThreadPool.DestructorJoinsExactlyWhen`).
* Lasing does not mean that light leaves the unit. `resume` never switches the q-switch on, so the beam is on exactly
  when it was on before (`LaserOperation.ResumedBeamsExactlyWithQSwitch`); straight from standby it is not
  (`LaserOperation.StandbyResumesDark`).
* The escaping of names can be undone exactly when no other character of the name begins what reads like an escape
  code (`Escaping.UndoneExactlyWhenClean`); names without a double underscore are of that kind. Every other name is
  registered under the same name as one of that kind (`Escaping.CollidesExactlyWhenNotClean`).
* The rewriting of a formula need not end. It ends exactly when the loop never comes to apply a generic formula within
  itself (`FormulaRewriting.EndsExactlyWhenNotCircular`, and on the text
  `DollarExpressions.TextEndsExactlyWhenNotCircular`).
  Circles that the formula does not lead to, or that stand behind an error, do no harm.

## Model

| member | source | states |
|---|---|---|
| `DataValues.ComputeReadsInputsOnly` | CalculatedVariables/src/CalculatedVariable.cpp:70-114 | what a CV publishes depends on the cells of its value and status inputs only |
| `DataValues.StateSeenDownstream` | CalculatedVariables/src/CalculatedVariablesChangeListener.cpp:38-73 | the state a CV shows to its dependants is Good exactly when all value inputs are Good, else that of the first that is not; the status formula never shows |
| `DataValues.PublishedWhenGood` | CalculatedVariables/src/CalculatedVariable.cpp:93-112 | all value inputs Good: the status is Good exactly when there is no status formula or it yields something other than 0, else Bad; the value is the result of the value formula, for a Boolean CV whether it differs from 0 |
| `DataValues.PublishedWhenNotGood` | CalculatedVariables/src/CalculatedVariable.cpp:74-92 | otherwise an empty value, with BadWaitingForInitialData exactly when the first input that is not Good is waiting, and Bad exactly when it is bad |
| `DataValues.WhatArrives` | CalculatedVariables/src/CalculatedVariablesChangeListener.cpp:38-73 | the cell the listener stores is the only one in which a double stays what it is, a Boolean is 1 or 0, both Good, in which BadWaitingForInitialData makes a waiting state and everything else a bad one with number 0 |
| `PushTheorems.PushSettles` | CalculatedVariables/src/ParserVariable.cpp:65-74 | a push leaves every CV it reaches, and every one that was settled, publishing what its formulas yield, with its PV mirroring that; diamonds and any notify order included |
| `PushTheorems.ReachedIsLater` | CalculatedVariables/src/CalculatedVariablesEngine.cpp:75-104 | a push only ever reaches CVs and PVs registered after the one it starts from, so the graph has no cycle |
| `PushTheorems.PushStays` | CalculatedVariables/src/ParserVariable.cpp:57-74 | nothing a push sets off changes the PV it starts from |
| `PushTheorems.PublishStays` | CalculatedVariables/src/CalculatedVariablesEngine.cpp:301-309 | nor what a CV was made to publish, and its PV holds what arrives with that |
| `PushTheorems.SettledIsUnique` | CalculatedVariables/src/CalculatedVariable.cpp:70-114 | two stores that agree on the sources and the exempt CVs and are settled are equal |
| `PushTheorems.RecomputeSettles` | CalculatedVariables/src/CalculatedVariable.cpp:70-114 | recomputing every CV once in registration order settles all of them and leaves the sources alone |
| `PushTheorems.PushIsRecompute` | CalculatedVariables/src/ParserVariable.cpp:65-74 | after a write the recursive depth-first push has left the whole store as a from-scratch recomputation in registration order would; CVs with a configured value are exempt until reached |
| `PushTheorems.WriteIsRecompute` | AddressSpace/src/ChangeNotifyingVariable.cpp:52-64 | the same for a source with any number of listeners |
| `UpdatePaths.UpdatesOncePerPath` | CalculatedVariables/src/ParserVariable.cpp:65-74 | a push calls update() of a CV exactly once per directed path from the source, repeated notify entries counted |
| `UpdatePaths.PathsAreFinite` | CalculatedVariables/src/ParserVariable.cpp:76-87 | the directed paths from a PV to a CV are finitely many, so that number exists and every push ends |
| `GraphGrowth.AddRequestKeepsWf` | CalculatedVariables/src/CalculatedVariablesEngine.cpp:75-104 | linking a formula to a listed PV keeps the graph well formed: inputs older than the CV's own PV, notify and input lists saying the same |
| `GraphGrowth.RequestsAreNotified` | CalculatedVariables/src/CalculatedVariablesEngine.cpp:94-103 | a PV notifies a CV once per request for it, after everything it notified before, although the input lists hold it once |
| `GraphGrowth.InputsInOrder` | CalculatedVariables/src/CalculatedVariable.cpp:158-170 | the inputs of a formula are listed once each, in the order in which it first mentions them |
| `GraphGrowth.DropPreservesRuns` | CalculatedVariables/src/CalculatedVariablesEngine.cpp:338-352 | removing a PV that notifies nothing changes no published value in any later run of writes |
| `GraphGrowth.OptimisationPreservesRuns` | CalculatedVariables/src/CalculatedVariablesEngine.cpp:334-360 | neither does removing any number of them |
| `CalcEngine.SourceVariable.SetValue` | AddressSpace/src/ChangeNotifyingVariable.cpp:52-64 | a write stores the value and pushes the cell it maps to through every listener in order |
| `CalcEngine.ParserVariable.SetValue` | CalculatedVariables/src/ParserVariable.cpp:57-74 | the objects' values end as the pure push says, and the update() calls made are those the graph predicts, in order |
| `CalcEngine.ParserVariable.NotifyAll` | CalculatedVariables/src/ParserVariable.cpp:69-73 | the notify loop |
| `CalcEngine.ParserVariable.Changed` | CalculatedVariables/src/CalculatedVariablesChangeListener.cpp:38-73 | the five branches of the listener: the PV ends up with the number and the state that arrive with the data value (`Arrived`), after everything the push set off |
| `CalcEngine.CalculatedVariable.Collect` | CalculatedVariables/src/CalculatedVariable.cpp:74-92 | the loop over the inputs stops at the first that is not Good, or reads all values in order |
| `CalcEngine.CalculatedVariable.Result` | CalculatedVariables/src/CalculatedVariable.cpp:70-114 | update() publishes what `PublishedWhenGood` and `PublishedWhenNotGood` say, from two loops over the inputs |
| `CalcEngine.CalculatedVariable.Update` | CalculatedVariables/src/CalculatedVariable.cpp:70-114 | update() publishes and pushes on as the pure update says |
| `PublishedValues.ConsistentIsUpToDate` | CalculatedVariables/src/CalculatedVariable.cpp:70-114 | in the fields of the objects: every CV without a pending configured value publishes the result of its formulas on what its inputs hold, or what the first input that is not Good says, and its PV holds what arrives with that |
| `PublishedValues.NextPublication` | CalculatedVariables/src/CalculatedVariable.cpp:70-114 | a CV without status formula whose only input received a double d publishes its formula applied to [d]; for a Boolean, applied to [1] or [0]; nothing else gives a value |
| `PublishedValues.BooleanIsOneOrZero` | CalculatedVariables/src/CalculatedVariable.cpp:106-112 | a CV that reads just a Boolean CV computes with 1 or 0 as the formula of that one says, whatever its status formula says |
| `Registration.RegisterSource` | CalculatedVariables/src/CalculatedVariablesEngine.cpp:58-68 | a source gets a PV that listens to it, named after its escaped node identifier, without mutex, waiting for its first value; every CV stays settled |
| `Registration.FormulaNamesItsNode` | CalculatedVariables/src/CalculatedVariablesEngine.cpp:58-68 | among PVs of different clean identifiers, the spelling of one in a formula names the PV of that node and no other |
| `Registration.AddDependent` | CalculatedVariables/src/CalculatedVariable.cpp:158-170 | an input is added once |
| `Registration.Find` | CalculatedVariables/src/CalculatedVariablesEngine.cpp:84-87 | the first PV of the list with the name |
| `Registration.RequestNamed` | CalculatedVariables/src/CalculatedVariablesEngine.cpp:75-104 | fails exactly when no PV has the name; otherwise the first such PV becomes an input and notifies the CV |
| `Registration.InstantiatedReads` | CalculatedVariables/src/CalculatedVariable.cpp:117-156 | a new CV reads exactly what its formulas name, in the order of first mention, keeps the graph well formed and changes no other CV |
| `Registration.ConstantExactlyWhenNothingNamed` | CalculatedVariables/src/CalculatedVariablesEngine.cpp:298-298 | a CV counts as constant exactly when neither formula names anything |
| `Registration.InstantiationKeepsSettled` | CalculatedVariables/src/CalculatedVariablesEngine.cpp:284-299 | constructing and registering a CV leaves the older ones settled |
| `Registration.FirstValue` | CalculatedVariables/src/CalculatedVariablesEngine.cpp:301-311 | the configured value is published with status Good and its PV holds it, or update() runs; then everything but a configured value is settled |
| `Registration.Instantiate` | CalculatedVariables/src/CalculatedVariablesEngine.cpp:260-315 | succeeds exactly when all names resolve; the graph grows by that CV, a PV under its escaped identifier joins the list, constant exactly when nothing is named, a configured value is shown, and everything stays consistent |
| `Optimization.Write` | AddressSpace/src/ChangeNotifyingVariable.cpp:52-64 | on the objects: a write ends in the recomputation of everything; every listener holds what arrives with the value (a double as it is, a Boolean as 1 or 0), every CV without a pending configured value publishes what its inputs say, and one that reads just a listener its formula applied to that number |
| `Optimization.Forget` | CalculatedVariables/src/CalculatedVariablesEngine.cpp:340-352 | one unused PV leaves the list, its listener and the pointer of its CV go with it |
| `Optimization.Optimize` | CalculatedVariables/src/CalculatedVariablesEngine.cpp:334-360 | every remaining PV notifies something or shares its source with another one; the graph and every listener list lose exactly the removed PVs |
| `Optimization.OptimizeThenWriteAll` | CalculatedVariables/src/CalculatedVariablesEngine.cpp:334-360 | on the objects: whatever sources are written after the optimisation, every CV publishes what it would have published without it |
| `Optimization.NoDanglingReference` | CalculatedVariables/src/CalculatedVariablesEngine.cpp:334-360 | every input of every CV and every non-null notified variable is in the list |
| `SyncDomains.Search` | CalculatedVariables/src/CalculatedVariablesEngine.cpp:362-388 | the search ends; it labels only variables connected to its start, and leaves no neighbour of a labelled one out |
| `SyncDomains.SearchMakesAPart` | CalculatedVariables/src/CalculatedVariablesEngine.cpp:362-388 | a search from an unlabelled PV labels exactly its connected part |
| `SyncDomains.Setup` | CalculatedVariables/src/CalculatedVariablesEngine.cpp:390-418 | one mutex per connected part that holds a PV notifying something, and the counter grows by their number; constants get none, and the inputs of a CV and its PV get the same |
| `SyncDomains.DomainsAreConnectedParts` | CalculatedVariables/src/CalculatedVariablesEngine.cpp:390-418 | two PVs share a mutex exactly when they are connected through PVs that are not constant; a PV has one exactly when its part notifies something |
| `SyncProtocol.OneMutex` | CalculatedVariables/src/ParserVariable.cpp:76-80 | all nested pushes of a thread need the same mutex |
| `SyncProtocol.HolderCanMove` | CalculatedVariables/src/ParserVariable.cpp:57-80 | in every reachable state the holder of the mutex a thread waits for is not blocked itself |
| `SyncProtocol.NoDeadlock` | CalculatedVariables/src/ParserVariable.cpp:57-80 | while a push is under way some push can go on |
| `SyncProtocol.EveryStepCounts` | CalculatedVariables/src/ParserVariable.cpp:65-74 | every step of a push lowers a bound on the steps it has left |
| `SyncProtocol.OwnParserVariableJoins` | CalculatedVariables/src/CalculatedVariablesEngine.cpp:362-388 | the reachable inputs of a CV that had its PV at setup share a mutex |
| `SyncProtocol.ExclusiveExactlyWhenOneDomain` | CalculatedVariables/src/ParserVariable.cpp:76-80 | no two threads are ever inside update() of a CV, exactly when its reachable inputs share a mutex |
| `Publications.UpToDateExactlyWhenOneDomain` | CalculatedVariables/src/CalculatedVariable.cpp:70-114 | with update() evaluating at one moment and publishing at a later one: at rest, after anything the threads did, a CV publishes what was evaluated after its inputs were set last, exactly when its reachable inputs share a mutex |
| `Publications.StaleForever` | CalculatedVariables/src/ParserVariable.cpp:69-80 | the run that leaves an outdated value: one push evaluates, another makes a whole write, the first publishes |
| `StartUp.StartSum` | CalculatedVariables/src/CalculatedVariablesEngine.cpp:334-418 | registration, instantiation, optimisation and domain setup on the objects, for a CV that adds two sources: its own PV is removed, and its update() is neither exclusive nor up to date at rest |
| `StartUp.LoneSumIsNotExclusive` | CalculatedVariables/src/CalculatedVariablesEngine.cpp:340-349 | the same of every graph of that shape |
| `ConcurrentWrites.OwnParserVariablesJoin` | CalculatedVariables/src/CalculatedVariablesEngine.cpp:362-388 | where every CV has its own PV, the "same" of the next rows is equality |
| `ConcurrentWrites.Commute` | CalculatedVariables/src/ParserVariable.cpp:65-80 | the writes of two threads in different domains leave the same store in either order: all PVs, and all CVs whose inputs share a mutex |
| `ConcurrentWrites.StepKeepsFinish` | CalculatedVariables/src/ParserVariable.cpp:65-74 | whatever point a nested push has reached, its next step changes nothing of what it will have left when it returns |
| `ConcurrentWrites.OutermostStep` | CalculatedVariables/src/ParserVariable.cpp:76-80 | taking the outermost mutex adds exactly that write to what there will be in the end |
| `ConcurrentWrites.WritesAreSerializable` | CalculatedVariables/src/ParserVariable.cpp:57-80 | in every run of any number of threads: once the pushes under way have finished, the store is the same as what those writes leave one after the other, in the order in which they took their mutexes |
| `ConcurrentWrites.IdleStoreIsReplay` | CalculatedVariables/src/ParserVariable.cpp:57-80 | with all threads idle the store is the same as that replay |
| `ConcurrentWrites.IdleMeansSettled` | CalculatedVariables/src/ParserVariable.cpp:57-80 | with all threads idle, every CV whose inputs share a mutex publishes what its formulas yield |
| `ConcurrentWrites.FreeMutexMeansSettled` | CalculatedVariables/src/ParserVariable.cpp:57-80 | at any moment, a CV whose inputs share a mutex that nobody holds publishes what its formulas yield and its PV mirrors it |
| `Escaping.Find` | CalculatedVariables/src/CalculatedVariablesEngine.cpp:139-139 | the first occurrence |
| `Escaping.ReplaceAll` | CalculatedVariables/src/CalculatedVariablesEngine.cpp:133-147 | rescanning from the start ends and equals one pass from left to right, for texts without a common character |
| `Escaping.EscapedHasNoOperator` | CalculatedVariables/src/CalculatedVariablesEngine.cpp:155-159 | an escaped name has neither dash nor slash |
| `Escaping.EscapesSpelledOut` | CalculatedVariables/src/CalculatedVariablesEngine.cpp:46-47 | names are escaped character by character, a dash as `__dash__`, a slash as `__slash__`, all else as it is |
| `Escaping.UndoneExactlyWhenClean` | CalculatedVariables/src/CalculatedVariablesEngine.cpp:155-159 | unescaping gives the name back exactly for names without a misleading character |
| `Escaping.CollidesExactlyWhenNotClean` | CalculatedVariables/src/CalculatedVariablesEngine.cpp:155-159 | a name shares its registered name with another, clean one exactly when it has such a misleading character |
| `Escaping.EscapeMayCollide` | CalculatedVariables/src/CalculatedVariablesEngine.cpp:155-159 | for example, a dash and the name `__dash__` |
| `Escaping.NoDoubleUnderscoreIsClean` | CalculatedVariables/src/CalculatedVariablesEngine.cpp:46-47 | names without a double underscore are such |
| `Escaping.EscapeIsInjective` | CalculatedVariables/src/CalculatedVariablesEngine.cpp:63-66 | two such variables never get the same name |
| `Escaping.FormulaFindsVariable` | CalculatedVariables/src/CalculatedVariablesEngine.cpp:149-159 | a name written with backslashes in a formula becomes the name its variable is registered under |
| `FormulaElaboration.ElaborateParent` | CalculatedVariables/src/CalculatedVariablesEngine.cpp:106-131 | the loop over dots equals going up one level at a time |
| `FormulaElaboration.LevelsAreDots` | CalculatedVariables/src/CalculatedVariablesEngine.cpp:114-127 | k levels succeed exactly when the address has k dots, and take k dots away from its end |
| `FormulaElaboration.CutIsAtADot` | CalculatedVariables/src/CalculatedVariablesEngine.cpp:116-128 | the cut is at a dot |
| `FormulaElaboration.UpAndUp` | CalculatedVariables/src/CalculatedVariablesEngine.cpp:106-131 | up a and then b levels is up a + b |
| `FormulaElaboration.UpUndoesChild` | AddressSpace/src/ASNodeManager.cpp:122-143 | one level up undoes makeChildNodeId exactly for names without a dot |
| `FormulaElaboration.TopLevelIds` | AddressSpace/src/ASNodeManager.cpp:122-143 | of the nodes with a numeric identifier only the objects folder, ns 0 number 85, may be a parent, and its children have no level above them exactly when their names have no dot |
| `FormulaElaboration.ChildIdsAreDistinct` | AddressSpace/src/ASNodeManager.cpp:137-139 | different parents or dot-free names give different identifiers |
| `DollarExpressions.Search` | CalculatedVariables/src/CalculatedVariablesEngine.cpp:178-189 | the leftmost match of $name or $name(argument) |
| `DollarExpressions.MatchesOperator` | CalculatedVariables/src/CalculatedVariablesEngine.cpp:173-178 | a dollar expression written out is matched as a whole, name and argument, whatever surrounds it without continuing it |
| `DollarExpressions.MatchSpelledOut` | CalculatedVariables/src/CalculatedVariablesEngine.cpp:173-178 | the longest name counts, parentheses around a non-empty argument belong to the operator, and any others do not |
| `DollarExpressions.MatchNeedsName` | CalculatedVariables/src/CalculatedVariablesEngine.cpp:173-178 | there is a match exactly where a dollar sign and a name stand |
| `DollarOperators.ExpressionCharacters` | CalculatedVariables/src/CalculatedVariablesEngine.cpp:178-178 | names are made of letters, digits and underscores, arguments of anything but blanks and parentheses |
| `DollarExpressions.Replace` | CalculatedVariables/src/CalculatedVariablesEngine.cpp:192-237 | the replacement of each operator, and the error of each misuse, as `OperatorErrors` and the lemmas on names spell them out |
| `DollarExpressions.StaysLegible` | CalculatedVariables/src/CalculatedVariablesEngine.cpp:210-213 | replaced text forms no new dollar expression with what surrounds it |
| `DollarExpressions.ClosedIsLegible` | CalculatedVariables/src/CalculatedVariablesEngine.cpp:173-189 | a condition on each text by itself under which all dollar expressions can be told apart |
| `DollarExpressions.TextEndsExactlyWhenNotCircular` | CalculatedVariables/src/CalculatedVariablesEngine.cpp:183-240 | the loop on the text ends exactly when no generic formula comes to be applied within itself |
| `DollarExpressions.ElaborateFormula` | CalculatedVariables/src/CalculatedVariablesEngine.cpp:161-243 | the loop that rewrites the leftmost dollar expression of the text ends and equals the recursive full expansion, errors included |
| `DollarOperators.SpelledIsRead` | CalculatedVariables/src/CalculatedVariablesEngine.cpp:223-228 | `numLevelsUp=` and the decimal spelling of n, leading zeros or not, is read as n up to 2147483647 and is out of range above |
| `DollarOperators.OnlySpelledIsRead` | CalculatedVariables/src/CalculatedVariablesEngine.cpp:223-228 | every other argument is refused |
| `DollarOperators.OperatorErrors` | CalculatedVariables/src/CalculatedVariablesEngine.cpp:192-237 | each of the seven errors of a dollar expression, and exactly when it is raised |
| `DollarOperators.ThisAddressNamesSibling` | CalculatedVariables/src/CalculatedVariablesEngine.cpp:195-202 | `$_`, a dot and a name expand to the name under which that child of the object is registered, dashes and slashes included |
| `DollarOperators.ParentAddressNamesCousin` | CalculatedVariables/src/CalculatedVariablesEngine.cpp:219-235 | and with `$parentObjectAddress(numLevelsUp=n)`, n in decimal, that child of the object n levels up |
| `DollarOperators.ElaborateSibling` | CalculatedVariables/src/CalculatedVariablesEngine.cpp:161-243 | the same of the loop on the text `$_.name` |
| `DollarOperators.ElaborateCousin` | CalculatedVariables/src/CalculatedVariablesEngine.cpp:161-243 | the same of the loop on the text `$parentObjectAddress(numLevelsUp=n).name`, which fails for lack of levels exactly when there are not n of them |
| `FormulaRewriting.OneRoundOfRewriting` | CalculatedVariables/src/CalculatedVariablesEngine.cpp:183-240 | one replacement keeps the expansion and leaves one replacement less to make |
| `FormulaRewriting.LastsExactly` | CalculatedVariables/src/CalculatedVariablesEngine.cpp:183-240 | where the expansion is in reach the loop makes exactly the number of rounds that its structure gives |
| `FormulaRewriting.InReachExactlyWhenNotCircular` | CalculatedVariables/src/CalculatedVariablesEngine.cpp:204-218 | nesting as deep as there are generic formulas is enough, exactly when none comes to be applied within itself |
| `FormulaRewriting.EndsExactlyWhenNotCircular` | CalculatedVariables/src/CalculatedVariablesEngine.cpp:183-240 | the loop ends exactly then; otherwise it goes on for any number of rounds |
| `FormulaRewriting.SoundEndsExactlyWithoutCircle` | CalculatedVariables/src/CalculatedVariablesEngine.cpp:204-218 | where no operator errs, exactly when the formula leads to no generic formula that leads to itself |
| `FormulaRewriting.ExpandedIsText` | CalculatedVariables/src/CalculatedVariablesEngine.cpp:183-240 | no dollar operator is left |
| `FormulaRewriting.SelfReferenceNeverEnds` | CalculatedVariables/src/CalculatedVariablesEngine.cpp:204-218 | a generic formula that applies itself is the smallest such circle |
| `LaserSafety.CommandKeepsInv` | Device/src/DIoLLaserUnit.cpp:902-1170 | every command keeps what the status says about the parts, whatever serial call fails |
| `LaserSafety.RunTimerKeepsInv` | Device/src/DIoLLaserUnit.cpp:1176-1297 | so does every round of every timer loop |
| `LaserSafety.StopMakesReady` | Device/src/DIoLLaserUnit.cpp:1394-1489 | stop ends in ready with fire off even if the shutter does not obey |
| `LaserSafety.NoBeamUnlessLasing` | Device/src/DIoLLaserUnit.cpp:3107-3137 | in every run, with arbitrary failures and timers at any moment, the beam is on in status lasing only |
| `LaserTables.CommandTable` | Device/src/DIoLLaserUnit.cpp:902-1868 | what each command leaves of every part, written out: status, shutters, q-switch, fire, instance, timeouts and timers, by what was there and what the serial link does; among them stop (ready, fire and q-switch off, external shutter open, laser shutter closed if there is a laser and it obeys) |
| `LaserTables.CommandTableAfterRun` | Device/src/DIoLLaserUnit.cpp:902-1868 | after any run whatsoever |
| `LaserTables.TimerTable` | Device/src/DIoLLaserUnit.cpp:1176-1297 | the same of one round of a timer: 120 ticks a minute in standby, 60 seconds a minute in pause and warmup, in 32 bits; sleeps of half a second, a tenth and a second; the conditions to give up, and what the end of the time does |
| `LaserDeadMan.DeadManStep` | Device/src/DIoLLaserUnit.cpp:1176-1297 | a step without command stops the unit or keeps the end as near as it was, and a tenth of a second nearer when time passes |
| `LaserDeadMan.DeadMan` | Device/src/DIoLLaserUnit.cpp:1176-1297 | a run without command that is longer than the bound has reached ready with fire off |
| `LaserDeadMan.WakingWearsOff` | Device/src/DIoLLaserUnit.cpp:1176-1297 | only finitely many timer rounds fit between two moments |
| `LaserDeadMan.FiringUnattendedStops` | Device/src/DIoLLaserUnit.cpp:1754-1812 | after any run, a unit that fires without lasing stops within its warmup or pause time and the standby time as 32-bit arithmetic leaves them, stale timers and serial failures included |
| `LaserDeadMan.FiringUnattendedStopsInTime` | Device/src/DIoLLaserUnit.cpp:1176-1297 | in tenths of a second, for any timeouts: from standby within max(5, 600 standby minutes), from pause within max(1, 600 pause minutes) and from warmup within max(10, 600 warmup minutes), each plus 600 standby minutes |
| `LaserTimes.FreshTimerSleeps` | Device/src/DIoLLaserUnit.cpp:1176-1297 | a new timer expires after 600 tenths of a second per configured minute, exactly when it can express that, and never later |
| `LaserTimes.PauseSleep` | Device/src/DIoLLaserUnit.cpp:1219-1238 | a pause timer sleeps for ten tenths in each second it has to go, less exactly when its tick counter wraps on the way |
| `LaserTimes.LastsAsLong` | Device/src/DIoLLaserUnit.cpp:1176-1297 | a warmup, pause or standby that runs out has lasted as long as the nearest of its timers had to run, whatever was commanded meanwhile |
| `LaserTimes.FullTimeExactlyWhenNoneAhead` | Device/src/DIoLLaserUnit.cpp:3107-3137 | however a warmup, pause or standby was entered: every run through it to its natural end takes 600 tenths of a second per configured minute, exactly when its timer can express that time and no older timer of its kind is ahead |
| `LaserWarmup.NoLasingBeforeWarmup` | Device/src/DIoLLaserUnit.cpp:1491-1563 | without the shutter commands, lasing is never reached after a start before a warmup timer has run out |
| `LaserWarmup.FullWarmupExactlyWhenNoneAhead` | Device/src/DIoLLaserUnit.cpp:1249-1297 | after start_cib: the full 600 tenths of a second per minute exactly when the seconds fit 32 bits and no older warmup timer is ahead, with any other timers alive |
| `LaserWarmup.SecondWarmupIsShort` | Device/src/DIoLLaserUnit.cpp:1262-1268 | a run that stops and restarts within one second leaves such a timer |
| `LaserWarmup.LongPauseIsShort` | Device/src/DIoLLaserUnit.cpp:1219-1238 | a pause of more than 7158278 minutes can run out early |
| `LaserOperation.BeamCanAlwaysBeReached` | Device/include/DIoLLaserUnit.h:192-202 | after any run, the way through configuration, start, warmup, pause and resume leads to the beam |
| `LaserOperation.StandbyResumesDark` | Device/src/DIoLLaserUnit.cpp:2620-2629 | in runs without shutter commands, resuming or firing shots straight from standby lases without beam |
| `LaserUnit.DIoLLaserUnit.UpdateStatus` | Device/src/DIoLLaserUnit.cpp:3107-3137 | entering a status starts its timer, staying in it does not |
| `LaserUnit.DIoLLaserUnit.ForceExtShutter` | Device/src/DIoLLaserUnit.cpp:1057-1170 | the method's assignments and calls come to the step the theorems are about: pause or ready on closing; ready, standby or lasing on opening; nothing where the shutter is there already |
| `LaserUnit.DIoLLaserUnit.SwitchLaserShutter` | Device/src/DIoLLaserUnit.cpp:902-1056 | likewise: closing forces a standby with the q-switch off, opening picks ready, pause or lasing; refused while offline or without an instance |
| `LaserUnit.DIoLLaserUnit.Stop` | Device/src/DIoLLaserUnit.cpp:1394-1489 | likewise: fire and q-switch off, ready, the external shutter open and the inner one closed if there is a laser and it obeys (`LaserTables.StopTable`); no change where no register is mapped |
| `LaserUnit.DIoLLaserUnit.Terminate` | Device/src/DIoLLaserUnit.cpp:1298-1393 | likewise: offline without fire and without instance; offline already, only the instance goes |
| `LaserUnit.DIoLLaserUnit.StartCib` | Device/src/DIoLLaserUnit.cpp:1491-1615 | likewise, and the result is good exactly when the command was allowed and the link obeyed |
| `LaserUnit.DIoLLaserUnit.Pause` | Device/src/DIoLLaserUnit.cpp:1616-1753 | likewise: q-switch on, inner shutter open, external shutter closed; on a failure the external shutter is closed and the status kept; the result is good exactly when the unit was in pause or the command was allowed and the link obeyed |
| `LaserUnit.DIoLLaserUnit.Standby` | Device/src/DIoLLaserUnit.cpp:1754-1868 | likewise: both shutters asked to close and the q-switch off, standby if it fires and ready if not; nothing in warmup and standby |
| `LaserUnit.DIoLLaserUnit.Resume` | Device/src/DIoLLaserUnit.cpp:3468-3566 | likewise, and the result is good exactly when the command was allowed and the link obeyed |
| `LaserUnit.DIoLLaserUnit.FireDiscreteShots` | Device/src/DIoLLaserUnit.cpp:2589-2637 | resumes, lets enough shots through and pauses, or falls back to standby |
| `LaserUnit.DIoLLaserUnit.Config` | Device/src/DIoLLaserUnit.cpp:2817-3106 | likewise for each way it may end: rejected, no register mapped (offline with a live instance), a later failure (terminated), done (ready) |
| `LaserUnit.DIoLLaserUnit.WriteWarmupTarget` | Device/src/DIoLLaserUnit.cpp:218-232 | the warmup time changes in every status but offline |
| `LaserUnit.DIoLLaserUnit.WakeTimer` | Device/src/DIoLLaserUnit.cpp:1176-1297 | one round of a timer loop: expiry first, then the condition to give up, then the next tick, in 32-bit arithmetic (`LaserTables.TimerTable`) |
| `LaserUnit.DIoLLaserUnit.Execute` | Device/src/DIoLLaserUnit.cpp:902-1868 | any command keeps the invariant, so the beam is on in status lasing only, and leaves every part as its table says |
| `LaserUnit.DIoLLaserUnit.ExecuteTimer` | Device/src/DIoLLaserUnit.cpp:1176-1297 | so does any round of a timer |
| `ShotCount.CountShots` | Device/src/DIoLLaserUnit.cpp:2620-2633 | the loop stops at the first poll whose 32-bit difference is large enough |
| `ShotCount.EnoughShots` | Device/src/DIoLLaserUnit.cpp:2630-2633 | it ends after at least num_pulses and at most num_pulses + d - 1 shots, wherever the counter starts |
| `ShotCount.InTimeExactlyWhenItFits` | Device/src/DIoLLaserUnit.cpp:2630-2633 | it is in time for all ways the shots may come exactly when num_pulses + d fits 2^32 |
| `ClockUnits.FitsExactlyUpToLongest` | Device/include/DIoLLaserUnit.h:315-316 | the ticks fit a register exactly up to 68719476 us |
| `ClockUnits.ThereAndBack` | Device/include/DIoLLaserUnit.h:313-316 | converting there and back loses one microsecond for odd numbers and nothing for even ones |
| `ThreadPool.StepKeepsAttended` | Common/src/QuasarThreadPool.cpp:57-101 | while a worker sleeps every pending job has a worker or a notification on its way |
| `ThreadPool.NoLostWakeup` | Common/src/QuasarThreadPool.cpp:57-101 | in every run: jobs pending and a worker there means a worker is awake or an adder is before its notify_one |
| `ThreadPool.NeverBlocked` | Common/src/QuasarThreadPool.cpp:57-101 | and then some worker or adder can take a step without a spurious wakeup |
| `ThreadPool.JobsLeaveInOrder` | Common/src/QuasarThreadPool.cpp:59-67 | the queue never exceeds its limit and jobs leave in the order of acceptance |
| `ThreadPool.JobsAreConserved` | Common/src/QuasarThreadPool.cpp:39-101 | every acceptance is pending, in flight, executed or discarded, and after the destructor executed or discarded |
| `ThreadPool.EveryCallIsAnswered` | Common/src/QuasarThreadPool.cpp:87-101 | in every run each call of addJob was accepted, was refused, or has no answer yet |
| `ThreadPool.RefusedExactlyWhenFull` | Common/src/QuasarThreadPool.cpp:89-97 | in every run a call is refused exactly when the queue is full at that moment |
| `ThreadPool.OneWorkerDrains` | Common/src/QuasarThreadPool.cpp:57-85 | one worker left alone executes the whole queue, in order |
| `ThreadPool.PoolComesToRest` | Common/src/QuasarThreadPool.cpp:57-101 | once m_quit is set, workers and calls of addJob under way can take a bounded number of steps only |
| `ThreadPool.DestructorJoinsExactlyWhen` | Common/src/QuasarThreadPool.cpp:42-45 | after notify_all the workers can always be joined at rest, exactly when no more of them were before the queue than there were jobs in it and calls of addJob under way that find room |
| `ThreadPool.SleeperIsNeverJoined` | Common/src/QuasarThreadPool.cpp:44-45 | a worker asleep after that is never joined |
| `ThreadPool.DestructorMayHang` | Common/src/QuasarThreadPool.cpp:39-45 | a run of five steps that ends so |
| `ContentOrder.ValidateContentOrder` | Configuration/Configurator.h:42-69 | succeeds exactly on a permutation of 0..n-1, else names the first bad index or counts the children without entry |
| `ContentOrder.PushKeepsAccepted` | Configuration/include/ConfigurationDecorationUtils.h:49-55 | adding a child keeps every type acceptable |
| `ContentOrder.ClearKeepsAccepted` | Configuration/include/ConfigurationDecorationUtils.h:57-69 | so does clearing one |
| `ContentOrder.EditingKeepsAccepted` | Configuration/include/ConfigurationDecorationUtils.h:49-69 | and any sequence of both, from an empty parent |
| `ContentOrder.EditingKeepsSequence` | Configuration/include/ConfigurationDecorationUtils.h:49-69 | children of each type are recorded as 0, 1, 2 and so on, in the order in which they were added |
| `ContentOrder.OthersInParts` | Configuration/include/ConfigurationDecorationUtils.h:57-69 | clearing takes out each entry of the type by itself and leaves all others where they stand |
| `ContentOrder.Element.PushBack` | Configuration/include/ConfigurationDecorationUtils.h:49-55 | the child goes to the end of its collection, and nowhere else |
| `ContentOrder.Element.ClearChildren` | Configuration/include/ConfigurationDecorationUtils.h:57-69 | the entries of one type go, the others keep their order |

## Left out

- DollarExpressions.ElaborateFormula: does not say what becomes of texts in which what follows a dollar expression at the moment of its replacement continues it, or in which a dollar sign begins no dollar expression (`Legible` leaves them out).
- Registration.Instantiate: says nothing about the objects after a name was not found; the source throws there and the server does not start.
- ConcurrentWrites.WritesAreSerializable: says nothing about what a CV publishes whose inputs have different mutexes, a leaf that has lost its PV; clients of the address space may see an outdated value there (`Publications.StaleForever`). The memory model below the mutexes is not part of it.
- LaserUnit.DIoLLaserUnit.FireDiscreteShots: does not model what other commands and timers do during the shot loop; in runs its end is a separate pause.
- LaserUnit.DIoLLaserUnit.Config: does not model a register map that names some of the registers only.
- ThreadPool.JobsAreConserved: nobody calls addJob once the destructor has joined the workers.
- `single_shot` and `init` of the laser unit, its monitoring refreshes and the error status, which the register map rules out.
- Address-space writes, JSON responses, logging, and reports to the operator.
- muParser, the OPC UA toolkit, the regular-expression library and the serial and register drivers.
- Motors, attenuator, power meter, the trigger board and the laser system, whose methods are mostly plumbing.
- FeedbackManager, ArrayTools, Oracle tables, the Python tooling and the build files.
