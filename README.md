# A verified model of the SSCCTD simulation engine

SSCCTD is a temporal-difference (TD) simulator of classical conditioning.
Each stimulus is a complete serial compound (CSC). A cue is a list of
per-timestep components, and each component keeps a working weight, an
eligibility trace and per-trial histories. This project models the
simulator's engine in Dafny and proves what that engine promises:

- **The CSC cue model.** `SimCue` is a class over its weights, trace and
  histories. `CueList` and its compound and probe variants form one class,
  with the list kind as a tag. The `Trace`, `Response` and `MemoryTrace`
  rules are functions, and the threshold loops are methods proved against
  them.
- **The timing engine.** This covers:
  - US relations (`USConfiguration`) and contexts (`ContextConfig`);
  - fixed and variable durations (`FixedOnsetConfig`,
    `VariableOnsetConfig`, `OnsetConfig`);
  - variable distributions (`VariableDistribution`,
    `UniformVariableDistribution`, `Distributions`) and inter-trial
    intervals (`ITIConfig`);
  - the `TimingConfiguration` that turns relations and durations into
    integer `[start, end)` windows and then finds the compound and serial
    segments of a trial.
- **Trial parsing and the per-timestep TD step.** This covers:
  - the `/`-separated trial-string parser of `SimGroup.addPhase`, with
    configural naming;
  - `SimPhase.stringToCSList`;
  - the TD error;
  - the compound and serial merges, the selective `store` and `updateCues`,
    and `resetInactive`;
  - the trial-order shuffle and the max-component merge.
- **Naming and parameter tables.** This covers the name translation and the
  parameter table of `SimModel`, `GreekSymbol`, and the progress message of
  `SimController.getTimeMessage`.

Some conventions hold throughout:

- Doubles are `real`, and `Math.round` is floor(x + 1/2).
- Java's integer division truncates toward zero, and `JavaDiv` models it.
- Every random draw, shuffle and clock reading is a parameter.
- Global settings read through the controller are parameters. These include
  the timestep size, timing per trial, serial configurals and the
  restriction of predictions.
- `CS` is a datatype. It is either a named cue occurrence (letter,
  occurrence index, `/` group, string position, trial string, kind) or one
  of the reserved keys: the US, the CS span, the whole trial and the
  context ω.
- A mutable `CueList` held in a map of the phase is modelled by its value
  (`PhaseLists.ListValue`: its fields and its components' states). The
  per-phase operations over such maps are methods on values.

## Model

| member | source | states |
|---|---|---|
| `Trace.BoundedGet` | src/simulator/util/Trace.java:26-34 | the bounded trace moves from the last trace toward the activation (1 active, 0 inactive) by the fraction delta |
| `Trace.ReplacingGet` | src/simulator/util/Trace.java:46-52 | the replacing trace never exceeds 1; it is either 1 or the accumulating value, and it is the accumulating value whenever that is at most 1 |
| `Trace.AccumulatingGet` | src/simulator/util/Trace.java:66-72 | the accumulating trace is the activation plus the decayed last trace (lastTrace·delta·gamma), with no clamp |
| `Trace.BoundedStaysInUnit` | src/simulator/util/Trace.java:26-34 | with delta and the last trace in [0,1], the bounded trace stays in [0,1] |
| `Trace.FreshTrace` | src/simulator/util/Trace.java:26-72 | from a zero trace, replacing and accumulating give 1 when active and 0 when inactive; bounded gives delta times that |
| `Trace.ReplacingMatchesAccumulating` | src/simulator/util/Trace.java:46-72 | replacing and accumulating agree whenever y + lastTrace·delta·gamma ≤ 1 |
| `Trace.AccumulatingUnbounded` | src/simulator/util/Trace.java:66-72 | with delta·gamma = 1, a cue active for k timesteps from a zero trace has accumulating trace exactly k, so the trace has no bound |
| `Trace.RunsCapped` | src/simulator/util/Trace.java:26-52 | however long a cue stays active, the replacing trace stays at most 1 and, for delta in [0,1], the bounded trace stays in [0,1] |
| `Trace.FindByName` | src/simulator/util/Trace.java:81-88 | the search over the trace kinds returns one whose display name matches, or none of them has that name |
| `Trace.FromOld` | src/simulator/util/Trace.java:81-88 | `fromOld` yields the kind whose display name equals the old name, and nothing exactly when the name is none of the three |
| `Trace.FromOldName` | src/simulator/util/Trace.java:81-88 | every kind is found again from its own display name |
| `Response.CKCount` | src/simulator/util/Response.java:30-45 | the Church-Kirkpatrick count over the first k thresholds is at most k |
| `Response.ChurchKirkpatrickGet` | src/simulator/util/Response.java:30-45 | the loop returns the number of thresholds whose boundary responds (strength above boundary·threshold, or boundary below the integer 4 / size), between 0 and the list length |
| `Response.CKMonotone` | src/simulator/util/Response.java:30-45 | raising the strength never lowers the Church-Kirkpatrick count |
| `Response.CKFewBoundariesAllRespond` | src/simulator/util/Response.java:30-45 | with 1 to 4 thresholds, all below 1, every threshold responds, since 4 / size is at least 1 in integer division |
| `Response.CKManyBoundaries` | src/simulator/util/Response.java:30-45 | with more than 4 thresholds, 4 / size is 0, so a boundary responds iff it is negative or the strength exceeds boundary·threshold |
| `Response.LudvigGet` | src/simulator/util/Response.java:60-74 | the loop computes the decayed response level over the list's length, and 0 whenever the strength is at most the threshold |
| `Response.LudvigClosedForm` | src/simulator/util/Response.java:60-74 | above the threshold, the Ludvig level over n thresholds is strength·(1 + decay + … + decay^(n-1)); only the list's length matters |
| `Response.Get` | src/simulator/util/Response.java:30-74 | the rule's response for the chosen decision rule; an empty threshold list gives 0 for both rules, with no division |
| `MemoryTrace.SuttonGet` | src/simulator/util/MemoryTrace.java:15-21 | Sutton's trace is 1 exactly when active and 0 exactly when inactive, whatever the other arguments |
| `MemoryTrace.MondragonGet` | src/simulator/util/MemoryTrace.java:40-47 | Mondragon's trace is defined exactly when the denominator t + t·h − h is nonzero, and then trace·denominator = t·(1 if active, else decay) |
| `MemoryTrace.DenominatorAtLeastOne` | src/simulator/util/MemoryTrace.java:43-44 | for timestep ≥ 1 and drop-off ≥ 0 the denominator is at least 1, so the formula is well defined |
| `MemoryTrace.MondragonFirstStep` | src/simulator/util/MemoryTrace.java:40-47 | at timestep 1 the trace is 1 when active and decay when inactive |
| `MemoryTrace.MondragonNoDropOff` | src/simulator/util/MemoryTrace.java:40-47 | with no drop-off the trace is 1 when active and decay when inactive, at every timestep ≥ 1 |
| `MemoryTrace.MondragonActiveDominates` | src/simulator/util/MemoryTrace.java:40-47 | for decay in [0,1], the active trace is at least the inactive one at the same timestep |
| `GreekSymbol.Find` | src/simulator/util/GreekSymbol.java:48-55 | the search over the table returns an entry with that name, or no entry has it |
| `GreekSymbol.GetByName` | src/simulator/util/GreekSymbol.java:48-55 | `getByName` returns the entry with that name, or nothing when no entry has it |
| `GreekSymbol.GetSymbol` | src/simulator/util/GreekSymbol.java:39-46 | a known name gives its entry's symbol; any other name is returned as it is |
| `GreekSymbol.Ordinal` | src/simulator/util/GreekSymbol.java:14-22 | every entry has its place in the table's order |
| `GreekSymbol.FindFirst` | src/simulator/util/GreekSymbol.java:48-55 | an entry is found from its name when no earlier entry shares that name |
| `GreekSymbol.GetByNameOwnName` | src/simulator/util/GreekSymbol.java:39-55 | every entry is found from its own name, and its name maps to its own symbol |
| `GreekSymbol.TableQuirks` | src/simulator/util/GreekSymbol.java:14-22 | "lambda-" maps to the same symbol as "lambda+" (λ+), and "tao" maps to "" |
| `GreekSymbol.UnknownNamePassesThrough` | src/simulator/util/GreekSymbol.java:39-46 | a name that is in no entry comes back unchanged |
| `SimCues.SimCue.constructor` | src/simulator/SimCue.java:129-134 | a new cue has the given symbol, alpha, trace kind and decision rule, with zero weights and trace, inactive, and empty histories |
| `SimCues.SimCue.Plain` | src/simulator/SimCue.java:105-121 | the two-argument constructor gives a replacing trace and the Church-Kirkpatrick rule |
| `SimCues.SimCue.CompareTo` | src/simulator/SimCue.java:142-150 | a context cue compares as −1 against any cue, and a non-context cue as 1 against a context |
| `SimCues.CompareToNonContexts` | src/simulator/SimCue.java:142-150 | between non-context cues the order is the symbols' order: antisymmetric, and 0 exactly for equal symbols |
| `SimCues.SimCue.Copy` | src/simulator/SimCue.java:158-163 | a copy is a fresh cue with the same symbol, alpha, trace kind and rule, and nothing else carried over |
| `SimCues.SimCue.GetLastPrediction` | src/simulator/SimCue.java:232-240 | the second-to-last weight history entry when there are more than two, else 0 |
| `SimCues.SimCue.ResponseAt` | src/simulator/SimCue.java:343-350 | the stored response of that trial, or 0 when the trial is out of range |
| `SimCues.SimCue.MakeResponse` | src/simulator/SimCue.java:294-302 | the drawn thresholds are kept and exactly one response, from the decision rule at the averaged weight, is appended |
| `SimCues.SimCue.Reset` | src/simulator/SimCue.java:317-325 | both weight histories are emptied and the weights, alpha and trace are zeroed; the rest is unchanged |
| `SimCues.SimCue.SetActive` | src/simulator/SimCue.java:359-361 | only the active flag changes |
| `SimCues.SimCue.SetAlpha` | src/simulator/SimCue.java:369-371 | only alpha changes |
| `SimCues.SimCue.SetTrace` | src/simulator/SimCue.java:441-443 | only the trace changes |
| `SimCues.SimCue.SetAssocValue` | src/simulator/SimCue.java:379-383 | the working and averaged weights both take the value; nothing else changes |
| `SimCues.SimCue.SetAssocValueVector` | src/simulator/SimCue.java:412-416 | the history is replaced, and the working weight becomes its last element, or 0 when it is empty |
| `SimCues.SimCue.SetAvgAssocValueVector` | src/simulator/SimCue.java:513-517 | the averaged history is replaced, and the averaged weight becomes its last element, or 0 when it is empty |
| `SimCues.SimCue.Store` | src/simulator/SimCue.java:467-470 | exactly one entry is appended to the weight history and one to the averaged history, and the working values are unchanged |
| `SimCues.SimCue.Update` | src/simulator/SimCue.java:486-494 | the working weight grows by exactly alpha·error·trace and is copied to the averaged weight; trace, flag and histories are unchanged |
| `SimCues.SimCue.UpdateTrace` | src/simulator/SimCue.java:496-501 | the trace becomes the trace rule applied to the old trace and flag, and the flag is cleared |
| `CueLists.CueList.constructor` | src/simulator/CueList.java:56-75 | a new list is in step, with no components, cursor, max component and trial count 0, zero padding [0], max-component history [0], no average responses, and average weights [0] for elemental lists but [] for compound and probe lists |
| `CueLists.CueList.AverageResponse` | src/simulator/CueList.java:121-130 | the stored average response of that trial, or 0 when it is out of range |
| `CueLists.CueList.GetSymbol` | src/simulator/ProbeCueList.java:60-64 | an elemental or compound list's symbol is its own; a probe list's is its stored symbol cut before the first `(` |
| `CueLists.CueList.NextCue` | src/simulator/CueList.java:352-364 | at the end of the list, exactly one fresh component with the zero padding as its three histories is appended; elsewhere the existing component is returned and the list does not grow. Either way the cursor advances by one and the max component becomes the returned index, and the list stays in step |
| `CueLists.CueList.NewCue` | src/simulator/CompoundCueList.java:44-55 | a compound or probe list's new component drops the leading zero of each of its three histories, so they have length trialCount |
| `CueLists.CueList.Add` | src/simulator/CueList.java:97-99 | the component is inserted at the cursor and the cursor moves past it |
| `CueLists.CueList.Copy` | src/simulator/CueList.java:139-158 | the copy is a fresh elemental list that carries the last average weight and max-component entry and copies every component; it fails when there is no trial history to carry |
| `CueLists.CueList.Restart` | src/simulator/CueList.java:380-382 | only the cursor is reset, to 0 |
| `CueLists.CueList.SetAlpha` | src/simulator/CueList.java:390-395 | alpha is set on the list and on every component, and nothing else changes |
| `CueLists.CueList.ZeroTraces` | src/simulator/CueList.java:555-559 | every component's trace is 0 and nothing else changes |
| `CueLists.CueList.Update` | src/simulator/CueList.java:539-550 | when |list alpha × error| exceeds eps, every component gets the TD weight change and then its new trace; otherwise only the traces change |
| `CueLists.CueList.Store` | src/simulator/CueList.java:476-496 | every component stores once; exactly one entry each is appended to the average weights (the mean of components 0..maxCue), the average responses, the max-component history and the padding; the trial count grows by one; maxCue resets to 0; the list stays in step |
| `CueLists.CueList.CopyComponentsInto` | src/simulator/CueList.java:149-156 | the copy gets one fresh component per original, in order, each carrying the original's last weight, last averaged weight and last response as its one-entry histories, with the cursor past them |
| `CueLists.CueList.Carry` | src/simulator/CueList.java:143-147 | the copy's average weights and max-component history are the single carried entries; its components are untouched |
| `CueLists.CueList.RecordTrial` | src/simulator/CueList.java:488-495 | one average weight, one average response, one max-component entry and one padding zero are appended, the trial count grows by one and maxCue resets to 0 |
| `CueLists.CueList.StoreComponents` | src/simulator/CueList.java:478-487 | every component stores with its own drawn thresholds; the sums returned, over components up to maxCue, are of the weights before storing and of each response history's entry at position trialCount after storing |
| `CueLists.CueList.StoreOne` | src/simulator/CueList.java:478-487 | one component stores, and its old weight and its response at position trialCount are returned |
| `CueLists.StoredResponseRead` | src/simulator/CueList.java:480-484 | the response `store` averages is entry trialCount: for an elemental component, whose history leads with a padding zero, the last entry stored before this trial; for a compound or probe component, the response just made |
| `CueLists.CueList.ZeroWeights` | src/simulator/CompoundCueList.java:62-68 | after a compound or probe list stores, every component's working weight is 0 and nothing else changes |
| `CueLists.StoredAll` | src/simulator/CueList.java:476-496 | storing acts on each component independently |
| `CueLists.SameResponses` | src/simulator/CueList.java:479-490 | the average response depends only on the components' responses |
| `ProbeNames.ProbeSymbol` | src/simulator/ProbeCueList.java:60-64 | the symbol is the text before the first `(`; the split throws (nothing) exactly when the name is non-empty and made only of `(` |
| `ProbeNames.NoParenUnchanged` | src/simulator/ProbeCueList.java:60-64 | a symbol without `(` is returned unchanged |
| `ProbeNames.LeadingParenEmpty` | src/simulator/ProbeCueList.java:60-64 | a symbol that starts with `(` and holds something else gives "" |
| `ProbeNames.ProbeSymbolIsPrefix` | src/simulator/ProbeCueList.java:60-64 | the probe symbol holds no `(` and is a prefix of the full name |
| `USConfigurations.GetById` | src/simulator/configurables/USConfiguration.java:24-34 | id 0 is forward, 1 is backward, and any other id is simultaneous |
| `USConfigurations.IdRoundTrip` | src/simulator/configurables/USConfiguration.java:22-59 | every relationship is found again from its own id |
| `USConfigurations.NameRoundTrip` | src/simulator/configurables/USConfiguration.java:36-43 | `getByName` finds exactly the relationship whose long name matches, and nothing otherwise |
| `USConfigurations.Describe` | src/simulator/configurables/USConfiguration.java:156-158 | the text is the short name, then the offset in parentheses |
| `USConfigurations.USConfiguration.Default` | src/simulator/configurables/USConfiguration.java:94-96 | the default configuration is forward with offset 0 and forward default 0 |
| `USConfigurations.USConfiguration.constructor` | src/simulator/configurables/USConfiguration.java:98-102 | the configuration has the given type and offset, and forward default 0 |
| `USConfigurations.USConfiguration.SetForwardDefault` | src/simulator/configurables/USConfiguration.java:132-137 | on a forward configuration the offset becomes max(mean, offset); on other types it is unchanged |
| `USConfigurations.USConfiguration.SetOffset` | src/simulator/configurables/USConfiguration.java:143-145 | only the offset changes |
| `USConfigurations.USConfiguration.SetRelation` | src/simulator/configurables/USConfiguration.java:151-153 | only the type changes |
| `Contexts.GetList` | src/simulator/configurables/ContextConfig.java:36-39 | exactly the four non-empty contexts, each once |
| `Contexts.NamedInIff` | src/simulator/configurables/ContextConfig.java:48-55 | the scan over the contexts finds a name iff some context has it |
| `Contexts.IsContextIff` | src/simulator/configurables/ContextConfig.java:48-55 | a string is a context iff it is one of the five context names, the empty name of EMPTY included |
| `Contexts.Defaults.constructor` | src/simulator/configurables/ContextConfig.java:80-88 | the static defaults start at alpha 0.005 and context Φ, with neither flag set |
| `Contexts.Defaults.ClearDefault` | src/simulator/configurables/ContextConfig.java:90-95 | restores alpha 0.005 and context Φ and clears both flags |
| `Contexts.ContextConfig.FromDefaults` | src/simulator/configurables/ContextConfig.java:97-100 | the no-argument constructor copies the current default context and alpha |
| `Contexts.ContextConfig.constructor` | src/simulator/configurables/ContextConfig.java:102-105 | the configuration has the given context and alpha |
| `Contexts.ContextConfig.SetAlpha` | src/simulator/configurables/ContextConfig.java:133-139 | alpha is set, and the default alpha takes it only on the first call since the defaults were cleared |
| `Contexts.ContextConfig.SetContext` | src/simulator/configurables/ContextConfig.java:145-151 | the context is set, and the default context takes it only on the first call since the defaults were cleared |
| `OnsetConfigs.MeansOf` | src/simulator/configurables/OnsetConfig.java:85-88 | a fixed duration's mean is its onset, a variable one's is its configured mean, for every entry |
| `OnsetConfigs.NextOf` | src/simulator/configurables/VariableOnsetConfig.java:77-79 | a fixed duration yields its onset and does not change; a variable one consumes one draw of its distribution |
| `OnsetConfigs.NewVariable` | src/simulator/configurables/VariableOnsetConfig.java:43-52 | a new variable duration wraps a well-formed distribution |
| `OnsetConfigs.FixedIsInert` | src/simulator/configurables/FixedOnsetConfig.java:36-97 | for a fixed duration, the mean and every next onset are the stored onset, and advance, regenerate, reset, restartOnsets, setTrials and setGeo change nothing |
| `OnsetConfigs.VariableMeanIsStable` | src/simulator/configurables/VariableOnsetConfig.java:59-184 | a variable duration's mean is the one it was built with, however many draws, advances, regenerations, resets and setters have run |
| `OnsetConfigs.FixedOnsetConfig.constructor` | src/simulator/configurables/FixedOnsetConfig.java:27-29 | a fixed configuration holds the onset |
| `OnsetConfigs.FixedOnsetConfig.SetOnset` | src/simulator/configurables/FixedOnsetConfig.java:91-93 | both the mean and the next onset become the new value, and the next onset consumes nothing |
| `OnsetConfigs.FixedOnsetConfig.Describe` | src/simulator/configurables/FixedOnsetConfig.java:100-102 | the text is `F(` + onset + `)` |
| `OnsetConfigs.VariableOnsetConfig.constructor` | src/simulator/configurables/VariableOnsetConfig.java:43-52 | a fresh distribution of the type's kind, with the given mean and trials and the process-wide seed |
| `OnsetConfigs.VariableOnsetConfig.GetNextOnset` | src/simulator/configurables/VariableOnsetConfig.java:77-79 | one draw is consumed through the distribution's `next` |
| `OnsetConfigs.VariableOnsetConfig.Advance` | src/simulator/configurables/VariableOnsetConfig.java:60-62 | delegates to the distribution's `advance` |
| `OnsetConfigs.VariableOnsetConfig.Regenerate` | src/simulator/configurables/VariableOnsetConfig.java:131-133 | delegates to the distribution's `regenerate` |
| `OnsetConfigs.VariableOnsetConfig.Reset` | src/simulator/configurables/VariableOnsetConfig.java:136-139 | rebuilds the distribution and sets its index to 0 |
| `OnsetConfigs.VariableOnsetConfig.RestartOnsets` | src/simulator/configurables/VariableOnsetConfig.java:147-149 | delegates to the distribution's `restartOnsets` |
| `OnsetConfigs.VariableOnsetConfig.SetTrials` | src/simulator/configurables/VariableOnsetConfig.java:181-184 | sets the trial count, both locally and on the distribution |
| `OnsetConfigs.VariableOnsetConfig.SetGeometric` | src/simulator/configurables/VariableOnsetConfig.java:155-158 | sets the mean type on the distribution |
| `OnsetConfigs.OnsetDefaults.constructor` | src/simulator/configurables/OnsetConfig.java:48-49 | the static default table starts empty |
| `OnsetConfigs.OnsetDefaults.Clear` | src/simulator/configurables/OnsetConfig.java:42-44 | `clearDefaults` empties the default table |
| `OnsetConfigs.FillWithin` | src/simulator/configurables/OnsetConfig.java:277-318 | filling adds only listed stimuli |
| `OnsetConfigs.FillCovers` | src/simulator/configurables/OnsetConfig.java:277-318 | after filling, every listed stimulus has a duration |
| `OnsetConfigs.SetStimuliCovers` | src/simulator/configurables/OnsetConfig.java:277-318 | after `setStimuli` every listed stimulus has a duration and every duration belongs to a listed stimulus |
| `OnsetConfigs.OnsetConfig.constructor` | src/simulator/configurables/OnsetConfig.java:59-64 | a new configuration is empty, unconfigured, arithmetic and exponential |
| `OnsetConfigs.OnsetConfig.GetMean` | src/simulator/configurables/OnsetConfig.java:85-88 | the mean of the cue's duration (fixed: the onset; variable: the configured mean), or nothing when the cue has none |
| `OnsetConfigs.OnsetConfig.Next` | src/simulator/configurables/OnsetConfig.java:157-159 | consumes one draw of that cue's duration and changes no other entry |
| `OnsetConfigs.OnsetConfig.HasRandomDurations` | src/simulator/configurables/OnsetConfig.java:100-107 | true iff some duration is variable |
| `OnsetConfigs.OnsetConfig.HasZeroDurations` | src/simulator/configurables/OnsetConfig.java:112-119 | true iff some duration has mean 0 |
| `OnsetConfigs.OnsetConfig.Set` | src/simulator/configurables/OnsetConfig.java:245-250 | stores the configuration, and records it as the default only when the stimulus has no default yet and its mean is positive |
| `OnsetConfigs.OnsetConfig.SetFixed` | src/simulator/configurables/OnsetConfig.java:232-234 | stores a fixed duration of that onset |
| `OnsetConfigs.OnsetConfig.SetVariable` | src/simulator/configurables/OnsetConfig.java:218-221 | stores a new variable duration of that mean with the configuration's type and mean type |
| `OnsetConfigs.OnsetConfig.SetGeo` | src/simulator/configurables/OnsetConfig.java:260-267 | sets the flag and changes only the variable durations' mean type |
| `OnsetConfigs.OnsetConfig.RestartOnsets` | src/simulator/configurables/OnsetConfig.java:199-203 | every entry restarts its onsets |
| `OnsetConfigs.OnsetConfig.Regenerate` | src/simulator/configurables/OnsetConfig.java:180-184 | every entry regenerates |
| `OnsetConfigs.OnsetConfig.Advance` | src/simulator/configurables/OnsetConfig.java:70-74 | succeeds iff every entry can advance, and then every entry has advanced |
| `OnsetConfigs.OnsetConfig.Reset` | src/simulator/configurables/OnsetConfig.java:190-194 | every entry is reset |
| `OnsetConfigs.OnsetConfig.SetTrials` | src/simulator/configurables/OnsetConfig.java:326-331 | every entry gets the trial count and is then reset |
| `OnsetConfigs.OnsetConfig.SetStimuli` | src/simulator/configurables/OnsetConfig.java:277-318 | unlisted entries are removed, and every listed stimulus keeps its duration or takes its default or a fixed 0 |
| `OnsetConfigs.MapValues` | src/simulator/configurables/OnsetConfig.java:190-194 | the loop over every entry: the keys stay the same and each entry becomes the operation applied to it |
| `OnsetConfigs.OnsetConfig.PruneUnlisted` | src/simulator/configurables/OnsetConfig.java:277-297 | removes exactly the entries whose stimulus is not listed |
| `VariableDistributions.KindOfType` | src/simulator/util/Distributions.java:46-55 | type 1 gives the uniform distribution, and every other type, 0 included, the exponential one |
| `VariableDistributions.NextRandomBound` | src/simulator/util/VariableDistribution.java:242-247 | a draw is 0 or at least the timestep size, for both kinds |
| `VariableDistributions.UniformRange` | src/simulator/util/UniformVariableDistribution.java:48-53 | for r in [0,1) and a positive mean, the uniform draw before the floor lies in [0.5·mean, 1.5·mean) |
| `VariableDistributions.Standardized` | src/simulator/util/VariableDistribution.java:323-340 | standardising keeps the length and shifts each onset by the difference of the means, raised to the timestep unless 0 |
| `VariableDistributions.StandardizedBound` | src/simulator/util/VariableDistribution.java:323-340 | every standardised onset is 0 or at least the timestep size |
| `VariableDistributions.SumShifted` | src/simulator/util/VariableDistribution.java:323-340 | when no onset is raised by the floor, the sum shifts by n·(mean − actual mean) |
| `VariableDistributions.StandardizedMean` | src/simulator/util/VariableDistribution.java:134-141 | in arithmetic mode, when no onset is raised by the floor, the standardised onsets' mean is exactly the target mean |
| `VariableDistributions.NewDist` | src/simulator/util/VariableDistribution.java:113-118 | a new distribution is well formed, seeded by the process-wide seed |
| `VariableDistributions.NextOnset` | src/simulator/util/VariableDistribution.java:227-231 | `next` returns the onset at the index and advances the index by one; it throws (nothing) when the index is out of range |
| `VariableDistributions.RawOnsets` | src/simulator/util/VariableDistribution.java:147-160 | the build draws exactly n onsets, each from the kind's `nextRandom` |
| `VariableDistributions.Built` | src/simulator/util/VariableDistribution.java:147-160 | a build always resets the index to 0 and clears the change flag, and keeps the distribution well formed |
| `VariableDistributions.Advanced` | src/simulator/util/VariableDistribution.java:124-126 | advancing succeeds iff a stored shuffle is left, and keeps the distribution well formed |
| `VariableDistributions.Regenerated` | src/simulator/util/VariableDistribution.java:252-260 | regenerating with a permutation of the onsets keeps the distribution well formed |
| `VariableDistributions.Restarted` | src/simulator/util/VariableDistribution.java:265-267 | restarting keeps the distribution well formed |
| `VariableDistributions.RegenerateThenAdvance` | src/simulator/util/VariableDistribution.java:124-126 | after `regenerate`, the next `advance` returns the new permutation of the current onsets, and one more shuffle is stored |
| `VariableDistributions.RestartThenAdvance` | src/simulator/util/VariableDistribution.java:265-267 | after `restartOnsets`, the next `advance` returns the first stored shuffle |
| `VariableDistributions.RegenerateAfterAdvance` | src/simulator/util/VariableDistribution.java:252-260 | right after an advance, regenerating reorders in place the stored shuffle just returned, since it is the same list, and inserts a copy right after it |
| `VariableDistributions.BuildAfterSetTrials` | src/simulator/util/VariableDistribution.java:311-314 | after `setTrials(n)`, a build draws exactly n onsets (at least one), each 0 or at least the timestep size, with index 0 and no shuffles |
| `VariableDistributions.BuildUnchanged` | src/simulator/util/VariableDistribution.java:147-160 | a build with no change flagged only resets the index |
| `VariableDistributions.PermutationNonNegative` | src/simulator/util/VariableDistribution.java:252-260 | a permutation of non-negative onsets is non-negative |
| `VariableDistributions.NonNegativeKept` | src/simulator/util/VariableDistribution.java:124-314 | with a non-negative timestep, every operation keeps all onsets and stored shuffles non-negative, and every drawn onset is non-negative |
| `VariableDistributions.SeedSource.constructor` | src/simulator/util/VariableDistribution.java:43-48 | the process-wide seed starts unset |
| `VariableDistributions.SeedSource.RandomSeed` | src/simulator/util/VariableDistribution.java:43-48 | the seed is fixed from the clock on first use and returned unchanged afterwards |
| `VariableDistributions.SeedSource.NewRandomSeed` | src/simulator/util/VariableDistribution.java:34-36 | the seed becomes the clock reading |
| `VariableDistributions.VariableDistribution.constructor` | src/simulator/util/VariableDistribution.java:113-118 | a new distribution of the kind, mean, trials and mean type, seeded by the process-wide seed, which is fixed on first use |
| `VariableDistributions.VariableDistribution.Next` | src/simulator/util/VariableDistribution.java:227-231 | returns the onset at the index and increments the index by one |
| `VariableDistributions.VariableDistribution.Build` | src/simulator/util/VariableDistribution.java:147-160 | the new state is the build of the old state |
| `VariableDistributions.VariableDistribution.Advance` | src/simulator/util/VariableDistribution.java:124-126 | the next stored shuffle becomes the onsets, or nothing changes when none is left |
| `VariableDistributions.VariableDistribution.Regenerate` | src/simulator/util/VariableDistribution.java:252-260 | the current onsets, and the stored shuffle they alias, become the permutation, and a copy is inserted at the iterator so that the next advance returns it |
| `VariableDistributions.VariableDistribution.RestartOnsets` | src/simulator/util/VariableDistribution.java:265-267 | rewinds the shuffle cursor |
| `VariableDistributions.VariableDistribution.SetTrials` | src/simulator/util/VariableDistribution.java:311-314 | sets the trial count and flags a change |
| `VariableDistributions.VariableDistribution.SetMeanType` | src/simulator/util/VariableDistribution.java:287-290 | sets the mean type and flags a change |
| `VariableDistributions.VariableDistribution.SetIndex` | src/simulator/util/VariableDistribution.java:269-271 | only the index changes |
| `VariableDistributions.VariableDistribution.SetMean` | src/simulator/util/VariableDistribution.java:279-281 | only the mean changes |
| `VariableDistributions.GetDistribution` | src/simulator/util/Distributions.java:23-55 | both factory overloads give a fresh distribution of the type's kind, with mean, trials and mean type passed through |
| `ITIConfigs.ITIDefaults.constructor` | src/simulator/configurables/ITIConfig.java:26-31 | the defaults start at mean 0 and minimum 300, with both flags clear |
| `ITIConfigs.ITIDefaults.ResetDefaults` | src/simulator/configurables/ITIConfig.java:26-31 | restores mean 0 and minimum 300 and clears both flags |
| `ITIConfigs.ITIDefaults.RecordMinimum` | src/simulator/configurables/ITIConfig.java:181-187 | the default minimum takes the value only on the first call since the reset |
| `ITIConfigs.NextInterval` | src/simulator/configurables/ITIConfig.java:135-137 | the next interval is the distribution's next draw plus the minimum |
| `ITIConfigs.IntervalAtLeastMinimum` | src/simulator/configurables/ITIConfig.java:135-137 | with non-negative draws, every interval is at least the minimum |
| `ITIConfigs.ITIConfig.constructor` | src/simulator/configurables/ITIConfig.java:62-77 | the full constructor is configured, and records its minimum and mean as defaults on their first setting |
| `ITIConfigs.ITIConfig.Unconfigured` | src/simulator/configurables/ITIConfig.java:84-88 | the trials constructor takes the current default minimum and mean, and is unconfigured |
| `ITIConfigs.ITIConfig.GetMean` | src/simulator/configurables/ITIConfig.java:95-97 | the distribution's mean |
| `ITIConfigs.ITIConfig.Next` | src/simulator/configurables/ITIConfig.java:135-137 | one draw plus the minimum, consuming one draw |
| `ITIConfigs.ITIConfig.Reset` | src/simulator/configurables/ITIConfig.java:139-142 | rebuilds the distribution with index 0 |
| `ITIConfigs.ITIConfig.SetConfigured` | src/simulator/configurables/ITIConfig.java:148-150 | only the configured flag changes |
| `ITIConfigs.ITIConfig.SetGeo` | src/simulator/configurables/ITIConfig.java:156-159 | sets the flag and the distribution's mean type |
| `ITIConfigs.ITIConfig.SetMean` | src/simulator/configurables/ITIConfig.java:167-173 | sets the distribution's mean; the default mean takes it only on the first positive setting |
| `ITIConfigs.ITIConfig.SetMinimum` | src/simulator/configurables/ITIConfig.java:181-187 | sets the minimum; the default takes it only on the first call since the reset |
| `ITIConfigs.ITIConfig.SetTrials` | src/simulator/configurables/ITIConfig.java:189-192 | sets the trial count, then rebuilds: exactly that many onsets, index 0 |
| `ITIConfigs.ITIConfig.SetType` | src/simulator/configurables/ITIConfig.java:198-202 | a fresh distribution of the new type keeps the mean, trials and mean type |
| `ITIConfigs.ITIConfig.Describe` | src/simulator/configurables/ITIConfig.java:209-212 | the text is the minimum, `s + μ(`, the mean and `)s` |
| `TimingWindows.RawWindow` | src/simulator/configurables/TimingConfiguration.java:253-269 | a window is as long as the duration; forward ends at mean − offset, backward starts at offset + US duration, simultaneous starts at −offset |
| `TimingWindows.CueWindow` | src/simulator/configurables/TimingConfiguration.java:253-269 | both ends are divided by the timestep size and rounded |
| `TimingWindows.CueWindowOrdered` | src/simulator/configurables/TimingConfiguration.java:253-269 | a cue window never ends before it starts |
| `TimingWindows.IncludeWellBounded` | src/simulator/configurables/TimingConfiguration.java:240-277 | taking in one more window keeps the running earliest start, min start and max end exact bounds of the windows seen |
| `TimingWindows.CollectFails` | src/simulator/configurables/TimingConfiguration.java:240-277 | the window collection fails iff some elemental cue has no relation or duration |
| `TimingWindows.CollectWindows` | src/simulator/configurables/TimingConfiguration.java:240-277 | every elemental cue gets its own cue window, and nothing else gets one |
| `TimingWindows.CollectBounds` | src/simulator/configurables/TimingConfiguration.java:240-277 | the min start (at most 0, else the earliest start) and the max end bound every collected window and are attained |
| `TimingWindows.CollectCorrect` | src/simulator/configurables/TimingConfiguration.java:240-277 | a successful collection both gives each elemental cue its cue window and keeps the min start and max end exact bounds of those windows |
| `TimingWindows.MeanCount` | src/simulator/configurables/TimingConfiguration.java:278-290 | the number of means counted is at most the number of cues |
| `TimingWindows.MeanOfEqualMeans` | src/simulator/configurables/TimingConfiguration.java:278-290 | when all counted means are equal, their sum is their count times that mean |
| `TimingWindows.TimingsShape` | src/simulator/configurables/TimingConfiguration.java:234-321 | after the shift by −minStart every window starts at or after 0 and keeps its length and its offset from the US, and the earliest start is 0 |
| `TimingWindows.SpanCoversCues` | src/simulator/configurables/TimingConfiguration.java:308-318 | the CS span ends no earlier than any elemental window |
| `TimingWindows.CollectDependsOnElementalDurations` | src/simulator/configurables/TimingConfiguration.java:240-277 | only the elemental cues' durations are read |
| `TimingWindows.DrawnMeansMatchMeanTimings` | src/simulator/configurables/TimingConfiguration.java:323-407 | `makeTimingsBasedOnMean` is `makeTimings` with each duration replaced by its mean |
| `TimingWindows.TotalEndCutsUS` | src/simulator/configurables/TimingConfiguration.java:308-318 | as written, the whole-trial window can end before the US window: US 20 timesteps, total 10 |
| `TimingWindows.CorrectedTotalContainsAll` | src/simulator/configurables/TimingConfiguration.java:308-318 | with the US duration converted to timesteps, the whole-trial window contains the US and every elemental window |
| `TimingConfigurations.RelationDefaults.constructor` | src/simulator/configurables/TimingConfiguration.java:79-80 | the static default relations start empty |
| `TimingConfigurations.DefaultRelation` | src/simulator/configurables/TimingConfiguration.java:816-842 | a new relation copies the default's type and offset, or is forward with offset 0 |
| `TimingConfigurations.ChooseKeys` | src/simulator/configurables/TimingConfiguration.java:816-842 | the new relations are keyed by exactly the given stimuli |
| `TimingConfigurations.ChooseKeeps` | src/simulator/configurables/TimingConfiguration.java:816-842 | existing stimuli keep their relation |
| `TimingConfigurations.DrawKeepsMeans` | src/simulator/configurables/TimingConfiguration.java:234-321 | drawing durations does not change any mean |
| `TimingConfigurations.CollectPrefixFails` | src/simulator/configurables/TimingConfiguration.java:240-277 | once a cue cannot be placed, the whole collection fails |
| `TimingConfigurations.TimingConfiguration.constructor` | src/simulator/configurables/TimingConfiguration.java:104-114 | a new configuration has no relations, empty durations, the US duration, unconfigured and reinforced |
| `TimingConfigurations.TimingConfiguration.MakeTimings` | src/simulator/configurables/TimingConfiguration.java:234-321 | the windows are the timings of the drawn durations; each elemental cue consumes exactly one draw and no mean changes |
| `TimingConfigurations.TimingConfiguration.PlaceCue` | src/simulator/configurables/TimingConfiguration.java:248-276 | one elemental cue takes one draw and adds its window to the bounds; a cue with no relation, mean or draw fails the whole timing |
| `TimingConfigurations.TimingConfiguration.MakeTimingsBasedOnMean` | src/simulator/configurables/TimingConfiguration.java:323-407 | the windows are the timings with every duration at its mean; nothing is consumed |
| `TimingConfigurations.TimingConfiguration.MeanOfMeansNow` | src/simulator/configurables/TimingConfiguration.java:278-290 | the mean of the cue means, in timesteps |
| `TimingConfigurations.TimingConfiguration.SetStimuli` | src/simulator/configurables/TimingConfiguration.java:816-842 | relations are keyed by exactly the given stimuli (existing ones keep theirs), the durations are set to the same stimuli, and the configuration is configured |
| `TimingConfigurations.TimingConfiguration.CheckFilled` | src/simulator/configurables/TimingConfiguration.java:155-164 | the configured flag is cleared when some stimulus of the phase has no relation, and is never set |
| `TimingConfigurations.TimingConfiguration.SetReinforced` | src/simulator/configurables/TimingConfiguration.java:787-793 | unreinforced forces US duration 0; becoming reinforced sets it to one timestep |
| `TimingSegments.FirstContext` | src/simulator/configurables/TimingConfiguration.java:466-500 | the first context among the cues, or none when there is none |
| `TimingSegments.Scene` | src/simulator/configurables/TimingConfiguration.java:466-500 | the windows scanned are the timings' windows other than the reserved keys, and the first context's; never a reserved key |
| `TimingSegments.Active` | src/simulator/configurables/TimingConfiguration.java:500-507 | the cues whose window holds the timestep |
| `TimingSegments.Dropped` | src/simulator/configurables/TimingConfiguration.java:531-556 | the predecessor's cues that pruning removes: all of them, or all but the contexts |
| `TimingSegments.PartsFromExact` | src/simulator/configurables/TimingConfiguration.java:531-556 | each pruned segment is a segment less its predecessor's dropped cues, and empty ones are deleted |
| `TimingSegments.PrunedShape` | src/simulator/configurables/TimingConfiguration.java:531-556 | pruning keeps the first segment and leaves no empty segment |
| `TimingSegments.PartsOfRepeats` | src/simulator/configurables/TimingConfiguration.java:730-732 | pruning a chain of one repeated set, contexts not spared, leaves nothing after the first segment |
| `TimingSegments.Prune` | src/simulator/configurables/TimingConfiguration.java:531-556 | the in-place pruning loop computes the pruning |
| `TimingSegments.LatestStart` | src/simulator/configurables/TimingConfiguration.java:527-529 | the record's start is the latest start among the last segment's cues and the current start |
| `TimingSegments.RecordChain` | src/simulator/configurables/TimingConfiguration.java:523-559 | a chain of more than one segment ending at the current timestep is recorded under its pruning, with a span from its latest start to that timestep, and the records keep their bounds |
| `TimingSegments.Sequence` | src/simulator/configurables/TimingConfiguration.java:466-568 | every recorded key is the pruning of a chain of more than one non-empty segment, each unlike the one before, and its span ends between the US onset and the end of the trial |
| `TimingSegments.Compound` | src/simulator/configurables/TimingConfiguration.java:666-772 | every recorded key is one set of more than one cue active together at some timestep |
| `PhaseStimuli.Letters` | src/simulator/SimPhase.java:1590-1637 | only letters name cues |
| `PhaseStimuli.SegmentCues` | src/simulator/SimPhase.java:1590-1637 | one elemental cue per letter of the segment, grouped by segment with timing per trial, and with index, group and position 0 without it |
| `PhaseStimuli.PhaseCues` | src/simulator/SimPhase.java:1590-1637 | with timing per trial each cue's group is its segment number; without it every index, group and position is 0 |
| `PhaseStimuli.SegmentCount` | src/simulator/SimPhase.java:1626-1634 | the occurrences of a letter in a segment are the cues of that name in the segment's group |
| `PhaseStimuli.SegmentIndexes` | src/simulator/SimPhase.java:1626-1634 | each cue's index counts the earlier occurrences of its letter in the same segment |
| `PhaseStimuli.PhaseIndexes` | src/simulator/SimPhase.java:1626-1634 | the same holds over the whole phase |
| `PhaseStimuli.SegmentNames` | src/simulator/SimPhase.java:1590-1622 | the segment's cues are named by its letters, in order |
| `PhaseStimuli.PhaseNames` | src/simulator/SimPhase.java:1590-1622 | the phase's cues are named by the letters of its segments, in order |
| `PhaseStimuli.JoinLetters` | src/simulator/SimPhase.java:1590-1622 | the letters of the joined segments are the segments' letters |
| `PhaseStimuli.StimuliAreLetters` | src/simulator/SimPhase.java:1590-1622 | `stringToCSList` gives one cue per letter of the whitespace-stripped phase, in order, each named by that letter |
| `PhaseStimuli.StringToCSList` | src/simulator/SimPhase.java:1590-1637 | the loop builds the cues of every `/` segment of the stripped phase |
| `PhaseStimuli.SegmentLoop` | src/simulator/SimPhase.java:1606-1627 | the inner loop makes exactly the segment's cues; with timing per trial the position advances by the segment's length, without it every index stays 0 |
| `SimPhases.Restricted` | src/simulator/SimPhase.java:455-474 | a restricted prediction is clamped at 0 from below; an unrestricted or non-negative one is unchanged |
| `SimPhases.UnreinforcedIgnoresUS` | src/simulator/SimPhase.java:455-474 | on a non-reinforced trial the US adds nothing and the error is scaled by beta− |
| `SimPhases.ReinforcementAddsLambda` | src/simulator/SimPhase.java:455-474 | while the US is on in a reinforced trial the error gains exactly lambda+·beta+ |
| `SimPhases.ErrorVanishesAtFixedPoint` | src/simulator/SimPhase.java:455-474 | without the US, and with a nonzero learning rate, the error is 0 iff gamma·P = P′ (both clamped when restricted) |
| `SimPhases.RestrictionInertOnNonNegative` | src/simulator/SimPhase.java:455-474 | restricting changes nothing when both predictions are non-negative |
| `SimPhases.Moved` | src/simulator/SimPhase.java:1300-1308 | moving one trial keeps the length and the multiset, and puts the trial at its new place |
| `SimPhases.TrialOrder.constructor` | src/simulator/SimPhase.java:127-130 | the order starts as given |
| `SimPhases.TrialOrder.Shuffle` | src/simulator/SimPhase.java:1300-1308 | the shuffle loop only relocates trials: the order stays a permutation of itself |
| `SimPhases.MaxMerged` | src/simulator/SimPhase.java:1125-1147 | over the new list's indices, each entry is the larger of the new entry and the existing one (0 when missing) |
| `SimPhases.MaxMergedIdempotent` | src/simulator/SimPhase.java:1125-1147 | merging the same list twice changes nothing more |
| `SimPhases.MergeMaxCues` | src/simulator/SimPhase.java:1125-1147 | the list's maxima are merged element-wise into an existing entry, or stored as they are for a new key |
| `PhaseLists.SymbolOf` | src/simulator/ProbeCueList.java:60-64 | a non-probe list's symbol is its stored symbol |
| `PhaseLists.SymbolOfObject` | src/simulator/CueList.java:300-302 | the value's symbol is the list's `getSymbol` |
| `PhaseLists.ValidInStep` | src/simulator/CueList.java:56-75 | a list's invariant carries over to its value |
| `PhaseLists.StoredInStep` | src/simulator/CueList.java:476-496 | storing a list value keeps it in step, adds one trial and rewinds the cursor |
| `PhaseLists.Store` | src/simulator/SimPhase.java:1518-1526 | exactly the lists whose symbol is current are stored and restarted; the others are untouched |
| `PhaseLists.StoreKeepsInStep` | src/simulator/SimPhase.java:1518-1526 | after `store` every list is still in step |
| `PhaseLists.Updated` | src/simulator/CueList.java:539-550 | updating a list value changes only its components, each by the list's update rule |
| `PhaseLists.UpdatedInStep` | src/simulator/CueList.java:539-550 | updating keeps a list in step |
| `PhaseLists.UpdateKeepsInStep` | src/simulator/SimPhase.java:1539-1555 | after `updateCues` every list is still in step |
| `PhaseLists.NamesOf` | src/simulator/SimPhase.java:1539-1555 | the distinct names of the cues |
| `PhaseLists.UpdateCues` | src/simulator/SimPhase.java:1539-1555 | every list named by some cue is updated exactly once; the others are untouched |
| `PhaseResets.LastByName` | src/simulator/SimPhase.java:1043-1070 | each non-compound name is mapped to one of its cue occurrences |
| `PhaseResets.ResetInactive` | src/simulator/SimPhase.java:1043-1070 | the lists of the cues whose symbol is not active are restarted, and the count is how many were |
| `PhaseResets.RewoundMapStep` | src/simulator/SimPhase.java:1043-1070 | restarting one more name restarts one more list |
| `PhaseResets.RewindNames` | src/simulator/SimPhase.java:1043-1070 | the loop over the names restarts exactly the inactive ones present, and counts them |
| `PhaseResets.CollectNames` | src/simulator/SimPhase.java:1043-1070 | the loop collecting the cue names builds the name map |
| `PhaseCompounds.NewCompoundList` | src/simulator/SimPhase.java:904-926 | a new compound list is empty, in step, and named by the compound |
| `PhaseCompounds.NextCueInStep` | src/simulator/CompoundCueList.java:44-55 | `nextCue` keeps a list in step and grows it by at most one component |
| `PhaseCompounds.WithAssoc` | src/simulator/SimPhase.java:904-926 | setting one component's weight changes nothing else |
| `PhaseCompounds.WithAssocInStep` | src/simulator/SimPhase.java:904-926 | and keeps the list in step |
| `PhaseCompounds.CompoundOf` | src/simulator/SimPhase.java:904-926 | the compound's list is the existing one, or a new compound list |
| `PhaseCompounds.AdvancedShape` | src/simulator/SimPhase.java:904-926 | the compound's next component takes the value and only it changes; the cursor and max component advance |
| `PhaseCompounds.MergeKeepsInStep` | src/simulator/SimPhase.java:904-926 | a merge keeps every list in step |
| `PhaseCompounds.MergeCues` | src/simulator/SimPhase.java:904-926 | with more than one active component, the compound named by their symbols gets a next component worth the sum of their weights; with one or none nothing changes |
| `PhaseCompounds.Dequeued` | src/simulator/SimPhase.java:939-979 | each non-empty queue loses exactly its head; empty ones stay empty |
| `PhaseCompounds.DequeuedTakesOneEach` | src/simulator/SimPhase.java:939-979 | dequeuing removes exactly one element per non-empty queue |
| `PhaseCompounds.MergeSerialCues` | src/simulator/SimPhase.java:939-979 | with an active cue, the serial compound's next component becomes min(1, its own weight + the heads of the non-empty queues) and each non-empty queue loses its head; with none nothing changes |
| `PhaseCompounds.TakeHeads` | src/simulator/SimPhase.java:939-979 | the loop sums the heads and dequeues them |
| `PhaseCompounds.SerialWeightCapped` | src/simulator/SimPhase.java:939-979 | a serial compound's weight never exceeds 1 |
| `PhaseCompounds.NewSerialCompoundTakesHeads` | src/simulator/SimPhase.java:939-979 | a new serial compound's own weight is 0, so its first component is the capped sum of the heads |
| `TrialStrings.DigitsOf` | src/simulator/SimGroup.java:197-224 | the repeat count is digits only |
| `TrialStrings.LettersOf` | src/simulator/SimGroup.java:197-224 | the cue names are letters only |
| `TrialStrings.ParseSegment` | src/simulator/SimGroup.java:197-224 | a segment is accepted iff it is allowed (digits, then letters, then at most one sign, `^` anywhere); then the repeat digits, probe flag, letters and sign are read; otherwise the scan stops at the first character not allowed where it stands |
| `TrialStrings.Rejected` | src/simulator/SimGroup.java:219-222 | a digit after a letter or sign, a letter after a sign, a second sign or an unknown character is refused |
| `TrialStrings.Accepted` | src/simulator/SimGroup.java:197-218 | a character the scan takes keeps the prefix allowed |
| `TrialStrings.AllowedShorter` | src/simulator/SimGroup.java:197-224 | every prefix of an allowed prefix is allowed |
| `TrialStrings.AcceptedLength` | src/simulator/SimGroup.java:197-224 | the longest allowed prefix is where the scan stops |
| `TrialStrings.RefusedAt` | src/simulator/SimGroup.java:197-224 | the scan stops exactly at the end of the longest allowed prefix |
| `TrialStrings.CanonicalAllowed` | src/simulator/SimGroup.java:197-224 | repeat digits, letters and an optional sign, in that order, are allowed |
| `TrialStrings.DigitAfterLetterRefused` | src/simulator/SimGroup.java:197-224 | "A2+" is refused |
| `GroupTrials.NewList` | src/simulator/SimGroup.java:204-214 | a new elemental cue list for a letter is empty, in step, with alpha 0 |
| `GroupTrials.WithListsAdds` | src/simulator/SimGroup.java:204-214 | every letter gets a list if absent; existing lists are untouched; nothing else is added |
| `GroupTrials.AddLists` | src/simulator/SimGroup.java:204-214 | the loop adds the lists of the letters |
| `GroupTrials.FindStringPos` | src/simulator/SimGroup.java:270-274 | the trial's start position in the phase string |
| `GroupTrials.StringPosLocates` | src/simulator/SimGroup.java:270-274 | the segment is found at its string position in the joined phase string |
| `GroupTrials.CountEarlier` | src/simulator/SimGroup.java:276-283 | counts the identical segments before this one |
| `GroupTrials.TrialNumGrows` | src/simulator/SimGroup.java:276-283 | a later repeat of a segment has a larger trial number |
| `GroupTrials.Repeat` | src/simulator/SimGroup.java:312-313 | n copies of the trial |
| `GroupTrials.CountsKept` | src/simulator/SimGroup.java:303-314 | each stimulus's trial count stays the number of its trials in the order |
| `GroupTrials.RepeatedName` | src/simulator/SimGroup.java:312-313 | n copies of a name hold it n times |
| `GroupTrials.Insert` | src/simulator/SimGroup.java:236-241 | inserting into a sorted name keeps it sorted with one more letter |
| `GroupTrials.SortedSet` | src/simulator/SimGroup.java:236-241 | the letters of a subset, sorted, each once |
| `GroupTrials.NameOneFinds` | src/simulator/SimGroup.java:246-262 | a compound's virtual name maps to it and is found again; naming twice changes nothing |
| `GroupTrials.NameOneDense` | src/simulator/SimGroup.java:246-262 | naming keeps the virtual names a gap-free run of the first qualifying characters from `a` (at most 58), and keeps existing names |
| `GroupTrials.NameCompound` | src/simulator/SimGroup.java:246-262 | the method names the compound as specified |
| `GroupTrials.NameAllFinds` | src/simulator/SimGroup.java:226-262 | every subset of more than one letter ends up named, and existing names are kept, while the mapping holds at most 58 virtual names |
| `GroupTrials.NameSubsets` | src/simulator/SimGroup.java:226-262 | the loop over the subsets names them as specified |
| `ConfiguralNames.Mapping.constructor` | src/simulator/SimModel.java:153 | the configural mapping starts empty |
| `ConfiguralNames.Mapping.Put` | src/simulator/SimGroup.java:258-259 | one key is set |
| `ConfiguralNames.KeysOf` | src/simulator/SimGroup.java:54-66 | the keys mapped to the value |
| `ConfiguralNames.KeyOf` | src/simulator/SimGroup.java:54-66 | nothing exactly when no key maps to the value |
| `ConfiguralNames.KeyOfFinds` | src/simulator/SimGroup.java:54-66 | the key found maps to the value and is the last such in key order; nothing iff no key maps to it |
| `ConfiguralNames.PutFound` | src/simulator/SimGroup.java:258-259 | a value just stored under a key is found under that key |
| `ConfiguralNames.GetKeyByValue` | src/simulator/SimGroup.java:54-66 | the loop returns the last key mapped to the value, or nothing |
| `ConfiguralNames.Visit` | src/simulator/SimGroup.java:54-66 | visiting one more key keeps the loop's result |
| `ConfiguralNames.ScanFrom` | src/simulator/SimGroup.java:342-346 | the scan stops at a qualifying character |
| `ConfiguralNames.NextVirtualName` | src/simulator/SimGroup.java:336-350 | the new name is `a` for an empty mapping, else the next qualifying character after the last key |
| `ConfiguralNames.QualifiesIff` | src/simulator/SimGroup.java:342-346 | a character qualifies iff it is a letter with a one-character capital: `a`–`z`, µ, the Latin-1 lower-case letters but ß, and the Greek lower-case letters but ΐ and ΰ (the Greek context symbols are upper case) |
| `ConfiguralNames.FreshNameNext` | src/simulator/SimGroup.java:336-350 | after a last key below ώ, the new name is the next qualifying character, it is not taken, and no qualifying character lies between them |
| `ConfiguralNames.ScanWithin` | src/simulator/SimGroup.java:342-346 | scanning from a code at most ώ stops at the first qualifying character at or after it, never past ώ |
| `ConfiguralNames.NextVirtual` | src/simulator/SimGroup.java:336-350 | the first 58 virtual names (`a`–`z`, µ, à–ö, ø–ÿ) follow one another with no qualifying character between them |
| `ConfiguralNames.FreshNameLower` | src/simulator/SimGroup.java:336-350 | every new name is a letter that `toUpperCase` changes and that is no context symbol |
| `ConfiguralNames.PowerSetMembers` | src/simulator/SimGroup.java:77-94 | the power set holds exactly the subsets of the set |
| `ConfiguralNames.PowerSetSize` | src/simulator/SimGroup.java:77-94 | the power set of n distinct elements has 2^n members, the empty set and the set itself included |
| `ConfiguralNames.Subsequences` | src/simulator/SimGroup.java:77-94 | there are 2^n subsequences |
| `ConfiguralNames.SubsequencesEnumerate` | src/simulator/SimGroup.java:77-94 | the subsequences enumerate exactly the power set |
| `ConfiguralNames.SubsequencesSorted` | src/simulator/SimGroup.java:77-94 | each subsequence of a sorted list is strictly increasing and holds only letters of that list |
| `SimGroups.ReadOf` | src/simulator/SimGroup.java:197-224 | a segment reads successfully iff it is allowed, and its repeat count is digits |
| `SimGroups.ReadOfLetters` | src/simulator/SimGroup.java:204-214 | every letter of an allowed segment is among the letters it names |
| `SimGroups.ScanStaysRefused` | src/simulator/SimGroup.java:219-222 | after a refused segment the parse returns false and reads nothing more |
| `SimGroups.ScanOkIff` | src/simulator/SimGroup.java:186-224 | the parse succeeds iff every segment reads |
| `SimGroups.ScanOkIffAllowed` | src/simulator/SimGroup.java:186-224 | `addPhase` returns true iff every `/` segment is allowed |
| `SimGroups.ScanOrderLength` | src/simulator/SimGroup.java:303-314 | the order's length is the sum of the repeat counts, each 1 by default |
| `SimGroups.ScanKeepsLists` | src/simulator/SimGroup.java:204-214 | lists already in the group are never replaced while reading |
| `SimGroups.ScanListsLetters` | src/simulator/SimGroup.java:204-214 | after a successful reading every letter read has a list |
| `SimGroups.StepKeepsLists` | src/simulator/SimGroup.java:204-214 | reading one segment keeps the lists and adds its letters' |
| `SimGroups.EveryLetterListed` | src/simulator/SimGroup.java:156-214 | after a successful parse every letter of the upper-cased sequence has an elemental list; existing lists are untouched |
| `SimGroups.LettersOfHas` | src/simulator/SimGroup.java:204-214 | each letter of a segment is in its letters |
| `SimGroups.ScanCounts` | src/simulator/SimGroup.java:296-314 | each stimulus's trial count is the number of its trials in the order, and its name is its cue names then `+` or `-` |
| `SimGroups.StepCounts` | src/simulator/SimGroup.java:296-314 | reading one segment keeps those counts and names |
| `SimGroups.SequenceListsFresh` | src/simulator/SimGroup.java:323-362 | each serial or compound sequence gets a fresh list under its single-letter virtual name |
| `SimGroups.NameSequences` | src/simulator/SimGroup.java:323-362 | the loop over the sequences names them as specified |
| `SimGroups.NoRunsIff` | src/simulator/SimGroup.java:542-552 | no extra runs are needed iff no phase is random or has variable durations |
| `SimGroups.FixedTrials` | src/simulator/SimGroup.java:727-735 | without random phases or variable durations, the trial count is the sum of the orders' lengths |
| `SimGroups.ConfiguralCueIff` | src/simulator/SimGroup.java:412-414 | a cue name is configural iff it holds a character `toUpperCase` changes: a lower-case letter with a capital, ASCII, Latin-1 or Greek, or one of ß, ΐ, ΰ that upper-case to several characters |
| `JavaString.ToUpperUnchanged` | src/simulator/SimGroup.java:412-414 | `toUpperCase` leaves a string unchanged iff none of its characters has a capital or expands |
| `SimGroups.SimGroup.constructor` | src/simulator/SimGroup.java:124-132 | a new group has no cues, no phases and no random phase |
| `SimGroups.SimGroup.AddPhase` | src/simulator/SimGroup.java:151-368 | the result is the parse of the upper-cased `/` segments: on refusal false, with the lists already added kept and no phase added; on success the phase with its order and stimuli is appended, serial or configural sequences get named lists, and the random flag is or-ed in |
| `SimGroups.SimGroup.FinishPhase` | src/simulator/SimGroup.java:323-366 | when sequences are named, the group's lists gain the sequences' fresh lists and the mapping their names; the phase is appended and the random flag or-ed in |
| `SimGroups.SimGroup.AddSegments` | src/simulator/SimGroup.java:186-314 | the segment loop computes the parse |
| `SimGroups.SimGroup.ReadSegment` | src/simulator/SimGroup.java:186-314 | one segment advances the parse by one step |
| `SimGroups.AppendCopies` | src/simulator/SimGroup.java:312-313 | `noStimRep` copies of the trial are appended |
| `SimGroups.SimGroup.NumRandom` | src/simulator/SimGroup.java:542-552 | the sum over phases of the combination count when random, replaced by max(that, 1)·varComb with variable durations |
| `SimGroups.SimGroup.TrialCount` | src/simulator/SimGroup.java:727-735 | the sum over phases of trials times their multipliers |
| `SimModels.VirtualChars` | src/simulator/SimModel.java:269-304 | the characters between 96 and 900 exclusive; none iff no character lies in that range |
| `SimModels.InterfaceName` | src/simulator/SimModel.java:269-304 | a name with no virtual character is unchanged; a single virtual letter k becomes "c(" + its compound + ")" |
| `SimModels.CueName2InterfaceName` | src/simulator/SimModel.java:269-304 | the scanning loop computes the interface name |
| `SimModels.FirstKey` | src/simulator/SimModel.java:418-430 | a key of the map, nothing exactly for an empty map |
| `SimModels.GetKey` | src/simulator/SimModel.java:418-430 | the first key in order whose value matches, or the last key when none does, or nothing for an empty map |
| `SimModels.FirstKeyEnd` | src/simulator/SimModel.java:418-430 | the loop's result is the specified key |
| `SimModels.UniqueKey` | src/simulator/SimModel.java:418-430 | a key with a unique value is found by both lookups |
| `SimModels.CueName` | src/simulator/SimModel.java:516-529 | a name without `(` or `[` is unchanged |
| `SimModels.InterfaceName2CueName` | src/simulator/SimModel.java:516-529 | the translation back to a cue name, with the compound case corrected |
| `SimModels.VirtualCueRoundTrip` | src/simulator/SimModel.java:283-288 | a single virtual letter whose compound is unique translates back to itself |
| `SimModels.RemoveLast` | src/simulator/SimModel.java:289-300 | removing a trailing character that occurs nowhere else leaves the rest |
| `SimModels.CompoundInterfaceName` | src/simulator/SimModel.java:289-300 | a compound's letters followed by its virtual letter display as "[" + letters + "]" |
| `SimModels.CompoundRoundTrip` | src/simulator/SimModel.java:516-529 | with the corrected substring, a compound's display translates back to the compound's letters and its virtual letter |
| `SimModels.CompoundRoundTripAsWritten` | src/simulator/SimModel.java:521-525 | as written, "[AB]" translates to "Ab", losing the last letter |
| `SimModels.Fallback` | src/simulator/SimModel.java:926-945 | an empty cell has a phase-1 fallback exactly for parameter rows (names holding beta±, lambda±, gamma, delta or ω); beta+ and beta− fall back to "beta+ p1", lambda+ to "lambda+ p1" |
| `SimModels.AlphaKeysCount` | src/simulator/SimModel.java:325-451 | the number of alpha keys is the number of keys less those containing "lambda" or "beta" |
| `SimModels.IndexOf` | src/simulator/SimModel.java:816-819 | the first position of an element, or the length when it is absent |
| `SimModels.RemoveFirstNoDuplicates` | src/simulator/SimModel.java:816-819 | removing from a list without duplicates removes the element and nothing else |
| `SimModels.SimModel.constructor` | src/simulator/SimModel.java:144-178 | a new model has no values, no cue names, no context and an empty configural mapping |
| `SimModels.SimModel.GetAlphaCues` | src/simulator/SimModel.java:325-334 | exactly the entries whose key holds neither "lambda" nor "beta", with their values |
| `SimModels.SimModel.GetNumberAlphaCues` | src/simulator/SimModel.java:442-451 | the count equals the size of `getAlphaCues` |
| `SimModels.SimModel.AddCueNames` | src/simulator/SimModel.java:189-200 | every list's symbol gets value 0 and is added to the cue names once; the names never duplicate; it fails exactly when some probe symbol throws |
| `SimModels.SimModel.SetUseContext` | src/simulator/SimModel.java:812-821 | on adds Ω (`Simulator.OMEGA`) once if absent, off removes it; afterwards Ω is listed iff on, and nothing else changes |
| `SimModels.SimModel.UpdateValues` | src/simulator/SimModel.java:922-967 | an empty value copies the phase-1 fallback; a malformed one changes nothing; a parameter is stored under name + " pN"; a one-letter name under itself; a `c(…)` name under its virtual key |
| `SimModels.AddedSoFar` | src/simulator/SimModel.java:189-200 | the names added so far extend the old list with symbols only |
| `SimModels.AddCueStep` | src/simulator/SimModel.java:189-200 | adding one symbol keeps the added-names invariant |
| `SimModels.SymbolsStep` | src/simulator/SimModel.java:189-200 | one more list adds its symbol |
| `TimeMessages.RoundQuarter` | src/simulator/SimController.java:75 | `Math.round(x / 15.0)` for whole minutes x ≥ 0 is (2x + 15) / 30 |
| `TimeMessages.QuarterRounding` | src/simulator/SimController.java:69-79 | the hours and minutes are the whole minutes rounded to the nearest quarter hour, 60 rolling into the next hour |
| `TimeMessages.UnderAMinute` | src/simulator/SimController.java:80-98 | under a minute, and for any negative time, the message is "Under a minute remaining" |
| `TimeMessages.AboutAMinute` | src/simulator/SimController.java:91-92 | from one to two minutes the message is "About a minute remaining" |
| `TimeMessages.AboutMinutes` | src/simulator/SimController.java:94-97 | from 2 to 52 whole minutes the message counts them |
| `TimeMessages.AboutAnHour` | src/simulator/SimController.java:75-82 | from 53 to 67 whole minutes the message is "About an hour remaining" |
| `TimeMessages.WholeHours` | src/simulator/SimController.java:83-86 | a time that rounds to H ≥ 2 whole hours gives "About H hours remaining" |
| `TimeMessages.HoursAndMinutes` | src/simulator/SimController.java:87-90 | otherwise past the hour the message gives the hours and M minutes, with M 15, 30 or 45 |

## Left out

- Floating point: doubles are exact `real`s, so IEEE rounding, infinities
  and NaN are not modelled. A Mondragon denominator of 0 is "no value"
  instead of an infinity.
- `Math.round` is floor(x + 1/2); the cast of its result to `int` or `long`
  has no width.
- Random draws are inputs: the exponential draw with its logarithm, the
  uniform draw, `Collections.shuffle`, `SimCue.makeResponse` thresholds,
  `Random.nextInt` in the shuffle loop, and the seed-dependent generators.
- The geometric mean uses `Math.pow` and is an input to the build.
- The clock reading that fixes the seeds is a parameter.
- Globals read through the controller and the model are parameters.
- `VariableDistributions.GetDistribution`: the seed argument of the
  five-argument overload is ignored by the constructors, which reseed from
  the process-wide seed, so the model takes no seed. The class-wide `SEED`
  of the four-argument overload is therefore not modelled.
- `OnsetConfigs.OnsetConfig.Advance`: when some entry has no stored shuffle
  left, the model says only that the call fails. Which entries advanced
  before the exception depends on `HashMap` order and is not stated.
- `OnsetConfigs.OnsetConfig.SetStimuli`: durations are held by value, so
  the aliasing between the configuration and the static default table is
  not modelled.
- `OnsetConfigs.FillCovers` assumes that no two listed stimuli collide
  under the legacy name mapping of `setStimuli`.
- `TimingConfigurations.TimingConfiguration.SetStimuli`: it relies on the
  same collision-free hypothesis.
- `TimingSegments.Sequence`: segments are sets and records keep the pruned
  chain. The model states the shape of each record (a pruned chain of more
  than one changing, non-empty segment, within the trial). It does not
  state the exact set of records, nor the list order `Collections.sort`
  gives inside a segment.
- `TimingSegments.Compound`: the model states the shape of each record,
  not the exact set of records.
- `SimPhases.TrialOrder.Shuffle`: the model proves the permutation only;
  the exact positions follow the drawn indexes. The requirement
  `trials ≤ size` stands for the exception `get(x)` would throw.
- `TimingWindows.CueWindow` and the rest of the timing model require a
  positive timestep size, which the source assumes throughout.
- `TimingConfiguration.checkFilled` takes a trial string it does not use
  beyond its stimuli.
- `TimingConfiguration.readObject` and its editor hooks are serialization
  and GUI plumbing.
- The timing sequences and compounds that `addPhase` asks of its timing
  configuration are the parameter `realNames`.
- `TimingConfiguration.setTrials`, `restartOnsets` and the ITI handling in
  `addPhase` are not repeated there.
- `SimGroups.SimGroup.AddPhase`: `Integer.parseInt` of a long repeat count
  would overflow; the model reads the count unbounded.
- `SimGroups.SimGroup.AddPhase`: the non-serial configural compounds go
  through `HashSet` order before they are sorted. The model sorts their
  letters, and their lists are not added, as in the source.
- `SimGroups.SimGroup.AddPhase`: the phase object is a record of the
  sequence, order, stimuli and flags. `SimPhase` construction
  (`addPhaseToList`) and `SimStimulus` are not part of this model.
- `JavaString.IsDigit` covers the ASCII digits and `JavaString.IsLetter`
  the ASCII, Latin-1 and Greek letters; the rest of Unicode's letters and
  digits are not modelled.
- `JavaString.UpperChar` maps ASCII, Latin-1 and the modern Greek
  lower-case letters to their capitals; the Greek symbol variants from
  U+03D0 on and every other script are left unchanged.
- `ConfiguralNames.QualifiesIff` is proved for the characters those two
  cover.
- `ConfiguralNames.FreshNameNext`: from the 59th virtual name on, the source
  takes the Latin Extended-A lower-case letters (ā, ă, …), which the model
  does not know as letters, so the model goes on with ά … ώ instead.
- `ConfiguralNames.FreshName`: past ώ the model's scan wraps round the
  16-bit character range back to `a`, which is taken, so that name is
  overwritten; the source goes on through the rest of Unicode.
- `GroupTrials.NameOneDense` and `GroupTrials.NameAllFinds` are stated for
  the first 58 virtual names, where model and source agree.
- `Contexts.ContextConfig.MakeEmpty` builds a fresh empty configuration,
  where the source hands out one shared static empty instance; the sharing
  is not modelled.
- `SimCues.SimCue`: the legacy `trace` list of past trace values is not
  kept; only the current trace value is.
- `SimModels.CueName2InterfaceName`: `replaceAll` takes the configural
  letters as a regular expression. The model removes them literally, which
  differs only for regex metacharacters, and those never occur among
  virtual names.
- `SimModels.SimModel.UpdateValues`: the text-to-number conversion is the
  input `Cell` (empty, a number, or malformed).
- `SimModels.FirstKey` picks the first key in key order, as the model's
  sorted map iterates; the source iterates its `TreeMap` the same way.
- `SimModels.SimModel.AddCueNames`: the cue lists of a group are visited in
  an arbitrary order, so when a probe symbol throws, how many names were
  added before is not stated.
- `PhaseLists.NamesOf`: names of the reserved keys (US, spans, ω) carry no
  cue name and are not collected.
- `CueLists.CueList.Update`: the working weight change is compared with
  `eps`, which stands for `Double.MIN_VALUE`.
- The averaging of weight and response vectors in `runningRandomTotal` and
  `reconstitute` is left out. It rests on parallel array operations whose
  code is not part of this model.
- The whole-trial loop of `SimPhase.algorithm` and `runSimulator` is left
  out; its steps are modelled one by one.
- `CueList.getPresence`, `weightedSum`, the deprecated
  `getAverageResponse(double, int)` and `remakeResponses` depend on the
  controller or on random responses.
- Threads, the GUI, export and file persistence are out of scope.

## Findings

| source | as written | input that shows it | evidently intended | confidence | as-written member | corrected member |
|---|---|---|---|---|---|---|
| src/simulator/SimModel.java:521-525 | `"[AB]"` is read back with `substring(1, length - 2)`, which drops the last compound letter before looking up the virtual name | mapping {b → "AB"}: `cueName2InterfaceName("ABb")` is "[AB]", and `interfaceName2cueName("[AB]")` gives "Ab" | the compound's letters and its virtual letter, "ABb", as the method's own comment says | not executed | `SimModels.CompoundRoundTripAsWritten` | `SimModels.CompoundRoundTrip` |
| src/simulator/configurables/TimingConfiguration.java:308-318 | the whole-trial window ends at −minStart + max(usDuration, maxEnd), mixing the US duration in seconds with window ends in timesteps | one simultaneous cue of mean 1, US duration 2, timestep 0.1: the US window is [0, 20) but the whole-trial window is [0, 10) | the US duration in timesteps, so that the trial window contains the US and every cue | not executed | `TimingWindows.TotalEndCutsUS` | `TimingWindows.CorrectedTotalContainsAll` |
