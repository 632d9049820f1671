# HC-05 / HC-06 setup and pairing core, modelled in Dafny

This project models the engine of an HC-05/HC-06 Bluetooth module setup tool.
The tool talks to a module in AT-command mode over a serial port. It does three things:

- it detects the module, trying a fixed list of serial profiles;
- it configures a single module (name, pin, data-mode rate, role);
- it pairs two modules. A slave phase configures the slave and reads its address. A master phase
  configures an HC-05 master and binds it (and optionally links it) to that address.

The pairing phases build ordered plans of AT steps. The operator can tune them interactively,
and a plan is run step by step against a shared pairing context.
The setup wizard also turns the pairing flags into a saved profile dictionary and back, and
overlays command-line options on a loaded profile.

The serial port, the cancellation signal and port opening are one oracle, `Exchange.World`.
It is a set of functions of the events that happened so far on the link:

- reading the cancellation signal (`Polled`);
- opening a port at a rate (`Opened`);
- writing a payload (`Wrote`). The reply to a write is either a write fault or the reply text.

Routines that work step by step are methods over an `Exchange.Io` object that records the event
trace. They are:

- `send_command`, `detect_module`, `configure_hc05`, `configure_hc06` and `run_setup`;
- `_execute_step`, `_run_plan_on_port`, `_interactive_tune` and `run_pair`;
- the profile overlay.

Each such method is proved equal to a pure function of the world and the trace before it. The
properties are proved as lemmas about those functions. The plan builders, the address parser and
the profile conversions are pure, and are modelled as functions.

Modules, one per file:

- `Wrappers`: `Option` and `Result`.
- `Text`: the Python string operations the core uses (strip, split, upper/lower, digits, number formatting, ordering).
- `Address`: `parse_addr_response` and the per-line address scan.
- `Exchange`: the link oracle, `send_command` and `detect_module`.
- `Plans`: `Step`, `PairFlags`, `_should_include_step` and the two plan builders.
- `Executor`: `PairContext`, `_execute_step`, `_inquire_addresses` and `_run_plan_on_port`.
- `Tuning`: `_interactive_tune`.
- `Pairing`: `run_pair`.
- `Setup`: `configure_hc05`, `configure_hc06` and `run_setup`.
- `Profiles`: `_parse_skip_steps`, `_flags_to_dict`, `_flags_from_data` and the `handle_pair` overlay.

Behaviour kept as the code has it:

- In mode two a dry run reports failure. No step runs, so the link flag stays unset while a link is required (`Pairing.PairDryRunModeTwo`).
- A set cancellation signal fails even an optional step (`Executor.ExecOptionalPolicy`).
- `configure_hc06` sends the name and pin before it refuses a rate missing from the HC-06 table (`Setup.SetupHC06RenamesBeforeRefusing`). The slave plan builder refuses such a rate before anything is sent (`Plans.SlavePlanFails`).

## Model

| member | source | states |
|---|---|---|
| Text.Upper | tools/hc_core.py:140 | each character is upper-cased, in place (ASCII letters) |
| Text.Lower | tools/hc_setup_wizard.py:89 | each character is lower-cased, in place (ASCII letters) |
| Text.TrimLeft | tools/hc_setup_wizard.py:89 | removes exactly the leading whitespace run, using Python's whitespace set |
| Text.TrimRight | tools/hc_setup_wizard.py:89 | removes exactly the trailing whitespace run |
| Text.Strip | tools/hc_setup_wizard.py:89 | the result is the slice of the input left between a leading and a trailing whitespace run, and neither starts nor ends with whitespace: only the two outer runs go |
| Text.SplitJoin | tools/hc_setup_wizard.py:89 | splitting on a separator and joining with it gives the input back |
| Text.Lines | tools/hc_core.py:742 | no line holds a line-break character |
| Text.NatToStringValue | tools/hc_core.py:590 | the decimal text of n reads back as n |
| Text.NatToStringInjective | tools/hc_core.py:590 | distinct numbers print differently, so extra-step ids are distinct |
| Text.LexLeqTotal | tools/hc_setup_wizard.py:99 | the string order `sorted` uses is total |
| Text.LexLeqAntisymmetric | tools/hc_setup_wizard.py:99 | the string order is antisymmetric |
| Text.LexLeqTransitive | tools/hc_setup_wizard.py:99 | the string order is transitive |
| Address.FirstMatchFrom | tools/hc_core.py:163 | finds the first 4:2:6 hex-run position at or after i, or shows there is none |
| Address.ParseAddrResponse | tools/hc_core.py:156-169 | None exactly when no 4-hex:2-hex:6-hex run occurs anywhere (either case); otherwise the address at the leftmost run |
| Address.ParseAtLeftmost | tools/hc_core.py:163-169 | the leftmost run decides the result |
| Address.ParseEmbedded | tools/hc_core.py:163-169 | three hex groups embedded after text holding no earlier run come back with their own case, as both colon and comma forms |
| Address.ParseIdempotent | tools/hc_core.py:167-169 | parsing the colon form of a parsed address gives the same address |
| Address.AddrsInLines | tools/hc_core.py:741-746 | at most one address per line |
| Address.CollectAddrs | tools/hc_core.py:741-746 | the loop over the lines of the scan buffer collects each line's parsed address, in line order |
| Address.LineScanAgrees | tools/hc_core.py:741-746 | the first address the line scan finds is the address the parser finds in the whole buffer |
| Address.FirstLineWins | tools/hc_core.py:741-746 | an address on the first line is the buffer's address |
| Address.RestWins | tools/hc_core.py:741-746 | with no address on the first line, the buffer's address is that of the remaining lines |
| Exchange.Ascii | tools/hc_core.py:124 | the encoded command keeps exactly the ASCII characters |
| Exchange.Send | tools/hc_core.py:101-149 | `send_command` as a function of the link's behaviour and history; its outcome is proved in AttemptsOutcome and AttemptsWrites |
| Exchange.Attempts | tools/hc_core.py:116-149 | the retry loop only appends to the link's history |
| Exchange.AttemptsWrites | tools/hc_core.py:116-133 | the loop only reads the signal and writes its one payload, at most `retries` times |
| Exchange.AttemptsContinueOnlyOnRejection | tools/hc_core.py:139-147 | a new attempt starts only after a completed attempt's reply was rejected |
| Exchange.AttemptsOutcome | tools/hc_core.py:113-149 | success exactly when the last event is a write whose reply arrived and is accepted (contains OK, or OK not expected); the response is that reply; `retries` <= 0 gives (False, "") and touches nothing |
| Exchange.AnyReplyAccepted | tools/hc_core.py:113-143 | when OK is not expected, a failed exchange has an empty response: every reply that arrives is accepted |
| Exchange.SendCommand | tools/hc_core.py:101-149 | the loop's result and the link's new history are those of `Send` |
| Exchange.SendOpensNothing | tools/hc_core.py:101-149 | sending a command never opens a port |
| Exchange.Classify | tools/hc_core.py:215-217 | HC-05 exactly when the upper-cased ROLE? reply contains ROLE |
| Exchange.Candidates | tools/hc_core.py:179 | an empty profile list means the four default profiles |
| Exchange.DetectFrom | tools/hc_core.py:180-222 | detection only appends to the link's history; which profile it settles on is proved in DetectFirstAcknowledged |
| Exchange.Detect | tools/hc_core.py:172-222 | `detect_module` over `profiles or DETECTION_PROFILES` |
| Exchange.DetectFirstAcknowledged | tools/hc_core.py:179-222 | a module is reported exactly when some probe has AT acknowledged after every earlier probe reached the module and had AT refused; the report then carries that probe's profile and the family its AT+ROLE? reply shows; nothing is reported exactly when every probe was refused, or a probe was cancelled or could not open the port after the earlier ones were refused |
| Exchange.DetectResult | tools/hc_core.py:180-217 | a detection names one of the profiles tried and the family its ROLE? reply shows |
| Exchange.DetectPollsFirst | tools/hc_core.py:180-183 | detection reads the cancellation signal before anything else |
| Exchange.DetectOpensInOrder | tools/hc_core.py:180-204 | the rates opened are a prefix of the profile list, in order |
| Exchange.DetectStopsAtOpenFailure | tools/hc_core.py:219-221 | no failed open is followed by any further event: a failed open ends detection |
| Exchange.DetectOpensOnlyPort | tools/hc_core.py:186-192 | detection opens only the given port |
| Exchange.DetectModule | tools/hc_core.py:172-222 | the probing loop's result and history are those of `Detect` |
| Plans.ShouldInclude | tools/hc_core.py:501-508 | refuses exactly a skipped critical step while basic is on, naming it; otherwise keeps a step iff it is not a disabled basic step and not skipped |
| Plans.Kept | tools/hc_core.py:582-585 | keeps only steps of the list that pass the filter |
| Plans.FilterMeaning | tools/hc_core.py:582-585 | the filter fails iff some step is refused, reporting the first refused step; otherwise it keeps exactly the included steps |
| Plans.KeptAppend | tools/hc_core.py:582-585 | filtering distributes over concatenation |
| Plans.KeptIdsFollowOrder | tools/hc_core.py:582-585 | the ids kept are the candidate ids, in order, that are present and included |
| Plans.PresentBlocks | tools/hc_core.py:582-585 | a built list is refused iff one of its present candidates is |
| Plans.ExtraSteps | tools/hc_core.py:587-598 | one step per extra command, id extra-role-k from 1, optional, OK not expected, category extra |
| Plans.ExtraStepIds | tools/hc_core.py:587-598 | the extra steps' ids are extra-role-1 .. extra-role-n |
| Plans.FinishMeaning | tools/hc_core.py:582-600 | refused iff a present step is refused; otherwise the kept candidate ids in order, then the extras, never filtered |
| Plans.SlavePlan | tools/hc_core.py:524-600 | `build_slave_plan`: the HC-06 rate check, the slave candidates, the filter and the extras; its meaning is proved in SlavePlanOrder and SlavePlanFails |
| Plans.SlaveCandidatesWanted | tools/hc_core.py:536-580 | the slave candidates are at, orlg, role0, name, pin, uart, addr, each present under the documented condition |
| Plans.SlavePlanOrder | tools/hc_core.py:524-600 | a built slave plan is the wanted ids in that fixed order, then extra-slave-1.. |
| Plans.SlaveCandidatesBlock | tools/hc_core.py:536-580 | with the basic steps on and the HC-06 rate mapped, skipping at, uart, role0 (HC-05) or a required addr (HC-05) is what refuses the slave plan |
| Plans.SlavePlanFails | tools/hc_core.py:536-585 | the slave plan fails iff basic is on and the HC-06 rate is unmapped or a critical step is skipped; the rate error is reported exactly for the unmapped rate |
| Plans.SlaveCandidatesDocumented | tools/hc_core.py:536-580 | every present slave step has the documented command, criticality, retries and reply rule |
| Plans.SlavePlanSteps | tools/hc_core.py:533-598 | every step of a built slave plan is a documented slave step or an extra command step |
| Plans.MasterPlan | tools/hc_core.py:603-708 | `build_master_plan`: the family check, the master candidates, the filter and the extras; its meaning is proved in MasterPlanOrder and MasterPlanFails |
| Plans.MasterSetupWanted | tools/hc_core.py:620-630 | at, role1, cmode, name, pin, uart are present under the documented conditions |
| Plans.MasterLinkWanted | tools/hc_core.py:632-688 | rmaad, init, inq, pair, bind, link, reset are present under the documented conditions |
| Plans.MasterCandidatesWanted | tools/hc_core.py:620-688 | the master candidates come in the documented order, each present iff wanted |
| Plans.MasterPlanOrder | tools/hc_core.py:603-708 | a built master plan is the wanted ids in the fixed order, then extra-master-1.. |
| Plans.MasterCandidatesBlock | tools/hc_core.py:620-688 | with the basic steps on, skipping at, role1, cmode, uart, bind, a needed inq or a required link refuses the master plan |
| Plans.MasterPlanFails | tools/hc_core.py:614-693 | the master plan fails iff the module is not an HC-05 or a critical step is skipped with basic on; the family error is reported exactly for a non-HC-05 |
| Plans.MasterCandidatesDocumented | tools/hc_core.py:620-688 | every present master step has the documented command, with the comma address or the {addr} placeholder |
| Plans.MasterPlanSteps | tools/hc_core.py:617-706 | every step of a built master plan is a documented master step or an extra command step |
| Plans.MasterPlanBinds | tools/hc_core.py:664-686 | with basic on, a built master plan has a critical bind step, and a critical link step when a link is required |
| Executor.PairContext.constructor | tools/hc_core.py:463-467 | a new context has no address and neither outcome set |
| Executor.InquireAddresses | tools/hc_core.py:711-746 | writes AT+INQ once; the addresses are those parsed line by line from the reply, none on a write fault |
| Executor.SendWithFallback | tools/hc_core.py:795-815 | the second spelling is sent only when the first is refused |
| Executor.Inquire | tools/hc_core.py:767-781 | the inq step after the cancellation check; proved in InquireKnown and InquireStores |
| Executor.Filled | tools/hc_core.py:784-789 | the step's command with `{addr}` replaced by the known address in comma form |
| Executor.ExecCommand | tools/hc_core.py:791-911 | a command step after the cancellation check and the address; proved in ExecOptionalPolicy, ExecAddrStep and ExecContext |
| Executor.Exec | tools/hc_core.py:749-911 | `_execute_step` as a function of the link, the context and the step |
| Executor.RunSteps | tools/hc_core.py:937-953 | the step loop, stopping at the first failure; proved in RunStepsAppend, RunStepsGuarantees and RunStepsExtends |
| Executor.RunPlan | tools/hc_core.py:914-956 | `_run_plan_on_port`; proved in RunPlanEffects |
| Executor.InquireStep | tools/hc_core.py:767-781 | the scan step's result and context are those of `Inquire` |
| Executor.RunCommandStep | tools/hc_core.py:783-911 | a command step's result, context and history are those of `ExecCommand` |
| Executor.ExecuteStep | tools/hc_core.py:749-911 | a step's result, context and history are those of `Exec` |
| Executor.RunPlanOnPort | tools/hc_core.py:914-956 | the loop's result, context and history are those of `RunPlan` |
| Executor.ExecOptionalPolicy | tools/hc_core.py:763-909 | an optional step fails iff the signal is set, its {addr} has no address, or its HC-06 rate is unmapped |
| Executor.ExecRefusals | tools/hc_core.py:763-787 | a set signal fails the step before any I/O; a missing address fails an {addr} step and leaves the context alone |
| Executor.InquireKnown | tools/hc_core.py:767-770 | with an address known, the scan step succeeds without writing |
| Executor.InquireStores | tools/hc_core.py:771-781 | a successful scan writes AT+INQ once and stores one of the addresses it found |
| Executor.ExecAddrStep | tools/hc_core.py:862-883 | past the cancellation check and with its address known, the addr step sends its command accepting any reply; it succeeds exactly when it is not critical or the reply holds an address, and an address read from the reply is stored while the context is otherwise unchanged; a critical one that succeeds read it from a reply that arrived |
| Executor.ExecContext | tools/hc_core.py:779-901 | a step never clears the context; only a successful bind or link step sets its flag; only addr and scan steps change the address; a bind or link step that gets past the cancellation check and the address, optional or not, sets its flag exactly when its exchange is accepted, succeeds when accepted or optional, and changes nothing else in the context |
| Executor.RunStepsAppend | tools/hc_core.py:937-952 | running a + b runs b after a only when a succeeded |
| Executor.ExecGuarantees | tools/hc_core.py:749-911 | a succeeded step leaves what it promises: the bind or link flag, the address |
| Executor.RunStepsGuarantees | tools/hc_core.py:937-953 | a plan that succeeds leaves every step's promise in the context; the context is never cleared |
| Executor.RunStepsExtends | tools/hc_core.py:937-953 | running steps only appends to the history |
| Executor.RunPlanEffects | tools/hc_core.py:928-956 | a dry run succeeds touching nothing; otherwise the port is opened at the profile rate first, and success leaves every step's promise |
| Tuning.Console.ReadLine | tools/hc_core.py:966 | reads the next line, nothing when the operator has stopped typing |
| Tuning.BasicSteps | tools/hc_core.py:960 | exactly the basic-category steps, and no more steps than the plan has |
| Tuning.BasicStepsOrder | tools/hc_core.py:960 | the basic steps of `a + b` are those of `a` followed by those of `b`, and a single step counts exactly when it is basic: the plan's order, which the skip numbers index |
| Tuning.SkipByNumbersMeaning | tools/hc_core.py:987-997 | an id is skipped after the answer iff it was before or a token numbers a non-critical basic step with that id |
| Tuning.SkipAnswerAdjusts | tools/hc_core.py:985-997 | the skip answer only adds ids of non-critical numbered steps |
| Tuning.ReadExtras | tools/hc_core.py:974-979 | reading extras consumes at least one line |
| Tuning.ReadExtrasRest | tools/hc_core.py:974-979 | the lines left after the extras are a suffix of the answers |
| Tuning.ApplyAdjusts | tools/hc_core.py:969-997 | a round only makes allowed adjustments and consumes lines |
| Tuning.Apply | tools/hc_core.py:969-997 | one round of the dialogue: the a/b/c/d choice and its answer; proved in ApplyAdjusts |
| Tuning.TuneFrom | tools/hc_core.py:964-1000 | the rounds until the operator stops; proved in TuneFromAdjusts |
| Tuning.Tune | tools/hc_core.py:959-1001 | `_interactive_tune` over the plan's basic steps; proved in TuneAdjusts |
| Tuning.TuneFromAdjusts | tools/hc_core.py:964-1000 | the whole dialogue only makes allowed adjustments: skips grow by non-critical numbered ids, basic only goes off, extras only appended to the phase's own list |
| Tuning.TuneAdjusts | tools/hc_core.py:959-1001 | the same for `_interactive_tune`, with the skipped ids among the plan's non-critical basic steps |
| Tuning.InteractiveTune | tools/hc_core.py:959-1001 | the dialogue loop's flags and lines left are those of `Tune` |
| Tuning.AdjustRound | tools/hc_core.py:969-997 | one round's flags and lines left are those of `Apply` |
| Tuning.ReadExtrasLoop | tools/hc_core.py:974-979 | the extra-command loop reads what `ReadExtras` reads |
| Pairing.Validate | tools/hc_core.py:1037-1063 | the request checks in source order; proved in ValidateMeaning |
| Pairing.ValidateMeaning | tools/hc_core.py:1037-1063 | a request is refused iff the pin is not 4 digits, baud <= 0, the mode is unknown, a port is missing or the two ports are equal; accepted ports are the given ones |
| Pairing.Normalise | tools/hc_core.py:1023-1027 | advanced implies interactive; the plan is shown iff asked, advanced, dry-run or interactive; nothing else changes |
| Pairing.PreparePlan | tools/hc_core.py:1079-1110 | building, tuning and rebuilding a plan gives `Prepare` |
| Pairing.PrepareEffects | tools/hc_core.py:1095-1110 | preparing only adjusts the plan-shaping flags, consumes lines, and the plan is built from the final flags |
| Pairing.Phase | tools/hc_core.py:1068-1127 | one phase: detection, the family check, preparing and running the plan; proved in PhaseEffects |
| Pairing.SlavePhase | tools/hc_core.py:1068-1127 | the slave phase on a fresh context |
| Pairing.Swap | tools/hc_core.py:1146-1153 | the mode-one swap prompt: a non-empty answer replaces the master port; without a hook one console line is read |
| Pairing.PromptSwap | tools/hc_core.py:1146-1153 | the swap prompt, run against the console, picks the port and consumes the lines that `Swap` says |
| Pairing.MasterPhase | tools/hc_core.py:1139-1222 | the swap prompt in mode one outside a dry run, then the master phase on the slave phase's context |
| Pairing.AfterSlave | tools/hc_core.py:1135-1239 | `run_pair` after the slave phase; proved in AfterSlaveEffects and AfterSlaveBinds |
| Pairing.Pair | tools/hc_core.py:1004-1239 | `run_pair` with `return_flags`; proved in PairChecksFirst, PairOutcome and PairVerdict |
| Pairing.RunPhase | tools/hc_core.py:1068-1127 | a phase's result, flags, context and history are those of `Phase` |
| Pairing.RunPair | tools/hc_core.py:1004-1239 | the pairing run's result, per-role flags and history are those of `Pair` |
| Pairing.AfterDetectFound | tools/hc_core.py:1070-1077 | a phase succeeds only after detecting a module, an HC-05 where one is needed |
| Pairing.RunPreparedEffects | tools/hc_core.py:1112-1127 | running a prepared plan never clears the context, only appends to the history, succeeds only on a built plan, and leaves every step's promise |
| Pairing.PhaseEffects | tools/hc_core.py:1068-1127 | a phase starts with a cancellation check, never clears the context, only adjusts plan-shaping flags, changes nothing in a dry run, and on success leaves every step's promise |
| Pairing.AfterSlaveEffects | tools/hc_core.py:1125-1239 | after the slave phase: success needs a successful slave phase, the link when required, and, in a mode-one run outside a dry run, the address |
| Pairing.AfterSlaveBinds | tools/hc_core.py:1206-1239 | a successful real master phase with basic steps on leaves the bind flag set |
| Pairing.MasterRunBinds | tools/hc_core.py:664-672 | a master plan whose steps all kept their promise has set the bind flag |
| Pairing.PairChecksFirst | tools/hc_core.py:1037-1070 | an invalid request fails before touching the link; a valid one starts with a cancellation check |
| Pairing.PairVerdict | tools/hc_core.py:1223-1239 | success means a valid request, the link when required, the address in a real mode-one run, and the bind in a real run with basic steps |
| Pairing.PairOutcome | tools/hc_core.py:1135-1239 | for a valid request: a failed slave phase, or a missing address in mode one outside a dry run, fails the run with the slave phase's context and history; otherwise the run ends where the master phase ends, and succeeds exactly when the master phase succeeds and, where the link is required, the link flag is set |
| Pairing.PairDryRunModeTwo | tools/hc_core.py:1224-1229 | a mode-two dry run that requires the link reports failure |
| Pairing.PairModeOneNeedsHC05 | tools/hc_core.py:1075-1077 | in mode one an HC-06 slave fails the run right after detection |
| Pairing.PairUnsupportedBaud | tools/hc_core.py:1079-1090 | with the basic steps on, an HC-06 slave with an unmapped rate fails the run before any step is sent |
| Setup.Chosen | tools/hc_core.py:396-400 | the requested routine, the detected one for "auto", and the HC-06 routine for anything but "hc05" |
| Setup.SendOkWrote | tools/hc_core.py:126-143 | a successful exchange ends with the write of its payload |
| Setup.SetupHC05Writes | tools/hc_core.py:252-297 | `configure_hc05` writes nothing but its own commands after opening the port |
| Setup.SettleHC05Sets | tools/hc_core.py:285-297 | a successful HC-05 finish has written the rate and role commands |
| Setup.SetupHC05Sets | tools/hc_core.py:252-297 | a successful `configure_hc05` has written the rate and role commands |
| Setup.SetupHC06Writes | tools/hc_core.py:314-360 | `configure_hc06` writes nothing but its own commands after opening the port |
| Setup.SetupHC06Outcome | tools/hc_core.py:349-360 | an unmapped rate always fails; success ends with writing the mapped AT+BAUD code |
| Setup.SetupHC06RenamesBeforeRefusing | tools/hc_core.py:325-354 | with an unmapped rate, the name is still written before the refusal |
| Setup.SendAcceptsAll | tools/hc_core.py:113-149 | on a link where every port opens, the signal is never set and every write is answered "OK", an exchange with at least one attempt succeeds with that reply |
| Setup.SetupHC05Live | tools/hc_core.py:241-301 | on such a link `configure_hc05` succeeds whatever its settings |
| Setup.SetupHC06Live | tools/hc_core.py:304-367 | on such a link `configure_hc06` succeeds exactly when the rate is in the HC-06 table |
| Setup.SetupLive | tools/hc_core.py:370-422 | on such a link `run_setup` detects an HC-06 at the first default profile, and succeeds exactly when the HC-05 routine was asked for or the rate is in the HC-06 table |
| Setup.SetupEffects | tools/hc_core.py:370-422 | `run_setup` reports the detection; without one it touches nothing more; otherwise the chosen routine's writes and outcome |
| Setup.SendSetting | tools/hc_core.py:272-279 | a setting with two spellings tries the second only after the first is refused |
| Setup.SetupHC05 | tools/hc_core.py:241-301 | `configure_hc05` as a function of the link; proved in SetupHC05Writes, SetupHC05Sets and SetupHC05Live |
| Setup.SetupHC06 | tools/hc_core.py:304-367 | `configure_hc06` as a function of the link; proved in SetupHC06Writes, SetupHC06Outcome and SetupHC06Live |
| Setup.Setup | tools/hc_core.py:370-422 | `run_setup`: detection, then the chosen routine; proved in SetupEffects |
| Setup.ConfigureHC05 | tools/hc_core.py:241-301 | the routine's result and history are those of `SetupHC05` |
| Setup.ConfigureHC06 | tools/hc_core.py:304-367 | the routine's result and history are those of `SetupHC06` |
| Setup.RunSetup | tools/hc_core.py:370-422 | the routine's result, detection and history are those of `Setup` |
| Profiles.ParseSkipSteps | tools/hc_setup_wizard.py:86-89 | nothing for an absent or empty list; otherwise only non-empty, stripped, lower-case ids without commas |
| Profiles.CleanToken | tools/hc_setup_wizard.py:89 | a stripped, lower-cased non-blank token is a clean id |
| Profiles.CleanIdFixed | tools/hc_setup_wizard.py:89 | cleaning a clean id changes nothing |
| Profiles.ParseJoined | tools/hc_setup_wizard.py:86-89 | parsing a comma-joined list of clean ids gives exactly those ids |
| Profiles.SortedIds | tools/hc_setup_wizard.py:99 | the set's elements, each once, in increasing order |
| Profiles.LeastUnique | tools/hc_setup_wizard.py:99 | a set has at most one least element, so the sorted order is unique |
| Profiles.FlagsToDict | tools/hc_setup_wizard.py:96-108 | the flat dictionary has neither section key and does not store no_pair or no_link |
| Profiles.DictFields | tools/hc_setup_wizard.py:96-108 | the dictionary holds every serialised flag, skip_steps as the sorted skip set |
| Profiles.FlagsFromData | tools/hc_setup_wizard.py:111-140 | `_flags_from_data`: the nested form when a section key is present, else the flat form; proved in FlatRead, SectionsRead and the round trips |
| Profiles.FlatRead | tools/hc_setup_wizard.py:129-140 | a flat dictionary describing the flags reads back as them, with no_pair and no_link off |
| Profiles.SectionsRead | tools/hc_setup_wizard.py:113-127 | two sections describing two flag sets read back as the documented merge |
| Profiles.FlatRoundTrip | tools/hc_setup_wizard.py:96-140 | reading back the flat dictionary restores every serialised flag |
| Profiles.SectionsRoundTrip | tools/hc_setup_wizard.py:113-127 | reading two saved sections gives the merge: union of skips, OR of four switches, basic/no_orlg/slave extras from the slave, no_rmaad from the master, the master's extras unless empty |
| Profiles.NestedRoundTrip | tools/hc_setup_wizard.py:111-127 | reading the saved per-role payload gives that merge |
| Profiles.SameRolesRoundTrip | tools/hc_setup_wizard.py:111-127 | saving the same flags for both roles restores every saved flag; no_pair and no_link, which are never saved, come back off |
| Profiles.EmptyProfileDefaults | tools/hc_setup_wizard.py:129-140 | an empty dictionary reads as the default flags |
| Profiles.Overlay | tools/hc_setup_wizard.py:661-682 | the command-line options laid over the loaded flags; proved in OverlayNothing and OverlayTwice |
| Profiles.OverlayNothing | tools/hc_setup_wizard.py:661-682 | with no option given the loaded flags are kept |
| Profiles.OverlayTwice | tools/hc_setup_wizard.py:661-682 | overlaying again changes only the extra lists, which grow again |
| Profiles.ApplyOverlay | tools/hc_setup_wizard.py:655-682 | the field-by-field updates give `Overlay` of the loaded flags or the defaults |

## Left out

- `read_response` and the scan window of `_inquire_addresses`: waiting, timeouts and quiet gaps are not modelled. The reply to a write is the oracle's whole reply text. The step timeouts are carried in `Step` but unused.
- Serial details: flushing, `reset_input_buffer`, sleeps and write timeouts are left out. A failed write is a `WriteFault` reply. A serial error other than a failed open or a failed write is not modelled.
- The cancellation signal is set from another thread. It is a value of the oracle read at each check, and concurrency is not modelled.
- Logging is not modelled: `describe_profile`, `_log_plan`, `_prefixed_logger` and every log line.
- The pair cache file is not modelled (`_write_pair_cache`, `load_last_slave`). Nor is profile file reading and writing (`_load_profile_file`, `_save_profile_file`); `Profiles.ProfilePayload` is the dictionary that would be saved.
- `handle_pair` before the overlay is not modelled: argparse, port listing and picking, and the prompts for missing values. The same goes for `handle_setup` and the GUI.
- `prompt_swap` and `choose_addr_cb` are arbitrary functions given with the request (`Pairing.Operator`). Without a swap hook, pressing Enter reads one console line.
- Tuning.InteractiveTune: running out of console lines ends the dialogue with the flags of the last completed round, where `input()` would raise EOFError.
- Pairing.Swap: without a swap hook and with no console line left, the run goes on with the master port unchanged, where `input()` at tools/hc_core.py:1153 would raise EOFError out of `run_pair`.
- Text.Upper, Text.Lower: only ASCII letters change case, and `Text.IsDigits` accepts only ASCII digits. Python's `upper`, `lower` and `isdigit` also cover other Unicode characters.
- Profiles.FlagsFromData: dictionary values are limited to null, booleans, string lists and sections. The model's `None` stands for every profile that does not read as flags. In three of those cases Python raises instead: a null or boolean `skip_steps` makes `set(...)` raise TypeError, and a true section value that is not a dictionary makes `.get` raise AttributeError. In the others Python reads on: a section-valued `skip_steps` becomes the set of its keys, and a non-list value for an extra-command list is kept as it is. Other values are read by their truthiness, where Python stores the raw value and later tests its truthiness.
- Pairing.Pair: it returns the normalised flags instead of changing the caller's `PairFlags` object in place. Aliasing between the caller's object and the per-role copies is not modelled, and the result always carries both per-role flag sets (`return_flags`).
