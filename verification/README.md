# Verified models of tddy-coder's protocols and planners

This project models the parts of tddy-coder where order, interleaving, arithmetic or parsing decide
whether the result is right, and proves what those parts are for. `dafny verify dfyconfig.toml` checks all
of it with Dafny 4.11.

- **Rebuilding a lost jail** (`JailRebuild`, `JailGates`, `JailRunners`, `JailAnswers`). Callers that watched a sandboxed session's jail die queue on a
  per-session gate. Gates live in a map and are dropped from it, while held, by a reference-count test. The
  whole daemon is a state machine: any number of sessions and callers, each caller's future droppable at every
  await, jails withdrawn and re-registered from outside.
- **Planning test batches** (`WindowedPlan`, `BalancedPlan`, `ShardPlan`). The capped window, the balanced
  contiguous split, and the sharding on top of them.
- **The filterset language** (`FilterLexer`, `FilterParser`, `E2eArchive`). Lexer, recursive-descent parser,
  evaluator, reference collector, and the archive plan that relies on all four.
- **The provider agent's turns** (`ProviderAgent`, `ProviderTurns`, `TurnRuns`, `TurnCancels`, `TurnHistories`, `TurnCalls`). A
  round budget, an append-only history and cancellation, against an arbitrary provider and arbitrary tools: the
  turn loop on its own, and every interleaving of sessions, turns and cancels, with the signal a turn registers,
  a cancel that wakes only what listens just then, and a select that looks at the cancel first.
- **Link attempts** (`LinkAttempts`, `LinkPaces`). The poll limiter of the device flow of RFC 8628, over every run of
  begins, polls and answers with a non-decreasing clock.
- **Credential records** (`CommaList`, `ProviderAccounts`, `VaultStore`, `Defaults`, `Linking`, `VaultRuns`).
  Connecting, linking, renaming, removing and choosing defaults, over every run from an empty vault.
- **Stopping a clone** (`CloneStopper`). Every interleaving of a starter, a watcher, a cancel and a drop.
- **Two texts that must be read back** (`ShellWords`, `UnitData`). The single-quoted hook command, read by a
  model of sections 2.2.1, 2.2.2 and 2.3 of the POSIX Shell Command Language, and the JSON array embedded in a
  build-timing report, written by a model of RFC 8259.

What the source updates in place is a class or a method with loops, proved against a function of the old
state; the theorems are about those functions. Protocols are steps with a guard (`Enabled`, `Possible`) and
an effect (`Apply`), and every theorem that says "in every run" quantifies over all legal sequences of steps
from the empty state.

Some promises turn out not to hold as documented. Each is kept as the code has it, with a run or an input that
shows the failure and the exact condition under which the promise does hold:

- `balancedBatches` is documented to give fewer than `count` batches only when there are fewer packages
  (`scripts/nextest-windowed.ts:66-71`). `EnoughPackagesAreNotEnough` is the counterexample; `ExactlyCount` is
  the if and only if.
- `forget_unused_gate` is there so that the map does not keep a gate per session forever
  (`packages/tddy-agent-launch/src/jail_relaunch.rs:125-131`). A gate stays behind all the same when its one
  caller is dropped before it forgets (`DroppedCallerLeavesGate`), or when the last caller to forget still counts
  the clone of one that has released the gate (`GateCanOutliveItsCallers`). `GateStaysIff` is the exact condition
  over every run: somebody arrived and, since the last arrival, nobody forgot the gate while holding its only
  clone. `NoGateIsLeft` is what follows for use: with no caller of the session dropped, and none still holding a
  released gate when another forgets, no gate is left.
- Packages are named in the archive plan so that a test of several packages is built only where it is selected
  (`scripts/nextest-e2e-archive.ts:38-39`). `BuildsUnselected` is the counterexample; `BuildsOnlySelectedIff` is
  the if and only if.
- One default account per harness, and repeating a choice reporting no change, need harness names that the
  comma-separated list gives back. `CommaRun` breaks the first from an empty vault; `OneHolderIff`,
  `DefaultAnswersIff`, `ChangesIffDiffers` and `RepeatReportsNothingIff` give the conditions. The RPC in front of
  the store refuses a harness the route matrix does not know (`packages/tddy-accounts/src/service.rs:272`), so
  such a name reaches the store by its own interface only.
- An assistant message with tool calls is not always followed by its results. A cancel during dispatch leaves
  the rest out for good (`CancelLeavesCallOpen`); and with no cancel at all, a second prompt during dispatch puts
  its message between the calls and their results (`PromptSplitsRound`). `RunDiscipline` is the if and only if
  over every run: no cancel reached a turn of the session that was at a tool, and no turn of the session added a
  message while another was at one. `ConversationDiscipline` is the same for turns one after another.
- A cancel does not always stop the session's turn. Of two overlapping prompts it reaches the later one
  (`OverlappedTurnIsMissed`), and after an overlapping prompt that is refused it reaches neither
  (`RefusedPromptDisplaces`). `ReachableIff` is the exact condition: a cancel reaches a suspended turn if and only
  if no other turn of the session began or ended since that turn began. `CancelledExactly` says with it which
  turns end as cancelled.

## Model

| member | source | states |
|---|---|---|
| `JailRebuild.Gates.CloneGate` | packages/tddy-agent-launch/src/jail_relaunch.rs:115-123 | the caller gets a clone of the gate now in the map, made only if the session had none; no other entry changes |
| `JailRebuild.Gates.Forget` | packages/tddy-agent-launch/src/jail_relaunch.rs:132-140 | the session's entry goes exactly when the map's and the callers' references to the gate number two; nothing else changes |
| `JailRebuild.GateInvStep` | packages/tddy-agent-launch/src/jail_relaunch.rs:44-140 | every step of every caller, dropping its future included, keeps: a caller that fetched a gate and has not passed forget holds the gate in the map, and a lock is held by a holder of a clone of that gate |
| `JailRebuild.GateIsExclusive` | packages/tddy-agent-launch/src/jail_relaunch.rs:44-58 | in every run at most one caller of a session is between acquiring its gate and forgetting it, though gates are dropped and made anew; a queued caller is only ever kept waiting by its own session |
| `JailRebuild.CountOfTwo` | packages/tddy-agent-launch/src/jail_relaunch.rs:125-140 | under the invariant a count of two means the only clone is the reader's, and conversely |
| `JailRebuild.CountOfTwoIsDecisive` | packages/tddy-agent-launch/src/jail_relaunch.rs:125-140 | in every run the forget step finds its own gate in the map and drops it if and only if no other caller holds a clone of it |
| `JailGates.GateCanOutliveItsCallers` | packages/tddy-agent-launch/src/jail_relaunch.rs:125-140 | a legal run in which every caller has finished and the session's gate is still in the map |
| `JailGates.GateStaysIff` | packages/tddy-agent-launch/src/jail_relaunch.rs:115-140 | after every run the map holds a gate for a session if and only if somebody arrived at it and, since the last arrival, nobody forgot the gate while holding its only clone |
| `JailGates.DroppedCallerLeavesGate` | packages/tddy-agent-launch/src/jail_relaunch.rs:44-58 | a legal run in which the one caller is dropped while queued, no forget step runs, and the gate stays in the map with no clone left |
| `JailGates.NoGateIsLeft` | packages/tddy-agent-launch/src/jail_relaunch.rs:125-140 | in every run in which no caller of a session is dropped and none still holds a released gate when another forgets, no gate is left once its callers have finished |
| `JailGates.NobodyIsStuck` | packages/tddy-agent-launch/src/jail_relaunch.rs:44-113 | in every run a caller that has not finished can take a step other than being dropped, or the caller of its session that holds its gate can; if that one awaits a stop still running, it can as soon as the stop takes effect |
| `JailGates.StepsRunOut` | packages/tddy-agent-launch/src/jail_relaunch.rs:44-113 | every step of a caller brings it nearer its end, within ten, and no step of anybody else moves it |
| `JailGates.EverybodyCanFinish` | packages/tddy-agent-launch/src/jail_relaunch.rs:44-113 | after every run some legal continuation, in which nobody is dropped or arrives and the world only lets running stops take effect, ends with every caller finished |
| `JailRunners.OnceInvStep` | packages/tddy-agent-launch/src/jail_relaunch.rs:60-113 | every step keeps what makes replacements unique: whoever is about to replace a jail is the first to, and a built jail is not the dead one |
| `JailRunners.OneReplacementPerDeath` | packages/tddy-agent-launch/src/jail_relaunch.rs:60-113 | in every run, outside withdrawals included, no jail's death starts two replacements |
| `JailRunners.SuccessIsAnotherJail` | packages/tddy-agent-launch/src/jail_relaunch.rs:67-112 | in every run a caller that succeeds gets a jail of its own session and not the one it saw die |
| `JailRunners.AloneInvStep` | packages/tddy-agent-launch/src/jail_relaunch.rs:83-113 | for each session, every step keeps that its earlier jails have stopped, or their stop failed, before its next one starts, unless the step gives that session another jail or withdraws its jail while a caller is about to remove it |
| `JailRunners.NoTwoRunners` | packages/tddy-agent-launch/src/jail_relaunch.rs:67-113 | in every run, whatever happens to other sessions, two runners of one session are live, no stop having failed, only if the session was given another jail from outside or its jail was withdrawn between a caller's registry read and its removal |
| `JailRunners.WithdrawalCanOverlapRunners` | packages/tddy-agent-launch/src/jail_relaunch.rs:67-104 | that window is real: a withdrawal between the registry read and the removal leaves two live runners, with no stop failed |
| `JailAnswers.RefusedIff` | packages/tddy-agent-launch/src/jail_relaunch.rs:60-113 | in every run a caller is refused if and only if its session had no registered jail at its own look, or its replacement could not be provisioned |
| `JailAnswers.GivenIff` | packages/tddy-agent-launch/src/jail_relaunch.rs:60-113 | in every run a caller gets jail j if and only if j, not the jail it saw die, was registered at its look, or it inserted j, which it had started itself and which was registered right after |
| `JailAnswers.DroppedIff` | packages/tddy-agent-launch/src/jail_relaunch.rs:44-113 | in every run a caller ends without an answer if and only if the run drops it |
| `WindowedPlan.WindowBatches` | scripts/nextest-windowed.ts:47-64 | a cap below one is refused; otherwise the packages with tests, in order, in batches within the cap or of one package, and no split of that kind has fewer batches |
| `WindowedPlan.GreedyStaysAhead` | scripts/nextest-windowed.ts:47-64 | batch by batch, a greedy split starts no earlier than any other split under the cap, oversize packages included |
| `WindowedPlan.GreedyIsOptimal` | scripts/nextest-windowed.ts:47-64 | no contiguous split under the cap has fewer batches than a greedy one |
| `BalancedPlan.BalancedBatches` | scripts/nextest-windowed.ts:72-90 | the loop computes the balanced split of the packages with tests; a count below one is refused |
| `BalancedPlan.BalancedBounds` | scripts/nextest-windowed.ts:72-90 | the batches are non-empty, contiguous and together all the packages in order; there are at most `count`; each without its last package weighs strictly less than one share |
| `BalancedPlan.ExactlyCount` | scripts/nextest-windowed.ts:66-90 | there are exactly `count` batches if and only if there are that many packages and, for every m below `count`, the last m weigh at most m shares |
| `BalancedPlan.SmallPackagesFill` | scripts/nextest-windowed.ts:66-90 | packages none of which exceeds one share meet that condition |
| `BalancedPlan.EnoughPackagesAreNotEnough` | scripts/nextest-windowed.ts:66-71 | three packages of 1, 1 and 10 binaries do not give three batches, against the documentation |
| `ShardPlan.ShardPackages` | scripts/nextest-windowed.ts:116-128 | the method computes the shard, with its two refusals |
| `ShardPlan.ShardGivenIff` | scripts/nextest-windowed.ts:116-128 | a shard is given out exactly for an index in range of a workspace that fills every shard, so for all indices or none |
| `ShardPlan.ShardIsGroup` | scripts/nextest-windowed.ts:116-128 | picking packages by name gives back exactly the balanced group of that index, in order |
| `ShardPlan.ShardsPartition` | scripts/nextest-windowed.ts:110-128 | the shards one after another are exactly the packages with tests, in order, none of them empty |
| `ShardPlan.BatchingCoversShard` | scripts/nextest-windowed.ts:195-200 | batching a shard afterwards, balanced or by any windowed split of the fewest batches, cuts the whole shard |
| `ShardPlan.EveryPackageRunsOnce` | scripts/nextest-windowed.ts:195-200 | however each shard is batched, the batches of all shards run every package with tests once, and no package is in two batches |
| `FilterLexer.TakeLexeme` | scripts/nextest-filterset.ts:177-205 | one turn of the lexer's loop advances and leaves the outcome of the scan unchanged, or no token starts there and the whole scan fails there |
| `FilterLexer.Tokenize` | scripts/nextest-filterset.ts:173-207 | the loop computes the token sequence of the text, or the place where no token starts |
| `FilterLexer.TokensAreTokens` | scripts/nextest-filterset.ts:173-207 | every token read from any text is well formed |
| `FilterLexer.TokensOfRender` | scripts/nextest-filterset.ts:173-207 | rendering well-formed tokens with single spaces and lexing gives the same tokens back |
| `FilterLexer.TrimIs` | scripts/nextest-filterset.ts:147 | trimming takes the white space off both ends and nothing else |
| `FilterLexer.ExactNameIff` | scripts/nextest-filterset.ts:145-170 | an argument is read as a name if and only if, trimmed, it is that name bare or behind an equals sign, and the name is exact: no matcher prefix, no glob, no parenthesis, no trailing space |
| `FilterLexer.RefusedName` | scripts/nextest-filterset.ts:157-170 | why an argument is refused, with or without the equals sign: a matcher first, then glob syntax, then an empty name |
| `FilterLexer.ExactNameReadBack` | scripts/nextest-filterset.ts:157-170 | a name written bare or as `=name`, with any white space around it, is read back as that name |
| `FilterParser.Parser.ParseOr` | scripts/nextest-filterset.ts:44-89 | answers and advances exactly as the grammar's `or` level on the tokens left |
| `FilterParser.Parser.ParseAnd` | scripts/nextest-filterset.ts:44-89 | answers and advances exactly as the grammar's `and` level on the tokens left |
| `FilterParser.Parser.ParseNot` | scripts/nextest-filterset.ts:44-89 | answers and advances exactly as the grammar's `not` level on the tokens left |
| `FilterParser.Parser.ParseAtom` | scripts/nextest-filterset.ts:44-89 | answers and advances exactly as the grammar's atoms on the tokens left |
| `FilterParser.ParseFilterset` | scripts/nextest-filterset.ts:44-89 | lexing, then the parser object, then the check for left-over tokens compute the parse of the text |
| `FilterParser.OrReadBack` | scripts/nextest-filterset.ts:44-89 | parsing a tree's `or`-level tokens followed by anything but `and` is going on from that tree |
| `FilterParser.AndReadBack` | scripts/nextest-filterset.ts:44-89 | parsing a tree's `and`-level tokens followed by anything is going on from that tree |
| `FilterParser.NotReadBack` | scripts/nextest-filterset.ts:44-89 | parsing a tree's `not`-level tokens gives the tree and stops right behind them |
| `FilterParser.ParseUndoesPrint` | scripts/nextest-filterset.ts:44-89 | for every tree with exact names, parsing its text, written with only the parentheses precedence and left associativity need and with any choice of names written bare, gives that tree and consumes everything |
| `FilterParser.PredicateIff` | scripts/nextest-filterset.ts:145-170 | which calls stand for which predicates: `binary` and `package` for any exact name, `kind` for `test` only |
| `FilterParser.RefusedAround` | scripts/nextest-filterset.ts:44-89 | around any tree: a closing parenthesis too many is reported as such, one missing as unbalanced, and a missing operand as the end of the input |
| `FilterParser.ParsedIsReprintable` | scripts/nextest-filterset.ts:44-89 | the tree of any text that parses is one of those, so printing and parsing it changes nothing |
| `FilterParser.FewestParentheses` | scripts/nextest-filterset.ts:44-89 | of all texts that parse to a tree, none has fewer parentheses than the printed one |
| `E2eArchive.SelectsAsSets` | scripts/nextest-filterset.ts:91-111 | selecting is set algebra over the targets: union, intersection and complement of those of a name, or of all but unit tests |
| `E2eArchive.ListedIff` | scripts/nextest-filterset.ts:118-143 | a binary is listed with an owner if and only if it stands in the filter and the innermost `and` above it that has a package on a side, through any `or` and `not`, names that owner; and with none if there is no such `and` |
| `E2eArchive.ReferencesComplete` | scripts/nextest-filterset.ts:97-143 | two subjects of the same kind that agree on every name the filter lists are selected alike |
| `E2eArchive.SelectedFitsNames` | scripts/nextest-filterset.ts:122-143 | whatever a conjunction of predicates selects matches every name it lists, with the package each binary is qualified by |
| `E2eArchive.QualifiedPairSelectsIff` | scripts/nextest-filterset.ts:118-143 | a package and a binary joined by `and`, in either order, list the binary qualified by the package, and select exactly what matches the names listed |
| `E2eArchive.ConjunctionNamesFound` | scripts/nextest-e2e-archive.ts:42-78 | a conjunction that selects a target is never refused for a name that matches nothing |
| `E2eArchive.PlanCoversSelection` | scripts/nextest-e2e-archive.ts:42-78 | of every plan made, each test binary is left to the filter's complement or is an integration target whose package and name are among the arguments |
| `E2eArchive.PlanMadeIff` | scripts/nextest-e2e-archive.ts:42-78 | a plan is made exactly when the filterset parses, every name matches a target, no unit-test binary and at least one target is selected; it then lists the selected packages and tests only, ascending |
| `E2eArchive.RefusedFor` | scripts/nextest-e2e-archive.ts:42-78 | why a plan is refused, in order: the parse error; the first listed name that no target has, in its owner's package if it has one; the unit-test binaries selected; nothing selected |
| `E2eArchive.BuildsOnlySelectedIff` | scripts/nextest-e2e-archive.ts:38-78 | a plan builds selected targets only if and only if every target that shares its package with a selected one and its name with a selected one is itself selected |
| `E2eArchive.BuildsUnselected` | scripts/nextest-e2e-archive.ts:38-78 | a test of two packages, selected in one of them, is built in the other as well when that one has another selected test |
| `ProviderAgent.ReadPrompt` | packages/tddy-acp/src/provider_agent.rs:439-458 | the loop computes the prompt's text, or refuses a prompt with another block or without text |
| `ProviderAgent.PromptIsItsTexts` | packages/tddy-acp/src/provider_agent.rs:439-458 | that text is all the texts, one after another, and a block that is no text refuses the prompt wherever it stands |
| `ProviderAgent.Agent.NewSession` | packages/tddy-acp/src/provider_agent.rs:319-339 | a fresh id and an opening history; no open session's history changes |
| `ProviderAgent.Agent.PushMessage` | packages/tddy-acp/src/provider_agent.rs:192-203 | the session's history grows by the message; an unknown session changes nothing |
| `ProviderAgent.Agent.BeginTurn` | packages/tddy-acp/src/provider_agent.rs:277-283 | the turn is registered with a signal no cancel has fired |
| `ProviderAgent.Agent.EndTurn` | packages/tddy-acp/src/provider_agent.rs:287-289 | exactly that registration is dropped |
| `ProviderAgent.Agent.Cancel` | packages/tddy-acp/src/provider_agent.rs:355-368 | fires the signal registered for the session and no other; with none registered, or for an unknown session, nothing changes |
| `ProviderAgent.Agent.Suspend` | packages/tddy-acp/src/provider_agent.rs:392-396 | of the cancels handled while a turn is suspended, those of its own session and no others fire its signal, which it reads first when it resumes |
| `ProviderAgent.Agent.DispatchAll` | packages/tddy-acp/src/provider_agent.rs:425-432 | the tools run in order, each result appended before the next starts, and the loop stops exactly when the turn's own signal has fired |
| `ProviderAgent.Agent.RunTurn` | packages/tddy-acp/src/provider_agent.rs:377-434 | the session's history grows by exactly what the turn appends, and no other changes; the turn ends as cancelled if and only if its own signal fired, that is, if its session was cancelled during one of its suspensions |
| `ProviderAgent.Agent.Prompt` | packages/tddy-acp/src/provider_agent.rs:341-347 | the same with a signal registered for the turn's life and forgotten after it; whatever signals had fired before have no part in it |
| `ProviderTurns.TurnBudget` | packages/tddy-acp/src/provider_agent.rs:388-419 | every turn makes at most eleven completions and ten tool rounds, and ends for its budget exactly when it made eleven and the last answer still asks for tools |
| `ProviderTurns.HistoryIsWhatWasSaid` | packages/tddy-acp/src/provider_agent.rs:377-434 | behind the user's message a turn appends exactly what the provider and the tools said, in the order they were asked; the calls of an eleventh answer are left out |
| `ProviderTurns.TurnCutIff` | packages/tddy-acp/src/provider_agent.rs:425-432 | a turn is cut in a tool round if and only if it gets to run and its world has a cancel at a tool before which every round answered with calls and every tool came back |
| `ProviderTurns.TurnDiscipline` | packages/tddy-acp/src/provider_agent.rs:377-434 | what one turn appends starts with the user's message and is disciplined, unless it was cut in a tool round, and then it is broken at a place it names |
| `ProviderTurns.DisciplinedMeans` | packages/tddy-acp/src/provider_agent.rs:412-432 | in a disciplined history every assistant message with tool calls is followed at once by one result per call, in order, with matching ids and names |
| `ProviderTurns.BrokenForGood` | packages/tddy-acp/src/provider_agent.rs:425-432 | a missing result stays missing through every later turn |
| `ProviderTurns.ConversationDiscipline` | packages/tddy-acp/src/provider_agent.rs:377-434 | over every sequence of turns the history only grows, and it is disciplined afterwards if and only if no turn that got to run was cancelled during a tool it reached |
| `TurnRuns.SoundStep` | packages/tddy-acp/src/provider_agent.rs:341-434 | every step of every turn keeps: what a turn did so far, continued by the loop, is the turn of any world that agrees with what it heard |
| `TurnRuns.RegistryStep` | packages/tddy-acp/src/provider_agent.rs:277-289 | every step keeps: what is registered for a session is a turn of that session that is suspended |
| `TurnCancels.CancelStopsTurn` | packages/tddy-acp/src/provider_agent.rs:355-396 | in every run, a suspended and registered turn whose session is cancelled starts and says nothing more; it has ended as cancelled, or it can resume at once and then does, whatever else is ready |
| `TurnCancels.CancelledIff` | packages/tddy-acp/src/provider_agent.rs:341-434 | in every run, overlapping prompts included, a turn that is over ended as cancelled if and only if its own session was cancelled while it was suspended and registered |
| `TurnCancels.CancelElsewhere` | packages/tddy-acp/src/provider_agent.rs:355-368 | in every run a cancel changes no turn of another session and no history, and with no turn of its session suspended it changes nothing at all |
| `TurnCancels.ReachableIff` | packages/tddy-acp/src/provider_agent.rs:277-289 | in every run a suspended turn is the one a cancel of its session reaches if and only if no other turn of the session began, refused prompts included, or ended since it began |
| `TurnCancels.CancelledExactly` | packages/tddy-acp/src/provider_agent.rs:341-434 | in every run a turn that is over ended as cancelled if and only if its session was cancelled while it was suspended and before any other turn of the session had begun or ended since it began |
| `TurnCancels.LoneTurnIsReached` | packages/tddy-acp/src/provider_agent.rs:277-289 | with one turn at a time in its own session, whatever happens in others, a suspended turn is the one a cancel reaches |
| `TurnCancels.OverlappedTurnIsMissed` | packages/tddy-acp/src/provider_agent.rs:277-289 | a run in which a cancel wakes the later of two overlapping turns of a session and not the earlier |
| `TurnCancels.RefusedPromptDisplaces` | packages/tddy-acp/src/provider_agent.rs:341-347 | a run in which a refused prompt drops the running turn's registration, so that a cancel wakes nobody |
| `TurnHistories.TurnIsReplayed` | packages/tddy-acp/src/provider_agent.rs:377-434 | in every run a turn did exactly what the loop does in the world made up of what it heard, with a cancel where it was woken by one |
| `TurnHistories.RunsKeepBudget` | packages/tddy-acp/src/provider_agent.rs:388-432 | so in every run each turn, finished or not, has made at most eleven completions and ten tool rounds, ended for its budget if and only if its eleventh answer still asked for tools, and appended exactly what it heard |
| `TurnHistories.HealthStep` | packages/tddy-acp/src/provider_agent.rs:341-434 | every step of every session keeps track of a history as whole, in the round of the one turn that is at a tool, or missing a result for good; it comes to miss one exactly by a cancel that reaches a turn at a tool or a message of another turn |
| `TurnHistories.RunDiscipline` | packages/tddy-acp/src/provider_agent.rs:377-434 | in every run, overlapping turns included, the history of a session none of whose turns is at a tool is disciplined if and only if no cancel ever reached a turn of it at a tool and no turn of it ever added a message while another was at one |
| `TurnHistories.LoneDiscipline` | packages/tddy-acp/src/provider_agent.rs:377-434 | with one turn at a time in that session, whatever happens in others, that is: if and only if no cancel of it came while a turn of it was suspended at a tool |
| `TurnHistories.CancelLeavesCallOpen` | packages/tddy-acp/src/provider_agent.rs:425-432 | a run that ends at rest with a call left unanswered by a cancel |
| `TurnHistories.PromptSplitsRound` | packages/tddy-acp/src/provider_agent.rs:377-434 | a run without a cancel that ends at rest with a prompt between a call and its result |
| `TurnHistories.HistoriesGrow` | packages/tddy-acp/src/provider_agent.rs:192-203 | in every run, overlapping turns included, histories only grow |
| `TurnCalls.EveryCallRuns` | packages/tddy-acp/src/provider_agent.rs:405-432 | whenever a turn asks for a completion, with rounds left, and is answered with calls, the answer is appended with every one of them; each call whose predecessors came back is started in order, and its result, with its id and name, appended in order right behind the answer |
| `TurnCalls.ToolStartedIff` | packages/tddy-acp/src/provider_agent.rs:405-432 | a tool is started if and only if its completion was asked for, with rounds left, and answered with that call, and every call before it came back; so none for an absent or empty list |
| `TurnCalls.LastAnswer` | packages/tddy-acp/src/provider_agent.rs:405-419 | an answer without calls, the list absent or empty, ends the turn as its last message; an eleventh answer with calls ends it for its budget, without them |
| `TurnCalls.RunsEveryCall` | packages/tddy-acp/src/provider_agent.rs:405-432 | the same in every run, finished or not, for what the turn heard |
| `TurnCalls.RunsNoOtherCall` | packages/tddy-acp/src/provider_agent.rs:405-432 | in every run a turn starts a tool if and only if it heard that call, with rounds left, and heard back from every call before it |
| `TurnCalls.HeardIffTold` | packages/tddy-acp/src/provider_agent.rs:392-396 | in every run what a turn has heard is exactly what it was resumed with while suspended there and not woken by a cancel |
| `UnitData.FindEnd` | scripts/ci-e2e-timing.ts:191-202 | the loop that steps over escaped characters finds the first bracket that closes the array, or that there is none |
| `UnitData.ReadUnits` | scripts/ci-e2e-timing.ts:187-204 | the array text of a report, with its two refusals |
| `UnitData.ValueLevel` | scripts/ci-e2e-timing.ts:191-202 | scanning any JSON value's text ends at the depth it began and never goes below it |
| `UnitData.ScanFindsArrayEnd` | scripts/ci-e2e-timing.ts:191-202 | for every JSON array followed by any text the scan ends at the array's own closing bracket |
| `UnitData.TruncatedArrayHasNoEnd` | scripts/ci-e2e-timing.ts:191-204 | a report cut off anywhere inside the array has no end |
| `UnitData.ReportReadsArray` | scripts/ci-e2e-timing.ts:187-204 | a whole report reads as exactly the array's text whatever follows it, and cut off inside the array it is refused with the error that fits |
| `LinkAttempts.Attempts.Register` | packages/tddy-accounts/src/attempts.rs:55-76 | the attempt is remembered with its deadline and first poll, expired ones forgotten; an unrepresentable time changes nothing |
| `LinkAttempts.Attempts.AdmitPoll` | packages/tddy-accounts/src/attempts.rs:80-107 | the answer and the new table, in the order of the source's checks |
| `LinkAttempts.Attempts.Reschedule` | packages/tddy-accounts/src/attempts.rs:110-122 | a remembered attempt gets the new interval and next poll; one that is gone stays gone |
| `LinkAttempts.Attempts.Finish` | packages/tddy-accounts/src/attempts.rs:125-128 | exactly that attempt is forgotten |
| `LinkAttempts.AskedForItsOwner` | packages/tddy-accounts/src/attempts.rs:80-107 | in every run the provider is asked only for the session that began the attempt, at its provider, strictly before the deadline |
| `LinkAttempts.AdmissionsSpaced` | packages/tddy-accounts/src/attempts.rs:80-122 | in every run two admissions of a link are at least the interval in force at the second apart |
| `LinkAttempts.WideningKeepsFirstInterval` | packages/tddy-accounts/src/attempts.rs:80-122 | where the interval of that link never shrinks, as section 3.5 of RFC 8628 has it, and whatever happens to other links, they are at least the first one's interval apart |
| `LinkAttempts.NarrowedIntervalAdmitsSooner` | packages/tddy-accounts/src/attempts.rs:110-122 | the hypothesis is needed: a pending answer that narrows the interval lets the next poll through sooner |
| `LinkAttempts.OverForGood` | packages/tddy-accounts/src/service.rs:494-537 | once a link is finished or answered as expired, no later operation, a late reschedule included, asks for it or brings it back |
| `LinkAttempts.AdmittedIff` | packages/tddy-accounts/src/service.rs:424-449 | in every run an attempt not over is remembered to its deadline, and a poll is admitted exactly for the owner of such an attempt whose next poll is due |
| `LinkAttempts.OneIntervalIsEnough` | packages/tddy-accounts/src/attempts.rs:80-122 | in every run the owner of an attempt that is not over is admitted after waiting out the interval in force, before the deadline |
| `LinkPaces.LastWordPaces` | packages/tddy-accounts/src/attempts.rs:55-122 | in every run, from a begin or a pending answer in time until the next answer for the link, the provider is asked for it only at the interval that was set, and no sooner than that sets; so a wider interval takes effect at once |
| `LinkPaces.NextPollExactly` | packages/tddy-accounts/src/attempts.rs:80-122 | in every run the owner's next poll before the deadline is told too soon, with the interval in force, exactly before the time set by the last of the begin, the last admission and the last pending answer; after it, it is admitted |
| `LinkPaces.BegunAsAsked` | packages/tddy-accounts/src/attempts.rs:55-76 | in every run a begin fixes the owner, the provider and the deadline of its link for good |
| `LinkPaces.NoAdmission` | packages/tddy-accounts/src/attempts.rs:80-107 | in every run a poll for a link not begun, over, or another session's is told there is no such link; the owner's at the deadline or later that it expired, and the attempt is gone, unless it was forgotten before |
| `LinkPaces.ExpiredForgotten` | packages/tddy-accounts/src/attempts.rs:55-107 | after a begin, and after a poll answered before its deadline, no expired attempt is remembered |
| `CommaList.SplitUndoesJoin` | packages/tddy-accounts/src/provider_account.rs:452-468 | splitting and trimming undo joining, for names that are non-empty, trimmed and free of commas |
| `CommaList.ReadBackIffClean` | packages/tddy-accounts/src/provider_account.rs:452-468 | a listed name is read back if and only if it is such a name, whatever stands beside it |
| `CommaList.PiecesClean` | packages/tddy-accounts/src/provider_account.rs:452-468 | whatever text a list is read from, only such names are read |
| `ProviderAccounts.ReadUndoesWrite` | packages/tddy-accounts/src/provider_account.rs:325-364 | reading undoes writing, for every account of every preset; a new record is the default for nothing, dated now and of version one |
| `ProviderAccounts.UnclaimedAccountId` | packages/tddy-accounts/src/provider_account.rs:298-307 | ends within one more candidate than there are records, by counting distinct candidates, with the wanted id if free and the lowest-numbered free one otherwise |
| `ProviderAccounts.DedupInOrder` | packages/tddy-accounts/src/vault_store.rs:200-208 | the loop keeps the first of each name, in order |
| `ProviderAccounts.DedupDistinct` | packages/tddy-accounts/src/vault_store.rs:200-208 | no name is kept twice |
| `ProviderAccounts.DedupOrdered` | packages/tddy-accounts/src/vault_store.rs:200-208 | the names are kept in the order in which they first occur |
| `VaultStore.Store.PutProviderAccount` | packages/tddy-accounts/src/vault_store.rs:156-179 | the account is stored under the first unclaimed id, where no record was; every other record stays |
| `VaultStore.Store.SetLabel` | packages/tddy-accounts/src/vault_store.rs:90-113 | only the label of that record changes; a missing record is refused and nothing changes |
| `VaultStore.Store.Remove` | packages/tddy-accounts/src/vault_store.rs:115-125 | exactly that record goes |
| `VaultStore.Store.SetDefaults` | packages/tddy-accounts/src/vault_store.rs:218-268 | the loop over the listing leaves every record as the change prescribes and returns the changed ones in listing order |
| `Defaults.AdjustedKeeps` | packages/tddy-accounts/src/vault_store.rs:239-258 | a change of defaults touches nothing of any record but its list of harnesses |
| `Defaults.AdjustedReads` | packages/tddy-accounts/src/vault_store.rs:239-258 | the account named then reads as the pieces of the names given, every other account as what it had without those names |
| `Defaults.OneHolderIff` | packages/tddy-accounts/src/vault_store.rs:218-268 | giving a connected account harnesses leaves each harness one holder if and only if no other account holds a piece of a name that is not itself given |
| `Defaults.CommaSharesAHarness` | packages/tddy-accounts/src/vault_store.rs:239-258 | a name with a comma whose first piece another account holds does give that harness two holders |
| `Defaults.DefaultAnswersIff` | packages/tddy-accounts/src/provider_account.rs:444-468 | after the change the named account is answered for each given name that is clean, in whatever order the vault is listed; for a name that is not, nothing is |
| `Defaults.ChangesIffDiffers` | packages/tddy-accounts/src/vault_store.rs:239-262 | a record is reported changed if and only if it differs, or already says in unclean names what it is given |
| `Defaults.ReportedExactly` | packages/tddy-accounts/src/vault_store.rs:233-265 | with clean names the records returned are exactly those that differ, as they then are |
| `Defaults.RepeatReportsNothingIff` | packages/tddy-accounts/src/vault_store.rs:218-268 | choosing the same defaults again for a connected account returns nothing if and only if every name is clean |
| `Linking.ExpectNeverFires` | packages/tddy-accounts/src/identity.rs:162-165 | for any assignments and records the lookup behind a resolved account finds its record |
| `Linking.LabelNeverMatters` | packages/tddy-accounts/src/identity.rs:140-187 | records that differ only in their labels give the same identity |
| `Linking.ResolvedByEntries` | packages/tddy-accounts/src/resolver.rs:44-65 | for any assignments and records: not assigned if and only if no entry is for the provider, ambiguous if and only if two are, and with exactly one its account if a record of it is held, unknown on this host otherwise |
| `Linking.ActingByEntries` | packages/tddy-accounts/src/identity.rs:140-187 | nobody is acted as without an entry for the provider, or with two, each with its own error and in no other case |
| `Linking.ResolvedByFind` | packages/tddy-accounts/src/resolver.rs:44-65 | with exactly one entry for the provider, resolution and identity both come from the first record of its account, or both say it is not on this host |
| `VaultRuns.InvStep` | packages/tddy-accounts/src/vault_store.rs:90-268 | every operation keeps account ids distinct and every linked record under its subject's id with the last link's token and login |
| `VaultRuns.AccountIdsDistinct` | packages/tddy-accounts/src/vault_store.rs:156-179 | in every run two provider accounts never share an id |
| `VaultRuns.ConnectAdds` | packages/tddy-accounts/src/vault_store.rs:156-179 | in every run a connect replaces nothing and adds exactly one record, which reads back as the account under its new id |
| `VaultRuns.RenameAndRemove` | packages/tddy-accounts/src/vault_store.rs:90-125 | in every run a rename changes one label and nothing else, and a removal takes exactly that record |
| `VaultRuns.RemovedIsUnknown` | packages/tddy-accounts/src/resolver.rs:44-65 | in every run a project whose one assigned account was removed is told this host has none |
| `VaultRuns.OneDefaultPerHarness` | packages/tddy-accounts/src/vault_store.rs:218-268 | in every run whose default changes hide no piece no harness has two default accounts, and the next change for a connected account keeps it so if and only if it hides none |
| `VaultRuns.CleanIsUnhidden` | packages/tddy-accounts/src/vault_store.rs:218-268 | runs with clean names only are among those |
| `VaultRuns.CommaRun` | packages/tddy-accounts/src/vault_store.rs:239-258 | the hypothesis is needed: a run from the empty vault after which one harness has two default accounts |
| `VaultRuns.OneRecordPerSubject` | packages/tddy-accounts/src/linking.rs:157-189 | in every run there is at most one record per provider and subject |
| `VaultRuns.RelinkKeepsIdAndLabel` | packages/tddy-accounts/src/service.rs:561-576 | in every run a link stores its token and login in the subject's one record; linking again keeps id, label and other metadata and counts one version on, a new link takes the login as label, and no other record changes |
| `VaultRuns.ActsAsNewestLink` | packages/tddy-accounts/src/identity.rs:140-187 | in every run a project whose one entry for the provider is a held subject's account acts with the token and login of that subject's last link, whatever was renamed since, and is refused exactly for an empty subject id or an empty login, naming which |
| `VaultRuns.AssignedStays` | packages/tddy-accounts/src/resolver.rs:44-65 | a project resolved as assigned stays assigned through any operations but removing that account |
| `CloneStopper.StoppedAtMostOnce` | packages/tddy-agent-launch/src/clone_stopper.rs:21-64 | in every interleaving the clone is stopped at most once and never without a cancel; once both parties are done it was stopped exactly when the watcher woke to the cancel or the starter looked for it after it came |
| `CloneStopper.DroppedTooSoonRunsOn` | packages/tddy-agent-launch/src/clone_stopper.rs:40-52 | the hypothesis is needed: dropped before the watcher woke, a cancelled clone runs on |
| `CloneStopper.Slot.StopTheClone` | packages/tddy-agent-launch/src/clone_stopper.rs:54-64 | whoever takes the handle stops that clone and leaves nothing to take |
| `CloneStopper.Slot.Start` | packages/tddy-agent-launch/src/clone_stopper.rs:40-45 | the clone is kept for later, or stopped once if the cancel came by the time it looks, whether or not the watcher took the handle in between |
| `ShellWords.QuoteReads` | packages/tddy-agent-backend/src/claude_hooks.rs:22-24 | a quoted argument, wherever it stands in a line, adds exactly itself to the current word and leaves the rest alone |
| `ShellWords.ShellReadsQuoteBack` | packages/tddy-agent-backend/src/claude_hooks.rs:22-24 | the shell reads every quoted string as the one word that was quoted |
| `ShellWords.LineReadsBack` | packages/tddy-agent-backend/src/claude_hooks.rs:98-124 | a line of quoted arguments and plain words splits into exactly their values |
| `ShellWords.HookCommandIsLine` | packages/tddy-agent-backend/src/claude_hooks.rs:98-124 | the formatted command of every event, awaiting or not, with or without a socket, is the line of the intended arguments |
| `ShellWords.HookCommandReadsBack` | packages/tddy-agent-backend/src/claude_hooks.rs:98-124 | for any tools path and socket, and unquoted fields without special characters, the shell splits the command into exactly the intended argument list |
| `ShellWords.WhichHooksWait` | packages/tddy-agent-backend/src/claude_hooks.rs:110-124 | the hooks of `PermissionRequest` and `PreToolUse`, and no others, end with the flags that wait for an answer, for the margin beyond the daemon's wait |

## Left out

- Processes, tmux, git, sockets, LiveKit, RPC and HTTP plumbing: effects on systems outside the model. A provider, a tool, a clock and a listing order are arbitrary parameters.
- Cryptography, passphrases, sessions and vault files: an open vault is a map from provider and account to record.
- `set_label` or a link racing a default change on the same record: each store operation is one atomic step, so the lost update the source records at `packages/tddy-accounts/src/vault_store.rs:259-261` is not modelled.
- Login-created records: a record enters the modelled vault by a connect of a preset or a link at a provider that is not a preset.
- BalancedPlan.BalancedBatches: counts are integers and the share test is exact; rounding of the floating-point quotient and fractional or NaN arguments are not modelled.
- WindowedPlan.WindowBatches: the cap is an integer; a fractional cap acts as its floor and is not modelled.
- Session updates sent while a turn runs, and the prompt future itself being dropped with its connection, are not modelled.
- E2eArchive.PlanMadeIff: names ascend by character, where the source compares UTF-16 code units; the two differ only beyond the basic plane.
- FilterLexer.Tokenize: an error keeps the text that could not be read rather than the message and offset.
- UnitData.ReadUnits: ends with the array's text; parsing it is not modelled. The JSON texts it is proved for include every number of RFC 8259 and some texts that are not numbers.
- LinkAttempts.AdmittedIff: the clock is a non-decreasing number of nanoseconds and its last representable instant is one platform's constant; provider and storage failures inside an answer change no attempt and are left out.
- ProviderAccounts.UnclaimedAccountId: the suffix is an unbounded integer.
- ShellWords.HookCommandReadsBack: the JSON object around the command and its timeouts are not modelled; the model of the shell has no expansions, so a special character outside quotes is read as no word list at all.
- `parseShard` reads the shard argument, `compileShare` and `binaryTimings` sum build and test times for a summary, `removal_allowed` compares an account with the session's own, and the scripts' tables print: none is modelled.
