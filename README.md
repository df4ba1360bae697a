# eff: cluster bookkeeping, core utilities, logger dispatch and scaffolding helpers in Dafny

This project models the decision and bookkeeping code of the `eff` Node.js
framework:

- **Cluster master.** The process registry (`Manager`): one agent handle,
  the worker map, `count()`, and a health check that escalates on the third
  unhealthy tick in a row. The message router (`Messenger.send`) and its
  four dispatch branches. From the master itself: the production, protocol
  and log-method decisions, agent numbering, and the order of the ready
  broadcast. The option normalisation of `parseOptions`, including `extend`.
- **Core.** The dependency ordering `sequencify`. The `Timing` record list.
  The start of `IedoLoader`: server environment, application information,
  home directory and server scope.
- **Utilities.** Framework path resolution: `getFrameworkPath`,
  `assertAndReturn` and `getFrameworkOrIedoPath`.
- **Logger.** The level table, `assign` and `normalizeLevel`,
  `Transport.shouldLog`, the console transport's choice between stderr and
  stdout, and the fan-out of `Logger.log` to duplicate, redirect and own
  transports.
- **Scaffolding.** The string helpers of `eff-init`: `replaceTemplate`,
  `groupBy`, `getRegistryByType` and the template file-name mapping.

## How the model is built

The environment is a map from variable names to values (`Environment.Env`).
The file system is a value (`IedoUtils.FileSystem`): the set of existing
paths, the parsed `package.json` files and the directory listings. The clock,
process ids, the CPU count, `process.execArgv` and the home directory are
parameters.

JavaScript values are modelled with the coercions the code relies on
(`JsValues`):

- truthiness and `== null`;
- template-literal text;
- `Number.parseInt(text, 10)`;
- `Number(text)` inside `<`, `<=` and `>=`.

Numbers are integers plus the two infinities. NaN appears only as the
outcome of a comparison, where it makes the comparison false. A JS `Map` is
an `OrderedMaps.OrderedMap`: its insertion-ordered keys plus a map.

Objects whose fields the code updates in place are classes:

- `Manager`, `Messenger`, `Master`;
- `Sequencer`, the state of the recursive `sequence`;
- `Timing`, `Transport`, `ConsoleTransport`, `Logger`;
- `JsObject`, the target of `extend` and `assign`.

Loops of the source are methods with loop invariants, and each is proved
against a specification function. What the source hands to the outside
world is appended to an `outbox` or `writes` log: a local event, a message
on a channel, a write to stderr or stdout.

Three behaviours of the code as written are modelled as they are:

- The ready broadcast's parent payload has `address: undefined`, because
  nothing assigns `this[APP_ADDRESS]` in `master.ts`.
- A level option holding a name is NaN in `<=`, so `shouldLog` is false for
  every level. `levels[level] >= 'ERROR'` is false too, so the default
  console transport never writes to stderr. Both are proved as lemmas:
  `LoggerTransport.NamedLevelNeverLogs` and
  `LoggerConsole.DefaultSendsAllToStdout`.
- The master marks its agent `'starting'`, and nothing in the modelled code
  marks it `'started'`, so `count()` never counts it. This is
  `ClusterMaster.ForkedAgentNotCounted`.

## Model

| member | source | states |
|---|---|---|
| ClusterManager.Manager.constructor | packages/cluster/src/utils/manager.ts:15-19 | A new registry has no agent, an empty worker map, and no running health check |
| ClusterManager.Manager.SetAgent | packages/cluster/src/utils/manager.ts:21-23 | The agent handle becomes the given process |
| ClusterManager.Manager.DeleteAgent | packages/cluster/src/utils/manager.ts:25-27 | The agent handle becomes null |
| ClusterManager.Manager.SetWorker | packages/cluster/src/utils/manager.ts:29-31 | The worker is stored under its process id. An existing id keeps its place in the key order; a new id is appended |
| ClusterManager.Manager.GetWorker | packages/cluster/src/utils/manager.ts:33-35 | Returns the worker stored under the id, and none exactly when the id is untracked |
| ClusterManager.Manager.DeleteWorker | packages/cluster/src/utils/manager.ts:37-39 | Removes exactly that id from the entries and from the key order |
| ClusterManager.Manager.ListWorkerIds | packages/cluster/src/utils/manager.ts:41-43 | The ids are distinct and are exactly the tracked ids |
| ClusterManager.Manager.GetListeningWorkerIds | packages/cluster/src/utils/manager.ts:45-53 | The loop returns the listening ids in map order; an id is listed iff it is tracked and its worker is in state 'listening' |
| ClusterManager.ListeningIdsMembers | packages/cluster/src/utils/manager.ts:45-53 | Membership in the listening list is exactly "tracked and listening" |
| ClusterManager.ListeningIds | packages/cluster/src/utils/manager.ts:45-53 | Defines the listening ids in key order. Stated by ListeningIdsMembers |
| ClusterManager.AgentCount | packages/cluster/src/utils/manager.ts:57 | The agent count is 1 iff an agent is set and its status is 'started', else 0 |
| ClusterManager.Manager.Count | packages/cluster/src/utils/manager.ts:55-60 | The counts are the agent count and the number of tracked workers, whatever their state |
| ClusterManager.Manager.StartCheck | packages/cluster/src/utils/manager.ts:62-65 | The failure counter becomes 0 and the timer runs |
| ClusterManager.TickStep | packages/cluster/src/utils/manager.ts:66-78 | A healthy tick resets the counter to 0. Any other tick adds one and escalates iff the counter reaches 3 |
| ClusterManager.Manager.Tick | packages/cluster/src/utils/manager.ts:65-79 | Without a timer, nothing happens. Otherwise the counter follows TickStep, and on escalation the 'execption' event carries the current counts and the timer stops |
| ClusterManager.RunEscalatesOnThirdFailure | packages/cluster/src/utils/manager.ts:65-79 | Over any run of ticks, the timer stops exactly on the first tick that completes three unhealthy ticks in a row. The event carries that tick's counts. Before that, the counter equals the number of trailing unhealthy ticks |
| ClusterManager.AtMostOneEscalation | packages/cluster/src/utils/manager.ts:75-78 | Any run emits the escalation at most once, and none iff no three unhealthy ticks occur in a row |
| ClusterMessenger.Adjacent | packages/cluster/src/utils/messenger.ts:43-47 | agent→app, app→agent, parent→master; a master or worker sender has no default destination |
| ClusterMessenger.Resolve | packages/cluster/src/utils/messenger.ts:28-47 | `from` defaults to master. A receiver pid overrides `to`: own pid → master, agent pid → agent, any other → app. Otherwise a given `to` stays and a missing one comes from Adjacent. Action, receiver and data are unchanged |
| ClusterMessenger.ResolveIdempotent | packages/cluster/src/utils/messenger.ts:28-47 | Routing an envelope that `send` has already filled in gives the same envelope, so a destination never changes on a second pass |
| ClusterMessenger.Dispatch | packages/cluster/src/utils/messenger.ts:49-67 | Exactly one branch per destination. 'worker' or no destination delivers nothing |
| ClusterMessenger.OneDestination | packages/cluster/src/utils/messenger.ts:49-67 | Every delivery of one send goes to the resolved destination and carries the resolved envelope |
| ClusterMessenger.AppDeliveriesTargets | packages/cluster/src/utils/messenger.ts:82-93 | App delivery reaches exactly the workers that are not disconnected and, when a receiver pid is given, whose pid matches |
| ClusterMessenger.AppDeliveries | packages/cluster/src/utils/messenger.ts:82-93 | App delivery sends at most one message per worker. AppDeliveriesTargets states which workers receive it |
| ClusterMessenger.Messenger.constructor | packages/cluster/src/utils/messenger.ts:16-18 | `hasParent` starts as "a parent channel exists", and nothing has been delivered |
| ClusterMessenger.Messenger.OnDisconnect | packages/cluster/src/utils/messenger.ts:23-25 | The parent's disconnect sets `hasParent` to false; no method sets it back |
| ClusterMessenger.Messenger.Send | packages/cluster/src/utils/messenger.ts:28-68 | The step-by-step rewriting of `from` and `to` and the branch chain deliver exactly Dispatch(Resolve(e)) |
| ClusterMessenger.Messenger.OnParentMessage | packages/cluster/src/utils/messenger.ts:19-22 | An inbound parent message is relabelled `from: 'parent'` and then routed |
| ClusterMessenger.Messenger.SendToMaster | packages/cluster/src/utils/messenger.ts:70-74 | A local event named by the action is emitted, and only when the action is non-empty |
| ClusterMessenger.Messenger.SendToParent | packages/cluster/src/utils/messenger.ts:76-80 | The parent gets the message only while `hasParent` holds and the channel exists |
| ClusterMessenger.Messenger.SendToAppWorker | packages/cluster/src/utils/messenger.ts:82-93 | The loop sends to the targeted workers in `cluster.workers` order |
| ClusterMessenger.Messenger.SendToAgentWorker | packages/cluster/src/utils/messenger.ts:95-99 | The agent gets the message only when the master has an agent handle |
| ClusterMaster.NodeEnvDecides | packages/cluster/src/master.ts:48-55 | Without IEDO_SERVER_ENV, production iff NODE_ENV is 'production', and then the log method is info |
| ClusterMaster.ServerEnvOverridesNodeEnv | packages/cluster/src/master.ts:48-55 | A set IEDO_SERVER_ENV decides alone: production iff it is neither 'local' nor 'unittest', whatever NODE_ENV is |
| ClusterMaster.LocalIsDebugNotProduction | packages/cluster/src/master.ts:95-98 | IEDO_SERVER_ENV 'local' is not production and logs at debug |
| ClusterMaster.IsProduction | packages/cluster/src/master.ts:48-55 | Defines `isProduction()`. Its cases are stated by NodeEnvDecides, ServerEnvOverridesNodeEnv and LocalIsDebugNotProduction |
| ClusterMaster.ChooseLogMethod | packages/cluster/src/master.ts:95-98 | Defines the log method: debug for a 'local' server env or a 'development' NODE_ENV, info otherwise. Stated by NodeEnvDecides and LocalIsDebugNotProduction |
| ClusterMaster.Protocol | packages/cluster/src/master.ts:91 | The protocol is 'https' iff `options.https` is truthy, else 'http' |
| ClusterMaster.Master.constructor | packages/cluster/src/master.ts:79-98 | Fresh registry and messenger. isProduction, real port, protocol and log method follow their rules. The agent index is 0, and the master is neither started nor closed |
| ClusterMaster.Master.ForkAgentWorker | packages/cluster/src/master.ts:214-216 | The agent index grows by one, and the new agent is registered as 'starting' with that index as its id |
| ClusterMaster.ForkedAgentNotCounted | packages/cluster/src/master.ts:214-216 | A forked agent counts 0 in `count()`, so the health check never sees the registry as healthy |
| ClusterMaster.ReadyEnvelopes | packages/cluster/src/master.ts:131-150 | Three 'egg-ready' envelopes, to parent, app and agent in that order. The parent gets {port, address, protocol}; app and agent get the options |
| ClusterMaster.ReadyOrder | packages/cluster/src/master.ts:131-150 | The broadcast delivers to the parent (if its channel is open), then every targeted app worker, then the agent (if any). Only the parent's delivery carries the port/address/protocol payload |
| ClusterMaster.Master.SendReady | packages/cluster/src/master.ts:131-150 | The three sends deliver exactly the ready deliveries, in order |
| ClusterMaster.Master.OnReady | packages/cluster/src/master.ts:120-155 | The master is started, the ready broadcast is delivered, and the health check starts iff the master is in production |
| ClusterMaster.NewMaster | packages/cluster/src/master.ts:79-81 | The master exists iff every assertion of `parseOptions` holds, and it then holds exactly the parsed options; otherwise the error is the first failing assertion's message |
| ClusterOptions.MergeDefaults | packages/cluster/src/utils/options.ts:10-19 | The defaults, extended by the given options, are the overlay of the given non-null values |
| ClusterOptions.MergedOption | packages/cluster/src/utils/options.ts:19 | A merged option is the given value when that is not nullish, and the default otherwise |
| ClusterOptions.PortOutcome | packages/cluster/src/utils/options.ts:13-19 | Without a given port: 8443 when `https` is truthy, undefined otherwise. A given non-zero integer port is kept |
| ClusterOptions.WorkersOutcome | packages/cluster/src/utils/options.ts:20-22 | A falsy `workers` becomes the CPU count (undefined on a host reporting none); a non-zero integer is kept |
| ClusterOptions.IntRuleOfInteger | packages/cluster/src/utils/options.ts:49-50 | An integer in number or in text form survives `parseInt(…) \|\| undefined` iff it is non-zero |
| ClusterOptions.IntRuleRange | packages/cluster/src/utils/options.ts:49-50 | port and workers always end up undefined or a non-zero integer |
| ClusterOptions.IntRuleNullish | packages/cluster/src/utils/options.ts:49-50 | null and undefined become undefined |
| ClusterOptions.RequireOutcome | packages/cluster/src/utils/options.ts:51 | A list keeps its elements; any other value becomes the one-element list of it |
| ClusterOptions.AnyDebugArgMeans | packages/cluster/src/utils/options.ts:57 | The debug flag holds iff some exec argument contains `--inspect` or `--debug` |
| ClusterOptions.AnyDebugArg | packages/cluster/src/utils/options.ts:57-58 | Defines the debug-argument scan; AnyDebugArgMeans states it |
| ClusterOptions.IntRule | packages/cluster/src/utils/options.ts:49-50 | Defines `Number.parseInt(`${v}`) \|\| undefined`. Stated by IntRuleOfInteger, IntRuleRange and IntRuleNullish |
| ClusterOptions.HttpsRule | packages/cluster/src/utils/options.ts:34-41 | Defines the `https: true` rewrite to `{key, cert}`. Stated through Check and Outcome |
| ClusterOptions.WorkersRule | packages/cluster/src/utils/options.ts:20-22 | Defines the CPU-count fallback for a falsy `workers`. Stated by WorkersOutcome |
| ClusterOptions.RequireRule | packages/cluster/src/utils/options.ts:51 | Defines `[].concat(require)`. Stated by RequireOutcome |
| ClusterOptions.Outcome | packages/cluster/src/utils/options.ts:9-61 | Defines what `parseOptions` promises about its result. It succeeds exactly when every assertion holds (Accepted), and a failure carries the first failing assertion's message (Rejection). On success every rewritten key follows its rule and every other key is kept. ParseOptions, Normalize, Check and Finish are proved against it |
| ClusterOptions.RejectionAccepted | packages/cluster/src/utils/options.ts:24-47 | The assertions in code order (a non-text baseDir, the package.json, the framework name and path, Application, Agent, the https files) report a message exactly when not all of them hold |
| ClusterOptions.Check | packages/cluster/src/utils/options.ts:20-47 | Succeeds iff every assertion holds, and fails with the first failing assertion's message. On success: the framework is resolved and exports Application and Agent, workers/https follow their rules, and every other key is kept |
| ClusterOptions.Finish | packages/cluster/src/utils/options.ts:49-58 | port and workers go through the integer rule, require through the list rule, and isDebug is set only for a debug exec argument. Every other key is kept |
| ClusterOptions.Normalize | packages/cluster/src/utils/options.ts:20-58 | The result after the merge satisfies every rule of Outcome: success iff every assertion holds, the first failing assertion's message otherwise |
| ClusterOptions.ParseOptions | packages/cluster/src/utils/options.ts:9-61 | The whole normalisation: the merge of defaults and given options, then every rule of Outcome, so it throws exactly when an assertion fails |
| JsObjects.Extend | packages/cluster/src/utils/options.ts:63-71 | The loop copies exactly the non-nullish source values onto the target and returns the same object |
| JsObjects.OverlayProps | packages/cluster/src/utils/options.ts:63-71 | The merged keys are the target's plus the copied ones. A copied key holds the source value; any other key holds the target's |
| JsObjects.OverlayEmpty | packages/cluster/src/utils/options.ts:63-71 | An empty source leaves the target unchanged |
| JsObjects.OverlayTwice | packages/logger/src/lib/utils.ts:19-29 | Of two successive sources, the later one wins for a key it copies |
| JsValues.ParseIntOfText | packages/cluster/src/utils/options.ts:49-50 | `parseInt` of an integer's decimal text gives that integer back |
| JsValues.RadixTextValue | packages/logger/src/lib/transports/transports.ts:74 | A `0x`/`0o`/`0b` integer text is that number under `Number(…)`, but 0 under `parseInt(…, 10)` |
| IedoUtils.Dedup | packages/utils/src/index.ts:108 | The `Set` of module directories: distinct, no longer than the input, with the same members, ordered by each directory's first occurrence in the input |
| IedoUtils.ModuleDirs | packages/utils/src/index.ts:108 | The directories searched: distinct, one to three of them, exactly the package's node_modules, `cwd/node_modules` and the start directory's node_modules, with the package's own directory first |
| IedoUtils.FirstExisting | packages/utils/src/index.ts:110-113 | The first existing `dir/name` in order, and none iff no candidate exists |
| IedoUtils.Lookup | packages/utils/src/index.ts:107-116 | Defines the answer of `assertAndReturn`: the first existing `dir/name` over ModuleDirs, else the error "name is not found in dirs". Its properties are stated by FirstExisting and AssertAndReturn |
| IedoUtils.AssertAndReturn | packages/utils/src/index.ts:107-116 | The loop returns the first existing candidate, and it exists. It throws iff no candidate exists |
| IedoUtils.GetFrameworkPath | packages/utils/src/index.ts:83-105 | Fails without `baseDir/package.json`; a returned path exists |
| IedoUtils.AbsoluteFramework | packages/utils/src/index.ts:90-94 | An absolute framework is returned unchanged if it exists, and fails otherwise |
| IedoUtils.FrameworkPrecedence | packages/utils/src/index.ts:90-104 | The name looked up is the explicit framework, else `iedo.framework`, else 'iedo' |
| IedoUtils.FrameworkOrIedoPath | packages/utils/src/index.ts:23-62 | Without `cwd/node_modules` the answer is '' |
| IedoUtils.FirstDependent | packages/utils/src/index.ts:38-52 | The scan finds a package iff some listed entry's package.json reads and depends on one of the names while every earlier entry has no package.json or one depending on none. The answer is that first entry's directory. It finds nothing iff every entry is passed |
| IedoUtils.FirstInstalled | packages/utils/src/index.ts:54-59 | The first name, in the given order, whose `node_modules/name/package.json` exists; none iff no name is installed |
| IedoUtils.FrameworkOrIedoPathNothing | packages/utils/src/index.ts:25-61 | The answer is '' iff there is no node_modules, or the package names no framework, the listing reads, every entry is passed by the dependency scan and no name is installed |
| IedoUtils.FrameworkOrIedoPathFirstDependent | packages/utils/src/index.ts:30-52 | Without a configured framework, the answer is the first listed package that depends on one of the names, ahead of any package named after them |
| IedoUtils.DependsOnOneOf | packages/utils/src/index.ts:45-51 | The inner loop finds a dependency iff the package has dependencies and one of the names is among them |
| IedoUtils.GetFrameworkOrIedoPath | packages/utils/src/index.ts:23-62 | The loops with early return compute FrameworkOrIedoPath, whose cases are stated by FrameworkOrIedoPathNothing, FrameworkOrIedoPathFirstDependent, FirstDependent and FirstInstalled |
| IedoUtils.FrameworkOrIedoPathUnderModules | packages/utils/src/index.ts:33-59 | A non-empty answer is a directory under `cwd/node_modules` |
| IedoLoader.GetServerEnv | packages/core/src/loader/iedo_loader.ts:85-110 | The chain of reassignments to one local computes ServerEnv |
| IedoLoader.ServerEnvPrecedence | packages/core/src/loader/iedo_loader.ts:86-104 | A non-empty option wins, then a non-blank `config/env` file, then EGG_SERVER_ENV. Only without any of them does NODE_ENV decide: test→unittest, production→prod, else local |
| IedoLoader.ServerEnvTrimmed | packages/core/src/loader/iedo_loader.ts:105-107 | The server env is always trimmed |
| IedoLoader.EnvSource | packages/core/src/loader/iedo_loader.ts:86-104 | Defines the first non-empty source of the server env. Stated by ServerEnvPrecedence |
| IedoLoader.ServerEnv | packages/core/src/loader/iedo_loader.ts:85-110 | Defines the server env. Stated by ServerEnvPrecedence and ServerEnvTrimmed, and computed by GetServerEnv |
| IedoLoader.Homedir | packages/core/src/loader/iedo_loader.ts:136-138 | IEDO_HOME, else the OS home, else '/home/admin'; never empty |
| IedoLoader.ServerScope | packages/core/src/loader/iedo_loader.ts:140-142 | IEDO_SERVER_SCOPE, else '' |
| IedoLoader.Appname | packages/core/src/loader/iedo_loader.ts:112-118 | The package name, or the error "name is required from baseDir/package.json" iff the name is empty |
| IedoLoader.GetAppInfo | packages/core/src/loader/iedo_loader.ts:119-134 | Succeeds iff the package has a name. root is baseDir for 'local' and 'unittest', and home otherwise |
| IedoLoader.Load | packages/core/src/loader/iedo_loader.ts:41-57 | The three option assertions in order with their messages, then the package, server env, app info and scope. Success iff the package reads and has a name |
| IedoLoader.LoadedScopeUnset | packages/core/src/loader/iedo_loader.ts:53-56 | A loaded app's info carries no scope, because it is computed before the scope is assigned |
| Sequencify.Sequencer.constructor | packages/core/src/utils/sequencify.ts:65-72 | The walk starts with nothing required, sequenced, missing or cyclic, and an empty path |
| Sequencify.Sequencer.Sequence | packages/core/src/utils/sequencify.ts:28-62 | Keeps the walk invariant and the path. Every name ends up sequenced unless it is missing or the run failed. A required walk marks every name required; an optional walk marks nothing |
| Sequencify.Sequencer.Visit | packages/core/src/utils/sequencify.ts:29-61 | A name already required is skipped, and so is a missing optional one. Otherwise exactly one branch runs: a missing required name is reported; a name on the path records the path plus the name; a task with dependencies has them walked. After any of these branches, the name is marked required (unless optional) and appended once |
| Sequencify.Sequencer.ReportMissing | packages/core/src/utils/sequencify.ts:33-35 | The name is appended to the missing list |
| Sequencify.Sequencer.RecordCycle | packages/core/src/utils/sequencify.ts:36-40 | The path plus the name is appended to the recorded cycles, and the path is restored |
| Sequencify.Sequencer.Descend | packages/core/src/utils/sequencify.ts:41-52 | Dependencies are walked with the caller's optionality and optional dependencies as optional. Afterwards they are finished, required in a required walk, and the path is restored |
| Sequencify.Sequencer.Complete | packages/core/src/utils/sequencify.ts:53-60 | The name is marked required unless optional, and appended only if absent |
| Sequencify.FilterMembers | packages/core/src/utils/sequencify.ts:79 | The filtered sequence holds exactly the required names of the sequence |
| Sequencify.FilterDistinct | packages/core/src/utils/sequencify.ts:79 | Filtering keeps the absence of duplicates |
| Sequencify.OutcomeOrdered | packages/core/src/utils/sequencify.ts:41-60 | In a run without failures, every result task is known and each of its dependencies comes before it |
| Sequencify.OutcomeSupported | packages/core/src/utils/sequencify.ts:53-56 | Every result name is a given name or an ordinary dependency of a result task, so names reached only through optional dependencies never appear |
| Sequencify.Sequencify | packages/core/src/utils/sequencify.ts:64-83 | The result is empty when anything is missing or cyclic, and has no duplicates. Every given name that is not a task is reported missing, and only absent names are reported (missing dependencies deeper down are reported through Visit). Each cycle closes on a repeated name. Without failures all given names appear, dependencies come first, and only names reached through ordinary dependencies appear |
| Timing.StartTime | packages/core/src/utils/timing.ts:43 | An absent or zero start time is replaced by now |
| Timing.StartKeepsConsistent | packages/core/src/utils/timing.ts:43-54 | Starting appends one record whose index is the old length, maps the name to it, and keeps `list[i].index == i` |
| Timing.EndKeepsConsistent | packages/core/src/utils/timing.ts:61-66 | Ending changes only the mapped record: end = now, duration = now − start |
| Timing.RestartKeepsOldRecord | packages/core/src/utils/timing.ts:41 | Restarting a name ends its old record, which stays in the list, and maps the name to a fresh one |
| Timing.Timing.constructor | packages/core/src/utils/timing.ts:20-37 | A fresh timing is enabled and holds an ended 'Process Start' at index 0, plus an ended 'Script Start' when a script start time is known |
| Timing.Timing.Start | packages/core/src/utils/timing.ts:39-55 | An empty name or a disabled timing changes nothing. Otherwise a mapped name is ended first, then a new record is appended and mapped, and the invariant is kept |
| Timing.Timing.End | packages/core/src/utils/timing.ts:57-67 | An empty name or a disabled timing changes nothing. An unmapped name fails "Timing name not exists". Otherwise the mapped record is ended and returned |
| Timing.Timing.Enable | packages/core/src/utils/timing.ts:69-71 | The flag becomes true |
| Timing.Timing.Disable | packages/core/src/utils/timing.ts:73-75 | The flag becomes false |
| Timing.Timing.Clear | packages/core/src/utils/timing.ts:77-80 | Map and list become empty, and the invariant holds |
| Timing.Timing.ToJson | packages/core/src/utils/timing.ts:82-84 | The list, with every record at its own index and every mapped name pointing at its record |
| LoggerLevels.SixLevels | packages/logger/src/lib/level.ts:1 | Exactly six level names, each naming the level of its rank |
| LoggerLevels.Parse | packages/logger/src/lib/level.ts:1 | A string parses to a level iff it is that level's name |
| LoggerLevels.ValueOf | packages/logger/src/lib/level.ts:4-11 | `levels[name]` is defined iff the name is in the table, and is then that level's value |
| LoggerLevels.StrictlyIncreasing | packages/logger/src/lib/level.ts:4-11 | ALL < DEBUG < INFO < WARN < ERROR < NONE |
| LoggerLevels.Extremes | packages/logger/src/lib/level.ts:5-10 | ALL is below and NONE above every other level; DEBUG..ERROR are 0..3 |
| LoggerLevels.NameIsNaN | packages/logger/src/lib/level.ts:1 | Every level name is NaN as a number |
| LoggerUtils.NormalizeLevel | packages/logger/src/lib/utils.ts:33-44 | A non-empty string is upper-cased, a number is kept, and anything else becomes 'NONE'. The result is a number or a non-empty string |
| LoggerUtils.NormalizeIdempotent | packages/logger/src/lib/utils.ts:33-44 | Normalising twice equals normalising once |
| LoggerUtils.NormalizeIsNormalized | packages/logger/src/lib/utils.ts:33-44 | The result is normalised, and a normalised level is a fixed point |
| LoggerUtils.LastCopier | packages/logger/src/lib/utils.ts:19-29 | Finds the last truthy source with a non-nullish value for the key, or none |
| LoggerUtils.OverlayAllLastWins | packages/logger/src/lib/utils.ts:19-29 | A key copied by some source holds the last such source's value. Any other key keeps the target's value or stays absent |
| LoggerUtils.OverlayAll | packages/logger/src/lib/utils.ts:19-29 | Defines the left-to-right merge of the truthy sources. Stated by OverlayAllLastWins |
| LoggerUtils.Assign | packages/logger/src/lib/utils.ts:16-31 | A falsy target yields a fresh empty object. Otherwise the same target comes back with the truthy sources merged in order |
| LoggerTransport.ConfigureProps | packages/logger/src/lib/transports/transports.ts:24-42 | Options are the defaults overlaid by given non-null values, 'utf-8' becomes 'utf8', and the level is normalised |
| LoggerTransport.TransportDefaults | packages/logger/src/lib/transports/transports.ts:33-42 | Defines the base defaults: level 'NONE', no formatters, json false, encoding 'utf8', eol "\n" |
| LoggerTransport.Configure | packages/logger/src/lib/transports/transports.ts:24-31 | Defines the configured options. Their properties are stated by ConfigureProps |
| LoggerTransport.Transport.constructor | packages/logger/src/lib/transports/transports.ts:24-31 | The transport is enabled, and its options are the configured defaults |
| LoggerTransport.Transport.Enable | packages/logger/src/lib/transports/transports.ts:48-50 | Only the flag changes, to true |
| LoggerTransport.Transport.Disable | packages/logger/src/lib/transports/transports.ts:52-54 | Only the flag changes, to false |
| LoggerTransport.Transport.SetLevel | packages/logger/src/lib/transports/transports.ts:56-58 | Only the level option changes, to the normalised value |
| LoggerTransport.Transport.Level | packages/logger/src/lib/transports/transports.ts:60-62 | The level option when truthy, else the number Infinity |
| LoggerTransport.DisabledNeverLogs | packages/logger/src/lib/transports/transports.ts:64-67 | A disabled transport logs nothing |
| LoggerTransport.NumericNoneNeverLogs | packages/logger/src/lib/transports/transports.ts:69-71 | The numeric NONE option logs nothing |
| LoggerTransport.NumericThreshold | packages/logger/src/lib/transports/transports.ts:73-75 | A non-zero finite or −∞ option logs a level iff the option ≤ that level's value |
| LoggerTransport.NumericMonotone | packages/logger/src/lib/transports/transports.ts:73-75 | With a numeric option, a logged level lets every higher level through |
| LoggerTransport.ZeroLogsEverything | packages/logger/src/lib/transports/transports.ts:73-77 | Option 0 is falsy, so every level is logged |
| LoggerTransport.NamedLevelNeverLogs | packages/logger/src/lib/transports/transports.ts:73-75 | A name-valued option compares as NaN, so nothing is logged |
| LoggerTransport.PrefixedLevelThreshold | packages/logger/src/lib/transports/transports.ts:73-75 | A level option such as '0X1' compares as its number: it lets a level through iff that number is at most the level's value |
| LoggerTransport.ShouldLogWith | packages/logger/src/lib/transports/transports.ts:64-77 | Defines `shouldLog` on the flag and the level option. Its cases are stated by DisabledNeverLogs, NumericNoneNeverLogs, NumericThreshold, ZeroLogsEverything, NamedLevelNeverLogs and PrefixedLevelThreshold |
| LoggerTransport.Transport.ShouldLog | packages/logger/src/lib/transports/transports.ts:64-78 | `shouldLog` of a transport is ShouldLogWith of its flag and its level option |
| LoggerConsole.ConsoleDefaultsByAssign | packages/logger/src/lib/transports/console.ts:15-19 | The console defaults are the base defaults plus stderrLevel 'ERROR' |
| LoggerConsole.ConsoleDefaults | packages/logger/src/lib/transports/console.ts:15-19 | Defines the console defaults; ConsoleDefaultsByAssign shows they are the getter's `assign` |
| LoggerConsole.StderrLevel | packages/logger/src/lib/transports/console.ts:9 | Defines `normalizeLevel(stderrLevel ?? levels.NONE)`; DefaultStderrLevel and ConsoleOptionsNormalized state its results |
| LoggerConsole.ConsoleOptions | packages/logger/src/lib/transports/console.ts:7-13 | Defines a new console transport's options; ConsoleOptionsNormalized states that both thresholds are normalised |
| LoggerConsole.UseStderr | packages/logger/src/lib/transports/console.ts:23-28 | Defines the stderr condition. Its cases are stated by NoneNeverStderr, NumericStderr, NamedStderrLevelNeverStderr and DefaultSendsAllToStdout |
| LoggerConsole.DefaultStderrLevel | packages/logger/src/lib/transports/console.ts:9 | Without a given stderrLevel, the option is 'ERROR' |
| LoggerConsole.ConsoleOptionsNormalized | packages/logger/src/lib/transports/console.ts:7-13 | After construction, both level and stderrLevel are normalised levels |
| LoggerConsole.ConsoleTransport.constructor | packages/logger/src/lib/transports/console.ts:7-13 | Base construction, then the normalised stderrLevel (nullish → numeric NONE), then IEDO_LOG as the level when set |
| LoggerConsole.ConsoleTransport.Log | packages/logger/src/lib/transports/console.ts:21-32 | Each message is written to exactly one stream, stderr iff UseStderr |
| LoggerConsole.NoneNeverStderr | packages/logger/src/lib/transports/console.ts:26 | NONE-level messages never go to stderr |
| LoggerConsole.NumericStderr | packages/logger/src/lib/transports/console.ts:23-28 | A numeric non-zero threshold sends to stderr every level other than NONE whose value is at least the threshold (ALL included when the threshold is -Infinity) |
| LoggerConsole.NamedStderrLevelNeverStderr | packages/logger/src/lib/transports/console.ts:23-28 | A name-valued stderrLevel never compares true |
| LoggerConsole.DefaultSendsAllToStdout | packages/logger/src/lib/transports/console.ts:21-32 | With the default stderrLevel, every message goes to stdout |
| Logging.Logger.constructor | packages/logger/src/lib/logger.ts:20-27 | Options are {} overlaid with the given options; there are no transports, redirect or duplicate loggers |
| Logging.Logger.SetTransport | packages/logger/src/lib/logger.ts:13 | `Map.set`: the transport is stored under its key, and a new key goes to the end of the order |
| Logging.Logger.Log | packages/logger/src/lib/logger.ts:43-64 | Forwards exactly as Plan says |
| Logging.Logger.SendToTransports | packages/logger/src/lib/logger.ts:59-63 | The loop forwards to every accepting, non-excluded transport, in key order |
| Logging.Logger.SendToTransport | packages/logger/src/lib/logger.ts:60-62 | One transport receives the message iff it accepts the level and is not excluded |
| Logging.FanoutMembers | packages/logger/src/lib/logger.ts:59-63 | A transport receives the message iff it is present, accepts the level and is not excluded |
| Logging.FanoutAppend | packages/logger/src/lib/logger.ts:59-63 | The fan-out follows key order: it distributes over concatenated keys |
| Logging.FanoutOnce | packages/logger/src/lib/logger.ts:59-63 | Each transport receives a message at most once |
| Logging.RedirectOnly | packages/logger/src/lib/logger.ts:51-56 | With no duplicate logger, a redirect logger is the only receiver |
| Logging.DuplicateFirst | packages/logger/src/lib/logger.ts:45-50 | A duplicate logger with options receives the message first, and own transports outside its excludes follow. A duplicate without options only suppresses the redirect |
| Logging.Plan | packages/logger/src/lib/logger.ts:43-64 | Defines what one `log` call delivers. Its cases are stated by DuplicateFirst and RedirectOnly, and the fan-out by FanoutMembers, FanoutAppend and FanoutOnce |
| Logging.Fanout | packages/logger/src/lib/logger.ts:59-63 | The fan-out delivers at most one message per key |
| Logging.Logger.Error | packages/logger/src/lib/logger.ts:66-68 | Logs at 'ERROR' |
| Logging.Logger.Warn | packages/logger/src/lib/logger.ts:70-72 | Logs at 'WARN' |
| Logging.Logger.Info | packages/logger/src/lib/logger.ts:74-76 | Logs at 'INFO' |
| Logging.Logger.Debug | packages/logger/src/lib/logger.ts:78-80 | Logs at 'DEBUG' |
| InitCommand.Braces | packages/eff-init/lib/init_command.js:137 | A match spans `{{`, optional spaces, a non-empty word key, optional spaces and `}}` |
| InitCommand.PlaceholderAt | packages/eff-init/lib/init_command.js:137 | An escaped match starts with a backslash, and an unescaped match contains none |
| InitCommand.ReplaceFromFails | packages/eff-init/lib/init_command.js:137-140 | From any position, the replacement fails iff an escaped placeholder starts there or later |
| InitCommand.ReplaceFrom | packages/eff-init/lib/init_command.js:137-141 | Defines the global replace from one position on. Stated by ReplaceFromFails |
| InitCommand.ReplaceTemplate | packages/eff-init/lib/init_command.js:134-143 | Defines `replaceTemplate`. Stated by ReplaceTemplateFails, ReplaceTemplatePlain, ReplaceTemplateKeepsUnknown and ReplaceTemplateLone |
| InitCommand.ReplaceTemplateFails | packages/eff-init/lib/init_command.js:138-140 | replaceTemplate throws "block.subString is not a function" iff the content holds an escaped placeholder |
| InitCommand.ReplaceTemplatePlain | packages/eff-init/lib/init_command.js:134-143 | Content without `{{` is returned unchanged |
| InitCommand.ReplaceTemplateKeepsUnknown | packages/eff-init/lib/init_command.js:141 | When no scope key occurs in the content, every placeholder is kept verbatim |
| InitCommand.ReplaceTemplateLone | packages/eff-init/lib/init_command.js:137-141 | A lone `{{ key }}` with any inner spaces becomes scope[key] when scope has the key, and stays verbatim otherwise |
| InitCommand.AddToGroup | packages/eff-init/lib/init_command.js:293-306 | Places one entry in its group and keeps every earlier placement |
| InitCommand.GroupName | packages/eff-init/lib/init_command.js:293-296 | Defines an entry's group: the text of its `key` property, else `otherKey`. Stated by GroupBy |
| InitCommand.GroupBy | packages/eff-init/lib/init_command.js:285-310 | Every entry sits, unchanged, in the group named by its `key` property (or `otherKey`), and the groups hold nothing else |
| InitCommand.RegistryPrecedence | packages/eff-init/lib/init_command.js:426-452 | china→mirror, npm→npmjs, an http(s) URL without one trailing slash. Otherwise npm_registry, then npm_config_registry, then npmjs, replaced by the mirror when ~/.cnpmrc or ~/.tnpmrc exists, without one trailing slash |
| InitCommand.RegistryStable | packages/eff-init/lib/init_command.js:433-435 | A URL without a trailing slash is returned unchanged |
| InitCommand.RegistryByType | packages/eff-init/lib/init_command.js:426-452 | Defines `getRegistryByType`. Stated by RegistryPrecedence and RegistryStable |
| InitCommand.FileMapping | packages/eff-init/lib/init_command.js:31-39 | No target name of the mapping is itself a mapped basename |
| InitCommand.TargetName | packages/eff-init/lib/init_command.js:106 | A mapped basename becomes its target, and any other basename is kept |
| InitCommand.TargetNameIdempotent | packages/eff-init/lib/init_command.js:106 | Renaming a template basename twice equals renaming it once |

## Left out

- Path handling: `path.join` is `a + "/" + b`, with no normalisation of `.`, `..` or repeated slashes. `isAbsolute` is "starts with '/'".
- Numbers: JS numbers are integers and ±Infinity. Fractions and NaN as a stored value are not modelled.
- Numbers: integers of magnitude 2^53 or more are not modelled. JS numbers cannot hold them exactly, and `${n}` uses exponent form from 1e21. The model prints every integer in decimal, so JsValues.ParseIntOfText and ClusterOptions.IntRuleOfInteger describe JS only for |n| < 2^53.
- JsValues.StringToNumber: decimal points and exponents are not modelled. JS reads '1.0' and '1E0' as 1 and '1.5' as a fraction; the model reads all of them as NaN. So a level option such as '1E0' is modelled as letting nothing through, where JS compares it as a number. Prefixed integers ('0x', '0o', '0b') and 'Infinity' are modelled.
- Strings: case conversion is ASCII only, and no Unicode case mapping is modelled. Trimming and `parseInt` skip the full JS whitespace set, U+FEFF and U+00A0 included.
- Manager: the `setInterval` timer is the `active` flag plus the `Tick` method. The 10-second period and the real clock are outside.
- Manager: the master's `'execption'` handler (log, then `process.exit(1)`) is outside; the event is the `Tick` result.
- Master: `detectPorts`, `clusterPort` and `stickyWorkerPort` are outside, because they are port probing on the network.
- Master: the `fork` call, the `--true` exec argument built from `semver`, the debug port and the agent's `'error'` handler are outside.
- Master: the pid file, startup logging, `frameworkPkg` reading and the elapsed-time message are I/O and are outside.
- Master: the `ready` mixin from `get-ready` is foreign code. `OnReady` models the callback body, not when it fires.
- Master: `this[APP_ADDRESS]` is never assigned in the source, so the parent payload's address is undefined.
- ClusterOptions: `process.env.NO_DEPRECATION = '*'` under production and the `deprecate` warning are outside; they only silence or print warnings.
- ClusterOptions: what `require(framework)` exports is given as two sets of paths (those exporting Application, those exporting Agent).
- ClusterOptions: properties inherited through prototypes are not modelled; an object is its own enumerable keys.
- Sequencify: the `requires` and `tasks` objects are modelled as maps without `Object.prototype`. In JS a task named 'constructor' is skipped as already required, and a name such as 'toString' is found as a function without `dependencies`, so the walk throws. The model treats both as ordinary names.
- InitCommand.GroupBy: a group named 'constructor' or '__proto__' is found on `Object.prototype` in JS, so no own group is created and the entry is written onto the prototype. The model creates an ordinary group for every name.
- InitCommand.TargetName: `fileMapping['constructor']` (and any other `Object.prototype` key) is a function in JS, which `||` returns. The model keeps such a basename unchanged.
- Messenger: `sendmessage` and `process.send` are outside, and each sent message is a `Delivery` record. `cluster.workers` is a list of `{pid, state}`.
- Messenger: the master's `emit` is a `MasterEvent` delivery; the listeners it reaches are outside.
- Sequencify: the `parent` parameter of `sequence` only feeds a debug message and is left out.
- Timing: the shared record objects are positions into the list. `Date.now()`, `process.pid`, `process.uptime()` and `process.scriptStartTime` are parameters.
- Timing.Timing.constructor: a non-number `scriptStartTime` is not modelled; the parameter is an optional integer.
- IedoLoader: `app.timing`, `app.lifecycle` and the require counter are left out, because they are only stored.
- IedoLoader: `getIedoPaths` is commented out in the constructor and is left out.
- IedoLoader: a non-string package name is not modelled. The name is a string, and "" stands for a missing or falsy one.
- IedoUtils: `utility.readJSONSync` is the `packages` map of the file system value. An unparsable file is a missing entry.
- IedoUtils: `getPlugins`, `getLoadUnits`, `getConfig`, `getLoader` and `findIedoCore` load modules dynamically and are left out.
- Logger: `format`, `consoleFormatter`, colouring, encoding conversion, hostname and dates are left out. A console write carries the message as a parameter.
- Logger: `transport.log` of the own transports and `logger.log` of duplicate and redirect loggers are recorded as deliveries; their effects are outside.
- Logger: `Logger.enable` and `Logger.disable` call `enabled()` and `disabled()`, which `Transport` does not define, and are left out.
- Logger: `os.EOL` is "\n".
- LoggerUtils.Assign: a falsy primitive target other than null (0, "", false) is not modelled; the target is an object or null.
- InitCommand.GroupBy: the order in which groups and group members are created is not modelled. Groups are maps, and the inner `for…in` is modelled by key membership.
- InitCommand: non-string scope values of `replaceTemplate` are not modelled; the scope maps strings to strings.
- InitCommand: `processFiles` I/O, globbing and file copying are left out; only the basename rename of line 106 is modelled.
- InitCommand: a `getRegistryByType` key that is `undefined` is not modelled; the key is a string.
- InitCommand: downloads, the npm updater, prompts and `askForVariable` are interactive or network code and are left out.
- The agent worker bootstrap, the lifecycle readiness barrier, the CLI packages and the build script are left out. They are process bootstrap, foreign libraries or tooling.
