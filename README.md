# Heimdall event-sourcing core, modelled in Dafny

Heimdall records the lifecycle of software projects with event sourcing.
A command is decided against the current state of its project. The decision
yields immutable events, and those events are the only thing stored. The
current state is never stored: it is always recomputed by folding `apply`
over the project's stream, starting from the empty state.

This model covers:

- the generic aggregate contract and command handler (`Cqrs`, cqrs.kt). An
  aggregate is a bundle of `decide`, `apply`, the empty state, and the
  stream id a command targets. `Replay` is the source's counting loop. It is
  proved equal to the fold `Replayed`. The fold's version is the number of
  events, and it splits over concatenation. `CqrsEngine` reads the command's
  stream, replays it and decides, then turns the decision into one of three
  results: failed, no-op or success;
- the project aggregate (`Project`, project.kt, over the types of
  `ProjectModel`, project_model.kt). It is a three-state machine
  `ProjectNotExit → ProjectDescribing → ProjectAlive`. Its decision table is
  proved against an independent statement of which commands are admissible
  and which are already satisfied. Its transitions are proved monotone, also
  across whole replays. Each emitted event is proved to change the state, and
  repeating a command after its event was applied never records anything a
  second time;
- the `Either` result type and its combinators (`Utils`, utils.kt), with the
  functor and monad laws that relate them;
- the in-memory event store (`TestEventStore`, EventStoreForTest.kt). It
  is a class holding a `map` from stream key to event sequence. A read is
  proved to return the previous events plus the appended ones, in order, and
  other streams are proved unchanged;
- the read-model query (`ProjectFetcher`, ProjectFetcher.kt), which replays
  the stored stream;
- the scenarios that ProjectTest.kt and ProjectEndpointTest.kt drive through
  the engine (`ProjectScenarios`).

Three points where this version of Heimdall's code disagrees with itself, and the
choice made here:

- `handleCommand` (cqrs.kt:75-92) never appends the events it
  decides. The tests need them stored: three events after two builds in
  ProjectTest.kt:138-164, and a readable project after creation in
  ProjectEndpointTest.kt:54-75. `CqrsEngine.HandleCommand` therefore appends
  the emitted events on success and only then. The code as written is kept
  as `HandleCommandAsWritten` (see Findings).
- `documents` and `deliveries` are declared as sets (project_model.kt:68,
  75-76), although project.kt builds them through lists. They are Dafny
  `set`s here, so adding an element already present is an insertion that
  changes nothing.
- `handleCommand` reads the stream id of a command through `streamId`
  (cqrs.kt:77), but `ProjectCommand` (project_model.kt:34-41) declares no
  `streamId`; it declares `id` instead. The project aggregate's `streamOf`
  is therefore the command's `id`.

Every command and every event names its project stream in an `id` field
that all its variants share. The `id()` of a state is `ProjectState.Id`.
Events are immutable datatype values, so the `happenedDate` an event gets
when it is built is never changed afterwards.

The code rejects `AddDocumentToProject` on an alive project
(project.kt:61), and so does this model. Allowing it would change
`decideOnProjectAlive`; this model keeps the code's rejection.

## Model

| member | source | states |
|---|---|---|
| `Utils.Fail` | src/main/kotlin/com/github/jpthiery/heimdall/domain/utils.kt:29 | `fail` builds a `Left` holding the value |
| `Utils.Success` | src/main/kotlin/com/github/jpthiery/heimdall/domain/utils.kt:30 | `success` builds a `Right` holding the value |
| `Utils.Map` | src/main/kotlin/com/github/jpthiery/heimdall/domain/utils.kt:42-45 | a `Left` passes through with the same failure; a `Right(r)` becomes `Right(f(r))` |
| `Utils.Apply` | src/main/kotlin/com/github/jpthiery/heimdall/domain/utils.kt:47-50 | a failed function short-circuits with its own failure; a successful `f` is `map` of `f` over the argument |
| `Utils.FlatMap` | src/main/kotlin/com/github/jpthiery/heimdall/domain/utils.kt:52-55 | a `Left` short-circuits; `flatMap(Right(r), f) = f(r)` |
| `Utils.Fold` | src/main/kotlin/com/github/jpthiery/heimdall/domain/utils.kt:57-60 | `Left(l)` goes to `foldLeft(l)`, `Right(r)` to `foldRight(r)` |
| `Utils.Get` | src/main/kotlin/com/github/jpthiery/heimdall/domain/utils.kt:65-68 | `Right(r)` gives `r`; `Left(l)` gives `or(l)` |
| `Utils.MapIdentity` | src/main/kotlin/com/github/jpthiery/heimdall/domain/utils.kt:42-45 | mapping the identity function changes nothing |
| `Utils.MapComposition` | src/main/kotlin/com/github/jpthiery/heimdall/domain/utils.kt:42-45 | `map f` then `map g` equals `map (g ∘ f)` |
| `Utils.MapIsFlatMapOfSuccess` | src/main/kotlin/com/github/jpthiery/heimdall/domain/utils.kt:42-55 | `map f` is `flatMap` of `success ∘ f` |
| `Utils.FlatMapRightIdentity` | src/main/kotlin/com/github/jpthiery/heimdall/domain/utils.kt:52-55 | `flatMap` with the success constructor changes nothing |
| `Utils.FlatMapAssociative` | src/main/kotlin/com/github/jpthiery/heimdall/domain/utils.kt:52-55 | chaining with `flatMap` is associative |
| `Utils.ApplyIdentity` | src/main/kotlin/com/github/jpthiery/heimdall/domain/utils.kt:47-50 | applying the successful identity function returns the argument unchanged, failed or not (applicative identity law) |
| `Utils.ApplyHomomorphism` | src/main/kotlin/com/github/jpthiery/heimdall/domain/utils.kt:47-50 | a successful function applied to a successful argument is the success of the plain application (applicative homomorphism law) |
| `Utils.GetIsFold` | src/main/kotlin/com/github/jpthiery/heimdall/domain/utils.kt:57-68 | `get(or)` is `fold(or, identity)` |
| `Utils.FoldAfterMap` | src/main/kotlin/com/github/jpthiery/heimdall/domain/utils.kt:42-60 | folding after a `map f` is folding with the success handler composed with `f` |
| `TestEventStore.CacheEntryFrom` | src/test/kotlin/com/github/jpthiery/heimdall/domain/EventStoreForTest.kt:40-43 | the key of a stream is built from its id alone and holds that id |
| `TestEventStore.CacheEntryFromInjective` | src/test/kotlin/com/github/jpthiery/heimdall/domain/EventStoreForTest.kt:40-44 | the cache key is a function of the stream id alone, and distinct streams get distinct keys |
| `TestEventStore.EventStoreForTest.constructor` | src/test/kotlin/com/github/jpthiery/heimdall/domain/EventStoreForTest.kt:19-21 | a new store holds no entries, so every stream reads empty |
| `TestEventStore.EventStoreForTest.GetEventForAggregate` | src/test/kotlin/com/github/jpthiery/heimdall/domain/EventStoreForTest.kt:23-31 | returns the stream's stored events; a stream never appended to reads as the empty list; the cache is not modified |
| `TestEventStore.EventStoreForTest.AppendEvents` | src/test/kotlin/com/github/jpthiery/heimdall/domain/EventStoreForTest.kt:33-38 | the stream afterwards reads as its old events followed by the new ones, in order, and grows by exactly their number; every other stream reads as before; appending nothing leaves every stream's events unchanged |
| `Cqrs.ReplayFrom` | src/main/kotlin/com/github/jpthiery/heimdall/domain/cqrs.kt:41-49 | folding `apply` over the events adds exactly one version per event, whatever the event's effect; no events leaves the start unchanged |
| `Cqrs.Replayed` | src/main/kotlin/com/github/jpthiery/heimdall/domain/cqrs.kt:41-49 | the replayed version equals the number of events; an empty stream replays to the aggregate's empty state |
| `Cqrs.ReplayFromConcat` | src/main/kotlin/com/github/jpthiery/heimdall/domain/cqrs.kt:44-47 | replaying `e1 ++ e2` equals replaying `e2` from the result of replaying `e1` |
| `Cqrs.ReplayedConcat` | src/main/kotlin/com/github/jpthiery/heimdall/domain/cqrs.kt:41-49 | the state after `e1 ++ e2` is `e2` folded onto the state after `e1`, and the versions add up |
| `Cqrs.ReplayedSnoc` | src/main/kotlin/com/github/jpthiery/heimdall/domain/cqrs.kt:44-46 | one more event is one more `apply` on the state replayed so far |
| `Cqrs.Replay` | src/main/kotlin/com/github/jpthiery/heimdall/domain/cqrs.kt:41-49 | the counting loop over the events returns exactly the fold `Replayed`, starting from the empty state at version 0 |
| `Cqrs.Resolve` | src/main/kotlin/com/github/jpthiery/heimdall/domain/cqrs.kt:80-90 | every result carries the input command; it fails, with the reason, exactly when the decision is a `Left`; it is a no-op exactly when the decision is `Right([])`; on success it carries exactly the non-empty emitted events |
| `Cqrs.CqrsEngine.constructor` | src/main/kotlin/com/github/jpthiery/heimdall/domain/cqrs.kt:73 | the engine works on the store it is given |
| `Cqrs.CqrsEngine.HandleCommandAsWritten` | src/main/kotlin/com/github/jpthiery/heimdall/domain/cqrs.kt:75-92 | reads and replays the stream of the command's own stream id, decides, and resolves the decision; the store is never written |
| `Cqrs.CqrsEngine.HandleCommand` | src/main/kotlin/com/github/jpthiery/heimdall/domain/cqrs.kt:75-92 | same result as above, computed from the stream before the call; on success that stream becomes its old events followed by exactly the emitted ones; failures and no-ops leave the store untouched; other streams never change |
| `ProjectModel.ProjectState.Id` | src/main/kotlin/com/github/jpthiery/heimdall/domain/project_model.kt:54-62 | every state exposes a project id; the not-existing state carries the sentinel `ProjectId("Unknown")` |
| `ProjectModel.DocumentKindsDiffer` | src/main/kotlin/com/github/jpthiery/heimdall/domain/project_model.kt:22-28 | documents compare structurally: the three kinds differ even with equal fields |
| `Project.NotExistState` | src/main/kotlin/com/github/jpthiery/heimdall/domain/project.kt:18 | the empty state is `ProjectNotExit`, whose id is the sentinel |
| `Project.Decide` | src/main/kotlin/com/github/jpthiery/heimdall/domain/project.kt:6-10 | rejects exactly the commands outside the admissible cells of the decision table; is a no-op exactly when the state already records the document or build asked for; otherwise emits exactly one event for the command, on the command's stream before creation and the state's stream after, stamped with the clock reading |
| `Project.Apply` | src/main/kotlin/com/github/jpthiery/heimdall/domain/project.kt:12-16 | never moves a state backwards and advances at most one stage; once created, id, name and SCM url never change and documents only grow; an alive project keeps its documents and its deliveries only grow |
| `Project.DecideOnProjectNotExit` | src/main/kotlin/com/github/jpthiery/heimdall/domain/project.kt:20-25 | accepts exactly `CreateProject(id, n)`, with the single event `ProjectCreated(id, n)`; every other command is rejected |
| `Project.DecideOnProjectDescribing` | src/main/kotlin/com/github/jpthiery/heimdall/domain/project.kt:27-47 | rejects exactly `CreateProject`; a document already present is a no-op, a new one gives exactly `[DocumentToProjectAdded(state.id, d)]`; a build always gives exactly `[ProjectBuilt(state.id, b)]` |
| `Project.DecideOnProjectAlive` | src/main/kotlin/com/github/jpthiery/heimdall/domain/project.kt:49-62 | rejects every command but a build; a build already delivered is a no-op, a new one gives exactly `[ProjectBuilt(state.id, b)]` |
| `Project.ApplyOnProjectNotExist` | src/main/kotlin/com/github/jpthiery/heimdall/domain/project.kt:64-67 | `ProjectCreated(id, n)` gives a description with that id and name, SCM url `""` and no documents; any other event leaves `ProjectNotExit` |
| `Project.ApplyOnProjectDescribing` | src/main/kotlin/com/github/jpthiery/heimdall/domain/project.kt:69-88 | a document event inserts the document and changes nothing else; a build makes the project alive with the same id, name, SCM url and documents and the build as its only delivery; other events change nothing |
| `Project.ApplyOnProjectAlive` | src/main/kotlin/com/github/jpthiery/heimdall/domain/project.kt:90-103 | the result is always alive with the same id, name, SCM url and documents; a build is inserted into the deliveries, any other event leaves them as they are |
| `Project.CreateOnlyFromNotExist` | src/main/kotlin/com/github/jpthiery/heimdall/domain/project.kt:6-62 | `CreateProject` succeeds exactly from `ProjectNotExit`, and then with exactly one `ProjectCreated` |
| `Project.NotExistRejectsOtherCommands` | src/main/kotlin/com/github/jpthiery/heimdall/domain/project.kt:20-25 | every command other than `CreateProject` is rejected before the project exists |
| `Project.ApplyIgnoresRecordedMembers` | src/main/kotlin/com/github/jpthiery/heimdall/domain/project.kt:69-103 | applying a document or a build the state already holds leaves the state unchanged (set semantics) |
| `Project.AcceptedEventChangesState` | src/main/kotlin/com/github/jpthiery/heimdall/domain/project.kt:6-103 | every event `decide` emits changes the state it was decided on: no emitted event is inert |
| `Project.RepeatedCommandIsNotRecordedAgain` | src/main/kotlin/com/github/jpthiery/heimdall/domain/project.kt:6-103 | after an accepted command's event is applied, the same command is rejected again if it is a creation and is a no-op otherwise |
| `Project.ReplayIsMonotone` | src/main/kotlin/com/github/jpthiery/heimdall/domain/project.kt:64-103 | over any further events the stage never drops; once created, id, name and SCM url are fixed and documents only grow; once alive, the project stays alive with the same documents and growing deliveries |
| `Project.AliveIsFinal` | src/main/kotlin/com/github/jpthiery/heimdall/domain/project.kt:90-103 | a stream that replays to `ProjectAlive` still replays to `ProjectAlive` whatever is appended |
| `ProjectFetcher.DefaultProjectFetcher.constructor` | src/main/kotlin/com/github/jpthiery/heimdall/application/ProjectFetcher.kt:14 | the fetcher reads the store it is given |
| `ProjectFetcher.DefaultProjectFetcher.FetchById` | src/main/kotlin/com/github/jpthiery/heimdall/application/ProjectFetcher.kt:16-20 | returns the replayed state of the project's stored events without modifying the store; an empty stream gives `ProjectNotExit` |
| `ProjectScenarios.CreateThenFetch` | src/test/kotlin/com/github/jpthiery/heimdall/infra/http/ProjectEndpointTest.kt:54-75 | creating a project on an empty stream succeeds with exactly one `ProjectCreated`, and fetching it gives `ProjectDescribing(id, n, "", {})` |
| `ProjectScenarios.CreateThenFetchAsWritten` | src/main/kotlin/com/github/jpthiery/heimdall/domain/cqrs.kt:75-92 | with the handler as written, the creation is reported successful, yet fetching the project gives `ProjectNotExit` |
| `ProjectScenarios.TwoBuildsHistory` | src/test/kotlin/com/github/jpthiery/heimdall/domain/ProjectTest.kt:138-164 | replaying a creation describes the project; adding build 1.0.0 makes it alive with that delivery; adding build 2.0.0 gives version 3 with both deliveries |
| `ProjectScenarios.AttachTwoBuilds` | src/test/kotlin/com/github/jpthiery/heimdall/domain/ProjectTest.kt:138-164 | after a creation, builds 1.0.0 then 2.0.0 are each accepted with one `ProjectBuilt`; the stream then holds exactly the creation and the two builds, in order, its replay has version 3, and the project is alive with deliveries {1.0.0, 2.0.0} |
| `ProjectScenarios.AddDocumentToMissingProject` | src/test/kotlin/com/github/jpthiery/heimdall/domain/ProjectTest.kt:57-65 | a document for a project that does not exist is rejected, and nothing is stored |
| `ProjectScenarios.AttachDeliveredBuildAgain` | src/test/kotlin/com/github/jpthiery/heimdall/domain/ProjectTest.kt:244-247 | a build an alive project already delivered is a no-op, and the stream is unchanged |

## Left out

- Clock: events read `Clock.systemUTC()` when they are constructed (project_model.kt:43-45). Here the reading is a `now` argument of `decide` and of the handler, and each event keeps it in `happenedDate`.
- Event equality: a Kotlin data class leaves `happenedDate` out of `equals`, because it is not a constructor property. Dafny datatype equality includes it. Nothing in the modelled core compares events.
- `Replay`: the version is an unbounded integer. Kotlin's 32-bit `Int` would wrap after 2^31 - 1 events.
- `EventStoreForTest` cache key: the key's `aggregateClass` component is `id.javaClass`, which is a function of the id, so the key is modelled by the id alone. The store holds one event family, so the unchecked cast in `getEventForAggregate` is not modelled. The unused aggregate argument of that read is dropped.
- `EventStore` interface: its signatures in cqrs.kt:53-59 do not match its implementations. One store class with a read and an append is modelled.
- Optimistic concurrency: neither backend checks the expected version. EventStoreForTest.kt takes none, and RedisEventStore.kt:53-69 ignores `initialStateVersion`. No compare-and-append guard is modelled, and concurrent callers are not modelled.
- Redis backend (RedisEventStore.kt), the Jackson event codec (ProjectEventSerializer.kt) and the notifying decorator (EventEmitterStoreDecorator.kt): each is a foreign store, library or sink.
- HTTP endpoints, OpenAPI metadata and dependency wiring: transport and configuration only.
- `createProjectIdFromName` (SHA-256 and UUID derivation): foreign calls. Project ids are taken as given.
- `Either.tryTo` and `consume`: exception capture, and an alias of `fold`.
- The generic `NotExist`/`Unknown` objects of cqrs.kt:25-29 are not used by the project aggregate, which has its own sentinel state.

## Findings

| source | as written | input that shows it | evidently intended | confidence | as-written member | corrected member |
|---|---|---|---|---|---|---|
| src/main/kotlin/com/github/jpthiery/heimdall/domain/cqrs.kt:75-92 | `handleCommand` reads, replays and decides, but never appends the emitted events to the store | `CreateProject(id, "TopGun")` on an empty store, then `fetchById(id)` | the events are persisted on success, so the fetch gives `ProjectDescribing(id, "TopGun")`; ProjectEndpointTest.kt:54-75 and ProjectTest.kt:138-164 expect this | medium (the `EventStore` interface in this version of the code does not match its implementations); not executed | `Cqrs.CqrsEngine.HandleCommandAsWritten`, `ProjectScenarios.CreateThenFetchAsWritten` | `Cqrs.CqrsEngine.HandleCommand`, `ProjectScenarios.CreateThenFetch` |
