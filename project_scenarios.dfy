/**
 * Scenarios of the engine over the in-memory store and the project
 * aggregate, as ProjectTest.kt and ProjectEndpointTest.kt drive them.
 */
module ProjectScenarios {
  import opened Cqrs
  import opened TestEventStore
  import opened ProjectModel
  import opened Project
  import opened ProjectFetcher

  /** A released build of the project under test. */
  function Build(version: string): BuildId
  {
    BuildId(ProjectBuiltVersion(version))
  }

  /**
   * Creating a project on an empty stream succeeds with one `ProjectCreated`
   * event, and reading the project back gives a description with that name,
   * no SCM url and no documents.
   */
  method CreateThenFetch(id: ProjectId, name: string, now: Millis)
    returns (result: HandleCommandResult<ProjectCommand, ProjectEvent>, state: ProjectState)
    ensures result == SuccessfullyHandleCommand(CreateProject(id, name), [ProjectCreated(id, name, now)])
    ensures state == ProjectDescribing(id, name, "", {})
  {
    var store := new EventStoreForTest<ProjectId, ProjectEvent>();
    var engine := new CqrsEngine(store);
    var fetcher := new DefaultProjectFetcher(store);
    result := engine.HandleCommand(ProjectAggregate, CreateProject(id, name), now);
    assert store.Events(id) == [ProjectCreated(id, name, now)];
    state := fetcher.FetchById(id);
  }

  /**
   * The same scenario with the handler as cqrs.kt writes it: the command is
   * reported as handled, yet the project cannot be read back.
   */
  method CreateThenFetchAsWritten(id: ProjectId, name: string, now: Millis)
    returns (result: HandleCommandResult<ProjectCommand, ProjectEvent>, state: ProjectState)
    ensures result == SuccessfullyHandleCommand(CreateProject(id, name), [ProjectCreated(id, name, now)])
    ensures state == ProjectNotExit
  {
    var store := new EventStoreForTest<ProjectId, ProjectEvent>();
    var engine := new CqrsEngine(store);
    var fetcher := new DefaultProjectFetcher(store);
    result := engine.HandleCommandAsWritten(ProjectAggregate, CreateProject(id, name), now);
    state := fetcher.FetchById(id);
  }

  /** The replays of a creation followed by builds 1.0.0 and 2.0.0, one prefix at a time. */
  lemma TwoBuildsHistory(id: ProjectId, t0: Millis, t1: Millis, t2: Millis)
    ensures Replayed(ProjectAggregate, [ProjectCreated(id, id.id, t0)]).state == ProjectDescribing(id, id.id, "", {})
    ensures Replayed(ProjectAggregate, [ProjectCreated(id, id.id, t0), ProjectBuilt(id, Build("1.0.0"), t1)]).state
         == ProjectAlive(id, id.id, "", {}, {Build("1.0.0")})
    ensures Replayed(ProjectAggregate, [ProjectCreated(id, id.id, t0), ProjectBuilt(id, Build("1.0.0"), t1), ProjectBuilt(id, Build("2.0.0"), t2)])
         == StateVersioned(ProjectAlive(id, id.id, "", {}, {Build("1.0.0"), Build("2.0.0")}), 3)
  {
    var created := [ProjectCreated(id, id.id, t0)];
    var afterFirst := created + [ProjectBuilt(id, Build("1.0.0"), t1)];
    assert afterFirst == [ProjectCreated(id, id.id, t0), ProjectBuilt(id, Build("1.0.0"), t1)];
    ReplayedSnoc(ProjectAggregate, created, ProjectBuilt(id, Build("1.0.0"), t1));
    assert Replayed(ProjectAggregate, afterFirst).state == ProjectAlive(id, id.id, "", {}, {Build("1.0.0")});
    assert Build("2.0.0") != Build("1.0.0");
    ReplayedSnoc(ProjectAggregate, afterFirst, ProjectBuilt(id, Build("2.0.0"), t2));
    assert {Build("1.0.0")} + {Build("2.0.0")} == {Build("1.0.0"), Build("2.0.0")};
    assert afterFirst + [ProjectBuilt(id, Build("2.0.0"), t2)]
        == [ProjectCreated(id, id.id, t0), ProjectBuilt(id, Build("1.0.0"), t1), ProjectBuilt(id, Build("2.0.0"), t2)];
  }

  /**
   * A described project receiving builds 1.0.0 and then 2.0.0: each build is
   * accepted with one `ProjectBuilt`, the stream then holds the creation and
   * both builds in order, and its replay is an alive project with both
   * deliveries at version 3.
   */
  method AttachTwoBuilds(id: ProjectId, t0: Millis, t1: Millis, t2: Millis)
    returns (first: HandleCommandResult<ProjectCommand, ProjectEvent>, second: HandleCommandResult<ProjectCommand, ProjectEvent>,
             events: seq<ProjectEvent>, current: StateVersioned<ProjectState>)
    ensures first == SuccessfullyHandleCommand(AttachBuiltVersionOfProject(id, Build("1.0.0")), [ProjectBuilt(id, Build("1.0.0"), t1)])
    ensures second == SuccessfullyHandleCommand(AttachBuiltVersionOfProject(id, Build("2.0.0")), [ProjectBuilt(id, Build("2.0.0"), t2)])
    ensures events == [ProjectCreated(id, id.id, t0), ProjectBuilt(id, Build("1.0.0"), t1), ProjectBuilt(id, Build("2.0.0"), t2)]
    ensures current == Replayed(ProjectAggregate, events) && current.version == 3
    ensures current.state == ProjectAlive(id, id.id, "", {}, {Build("1.0.0"), Build("2.0.0")})
    ensures |current.state.deliveries| == 2
  {
    TwoBuildsHistory(id, t0, t1, t2);
    var store := new EventStoreForTest<ProjectId, ProjectEvent>();
    var engine := new CqrsEngine(store);
    store.AppendEvents(id, [ProjectCreated(id, id.id, t0)]);
    assert store.Events(id) == [ProjectCreated(id, id.id, t0)];
    first := engine.HandleCommand(ProjectAggregate, AttachBuiltVersionOfProject(id, Build("1.0.0")), t1);
    assert store.Events(id) == [ProjectCreated(id, id.id, t0), ProjectBuilt(id, Build("1.0.0"), t1)];
    second := engine.HandleCommand(ProjectAggregate, AttachBuiltVersionOfProject(id, Build("2.0.0")), t2);
    events := store.GetEventForAggregate(id);
    assert events == [ProjectCreated(id, id.id, t0), ProjectBuilt(id, Build("1.0.0"), t1), ProjectBuilt(id, Build("2.0.0"), t2)];
    current := Replay(ProjectAggregate, events);
  }

  /** A document for a project that does not exist is rejected and nothing is stored. */
  method AddDocumentToMissingProject(id: ProjectId, document: Document, now: Millis)
    returns (result: HandleCommandResult<ProjectCommand, ProjectEvent>, events: seq<ProjectEvent>)
    ensures result.FailedToHandleCommand? && result.command == AddDocumentToProject(id, document)
    ensures events == []
  {
    var store := new EventStoreForTest<ProjectId, ProjectEvent>();
    var engine := new CqrsEngine(store);
    result := engine.HandleCommand(ProjectAggregate, AddDocumentToProject(id, document), now);
    events := store.GetEventForAggregate(id);
  }

  /** Attaching a build an alive project already delivered is a no-op and the stream is unchanged. */
  method AttachDeliveredBuildAgain(id: ProjectId, build: BuildId, t0: Millis, t1: Millis, t2: Millis)
    returns (result: HandleCommandResult<ProjectCommand, ProjectEvent>, events: seq<ProjectEvent>)
    ensures result == NoopToHandleCommand(AttachBuiltVersionOfProject(id, build))
    ensures events == [ProjectCreated(id, id.id, t0), ProjectBuilt(id, build, t1)]
  {
    var store := new EventStoreForTest<ProjectId, ProjectEvent>();
    var engine := new CqrsEngine(store);
    store.AppendEvents(id, [ProjectCreated(id, id.id, t0), ProjectBuilt(id, build, t1)]);
    ReplayedSnoc(ProjectAggregate, [ProjectCreated(id, id.id, t0)], ProjectBuilt(id, build, t1));
    assert [ProjectCreated(id, id.id, t0)] + [ProjectBuilt(id, build, t1)] == store.Events(id);
    result := engine.HandleCommand(ProjectAggregate, AttachBuiltVersionOfProject(id, build), t2);
    events := store.GetEventForAggregate(id);
  }
}
