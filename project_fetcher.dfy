/**
 * The read-model query of ProjectFetcher.kt: a project's current state is
 * the replay of its stream, read from the store without changing it.
 */
module ProjectFetcher {
  import opened Cqrs
  import opened TestEventStore
  import opened ProjectModel
  import opened Project

  class DefaultProjectFetcher {

    const eventStore: EventStoreForTest<ProjectId, ProjectEvent>

    constructor(eventStore: EventStoreForTest<ProjectId, ProjectEvent>)
      ensures this.eventStore == eventStore
    {
      this.eventStore := eventStore;
    }

    /** The current state of project `projectId`; `ProjectNotExit` for an empty stream. */
    method FetchById(projectId: ProjectId) returns (state: ProjectState)
      ensures state == Replayed(ProjectAggregate, eventStore.Events(projectId)).state
      ensures eventStore.Events(projectId) == [] ==> state == ProjectNotExit
    {
      var events := eventStore.GetEventForAggregate(projectId);
      var versioned := Replay(ProjectAggregate, events);
      state := versioned.state;
    }
  }
}
