/**
 * The project aggregate (project.kt): a three-state machine
 * ProjectNotExit -> ProjectDescribing -> ProjectAlive whose `decide` accepts,
 * rejects or ignores each command and whose `apply` folds events into the
 * state, leaving every unmatched (state, event) pair unchanged.
 */
module Project {
  import opened Utils
  import opened Cqrs
  import opened ProjectModel

  /** The project aggregate as an instance of the generic contract. */
  const ProjectAggregate: Aggregate<ProjectCommand, ProjectState, ProjectEvent, ProjectId> :=
    Aggregate(Decide, Apply, NotExistState(), (c: ProjectCommand) => c.id)

  /** How far along its lifecycle a state is. */
  function Stage(state: ProjectState): nat
  {
    match state
    case ProjectNotExit => 0
    case ProjectDescribing(_, _, _, _) => 1
    case ProjectAlive(_, _, _, _, _) => 2
  }

  // ---------------------------------------------------------------------
  // The decision table, stated independently of `Decide`.

  /** The cells of the decision table that do not reject. */
  predicate Admissible(command: ProjectCommand, state: ProjectState)
  {
    match state
    case ProjectNotExit => command.CreateProject?
    case ProjectDescribing(_, _, _, _) => !command.CreateProject?
    case ProjectAlive(_, _, _, _, _) => command.AttachBuiltVersionOfProject?
  }

  /** The command asks for something the state already records. */
  predicate AlreadySatisfied(command: ProjectCommand, state: ProjectState)
  {
    || (state.ProjectDescribing? && command.AddDocumentToProject? && command.document in state.documents)
    || (state.ProjectAlive? && command.AttachBuiltVersionOfProject? && command.builtId in state.deliveries)
  }

  /** The one fact a command asks to record, on project stream `id`. */
  function EventFor(command: ProjectCommand, id: ProjectId, now: Millis): ProjectEvent
  {
    match command
    case CreateProject(_, name) => ProjectCreated(id, name, now)
    case AddDocumentToProject(_, document) => DocumentToProjectAdded(id, document, now)
    case AttachBuiltVersionOfProject(_, builtId) => ProjectBuilt(id, builtId, now)
  }

  /** The stream an accepted command's event is recorded under. */
  function EventStream(command: ProjectCommand, state: ProjectState): ProjectId
  {
    if state.ProjectNotExit? then command.id else state.id
  }

  /** Kotlin's rendering of the command's class, assuming kotlin-reflect is present. */
  function CommandClassName(command: ProjectCommand): string
  {
    match command
    case CreateProject(_, _) => "class com.github.jpthiery.heimdall.domain.CreateProject"
    case AddDocumentToProject(_, _) => "class com.github.jpthiery.heimdall.domain.AddDocumentToProject"
    case AttachBuiltVersionOfProject(_, _) => "class com.github.jpthiery.heimdall.domain.AttachBuiltVersionOfProject"
  }

  // ---------------------------------------------------------------------
  // The aggregate.

  /** The canonical empty state, carrying the sentinel id. */
  function NotExistState(): (state: ProjectState)
    ensures state.ProjectNotExit? && state.Id() == UnknownProjectId
  {
    ProjectNotExit
  }

  /**
   * Decides a command against the current state: rejected exactly outside
   * the table's admissible cells, a no-op exactly when the state already
   * records what is asked, and otherwise exactly one event, stamped `now`.
   */
  function Decide(command: ProjectCommand, state: ProjectState, now: Millis): (r: Either<string, seq<ProjectEvent>>)
    ensures r.Left? <==> !Admissible(command, state)
    ensures r == Right([]) <==> AlreadySatisfied(command, state)
    ensures r.Right? && r.right != [] ==> r.right == [EventFor(command, EventStream(command, state), now)]
  {
    match state
    case ProjectNotExit => DecideOnProjectNotExit(command, now)
    case ProjectDescribing(_, _, _, _) => DecideOnProjectDescribing(state, command, now)
    case ProjectAlive(_, _, _, _, _) => DecideOnProjectAlive(state, command, now)
  }

  /** Folds one event into the state; it never moves a project backwards. */
  function Apply(state: ProjectState, event: ProjectEvent): (r: ProjectState)
    ensures Stage(state) <= Stage(r) <= Stage(state) + 1
    ensures !state.ProjectNotExit? ==> r.id == state.id && r.name == state.name && r.scmUrl == state.scmUrl
    ensures !state.ProjectNotExit? ==> state.documents <= r.documents
    ensures state.ProjectAlive? ==> r.documents == state.documents && state.deliveries <= r.deliveries
  {
    match state
    case ProjectNotExit => ApplyOnProjectNotExist(event)
    case ProjectDescribing(_, _, _, _) => ApplyOnProjectDescribing(state, event)
    case ProjectAlive(_, _, _, _, _) => ApplyOnProjectAlive(state, event)
  }

  /** Only `CreateProject` is accepted before the project exists. */
  function DecideOnProjectNotExit(command: ProjectCommand, now: Millis): (r: Either<string, seq<ProjectEvent>>)
    ensures r.Right? <==> command.CreateProject?
    ensures r.Right? ==> r.right == [ProjectCreated(command.id, command.name, now)]
  {
    match command
    case CreateProject(id, name) => Success([ProjectCreated(id, name, now)])
    case _ => Fail("Project ProjectId(id=" + command.id.id + ") not exist yet")
  }

  /**
   * While described, a project rejects `CreateProject`, ignores a document
   * it already has, records a new one, and records any build.
   */
  function DecideOnProjectDescribing(state: ProjectState, command: ProjectCommand, now: Millis): (r: Either<string, seq<ProjectEvent>>)
    requires state.ProjectDescribing?
    ensures r.Left? <==> command.CreateProject?
    ensures r == Right([]) <==> command.AddDocumentToProject? && command.document in state.documents
    ensures command.AddDocumentToProject? && command.document !in state.documents ==>
      r == Right([DocumentToProjectAdded(state.id, command.document, now)])
    ensures command.AttachBuiltVersionOfProject? ==> r == Right([ProjectBuilt(state.id, command.builtId, now)])
  {
    match command
    case AddDocumentToProject(_, document) =>
      if document in state.documents then Success([])
      else Success([DocumentToProjectAdded(state.id, document, now)])
    case AttachBuiltVersionOfProject(_, builtId) =>
      Success([ProjectBuilt(state.id, builtId, now)])
    case _ => Fail("Command " + CommandClassName(command) + " is not supported for project describing")
  }

  /**
   * An alive project accepts only builds: a build already delivered is a
   * no-op, a new one is recorded; every other command is rejected.
   */
  function DecideOnProjectAlive(state: ProjectState, command: ProjectCommand, now: Millis): (r: Either<string, seq<ProjectEvent>>)
    requires state.ProjectAlive?
    ensures r.Left? <==> !command.AttachBuiltVersionOfProject?
    ensures r == Right([]) <==> command.AttachBuiltVersionOfProject? && command.builtId in state.deliveries
    ensures command.AttachBuiltVersionOfProject? && command.builtId !in state.deliveries ==>
      r == Right([ProjectBuilt(state.id, command.builtId, now)])
  {
    match command
    case AttachBuiltVersionOfProject(_, builtId) =>
      if builtId in state.deliveries then Success([])
      else Success([ProjectBuilt(state.id, builtId, now)])
    case _ => Fail("Not yet implemented for state ProjectAlive")
  }

  /**
   * A creation starts the description of the project, with no SCM url and
   * no documents; any other event leaves the project non-existent.
   */
  function ApplyOnProjectNotExist(event: ProjectEvent): (r: ProjectState)
    ensures r.ProjectNotExit? <==> !event.ProjectCreated?
    ensures event.ProjectCreated? ==>
      r.ProjectDescribing? && r.id == event.id && r.name == event.name && r.scmUrl == "" && r.documents == {}
  {
    match event
    case ProjectCreated(id, name, _) => ProjectDescribing(id, name, "", {})
    case _ => ProjectNotExit
  }

  /**
   * A document joins the set of documents; a build makes the project alive
   * with that build as its only delivery. Identity, name, SCM url and the
   * documents already recorded are kept.
   */
  function ApplyOnProjectDescribing(state: ProjectState, event: ProjectEvent): (r: ProjectState)
    requires state.ProjectDescribing?
    ensures r.ProjectAlive? <==> event.ProjectBuilt?
    ensures r.ProjectDescribing? <==> !event.ProjectBuilt?
    ensures r.id == state.id && r.name == state.name && r.scmUrl == state.scmUrl
    ensures r.documents == if event.DocumentToProjectAdded? then state.documents + {event.document} else state.documents
    ensures r.ProjectAlive? ==> r.deliveries == {event.version}
  {
    match event
    case DocumentToProjectAdded(_, document, _) =>
      ProjectDescribing(state.id, state.name, state.scmUrl, state.documents + {document})
    case ProjectBuilt(_, version, _) =>
      ProjectAlive(state.id, state.name, state.scmUrl, state.documents, {version})
    case _ => state
  }

  /**
   * An alive project stays alive: a build joins its deliveries, every other
   * event leaves it as it is.
   */
  function ApplyOnProjectAlive(state: ProjectState, event: ProjectEvent): (r: ProjectState)
    requires state.ProjectAlive?
    ensures r.ProjectAlive?
    ensures r.id == state.id && r.name == state.name && r.scmUrl == state.scmUrl && r.documents == state.documents
    ensures r.deliveries == if event.ProjectBuilt? then state.deliveries + {event.version} else state.deliveries
  {
    match event
    case ProjectBuilt(_, version, _) =>
      ProjectAlive(state.id, state.name, state.scmUrl, state.documents, state.deliveries + {version})
    case _ => state
  }

  // ---------------------------------------------------------------------
  // Properties of the state machine.

  /** `CreateProject` succeeds exactly on a project that does not exist, with one `ProjectCreated`. */
  lemma CreateOnlyFromNotExist(id: ProjectId, name: string, state: ProjectState, now: Millis)
    ensures Decide(CreateProject(id, name), state, now).Right? <==> state.ProjectNotExit?
    ensures state.ProjectNotExit? ==> Decide(CreateProject(id, name), state, now) == Right([ProjectCreated(id, name, now)])
  {
  }

  /** Every other command is rejected before the project exists. */
  lemma NotExistRejectsOtherCommands(command: ProjectCommand, now: Millis)
    requires !command.CreateProject?
    ensures Decide(command, ProjectNotExit, now).Left?
  {
  }

  /** Adding a document or a build the state already records changes nothing. */
  lemma ApplyIgnoresRecordedMembers(state: ProjectState, event: ProjectEvent)
    requires || (state.ProjectDescribing? && event.DocumentToProjectAdded? && event.document in state.documents)
             || (state.ProjectAlive? && event.ProjectBuilt? && event.version in state.deliveries)
    ensures Apply(state, event) == state
  {
  }

  /** An event `decide` emits always changes the state: no event is inert. */
  lemma AcceptedEventChangesState(command: ProjectCommand, state: ProjectState, now: Millis)
    requires Decide(command, state, now).Right? && Decide(command, state, now).right != []
    ensures Apply(state, Decide(command, state, now).right[0]) != state
  {
  }

  /**
   * Re-issuing a command once its event has been applied never records
   * anything again: a second creation is rejected, anything else is a no-op.
   */
  lemma RepeatedCommandIsNotRecordedAgain(command: ProjectCommand, state: ProjectState, now: Millis, later: Millis)
    requires Decide(command, state, now).Right? && Decide(command, state, now).right != []
    ensures var next := Apply(state, Decide(command, state, now).right[0]);
      && (command.CreateProject? ==> Decide(command, next, later).Left?)
      && (!command.CreateProject? ==> Decide(command, next, later) == Right([]))
  {
  }

  /**
   * Replaying further events never moves a project backwards: the stage
   * never drops; once created, id, name and SCM url are fixed and documents
   * only grow; once alive, it stays alive with the same documents and
   * growing deliveries.
   */
  lemma {:induction false} ReplayIsMonotone(start: StateVersioned<ProjectState>, events: seq<ProjectEvent>)
    ensures var r := ReplayFrom(ProjectAggregate, start, events).state;
      && Stage(start.state) <= Stage(r)
      && (!start.state.ProjectNotExit? ==>
            && r.id == start.state.id && r.name == start.state.name && r.scmUrl == start.state.scmUrl
            && start.state.documents <= r.documents)
      && (start.state.ProjectAlive? ==>
            r.ProjectAlive? && r.documents == start.state.documents && start.state.deliveries <= r.deliveries)
    decreases |events|
  {
    if events != [] {
      ReplayIsMonotone(start, events[..|events| - 1]);
    }
  }

  /** In particular a stream that reached `ProjectAlive` stays there whatever is appended. */
  lemma AliveIsFinal(history: seq<ProjectEvent>, more: seq<ProjectEvent>)
    requires Replayed(ProjectAggregate, history).state.ProjectAlive?
    ensures Replayed(ProjectAggregate, history + more).state.ProjectAlive?
  {
    ReplayedConcat(ProjectAggregate, history, more);
    ReplayIsMonotone(Replayed(ProjectAggregate, history), more);
  }
}
