/**
 * The value types of the project aggregate (project_model.kt): documents,
 * ids, the three commands, the three events and the three states.
 */
module ProjectModel {
  import opened Cqrs

  /** A project document; the three kinds are distinct even with equal fields. */
  datatype Document =
    | EmbeddedDocument(name: string, content: string)
    | ExternalLinkDocument(name: string, url: string)
    | InternalLinkDocument(name: string, url: string)

  datatype ProjectBuiltVersion = ProjectBuiltVersion(version: string)

  /** The stream id of a project. */
  datatype ProjectId = ProjectId(id: string)

  datatype BuildId = BuildId(id: ProjectBuiltVersion)

  /** Every command names the project stream it targets. */
  datatype ProjectCommand =
    | CreateProject(id: ProjectId, name: string)
    | AddDocumentToProject(id: ProjectId, document: Document)
    | AttachBuiltVersionOfProject(id: ProjectId, builtId: BuildId)

  /**
   * Every event names its project stream and carries the clock reading taken
   * when it was created.
   */
  datatype ProjectEvent =
    | ProjectCreated(id: ProjectId, name: string, happenedDate: Millis)
    | DocumentToProjectAdded(id: ProjectId, document: Document, happenedDate: Millis)
    | ProjectBuilt(id: ProjectId, version: BuildId, happenedDate: Millis)

  /** The sentinel id of a project that does not exist yet. */
  const UnknownProjectId := ProjectId("Unknown")

  /**
   * The lifecycle of a project. A project being described has a name, an
   * SCM url and a set of documents; once a build is attached it is alive and
   * also records the set of its deliveries.
   */
  datatype ProjectState =
    | ProjectNotExit
    | ProjectDescribing(id: ProjectId, name: string, scmUrl: string, documents: set<Document>)
    | ProjectAlive(id: ProjectId, name: string, scmUrl: string, documents: set<Document>, deliveries: set<BuildId>)
  {
    /** The id of the project; the sentinel for a project that does not exist. */
    function Id(): (pid: ProjectId)
      ensures ProjectNotExit? ==> pid == UnknownProjectId
      ensures !ProjectNotExit? ==> pid == this.id
    {
      if ProjectNotExit? then UnknownProjectId else this.id
    }
  }

  /** Documents compare structurally, kind included. */
  lemma DocumentKindsDiffer(name: string, text: string)
    ensures EmbeddedDocument(name, text) != ExternalLinkDocument(name, text)
    ensures EmbeddedDocument(name, text) != InternalLinkDocument(name, text)
    ensures ExternalLinkDocument(name, text) != InternalLinkDocument(name, text)
  {
  }
}
