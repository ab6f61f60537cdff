/** The task aggregate, as far as routing, policy and the workflow protocol read it. */
module Tasks {
  import opened Common

  type TaskId = string

  datatype TaskType = Development | Review | Research | Refactor | Bugfix | Deployment

  datatype Scope = File | Module | Repo | System

  datatype Risk = Low | Medium | High | Critical

  /** `metadata` holds the entries whose value is a string; no other entry is ever read. */
  datatype Task = Task(
    id: TaskId,
    parent: Option<TaskId>,
    taskType: TaskType,
    scope: Scope,
    risk: Risk,
    metadata: map<string, string>)

  /** The risk that intake assigns to a submitted task. */
  function ClassifyRisk(taskType: TaskType, scope: Scope): Risk {
    if taskType == Deployment && scope == System then Critical
    else if taskType == Deployment && scope == Repo then High
    else if scope == System then High
    else if taskType == Refactor && scope == Repo then Medium
    else if taskType == Bugfix && scope == File then Low
    else Medium
  }

  /** The scope of the two subtasks of a decomposed task: one level down, with file as the bottom. */
  function ChildScope(parent: Scope): Scope {
    match parent
    case System => Repo
    case Repo => Module
    case _ => File
  }
}
