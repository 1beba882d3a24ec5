/** The `/api/v1/personal-projects` routes: what each route checks, which
    project-model calls it makes in which order, and the reply it builds from
    their answers. The project model is not part of this model: each call's
    answer is a parameter, either a value or a raised exception, and every
    route catches exceptions into a 500 with its own signal. */
module PersonalProjects {
  import opened Optional
  import opened Strings
  import opened Json
  import opened Http

  /** A project row as the routes read it back; timestamps are ISO texts. */
  datatype Project = Project(
    projectId: int,
    projectUuid: string,
    name: JsonValue,
    description: JsonValue,
    createdAt: Option<string>,
    updatedAt: Option<string>)

  /** The project-model calls the routes make. An update carries only the
      keys the payload had. */
  datatype ModelCall =
    | CreateProject(name: string, description: JsonValue, userId: JsonValue)
    | ProjectsOfUser(owner: int)
    | ProjectById(projectId: int)
    | UpdateProject(projectId: int, newName: Option<JsonValue>, newDescription: Option<JsonValue>)
    | DeleteProject(projectId: int)

  /** What a model call did: returned a value, or raised with a message. */
  datatype Answer<T> = Returned(value: T) | Raised(message: string)

  datatype Handled = Handled(reply: Reply, calls: seq<ModelCall>)

  const NameRequired: string := "Le nom du projet est requis"
  const NotFoundText: string := "Projet non trouv\U{e9}"
  const DeletedText: string := "Projet supprim\U{e9} avec succ\U{e8}s"

  /** `JSONResponse(status, {"signal": signal, "error": error})`. */
  function ErrorReply(status: int, signal: string, error: string): Reply {
    Reply(status, JObj(map["signal" := JStr(signal), "error" := JStr(error)]))
  }

  const ProjectNotFound: Reply := ErrorReply(NotFoundStatus, "project_not_found", NotFoundText)

  /** The JSON a route returns for one project. */
  function ProjectJson(p: Project): (v: JsonValue)
    ensures v.JObj? && v.fields.Keys == {"project_id", "project_uuid", "nom_projet", "description_projet", "created_at", "updated_at"}
  {
    JObj(map[
      "project_id" := JNum(p.projectId as real),
      "project_uuid" := JStr(p.projectUuid),
      "nom_projet" := p.name,
      "description_projet" := p.description,
      "created_at" := if p.createdAt.Some? then JStr(p.createdAt.value) else JNull,
      "updated_at" := if p.updatedAt.Some? then JStr(p.updatedAt.value) else JNull])
  }

  function Success(status: int, signal: string, p: Project): Reply {
    Reply(status, JObj(map["signal" := JStr(signal), "project" := ProjectJson(p)]))
  }

  /** Python's type name for a decoded JSON value, as an `AttributeError`
      reports it (a number is reported as `int` when integral). */
  function TypeName(v: JsonValue): string {
    match v
    case JNull => "NoneType"
    case JBool(_) => "bool"
    case JNum(n) => if n == n.Floor as real then "int" else "float"
    case JStr(_) => "str"
    case JArr(_) => "list"
    case JObj(_) => "dict"
  }

  /** The project name is missing, empty, or only white space. */
  predicate BlankName(v: JsonValue) {
    !PyTruthy(v) || (v.JStr? && AllSpace(v.s))
  }

  /** `create_personal_project`: a falsy name or one that strips to nothing is
      refused before any model call; a truthy name that is not a string has no
      `strip` and fails with a 500; otherwise the stripped name, the given
      description and `user_id` (1 when the key is absent) go to the model. */
  function CreateRoute(payload: map<string, JsonValue>, created: Answer<Project>): (h: Handled)
    ensures var name := Get(payload, "nom_projet", JNull);
      && (h.reply.status == BadRequestStatus <==> BlankName(name))
      && (h.reply.status == BadRequestStatus ==> h.reply == ErrorReply(BadRequestStatus, "project_creation_error", NameRequired))
      && (h.calls == [] <==> !(name.JStr? && !AllSpace(name.s)))
      && (h.calls != [] ==>
            && h.calls == [CreateProject(Strip(name.s), Get(payload, "description_projet", JNull), Get(payload, "user_id", JNum(1.0)))]
            && Strip(name.s) != []
            && !IsPySpace(Strip(name.s)[0]) && !IsPySpace(Strip(name.s)[|Strip(name.s)| - 1]))
      && (h.reply.status == CreatedStatus <==> h.calls != [] && created.Returned?)
      && (h.reply.status == CreatedStatus ==> h.reply == Success(CreatedStatus, "project_created_success", created.value))
      && (h.reply.status == ServerErrorStatus ==> Signals(h.reply, "project_creation_error"))
  {
    var name := Get(payload, "nom_projet", JNull);
    StripEmptyIffAllSpace(if name.JStr? then name.s else "");
    if !PyTruthy(name) then
      Handled(ErrorReply(BadRequestStatus, "project_creation_error", NameRequired), [])
    else if !name.JStr? then
      Handled(ErrorReply(ServerErrorStatus, "project_creation_error",
                         "'" + TypeName(name) + "' object has no attribute 'strip'"), [])
    else if Strip(name.s) == [] then
      Handled(ErrorReply(BadRequestStatus, "project_creation_error", NameRequired), [])
    else
      var call := CreateProject(Strip(name.s), Get(payload, "description_projet", JNull), Get(payload, "user_id", JNum(1.0)));
      match created
      case Raised(m) => Handled(ErrorReply(ServerErrorStatus, "project_creation_error", m), [call])
      case Returned(p) => Handled(Success(CreatedStatus, "project_created_success", p), [call])
  }

  /** `get_personal_projects`: the user's projects, `user_id` defaulting to 1. */
  function ListRoute(userId: Option<int>, found: Answer<seq<Project>>): (h: Handled)
    ensures h.calls == [ProjectsOfUser(userId.GetOr(1))]
    ensures h.reply.status == OkStatus <==> found.Returned?
    ensures found.Returned? ==>
      && h.reply.body.JObj? && "projects" in h.reply.body.fields
      && var listed := h.reply.body.fields["projects"];
         && listed.JArr? && |listed.items| == |found.value|
         && forall k :: 0 <= k < |found.value| ==> listed.items[k] == ProjectJson(found.value[k])
    ensures found.Raised? ==> h.reply == ErrorReply(ServerErrorStatus, "projects_list_error", found.message)
  {
    var call := ProjectsOfUser(userId.GetOr(1));
    match found
    case Raised(m) => Handled(ErrorReply(ServerErrorStatus, "projects_list_error", m), [call])
    case Returned(ps) =>
      var items := seq(|ps|, k requires 0 <= k < |ps| => ProjectJson(ps[k]));
      Handled(Reply(OkStatus, JObj(map["signal" := JStr("projects_list_success"), "projects" := JArr(items)])), [call])
  }

  /** `get_personal_project`. */
  function GetRoute(projectId: int, found: Answer<Option<Project>>): (h: Handled)
    ensures h.calls == [ProjectById(projectId)]
    ensures h.reply == ProjectNotFound <==> found == Returned(None)
    ensures found.Returned? && found.value.Some? ==> h.reply == Success(OkStatus, "project_found_success", found.value.value)
    ensures found.Raised? ==> h.reply == ErrorReply(ServerErrorStatus, "project_fetch_error", found.message)
  {
    var call := ProjectById(projectId);
    match found
    case Raised(m) => Handled(ErrorReply(ServerErrorStatus, "project_fetch_error", m), [call])
    case Returned(None) => Handled(ProjectNotFound, [call])
    case Returned(Some(p)) => Handled(Success(OkStatus, "project_found_success", p), [call])
  }

  /** The keys `update_personal_project` forwards: those present, as given. */
  function UpdateCall(projectId: int, payload: map<string, JsonValue>): (c: ModelCall)
    ensures c.UpdateProject? && c.projectId == projectId
    ensures c.newName.Some? <==> "nom_projet" in payload
    ensures c.newName.Some? ==> c.newName.value == payload["nom_projet"]
    ensures c.newDescription.Some? <==> "description_projet" in payload
    ensures c.newDescription.Some? ==> c.newDescription.value == payload["description_projet"]
  {
    UpdateProject(projectId,
      if "nom_projet" in payload then Some(payload["nom_projet"]) else None,
      if "description_projet" in payload then Some(payload["description_projet"]) else None)
  }

  /** `update_personal_project`: no validation; a falsy answer is a 404. */
  function UpdateRoute(projectId: int, payload: map<string, JsonValue>, updated: Answer<Option<Project>>): (h: Handled)
    ensures h.calls == [UpdateCall(projectId, payload)]
    ensures h.reply == ProjectNotFound <==> updated == Returned(None)
    ensures updated.Returned? && updated.value.Some? ==> h.reply == Success(OkStatus, "project_updated_success", updated.value.value)
    ensures updated.Raised? ==> h.reply == ErrorReply(ServerErrorStatus, "project_update_error", updated.message)
  {
    var call := UpdateCall(projectId, payload);
    match updated
    case Raised(m) => Handled(ErrorReply(ServerErrorStatus, "project_update_error", m), [call])
    case Returned(None) => Handled(ProjectNotFound, [call])
    case Returned(Some(p)) => Handled(Success(OkStatus, "project_updated_success", p), [call])
  }

  /** `delete_personal_project`: the project is looked up first and deleted
      only when found. */
  function DeleteRoute(projectId: int, found: Answer<Option<Project>>, deleted: Answer<()>): (h: Handled)
    ensures 1 <= |h.calls| <= 2 && h.calls[0] == ProjectById(projectId)
    ensures DeleteProject(projectId) in h.calls <==> found.Returned? && found.value.Some?
    ensures h.reply == ProjectNotFound <==> found == Returned(None)
    ensures h.reply.status == OkStatus <==> found.Returned? && found.value.Some? && deleted.Returned?
    ensures h.reply.status == ServerErrorStatus ==> Signals(h.reply, "project_delete_error")
  {
    var lookup := ProjectById(projectId);
    match found
    case Raised(m) => Handled(ErrorReply(ServerErrorStatus, "project_delete_error", m), [lookup])
    case Returned(None) => Handled(ProjectNotFound, [lookup])
    case Returned(Some(_)) =>
      var calls := [lookup, DeleteProject(projectId)];
      match deleted
      case Raised(m) => Handled(ErrorReply(ServerErrorStatus, "project_delete_error", m), calls)
      case Returned(_) =>
        Handled(Reply(OkStatus, JObj(map["signal" := JStr("project_deleted_success"), "message" := JStr(DeletedText)])), calls)
  }
}
