/** Properties of the personal-project routes across inputs. */
module PersonalProjectsProperties {
  import opened Optional
  import opened Strings
  import opened Json
  import opened Http
  import opened PersonalProjects

  /** The name handed to the model is already stripped: stripping it again
      changes nothing. */
  lemma CreatedNameIsStripped(payload: map<string, JsonValue>, created: Answer<Project>)
    requires CreateRoute(payload, created).calls != []
    ensures var call := CreateRoute(payload, created).calls[0];
      call.CreateProject? && Strip(call.name) == call.name && call.name != []
  {
    var name := Get(payload, "nom_projet", JNull);
    StripIdempotent(name.s);
  }

  /** Only an absent `user_id` defaults to 1; an explicit `null` is forwarded. */
  lemma ExplicitNullOwnerForwarded(payload: map<string, JsonValue>, created: Answer<Project>)
    requires "user_id" in payload && payload["user_id"] == JNull
    requires CreateRoute(payload, created).calls != []
    ensures CreateRoute(payload, created).calls[0].userId == JNull
  {
  }

  /** Keys other than the two editable ones never reach the update call. */
  lemma UpdateIgnoresOtherKeys(projectId: int, payload: map<string, JsonValue>, key: string, v: JsonValue)
    requires key != "nom_projet" && key != "description_projet"
    ensures UpdateCall(projectId, payload[key := v]) == UpdateCall(projectId, payload)
  {
  }

  /** An update's name is forwarded as given: a blank name is not refused. */
  lemma UpdateAcceptsBlankName(projectId: int, payload: map<string, JsonValue>, p: Project)
    requires "nom_projet" in payload && BlankName(payload["nom_projet"])
    ensures var h := UpdateRoute(projectId, payload, Returned(Some(p)));
      h.reply.status == OkStatus && h.calls[0].newName == Some(payload["nom_projet"])
  {
  }

  /** Delete on a missing project: 404, one lookup and no delete, whatever the
      delete would have answered. */
  lemma DeleteMissingNeverDeletes(projectId: int, deleted: Answer<()>)
    ensures DeleteRoute(projectId, Returned(None), deleted) == Handled(ProjectNotFound, [ProjectById(projectId)])
  {
  }
}
