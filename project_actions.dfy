/** The server actions on projects: create (session guard, schema check,
    insert) and update (session guard, description-only update), over a
    project store held as a map from id to project. The session lookup is the
    boolean `signedIn`; the store assigns new ids, which arrive as `newId`. */
module ProjectActions {
  import opened Wrappers
  import opened Validations

  /** A submitted form field: text, or a file. */
  datatype FormEntry = TextEntry(text: string) | FileEntry

  /** A submitted form: the first entry under each name. */
  type Form = map<string, FormEntry>

  /** `formData.get(name)`: `null` when the form has no such field. */
  function FormGet(form: Form, name: string): (v: JsValue)
    ensures name !in form <==> v == Null
  {
    if name !in form then Null
    else match form[name]
      case TextEntry(t) => Str(t)
      case FileEntry => OtherValue
  }

  /** The object handed to the schema: the three fields read from the form. */
  function RawProject(form: Form): RawObject
  {
    map["name" := FormGet(form, "name"), "teamId" := FormGet(form, "teamId"), "description" := FormGet(form, "description")]
  }

  datatype Project = Project(id: string, name: string, description: Option<string>, teamId: string)

  /** Why an action threw: no session, an update of an id the store does not
      hold, or an insert the store refused (for instance a `teamId` naming no team). */
  datatype ActionError = NotAuthorized | RecordNotFound | WriteFailed

  /** How an action ends: it throws, or it returns an object with an optional `error`. */
  datatype ActionResult = Threw(error: ActionError) | Returned(message: Option<string>)

  const InvalidFields: string := "Champs invalides"

  /** The outcome `createProject` reports for a request; `storeOk` says
      whether the store accepts the insert. */
  function CreateOutcome(signedIn: bool, form: Form, storeOk: bool): (r: ActionResult)
    ensures !signedIn <==> r == Threw(NotAuthorized)
    ensures signedIn ==> (r == Returned(Some(InvalidFields)) <==> ParseCreateProject(RawProject(form)).None?)
    ensures signedIn && ParseCreateProject(RawProject(form)).Some? ==>
      r == (if storeOk then Returned(None) else Threw(WriteFailed))
  {
    if !signedIn then Threw(NotAuthorized)
    else if ParseCreateProject(RawProject(form)).None? then Returned(Some(InvalidFields))
    else if !storeOk then Threw(WriteFailed)
    else Returned(None)
  }

  /** A form lacking `description` reads it as `null`, which the schema rejects:
      the action answers "Champs invalides" and creates nothing. */
  lemma FormWithoutDescriptionIsInvalid(form: Form, storeOk: bool)
    requires "description" !in form
    ensures CreateOutcome(true, form, storeOk) == Returned(Some(InvalidFields))
  {
    assert Field(RawProject(form), "description") == Null;
  }

  /** The store after setting one project's description: nothing else changes. */
  function WithDescription(projects: map<string, Project>, id: string, d: string): (r: map<string, Project>)
    requires id in projects
    ensures r.Keys == projects.Keys
    ensures forall k :: k in projects && k != id ==> r[k] == projects[k]
    ensures r[id].description == Some(d)
    ensures r[id].id == projects[id].id && r[id].name == projects[id].name && r[id].teamId == projects[id].teamId
  {
    projects[id := projects[id].(description := Some(d))]
  }

  predicate WellKeyed(projects: map<string, Project>)
  {
    forall id :: id in projects ==> projects[id].id == id
  }

  /** The project store. */
  class ProjectDb {
    var projects: map<string, Project>

    ghost predicate Valid()
      reads this
    {
      WellKeyed(projects)
    }

    constructor ()
      ensures Valid() && projects == map[]
    {
      projects := map[];
    }

    /** `createProject`: without a session it throws and stores nothing; with
        input the schema rejects it returns "Champs invalides" and stores
        nothing; otherwise it inserts exactly one project built from the
        validated name, description and team id, unless the store refuses the
        insert, in which case it throws and stores nothing. */
    method CreateProject(signedIn: bool, form: Form, newId: string, storeOk: bool) returns (result: ActionResult)
      requires Valid()
      requires newId !in projects
      modifies this
      ensures Valid()
      ensures result == CreateOutcome(signedIn, form, storeOk)
      ensures result == Returned(None) ==>
        var input := ParseCreateProject(RawProject(form)).value;
        projects == old(projects)[newId := Project(newId, input.name, input.description, input.teamId)]
      ensures result != Returned(None) ==> projects == old(projects)
    {
      if !signedIn {
        return Threw(NotAuthorized);
      }
      var rawData := RawProject(form);
      var validated := ParseCreateProject(rawData);
      if validated.None? {
        return Returned(Some(InvalidFields));
      }
      if !storeOk {
        return Threw(WriteFailed);
      }
      var input := validated.value;
      projects := projects[newId := Project(newId, input.name, input.description, input.teamId)];
      result := Returned(None);
    }

    /** `updateProject`: without a session it throws; for an id the store does
        not hold the store's update throws; otherwise only that project's
        description changes, to exactly the string given (no length check). */
    method UpdateProject(signedIn: bool, projectId: string, newDescription: string) returns (result: ActionResult)
      requires Valid()
      modifies this
      ensures Valid()
      ensures !signedIn ==> result == Threw(NotAuthorized) && projects == old(projects)
      ensures signedIn && projectId !in old(projects) ==> result == Threw(RecordNotFound) && projects == old(projects)
      ensures signedIn && projectId in old(projects) ==>
        result == Returned(None) && projects == WithDescription(old(projects), projectId, newDescription)
      ensures result == Returned(None) ==> projects[projectId].id == projectId
    {
      if !signedIn {
        return Threw(NotAuthorized);
      }
      if projectId !in projects {
        return Threw(RecordNotFound);
      }
      projects := projects[projectId := projects[projectId].(description := Some(newDescription))];
      result := Returned(None);
    }
  }

  /** A series of description updates, each applied to the store if it holds the id. */
  function ApplyUpdates(projects: map<string, Project>, updates: seq<(string, string)>): map<string, Project>
    decreases |updates|
  {
    if updates == [] then projects
    else
      var (id, d) := updates[0];
      ApplyUpdates(if id in projects then WithDescription(projects, id, d) else projects, updates[1..])
  }

  /** However many updates run, no project appears or disappears and no
      project's name or team changes. */
  lemma {:induction false} UpdatesKeepNames(projects: map<string, Project>, updates: seq<(string, string)>)
    ensures ApplyUpdates(projects, updates).Keys == projects.Keys
    ensures forall id :: id in projects ==>
      && ApplyUpdates(projects, updates)[id].name == projects[id].name
      && ApplyUpdates(projects, updates)[id].teamId == projects[id].teamId
    decreases |updates|
  {
    if updates != [] {
      var (id, d) := updates[0];
      var next := if id in projects then WithDescription(projects, id, d) else projects;
      UpdatesKeepNames(next, updates[1..]);
    }
  }

  /** The schema's 500-character limit is not applied by the action: a
      description the update schema rejects is still stored. */
  lemma UpdateSkipsLengthCheck(projects: map<string, Project>, id: string, d: string)
    requires id in projects && |d| > 500
    ensures ParseUpdateProject(map["projectId" := Str(id), "description" := Str(d)]).None?
    ensures WithDescription(projects, id, d)[id].description == Some(d)
  {
  }
}
