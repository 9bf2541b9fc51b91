/** The input schemas of the project and board forms, as predicates on the
    raw object a schema is asked to parse. A schema accepts or rejects the
    whole object; on acceptance it yields only the keys it declares. */
module Validations {
  import opened Wrappers

  /** A JavaScript value as a schema sees it: `undefined` (also what a missing
      key reads as), `null`, a string, or anything else (number, object, file). */
  datatype JsValue = Undefined | Null | Str(s: string) | OtherValue

  type RawObject = map<string, JsValue>

  function Field(raw: RawObject, key: string): JsValue
  {
    if key in raw then raw[key] else Undefined
  }

  /** A string schema: a minimum length and an optional maximum length, both
      inclusive. Lengths are counted in characters. */
  datatype StringSchema = StringSchema(min: nat, max: Option<nat>)

  function CheckString(schema: StringSchema, v: JsValue): Option<string>
  {
    if v.Str? && schema.min <= |v.s| && (schema.max.None? || |v.s| <= schema.max.value)
    then Some(v.s) else None
  }

  /** A string schema made `.optional()`: `undefined` parses to "no value";
      `null` is not `undefined` and is checked (and rejected) like any non-string. */
  function CheckOptional(schema: StringSchema, v: JsValue): Option<Option<string>>
  {
    if v.Undefined? then Some(None)
    else match CheckString(schema, v)
      case Some(s) => Some(Some(s))
      case None => None
  }

  const ProjectName := StringSchema(3, Some(50))
  const AnyString := StringSchema(0, None)
  const UpdateDescription := StringSchema(0, Some(500))
  const BoardTitle := StringSchema(1, None)

  datatype CreateProjectInput = CreateProjectInput(name: string, teamId: string, description: Option<string>)

  /** `createProjectSchema`: a name of 3 to 50 characters, any string as team id
      (the empty one included), and a description that is either absent or a string. */
  function ParseCreateProject(raw: RawObject): (r: Option<CreateProjectInput>)
    ensures r.Some? <==>
      && Field(raw, "name").Str? && 3 <= |Field(raw, "name").s| <= 50
      && Field(raw, "teamId").Str?
      && (Field(raw, "description").Undefined? || Field(raw, "description").Str?)
    ensures r.Some? ==>
      && r.value.name == Field(raw, "name").s
      && r.value.teamId == Field(raw, "teamId").s
      && r.value.description == (if Field(raw, "description").Str? then Some(Field(raw, "description").s) else None)
  {
    match (CheckString(ProjectName, Field(raw, "name")),
           CheckString(AnyString, Field(raw, "teamId")),
           CheckOptional(AnyString, Field(raw, "description")))
    case (Some(name), Some(teamId), Some(description)) => Some(CreateProjectInput(name, teamId, description))
    case _ => None
  }

  /** What an update parses to: there is no name in it. */
  datatype UpdateProjectInput = UpdateProjectInput(projectId: string, description: Option<string>)

  /** `updateProjectSchema`: a project id and an optional description of at most 500 characters. */
  function ParseUpdateProject(raw: RawObject): (r: Option<UpdateProjectInput>)
    ensures r.Some? <==>
      && Field(raw, "projectId").Str?
      && (Field(raw, "description").Undefined? || (Field(raw, "description").Str? && |Field(raw, "description").s| <= 500))
    ensures r.Some? ==>
      && r.value.projectId == Field(raw, "projectId").s
      && r.value.description == (if Field(raw, "description").Str? then Some(Field(raw, "description").s) else None)
  {
    match (CheckString(AnyString, Field(raw, "projectId")), CheckOptional(UpdateDescription, Field(raw, "description")))
    case (Some(projectId), Some(description)) => Some(UpdateProjectInput(projectId, description))
    case _ => None
  }

  /** A `name` key in an update request is neither required nor seen: the
      result is the same whatever value, if any, the key holds. */
  lemma UpdateIgnoresName(raw: RawObject, v: JsValue)
    ensures ParseUpdateProject(raw["name" := v]) == ParseUpdateProject(raw)
    ensures ParseUpdateProject(raw - {"name"}) == ParseUpdateProject(raw)
  {
    assert Field(raw["name" := v], "projectId") == Field(raw, "projectId");
    assert Field(raw["name" := v], "description") == Field(raw, "description");
    assert Field(raw - {"name"}, "projectId") == Field(raw, "projectId");
    assert Field(raw - {"name"}, "description") == Field(raw, "description");
  }

  datatype CreateBoardInput = CreateBoardInput(title: string, projectId: string, format: string)

  /** `createBoardSchema`: a title of at least one character with no upper bound,
      a project id, and a format that is one of the `BoardFormat` enum's values,
      given here as `formats`. */
  function ParseCreateBoard(raw: RawObject, formats: set<string>): (r: Option<CreateBoardInput>)
    ensures r.Some? <==>
      && Field(raw, "title").Str? && |Field(raw, "title").s| >= 1
      && Field(raw, "projectId").Str?
      && Field(raw, "format").Str? && Field(raw, "format").s in formats
    ensures r.Some? ==> r.value == CreateBoardInput(Field(raw, "title").s, Field(raw, "projectId").s, Field(raw, "format").s)
  {
    var format := Field(raw, "format");
    match (CheckString(BoardTitle, Field(raw, "title")), CheckString(AnyString, Field(raw, "projectId")))
    case (Some(title), Some(projectId)) =>
      if format.Str? && format.s in formats then Some(CreateBoardInput(title, projectId, format.s)) else None
    case _ => None
  }

  /** A project name is accepted exactly when it has 3 to 50 characters. */
  lemma ProjectNameBounds(name: string, teamId: string)
    ensures ParseCreateProject(map["name" := Str(name), "teamId" := Str(teamId)]).Some? <==> 3 <= |name| <= 50
  {
  }

  /** An empty team id is accepted; a `null` description is rejected. */
  lemma TeamIdAndDescriptionEdges(name: string)
    requires 3 <= |name| <= 50
    ensures ParseCreateProject(map["name" := Str(name), "teamId" := Str("")]).Some?
    ensures ParseCreateProject(map["name" := Str(name), "teamId" := Str(""), "description" := Null]).None?
  {
  }

  /** A board title of any length of at least one character is accepted. */
  lemma BoardTitleUnbounded(title: string, projectId: string, format: string, formats: set<string>)
    requires title != [] && format in formats
    ensures ParseCreateBoard(map["title" := Str(title), "projectId" := Str(projectId), "format" := Str(format)], formats).Some?
  {
  }
}
