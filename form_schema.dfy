/**
 * Client-side form state and the object schemas the forms are checked with
 * before any request is sent. A schema lists, per form field, the rules its
 * string value must meet; parsing either yields the validated data (only the
 * schema's fields, as the schema library strips unknown keys) or a map from
 * each failing field to an error message.
 */
module FormSchema {
  import opened Wrappers
  import opened TaskModel

  /** The named inputs of the task forms. */
  datatype Field = Title | Description | Status

  /** The form state: the value typed or selected per field, absent until set. */
  type FormData = map<Field, string>

  /** The per-field error state: a message per field in error. */
  type FieldErrors = map<Field, string>

  /** The message for a field that is missing altogether. */
  const REQUIRED: string := "Required"

  datatype Rule =
    | MinLength(min: nat, message: string)
    | MaxLength(max: nat, message: string)
    | OneOf(options: seq<string>, message: string)

  predicate Accepts(rule: Rule, s: string) {
    match rule
    case MinLength(n, _) => |s| >= n
    case MaxLength(n, _) => |s| <= n
    case OneOf(options, _) => s in options
  }

  datatype FieldSpec = FieldSpec(field: Field, rules: seq<Rule>)

  type ObjectSchema = seq<FieldSpec>

  /** The field is present and its value meets every rule. */
  predicate FieldOk(spec: FieldSpec, form: FormData) {
    spec.field in form && forall i :: 0 <= i < |spec.rules| ==> Accepts(spec.rules[i], form[spec.field])
  }

  /** The fields a schema describes. */
  function SchemaFields(schema: ObjectSchema): set<Field> {
    set i | 0 <= i < |schema| :: schema[i].field
  }

  /** The message of the first rule `s` breaks, or None when it meets them all. */
  function FirstBroken(rules: seq<Rule>, s: string): (r: Option<string>)
    ensures r.None? <==> forall i :: 0 <= i < |rules| ==> Accepts(rules[i], s)
    ensures r.Some? ==> exists i :: 0 <= i < |rules| && !Accepts(rules[i], s) && r.value == rules[i].message
  {
    if rules == [] then None
    else if !Accepts(rules[0], s) then Some(rules[0].message)
    else
      var r := FirstBroken(rules[1..], s);
      assert r.Some? ==> exists i :: 0 <= i < |rules| - 1 && !Accepts(rules[1..][i], s) && r.value == rules[1..][i].message;
      r
  }

  /** The error a field gets: "Required" when absent, else its first broken rule's message. */
  function FieldError(spec: FieldSpec, form: FormData): (r: Option<string>)
    ensures r.None? <==> FieldOk(spec, form)
  {
    if spec.field !in form then Some(REQUIRED) else FirstBroken(spec.rules, form[spec.field])
  }

  /** The per-field errors of a form: exactly the schema's fields that are not ok. */
  function Errors(schema: ObjectSchema, form: FormData): (e: FieldErrors)
    ensures forall f :: f in e <==> exists i :: 0 <= i < |schema| && schema[i].field == f && !FieldOk(schema[i], form)
  {
    if schema == [] then map[]
    else
      var rest := Errors(schema[1..], form);
      assert forall f :: f in rest <==> exists i :: 1 <= i < |schema| && schema[i].field == f && !FieldOk(schema[i], form) by {
        forall f | f in rest
          ensures exists i :: 1 <= i < |schema| && schema[i].field == f && !FieldOk(schema[i], form)
        {
          var i :| 0 <= i < |schema| - 1 && schema[1..][i].field == f && !FieldOk(schema[1..][i], form);
          assert schema[i + 1] == schema[1..][i];
        }
        forall f, i | 1 <= i < |schema| && schema[i].field == f && !FieldOk(schema[i], form)
          ensures f in rest
        {
          assert schema[1..][i - 1] == schema[i];
        }
      }
      match FieldError(schema[0], form)
      case None => rest
      case Some(m) => rest[schema[0].field := m]
  }

  /** Parsing: the validated data when no field is in error, the field errors otherwise. */
  function Parse(schema: ObjectSchema, form: FormData): (r: Result<FormData, FieldErrors>)
    ensures r.Success? <==> forall i :: 0 <= i < |schema| ==> FieldOk(schema[i], form)
    ensures r.Success? ==> r.value.Keys == SchemaFields(schema) && forall f :: f in r.value ==> f in form && r.value[f] == form[f]
    ensures r.Failure? ==> r.error == Errors(schema, form) && r.error != map[]
  {
    var e := Errors(schema, form);
    if e == map[] then
      assert forall i :: 0 <= i < |schema| ==> FieldOk(schema[i], form) by {
        forall i | 0 <= i < |schema| ensures FieldOk(schema[i], form) {
          assert schema[i].field !in e;
        }
      }
      Success(map f | f in SchemaFields(schema) && f in form :: form[f])
    else
      Failure(e)
  }

  /** Reading a field of the form: JavaScript's `formData.field`, undefined when absent. */
  function Get(form: FormData, f: Field): (v: Option<string>)
    ensures v.Some? <==> f in form
    ensures v.Some? ==> v.value == form[f]
  {
    if f in form then Some(form[f]) else None
  }

  /** The request body `JSON.stringify` makes of validated data. */
  function BodyOf(data: FormData): (b: TaskBody)
    ensures b.title == Get(data, Title) && b.description == Get(data, Description) && b.status == Get(data, Status)
  {
    TaskBody(Get(data, Title), Get(data, Description), Get(data, Status))
  }

  /** A task record as form data: `setFormData(taskData)` makes its three fields editable. */
  function FormOf(t: Task): (form: FormData)
    ensures form.Keys == {Title, Description, Status}
    ensures form[Title] == t.title && form[Description] == t.description && form[Status] == t.status
  {
    map[Title := t.title, Description := t.description, Status := t.status]
  }

  /** `handleInput`: the named field takes the new value. */
  function WithInput(form: FormData, name: Field, value: string): (form': FormData)
    ensures name in form' && form'[name] == value
    ensures forall f :: f != name ==> (f in form' <==> f in form) && (f in form ==> form'[f] == form[f])
  {
    form[name := value]
  }

  /** `handleInput` on the errors: the named field's error is cleared, all others stay. */
  function ClearError(err: Option<FieldErrors>, name: Field): (err': Option<FieldErrors>)
    ensures err'.None? <==> err.None?
    ensures err'.Some? ==> name !in err'.value
    ensures err'.Some? ==> forall f :: f != name ==> (f in err'.value <==> f in err.value) && (f in err.value ==> err'.value[f] == err.value[f])
  {
    if err.Some? && name in err.value then Some(err.value - {name}) else err
  }
}
