/**
 * `messageTemplateSchema` (src/models/templateModel.js): a template record,
 * its validation, and insertion into a collection whose `name` index is unique.
 */
module TemplateModel {
  import opened Wrappers
  import opened Validation

  /** The `category` enum. */
  datatype Category = Transactional | Marketing | Utility

  function CategoryName(c: Category): string {
    match c
    case Transactional => "TRANSACTIONAL"
    case Marketing => "MARKETING"
    case Utility => "UTILITY"
  }

  function ParseCategory(s: string): (r: Option<Category>)
    ensures r.Some? ==> CategoryName(r.value) == s
    ensures r.None? ==> forall c :: CategoryName(c) != s
  {
    if s == "TRANSACTIONAL" then Some(Transactional)
    else if s == "MARKETING" then Some(Marketing)
    else if s == "UTILITY" then Some(Utility)
    else None
  }

  /** The `components[].type` enum. */
  datatype ComponentType = Body | Footer | Buttons

  function ComponentTypeName(t: ComponentType): string {
    match t
    case Body => "BODY"
    case Footer => "FOOTER"
    case Buttons => "BUTTONS"
  }

  function ParseComponentType(s: string): (r: Option<ComponentType>)
    ensures r.Some? ==> ComponentTypeName(r.value) == s
    ensures r.None? ==> forall t :: ComponentTypeName(t) != s
  {
    if s == "BODY" then Some(Body)
    else if s == "FOOTER" then Some(Footer)
    else if s == "BUTTONS" then Some(Buttons)
    else None
  }

  datatype Component = Component(componentType: ComponentType, text: string)

  /** A stored template. */
  datatype MessageTemplate = MessageTemplate(
    name: string,
    category: Category,
    allowCategoryChange: bool,
    language: string,
    components: seq<Component>)

  /** The object handed to the model; a missing property is `None`. */
  datatype ComponentDraft = ComponentDraft(componentType: Option<string>, text: Option<string>)

  datatype TemplateDraft = TemplateDraft(
    name: Option<string>,
    category: Option<string>,
    allowCategoryChange: Option<bool>,
    language: Option<string>,
    components: Option<seq<ComponentDraft>>)

  /** An enum path that is also required. */
  function RequireEnum(path: seq<Segment>, v: Option<string>, member: bool): (errs: set<Violation>)
    ensures errs == {} <==> StringPresent(v) && member
  {
    if !StringPresent(v) then {Required(path)}
    else if !member then {NotInEnum(path, v.value)}
    else {}
  }

  /** The violations of the component at index `i`. */
  function ComponentViolations(i: nat, c: ComponentDraft): (errs: set<Violation>)
    ensures errs == {} <==> ComponentAcceptable(c)
  {
    var path := [Key("components"), Index(i)];
    RequireEnum(path + [Key("type")], c.componentType,
                c.componentType.Some? && ParseComponentType(c.componentType.value).Some?)
    + RequireString(path + [Key("text")], c.text)
  }

  /** A component is accepted when its `type` names an enum member and its `text` is non-empty. */
  predicate ComponentAcceptable(c: ComponentDraft) {
    && c.componentType.Some? && (exists t :: ComponentTypeName(t) == c.componentType.value)
    && c.text.Some? && c.text.value != ""
  }

  /** The violations of the components from index `from` on. */
  function ComponentsViolations(cs: seq<ComponentDraft>, from: nat): (errs: set<Violation>)
    requires from <= |cs|
    ensures errs == {} <==> forall i :: from <= i < |cs| ==> ComponentAcceptable(cs[i])
    decreases |cs| - from
  {
    if from == |cs| then {} else ComponentViolations(from, cs[from]) + ComponentsViolations(cs, from + 1)
  }

  /**
   * The templates the schema accepts: `name` and `language` non-empty,
   * `category` one of the three enum names, `allowCategoryChange` present,
   * and every component accepted. Nothing is trimmed here: these paths have
   * no `trim` option.
   */
  predicate Acceptable(d: TemplateDraft) {
    && d.name.Some? && d.name.value != ""
    && d.category.Some? && (exists c :: CategoryName(c) == d.category.value)
    && d.allowCategoryChange.Some?
    && d.language.Some? && d.language.value != ""
    && (forall i :: 0 <= i < |d.components.GetOr([])| ==> ComponentAcceptable(d.components.GetOr([])[i]))
  }

  function Violations(d: TemplateDraft): (errs: set<Violation>)
    ensures errs == {} <==> Acceptable(d)
  {
    RequireString([Key("name")], d.name)
    + RequireEnum([Key("category")], d.category, d.category.Some? && ParseCategory(d.category.value).Some?)
    + (if d.allowCategoryChange.None? then {Required([Key("allowCategoryChange")])} else {})
    + RequireString([Key("language")], d.language)
    + ComponentsViolations(d.components.GetOr([]), 0)
  }

  function CastComponent(c: ComponentDraft): (r: Component)
    requires ComponentAcceptable(c)
    ensures c.componentType == Some(ComponentTypeName(r.componentType))
    ensures c.text == Some(r.text)
  {
    var t := ParseComponentType(c.componentType.value);
    assert t.Some? by { var x :| ComponentTypeName(x) == c.componentType.value; }
    Component(t.value, c.text.value)
  }

  function CastComponents(cs: seq<ComponentDraft>): (r: seq<Component>)
    requires forall i :: 0 <= i < |cs| ==> ComponentAcceptable(cs[i])
    ensures |r| == |cs|
    ensures forall i :: 0 <= i < |cs| ==>
      cs[i].componentType == Some(ComponentTypeName(r[i].componentType)) && cs[i].text == Some(r[i].text)
  {
    if cs == [] then [] else [CastComponent(cs[0])] + CastComponents(cs[1..])
  }

  /**
   * Validates a template draft: accepted exactly when `Acceptable`, and then
   * every property is kept as given, with an absent `components` array
   * becoming the empty array.
   */
  function Cast(d: TemplateDraft): (r: Result<MessageTemplate, set<Violation>>)
    ensures r.Ok? <==> Acceptable(d)
    ensures r.Err? ==> r.error != {}
    ensures r.Ok? ==>
      && r.value.name == d.name.value
      && CategoryName(r.value.category) == d.category.value
      && r.value.allowCategoryChange == d.allowCategoryChange.value
      && r.value.language == d.language.value
      && |r.value.components| == |d.components.GetOr([])|
      && forall i :: 0 <= i < |r.value.components| ==>
           d.components.GetOr([])[i].componentType == Some(ComponentTypeName(r.value.components[i].componentType))
           && d.components.GetOr([])[i].text == Some(r.value.components[i].text)
  {
    var errs := Violations(d);
    if errs != {} then Err(errs)
    else
      var c := ParseCategory(d.category.value);
      assert c.Some? by { var x :| CategoryName(x) == d.category.value; }
      Ok(MessageTemplate(d.name.value, c.value, d.allowCategoryChange.value, d.language.value,
                         CastComponents(d.components.GetOr([]))))
  }

  /** The collection-level meaning of `unique: true` on `name`. */
  predicate UniqueNames(coll: seq<MessageTemplate>) {
    forall i, j :: 0 <= i < j < |coll| ==> coll[i].name != coll[j].name
  }

  predicate NameTaken(coll: seq<MessageTemplate>, name: string) {
    exists i :: 0 <= i < |coll| && coll[i].name == name
  }

  /** Why an insert stored nothing: a validator failed, or the unique index refused the name. */
  datatype InsertError = Invalid(violations: set<Violation>) | DuplicateKey(name: string)

  /**
   * Inserts a template: validation runs first; then a name already in the
   * collection is refused by the unique index; otherwise the template is appended.
   */
  function Insert(coll: seq<MessageTemplate>, d: TemplateDraft): (r: Result<seq<MessageTemplate>, InsertError>)
    ensures r.Ok? <==> Acceptable(d) && !NameTaken(coll, d.name.value)
    ensures r.Ok? ==> r.value == coll + [Cast(d).value]
    ensures Acceptable(d) && NameTaken(coll, d.name.value) ==> r == Err(DuplicateKey(d.name.value))
    ensures UniqueNames(coll) && r.Ok? ==> UniqueNames(r.value)
  {
    match Cast(d)
    case Err(errs) => Err(Invalid(errs))
    case Ok(t) =>
      if NameTaken(coll, t.name) then Err(DuplicateKey(t.name)) else Ok(coll + [t])
  }

  /** Once a name is in the collection, every later insert under that name is refused. */
  lemma {:induction false} InsertedNameRefused(coll: seq<MessageTemplate>, d: TemplateDraft, d': TemplateDraft)
    requires Insert(coll, d).Ok?
    requires Acceptable(d') && d'.name == d.name
    ensures Insert(Insert(coll, d).value, d') == Err(DuplicateKey(d.name.value))
  {
    var coll' := Insert(coll, d).value;
    assert coll'[|coll|].name == d.name.value;
  }
}
