/**
 * Search fields: where a field's value for an object comes from (a
 * template, a model attribute, or the default), the template path it uses,
 * and the per-type defaults and coercions of the field subclasses. Template
 * rendering is a parameter.
 */
module Fields {
  import opened Wrappers
  import opened Text
  import opened Python

  /** `SearchField` and its subclasses (FloatField is not modelled). */
  datatype FieldKind =
    | BaseField
    | CharField
    | IntegerField
    | BooleanField
    | DateField
    | DateTimeField
    | MultiValueField

  /** An attribute of the indexed object: a plain value, or a callable and what calling it returns. */
  datatype Attr = Plain(value: PyValue) | Callable(result: PyValue)

  /** The indexed object: its model's `_meta.app_label` and `_meta.module_name`, and its attributes. */
  datatype IndexedObject = IndexedObject(appLabel: string, moduleName: string, attrs: map<string, Attr>)

  /** The constructor arguments a field keeps. */
  datatype FieldConfig = FieldConfig(
    modelAttr: Option<string>,
    useTemplate: bool,
    templateName: Option<string>,
    document: bool,
    indexed: bool,
    stored: bool,
    default: PyValue)

  /** A template renderer: the rendered text of the named template with the object in its context. */
  type Renderer = (string, IndexedObject) -> string

  const TemplateRoot := "search/indexes/"

  /**
   * The template `prepare_template` loads: the explicit name, else the
   * conventional per-model path; SearchFieldError when neither the name nor
   * the field's instance name is known.
   */
  function TemplatePath(templateName: Option<string>, instanceName: Option<string>, obj: IndexedObject): (r: Result<string, Error>)
    ensures r.Failure? <==> templateName.None? && instanceName.None?
    ensures r.Failure? ==> r.error == SearchFieldError
    ensures templateName.Some? ==> r == Success(templateName.value)
    ensures templateName.None? && instanceName.Some? ==>
      r == Success(ConventionalPath(obj.appLabel, obj.moduleName, instanceName.value))
  {
    if instanceName.None? && templateName.None? then Failure(SearchFieldError)
    else if templateName.Some? then Success(templateName.value)
    else Success(ConventionalPath(obj.appLabel, obj.moduleName, instanceName.value))
  }

  /** `search/indexes/<app_label>/<module_name>_<instance_name>.txt`. */
  function ConventionalPath(app: string, moduleName: string, instanceName: string): (p: string)
    ensures TemplateRoot <= p && p[|p| - 4..] == ".txt"
  {
    TemplateRoot + app + "/" + (moduleName + "_" + instanceName + ".txt")
  }

  /** `prepare_template`: the rendered text of the chosen template. */
  function PrepareTemplate(c: FieldConfig, instanceName: Option<string>, obj: IndexedObject, render: Renderer): (r: Result<PyValue, Error>)
    ensures r.Success? <==> c.templateName.Some? || instanceName.Some?
    ensures r.Failure? ==> r.error.SearchFieldError?
    ensures r.Success? ==> r.value.PyStr?
  {
    var path :- TemplatePath(c.templateName, instanceName, obj);
    Success(PyStr(render(path, obj)))
  }

  /** `SearchField.prepare`: the template first, then the model attribute (called when callable), then the default. */
  function BasePrepare(c: FieldConfig, instanceName: Option<string>, obj: IndexedObject, render: Renderer): (r: Result<PyValue, Error>)
    ensures r.Failure? <==> c.useTemplate && c.templateName.None? && instanceName.None?
    ensures r.Failure? ==> r.error.SearchFieldError?
  {
    if c.useTemplate then PrepareTemplate(c, instanceName, obj, render)
    else if c.modelAttr.Some? && c.modelAttr.value in obj.attrs then
      match obj.attrs[c.modelAttr.value]
      case Plain(v) => Success(v)
      case Callable(result) => Success(result)
    else Success(c.default)
  }

  /** The default a subclass forces, whatever default was passed; the base class keeps the given one. */
  function KindDefault(kind: FieldKind, given: PyValue): PyValue {
    match kind
    case BaseField => given
    case CharField => PyStr("")
    case IntegerField => PyInt(0)
    case BooleanField => PyBool(false)
    case DateField => PyStr("")
    case DateTimeField => PyStr("")
    case MultiValueField => PyStr("")
  }

  /** The conversion a subclass applies to the prepared value: text, int, bool, unchanged, or list. */
  function Coerce(kind: FieldKind, v: PyValue): (r: Result<PyValue, Error>)
    ensures kind == CharField ==> r.Success? && r.value.PyStr?
    ensures kind == BooleanField ==> r == Success(PyBool(Truthy(v)))
    ensures kind == IntegerField ==> (r.Success? <==> ToInt(v).Success?) && (r.Success? ==> r.value == PyInt(ToInt(v).value))
    ensures kind == MultiValueField ==> (r.Success? <==> v.PyList? || v.PyStr?) && (r.Success? ==> r.value.PyList?)
    ensures kind == BaseField || kind == DateField || kind == DateTimeField ==> r == Success(v)
  {
    match kind
    case BaseField => Success(v)
    case CharField => Success(PyStr(ToStr(v)))
    case IntegerField => var i :- ToInt(v); Success(PyInt(i))
    case BooleanField => Success(PyBool(Truthy(v)))
    case DateField => Success(v)
    case DateTimeField => Success(v)
    case MultiValueField => var xs :- ToList(v); Success(PyList(xs))
  }

  /** A subclass's `prepare`: the base preparation, then its coercion. */
  function Prepare(kind: FieldKind, c: FieldConfig, instanceName: Option<string>, obj: IndexedObject, render: Renderer): (r: Result<PyValue, Error>)
    ensures BasePrepare(c, instanceName, obj, render).Failure? ==> r == Failure(BasePrepare(c, instanceName, obj, render).error)
    ensures kind == CharField || kind == BooleanField || kind == BaseField || kind == DateField || kind == DateTimeField ==>
      (r.Success? <==> BasePrepare(c, instanceName, obj, render).Success?)
  {
    var v :- BasePrepare(c, instanceName, obj, render);
    Coerce(kind, v)
  }

  /** A search field: its kind, its configuration, and the name the index gives it once it is attached. */
  class SearchField {
    const kind: FieldKind
    const config: FieldConfig
    var instanceName: Option<string>

    /** The constructor: no instance name yet, and the subclass's forced default. */
    constructor (kind: FieldKind, modelAttr: Option<string>, useTemplate: bool, templateName: Option<string>,
                 document: bool, indexed: bool, stored: bool, default: PyValue)
      ensures this.kind == kind && instanceName == None
      ensures config == FieldConfig(modelAttr, useTemplate, templateName, document, indexed, stored, KindDefault(kind, default))
    {
      this.kind := kind;
      config := FieldConfig(modelAttr, useTemplate, templateName, document, indexed, stored, KindDefault(kind, default));
      instanceName := None;
    }

    /** `prepare(obj)` on this field. */
    function PrepareObject(obj: IndexedObject, render: Renderer): (r: Result<PyValue, Error>)
      reads this
      ensures config.useTemplate && config.templateName.None? && instanceName.None? ==> r.Failure? && r.error.SearchFieldError?
      ensures !config.useTemplate && (kind == CharField || kind == BooleanField) ==> r.Success?
    {
      Prepare(kind, config, instanceName, obj, render)
    }
  }

  /* ---------------- properties ---------------- */

  /** With `use_template`, the template decides: the model attribute and the default are never consulted. */
  lemma TemplateTakesPriority(c: FieldConfig, instanceName: Option<string>, obj: IndexedObject, render: Renderer, other: FieldConfig)
    requires c.useTemplate && other.useTemplate && other.templateName == c.templateName
    ensures BasePrepare(c, instanceName, obj, render) == BasePrepare(other, instanceName, obj, render)
    ensures BasePrepare(c, instanceName, obj, render) == PrepareTemplate(c, instanceName, obj, render)
  {
  }

  /** Without a template, an attribute the object has is the value, called when callable. */
  lemma AttributeUsed(c: FieldConfig, instanceName: Option<string>, obj: IndexedObject, render: Renderer)
    requires !c.useTemplate && c.modelAttr.Some? && c.modelAttr.value in obj.attrs
    ensures var a := obj.attrs[c.modelAttr.value];
      BasePrepare(c, instanceName, obj, render) == Success(if a.Callable? then a.result else a.value)
  {
  }

  /** Without a template or a usable attribute, the default is the value, and the instance name does not matter. */
  lemma DefaultUsed(c: FieldConfig, instanceName: Option<string>, obj: IndexedObject, render: Renderer)
    requires !c.useTemplate && (c.modelAttr.None? || c.modelAttr.value !in obj.attrs)
    ensures BasePrepare(c, instanceName, obj, render) == Success(c.default)
    ensures BasePrepare(c, instanceName, obj, render) == BasePrepare(c, None, obj, render)
  {
  }

  /** A template field with neither a template name nor an instance name fails with SearchFieldError, whatever its kind. */
  lemma TemplateNeedsAName(kind: FieldKind, c: FieldConfig, obj: IndexedObject, render: Renderer)
    requires c.useTemplate && c.templateName.None?
    ensures Prepare(kind, c, None, obj, render) == Failure(SearchFieldError)
  {
  }

  /** The conventional path reads back as its four components when the names hold no `/`. */
  lemma TemplatePathComponents(app: string, moduleName: string, inst: string)
    requires '/' !in app && '/' !in moduleName && '/' !in inst
    ensures SplitOn(ConventionalPath(app, moduleName, inst), '/') == ["search", "indexes", app, moduleName + "_" + inst + ".txt"]
  {
    var file := moduleName + "_" + inst + ".txt";
    assert '/' !in file;
    var p3 := app + "/" + file;
    SplitOnNone(file, '/');
    SplitOnFirst(app, file, '/');
    var p2 := "indexes" + "/" + p3;
    SplitOnFirst("indexes", p3, '/');
    assert SplitOn(p2, '/') == ["indexes", app, file];
    SplitOnFirst("search", p2, '/');
    assert SplitOn("search" + "/" + p2, '/') == ["search", "indexes", app, file];
    RootPath(app, file);
  }

  /** The template root is the two directories `search` and `indexes`. */
  lemma RootPath(app: string, file: string)
    ensures TemplateRoot + app + "/" + file == "search" + "/" + ("indexes" + "/" + (app + "/" + file))
  {
    assert TemplateRoot == "search" + "/" + "indexes" + "/";
  }

  /** A field that falls back to its default prepares to the subclass's empty value; a MultiValueField to the empty list. */
  lemma FallbackValues(kind: FieldKind, c: FieldConfig, given: PyValue, instanceName: Option<string>, obj: IndexedObject, render: Renderer)
    requires !c.useTemplate && (c.modelAttr.None? || c.modelAttr.value !in obj.attrs)
    requires c.default == KindDefault(kind, given)
    ensures kind == CharField ==> Prepare(kind, c, instanceName, obj, render) == Success(PyStr(""))
    ensures kind == IntegerField ==> Prepare(kind, c, instanceName, obj, render) == Success(PyInt(0))
    ensures kind == BooleanField ==> Prepare(kind, c, instanceName, obj, render) == Success(PyBool(false))
    ensures kind == DateField || kind == DateTimeField ==> Prepare(kind, c, instanceName, obj, render) == Success(PyStr(""))
    ensures kind == MultiValueField ==> Prepare(kind, c, instanceName, obj, render) == Success(PyList([]))
    ensures kind == BaseField ==> Prepare(kind, c, instanceName, obj, render) == Success(given)
  {
    if kind == MultiValueField {
      var l := ToList(PyStr(""));
      assert |l.value| == 0;
      assert l == Success([]);
    }
  }

  /** A numeric string attribute on an IntegerField prepares to the number it spells. */
  lemma IntegerFromText(c: FieldConfig, instanceName: Option<string>, obj: IndexedObject, render: Renderer, n: int)
    requires !c.useTemplate && c.modelAttr.Some? && c.modelAttr.value in obj.attrs
    requires obj.attrs[c.modelAttr.value] == Plain(PyStr(IntToString(n)))
    ensures Prepare(IntegerField, c, instanceName, obj, render) == Success(PyInt(n))
  {
    ParseIntRoundTrip(n);
  }

  /** Applying a subclass's coercion to a value it produced changes nothing. */
  lemma CoerceIdempotent(kind: FieldKind, v: PyValue)
    requires Coerce(kind, v).Success?
    ensures Coerce(kind, Coerce(kind, v).value) == Coerce(kind, v)
  {
  }

  /** A CharField always prepares to text, and fails only where the base preparation does. */
  lemma CharFieldIsText(c: FieldConfig, instanceName: Option<string>, obj: IndexedObject, render: Renderer)
    ensures Prepare(CharField, c, instanceName, obj, render).Success? <==> BasePrepare(c, instanceName, obj, render).Success?
    ensures Prepare(CharField, c, instanceName, obj, render).Success? ==>
      Prepare(CharField, c, instanceName, obj, render) == Success(PyStr(ToStr(BasePrepare(c, instanceName, obj, render).value)))
  {
  }

  /** A newly built field prepares as if it had no instance name: a template field needs an explicit template name. */
  lemma FreshFieldTemplate(f: SearchField, obj: IndexedObject, render: Renderer)
    requires f.instanceName == None && f.config.useTemplate && f.config.templateName.None?
    ensures f.PrepareObject(obj, render) == Failure(SearchFieldError)
  {
  }
}
