/** `ModelInspector`: static predicates that tell which kind of pandera object
    a Python object is. */
module Inspection {
  import opened Host

  /** A value of a model's `_get_model_attrs()`: a `classmethod` (a check) or anything else. */
  datatype Attr = ClassMethodAttr | OtherAttr

  /** A Python object as the inspector sees it. */
  datatype PyObject = PyObject(
    isMetaModel: TypeTest,           // isinstance(obj, MetaModel)
    isBaseSchema: TypeTest,          // isinstance(obj, BaseSchema)
    isModelClass: TypeTest,          // issubclass(obj, DataFrameModel)
    dictKeys: Option<set<string>>,   // keys of __dict__, None when the object has none
    dunderName: Option<string>,      // __name__, None when the object has none
    modelAttrs: map<string, Attr>)   // _get_model_attrs(); only read for models

  /** `is_pandera_model`: a `TypeError` from `isinstance` reads as false. */
  function IsPanderaModel(obj: PyObject): (r: bool)
    ensures r <==> obj.isMetaModel == Holds
    ensures obj.isMetaModel == RaisesTypeError ==> !r
  {
    match obj.isMetaModel
    case Holds => true
    case Fails => false
    case RaisesTypeError => false
  }

  /** `is_pandera_schema`: a `TypeError` from `isinstance` reads as false. */
  function IsPanderaSchema(obj: PyObject): (r: bool)
    ensures r <==> obj.isBaseSchema == Holds
    ensures obj.isBaseSchema == RaisesTypeError ==> !r
  {
    match obj.isBaseSchema
    case Holds => true
    case Fails => false
    case RaisesTypeError => false
  }

  /** `is_pandera_model_config(obj, parent)`: a missing `__dict__` counts as empty
      and a missing `__name__` as `""`, so only a parent that really holds `Config`
      and an object really named `Config` qualify. */
  function IsPanderaModelConfig(obj: PyObject, parent: Option<PyObject>): (r: bool)
    ensures parent.None? ==> !r
    ensures r <==> parent.Some? && parent.value.dictKeys.Some?
                   && "Config" in parent.value.dictKeys.value
                   && obj.dunderName == Some("Config")
  {
    parent.Some?
    && "Config" in parent.value.dictKeys.GetOr({})
    && obj.dunderName.GetOr("") == "Config"
  }

  /** `is_pandera_field(parent, field_name)` */
  function IsPanderaField(parent: PyObject, fieldName: string): (r: bool)
    ensures !IsPanderaModel(parent) ==> !r
    ensures r <==> parent.isMetaModel == Holds && fieldName in parent.modelAttrs
  {
    if !IsPanderaModel(parent) then false
    else fieldName in parent.modelAttrs
  }

  /** `is_checker_by_name(name, obj)` */
  function IsCheckerByName(name: string, obj: PyObject): (r: bool)
    ensures !IsPanderaModel(obj) ==> !r
    ensures r <==> obj.isMetaModel == Holds && name in obj.modelAttrs
                   && obj.modelAttrs[name] == ClassMethodAttr
  {
    if IsPanderaModel(obj) then
      name in obj.modelAttrs && obj.modelAttrs[name] == ClassMethodAttr
    else
      false
  }

  /** Every check is also a field: checks are the classmethod model attributes. */
  lemma CheckerIsField(name: string, model: PyObject)
    ensures IsCheckerByName(name, model) ==> IsPanderaField(model, name)
  {
  }

  /** The field and check predicates differ exactly on non-classmethod attributes. */
  lemma FieldNotChecker(name: string, model: PyObject)
    ensures IsPanderaField(model, name) && !IsCheckerByName(name, model)
            <==> IsPanderaModel(model) && name in model.modelAttrs
                 && model.modelAttrs[name] == OtherAttr
  {
  }
}
