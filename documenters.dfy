/** The autodoc documenters of the package (`documenters.py`): which members
    they accept, and the reStructuredText lines they add to the output for a
    pandera field, a pandera check and a model's `Config`. */
module Documenters {
  import opened Host
  import opened Inspection

  /** A pandera `Field` as the field documenter reads it. */
  datatype Field = Field(
    title: Option<string>,
    description: Option<string>,
    nullable: bool,
    unique: bool,
    coerce: bool)

  /** A pandera `Check`: its name and its optional error message. */
  datatype Check = Check(name: string, error: Option<string>)

  /** A column of a `DataFrameSchema`, with its checks in order. */
  datatype Column = Column(name: string, checks: seq<Check>)

  /** The `DataFrameSchema` that `to_schema()` returns: its columns in dictionary order. */
  datatype Schema = Schema(columns: seq<Column>)

  // ---------------------------------------------------------------------------
  // Line formats
  // ---------------------------------------------------------------------------

  const ConstraintsHeader := ":Constraints:"
  const ValidatedByHeader := ":Validated by:"
  const ValidatesHeader := ":Validates:"

  function TitleLine(title: string): string {
    "   :title: " + title
  }

  function ConstraintLine(key: string, value: bool): string {
    "   - **" + key + "** = " + PyBool(value)
  }

  /** A cross reference list item: ``   - :py:obj:`caption <target>` `` */
  function ObjRefLine(caption: string, target: string): string {
    "   - :py:obj:`" + caption + " <" + target + ">`"
  }

  /** `get_check_func_ref` and `get_column_func_ref`: `<module>.<parent>.<name>` */
  function FuncRef(moduleName: string, parent: string, name: string): string {
    moduleName + "." + parent + "." + name
  }

  /** The list item for one check: its error message in bold when it has a
      non-empty one, otherwise a link to the check method of the parent. */
  function CheckLine(c: Check, moduleName: string, parent: string): string {
    if Truthy(c.error) then "   - **" + c.error.value + "**"
    else ObjRefLine(c.name, FuncRef(moduleName, parent, c.name))
  }

  function CheckRenderer(checkModule: string -> string, parent: string): Check -> string {
    (c: Check) => CheckLine(c, checkModule(c.name), parent)
  }

  function ColumnRenderer(moduleName: string, parent: string): Column -> string {
    (col: Column) => ObjRefLine(col.name, FuncRef(moduleName, parent, col.name))
  }

  function ConstraintRenderer(): ((string, bool)) -> string {
    (kv: (string, bool)) => ConstraintLine(kv.0, kv.1)
  }

  /** One line per item, in order (the body of a `for item in items: add_line(...)` loop). */
  function Lines<T>(render: T -> string, items: seq<T>): seq<string> {
    if items == [] then []
    else Lines(render, items[..|items| - 1]) + [render(items[|items| - 1])]
  }

  lemma {:induction false} LinesAt<T>(render: T -> string, items: seq<T>)
    ensures |Lines(render, items)| == |items|
    ensures forall i :: 0 <= i < |items| ==> Lines(render, items)[i] == render(items[i])
  {
    if items != [] {
      LinesAt(render, items[..|items| - 1]);
    }
  }

  lemma LinesSnoc<T>(render: T -> string, items: seq<T>, i: nat)
    requires i < |items|
    ensures Lines(render, items[..i + 1]) == Lines(render, items[..i]) + [render(items[i])]
  {
    assert items[..i + 1][..i] == items[..i];
  }

  // ---------------------------------------------------------------------------
  // What each emitter appends
  // ---------------------------------------------------------------------------

  /** `add_title`: at most one line, and none for a missing or empty title. */
  function TitleLines(f: Field): (r: seq<string>)
    ensures |r| <= 1
    ensures r != [] <==> Truthy(f.title)
    ensures r != [] ==> r[0] == TitleLine(f.title.value)
  {
    if Truthy(f.title) then [TitleLine(f.title.value)] else []
  }

  /** `add_description`: nothing for a missing or empty description, otherwise
      the prepared docstring lines and exactly one blank line after them. */
  function DescriptionLines(f: Field, prepared: seq<string>): (r: seq<string>)
    ensures !Truthy(f.description) ==> r == []
    ensures Truthy(f.description) ==> |r| == |prepared| + 1 && r[..|prepared|] == prepared && r[|prepared|] == ""
  {
    if Truthy(f.description) then prepared + [""] else []
  }

  /** The `constraints` dictionary of `add_constraints`, in insertion order. */
  function Constraints(f: Field): seq<(string, bool)> {
    [("nullable", f.nullable), ("unique", f.unique), ("coerce", f.coerce)]
  }

  function ConstraintLines(f: Field): seq<string> {
    [ConstraintsHeader] + Lines(ConstraintRenderer(), Constraints(f))
  }

  /** `add_constraints` always appends exactly four lines, in this order. */
  lemma ConstraintLinesShape(f: Field)
    ensures ConstraintLines(f) == [
      ":Constraints:",
      "   - **nullable** = " + PyBool(f.nullable),
      "   - **unique** = " + PyBool(f.unique),
      "   - **coerce** = " + PyBool(f.coerce)]
  {
    var r := Lines(ConstraintRenderer(), Constraints(f));
    LinesAt(ConstraintRenderer(), Constraints(f));
    assert r[0] == ConstraintLine("nullable", f.nullable);
    assert r[1] == ConstraintLine("unique", f.unique);
    assert r[2] == ConstraintLine("coerce", f.coerce);
    assert r == [r[0], r[1], r[2]];
    assert "   - **" + "nullable" + "** = " == "   - **nullable** = ";
    assert "   - **" + "unique" + "** = " == "   - **unique** = ";
    assert "   - **" + "coerce" + "** = " == "   - **coerce** = ";
  }

  function ChecksSection(checks: seq<Check>, checkModule: string -> string, parent: string): seq<string> {
    if checks == [] then []
    else [ValidatedByHeader] + Lines(CheckRenderer(checkModule, parent), checks)
  }

  /** `add_checks` appends nothing for a column without checks, and otherwise
      the header and one line per check, in the column's check order. */
  lemma ChecksSectionShape(checks: seq<Check>, checkModule: string -> string, parent: string)
    ensures checks == [] ==> ChecksSection(checks, checkModule, parent) == []
    ensures checks != [] ==>
      var r := ChecksSection(checks, checkModule, parent);
      |r| == |checks| + 1 && r[0] == ValidatedByHeader &&
      forall i :: 0 <= i < |checks| ==> r[i + 1] == CheckLine(checks[i], checkModule(checks[i].name), parent)
  {
    LinesAt(CheckRenderer(checkModule, parent), checks);
  }

  /** A check's line shows its error message exactly when the message is non-empty;
      otherwise it links to `<module>.<parent>.<name>`. */
  lemma CheckLineCases(c: Check, moduleName: string, parent: string)
    ensures Truthy(c.error) ==> CheckLine(c, moduleName, parent) == "   - **" + c.error.value + "**"
    ensures !Truthy(c.error) ==>
      CheckLine(c, moduleName, parent) == "   - :py:obj:`" + c.name + " <" + moduleName + "." + parent + "." + c.name + ">`"
  {
  }

  function ColumnsSection(columns: seq<Column>, moduleName: string, parent: string): seq<string> {
    if columns == [] then []
    else [ValidatesHeader] + Lines(ColumnRenderer(moduleName, parent), columns) + [""]
  }

  /** `add_columns_list` appends nothing when no column matched, and otherwise
      the header, one link per matched column in order, and a blank line. */
  lemma ColumnsSectionShape(columns: seq<Column>, moduleName: string, parent: string)
    ensures columns == [] ==> ColumnsSection(columns, moduleName, parent) == []
    ensures columns != [] ==>
      var r := ColumnsSection(columns, moduleName, parent);
      |r| == |columns| + 2 && r[0] == ValidatesHeader && r[|r| - 1] == "" &&
      forall i :: 0 <= i < |columns| ==>
        r[i + 1] == ObjRefLine(columns[i].name, FuncRef(moduleName, parent, columns[i].name))
  {
    LinesAt(ColumnRenderer(moduleName, parent), columns);
  }

  /** The loop shared by `add_checks` and `add_columns_list`: one rendered line
      per item, appended in order. */
  method EmitLines<T>(buffer: ResultBuffer, render: T -> string, items: seq<T>)
    modifies buffer
    ensures buffer.lines == old(buffer.lines) + Lines(render, items)
  {
    for i := 0 to |items|
      invariant buffer.lines == old(buffer.lines) + Lines(render, items[..i])
    {
      buffer.AddLine(render(items[i]));
      LinesSnoc(render, items, i);
    }
    assert items[..|items|] == items;
  }

  /** The body of `add_checks` once the column's checks are known: nothing for
      no checks, otherwise the header and one line per check, in order. */
  method EmitCheckLines(buffer: ResultBuffer, checks: seq<Check>, checkModule: string -> string, parent: string)
    modifies buffer
    ensures buffer.lines == old(buffer.lines) + ChecksSection(checks, checkModule, parent)
  {
    if checks == [] {
      return;
    }
    var render := CheckRenderer(checkModule, parent);
    assert ChecksSection(checks, checkModule, parent) == [ValidatedByHeader] + Lines(render, checks);
    buffer.AddLine(ValidatedByHeader);
    EmitLines(buffer, render, checks);
  }

  /** The body of `add_columns_list` once the matched columns are known. */
  method EmitColumnLines(buffer: ResultBuffer, columns: seq<Column>, moduleName: string, parent: string)
    modifies buffer
    ensures buffer.lines == old(buffer.lines) + ColumnsSection(columns, moduleName, parent)
  {
    if columns == [] {
      return;
    }
    buffer.AddLine(ValidatesHeader);
    EmitLines(buffer, ColumnRenderer(moduleName, parent), columns);
    buffer.AddLine("");
  }

  // ---------------------------------------------------------------------------
  // Looking up a column, and matching checks to columns
  // ---------------------------------------------------------------------------

  /** `schema.columns[name]`: the column of that name (the first, should two share it). */
  function LookupColumn(columns: seq<Column>, name: string): (r: Option<Column>)
    ensures r.None? <==> forall i :: 0 <= i < |columns| ==> columns[i].name != name
    ensures r.Some? ==> exists i :: 0 <= i < |columns| && columns[i] == r.value && r.value.name == name
                                    && forall j :: 0 <= j < i ==> columns[j].name != name
  {
    if columns == [] then None
    else if columns[0].name == name then Some(columns[0])
    else
      var r := LookupColumn(columns[1..], name);
      if r.Some? then
        ghost var i :| 0 <= i < |columns[1..]| && columns[1..][i] == r.value && r.value.name == name
                       && forall j :: 0 <= j < i ==> columns[1..][j].name != name;
        assert columns[i + 1] == r.value;
        r
      else r
  }

  /** `pandera_field_name`: `objpath[-1]`, an `IndexError` on an empty path. */
  function PanderaFieldName(objpath: seq<string>): (r: Outcome<string>)
    ensures r.Raises? <==> objpath == []
    ensures r.Raises? ==> r.exc == IndexError
    ensures r.Returns? ==> r.value == objpath[|objpath| - 1]
  {
    if objpath == [] then Raises(IndexError) else Returns(objpath[|objpath| - 1])
  }

  /** `pandera_field`: the parent model's attribute named by the last element
      of the object path; `IndexError` for an empty path, `KeyError` for a name
      the model does not have. */
  function PanderaField(attrs: map<string, Field>, objpath: seq<string>): (r: Outcome<Field>)
    ensures r == Raises(IndexError) <==> objpath == []
    ensures r == Raises(KeyError) <==> objpath != [] && objpath[|objpath| - 1] !in attrs
    ensures r.Returns? <==> objpath != [] && objpath[|objpath| - 1] in attrs
    ensures r.Returns? ==> r.value == attrs[objpath[|objpath| - 1]]
  {
    match PanderaFieldName(objpath)
    case Raises(e) => Raises(e)
    case Returns(name) => if name in attrs then Returns(attrs[name]) else Raises(KeyError)
  }

  /** Once `pandera_field` is found, the column lookup of `add_checks` on a
      fetched schema can fail only with a `KeyError`, and exactly when no column
      carries the field's name. */
  lemma FoundFieldChecks(attrs: map<string, Field>, objpath: seq<string>, schema: Schema)
    requires PanderaField(attrs, objpath).Returns?
    ensures ChecksOf(Some(schema), objpath).Raises? ==> ChecksOf(Some(schema), objpath).exc == KeyError
    ensures ChecksOf(Some(schema), objpath).Raises? <==> LookupColumn(schema.columns, objpath[|objpath| - 1]).None?
  {
  }

  /** `self.pandera_schema.columns[self.pandera_field_name].checks`, with the
      exception each step raises: no schema yet, an empty object path, no
      column of that name. */
  function ChecksOf(schema: Option<Schema>, objpath: seq<string>): (r: Outcome<seq<Check>>)
    ensures schema.None? ==> r == Raises(AttributeError)
    ensures schema.Some? && objpath == [] ==> r == Raises(IndexError)
    ensures schema.Some? && objpath != [] ==>
      (r == Raises(KeyError) <==> LookupColumn(schema.value.columns, objpath[|objpath| - 1]).None?)
    ensures r.Returns? ==> exists col :: col in schema.value.columns && col.name == objpath[|objpath| - 1]
                                         && r.value == col.checks
  {
    if schema.None? then Raises(AttributeError)
    else
      match PanderaFieldName(objpath)
      case Raises(e) => Raises(e)
      case Returns(name) =>
        match LookupColumn(schema.value.columns, name)
        case None => Raises(KeyError)
        case Some(col) => Returns(col.checks)
  }

  /** `self.name.rsplit(".", 1)[-1]`: the text after the last `.`, or the whole
      name when it has no `.`. */
  function LastComponent(name: string): string {
    if name == [] then []
    else if name[|name| - 1] == '.' then []
    else LastComponent(name[..|name| - 1]) + [name[|name| - 1]]
  }

  /** `LastComponent` is the longest dot-free suffix: it is a suffix with no
      `.`, it is the whole name exactly when the name has no `.`, and otherwise
      a `.` precedes it. */
  lemma {:induction false} LastComponentSuffix(name: string)
    ensures |LastComponent(name)| <= |name|
    ensures LastComponent(name) == name[|name| - |LastComponent(name)|..]
    ensures '.' !in LastComponent(name)
    ensures LastComponent(name) == name <==> '.' !in name
    ensures |LastComponent(name)| < |name| ==> name[|name| - |LastComponent(name)| - 1] == '.'
  {
    if name != [] && name[|name| - 1] != '.' {
      var init, c := name[..|name| - 1], name[|name| - 1];
      LastComponentSuffix(init);
      var r0 := LastComponent(init);
      assert LastComponent(name) == r0 + [c];
      assert name == init + [c];
      assert name[|name| - |r0| - 1..] == init[|init| - |r0|..] + [c];
      if '.' !in init {
        assert r0 == init;
      }
      if '.' in init {
        assert r0 != init;
        assert name[|name| - |r0| - 2] == init[|init| - |r0| - 1];
      }
    }
  }

  /** How many of `checks` are named `target`. */
  function MatchCount(checks: seq<Check>, target: string): nat {
    if checks == [] then 0
    else MatchCount(checks[..|checks| - 1], target) + (if checks[|checks| - 1].name == target then 1 else 0)
  }

  function Repeat<T>(x: T, n: nat): seq<T> {
    if n == 0 then [] else Repeat(x, n - 1) + [x]
  }

  lemma MatchCountSnoc(checks: seq<Check>, j: nat, target: string)
    requires j < |checks|
    ensures MatchCount(checks[..j + 1], target) ==
            MatchCount(checks[..j], target) + (if checks[j].name == target then 1 else 0)
  {
    assert checks[..j + 1][..j] == checks[..j];
  }

  lemma CheckedColumnsSnoc(columns: seq<Column>, i: nat, target: string)
    requires i < |columns|
    ensures CheckedColumns(columns[..i + 1], target) ==
            CheckedColumns(columns[..i], target) + Repeat(columns[i], MatchCount(columns[i].checks, target))
  {
    assert columns[..i + 1][..i] == columns[..i];
  }

  /** The reference definition of `get_checked_columns`: the columns in schema
      order, each once per check of it named `target`. */
  function CheckedColumns(columns: seq<Column>, target: string): seq<Column> {
    if columns == [] then []
    else
      var last := columns[|columns| - 1];
      CheckedColumns(columns[..|columns| - 1], target) + Repeat(last, MatchCount(last.checks, target))
  }

  lemma {:induction false} MatchCountPositive(checks: seq<Check>, target: string)
    ensures MatchCount(checks, target) > 0 <==> exists k :: 0 <= k < |checks| && checks[k].name == target
  {
    if checks != [] {
      var init := checks[..|checks| - 1];
      MatchCountPositive(init, target);
      if exists k :: 0 <= k < |init| && init[k].name == target {
        var k :| 0 <= k < |init| && init[k].name == target;
        assert checks[k] == init[k];
      }
      if exists k :: 0 <= k < |checks| && checks[k].name == target {
        var k :| 0 <= k < |checks| && checks[k].name == target;
        if k < |init| { assert init[k] == checks[k]; }
      }
    }
  }

  lemma {:induction false} RepeatMembers<T>(x: T, n: nat, y: T)
    ensures |Repeat(x, n)| == n
    ensures y in Repeat(x, n) <==> n > 0 && y == x
  {
    if n > 0 {
      RepeatMembers(x, n - 1, y);
    }
  }

  /** Matching distributes over concatenation: the result keeps schema order. */
  lemma {:induction false} CheckedColumnsAppend(a: seq<Column>, b: seq<Column>, target: string)
    ensures CheckedColumns(a + b, target) == CheckedColumns(a, target) + CheckedColumns(b, target)
  {
    if b == [] {
      assert a + b == a;
    } else {
      var binit, last := b[..|b| - 1], b[|b| - 1];
      var tail := Repeat(last, MatchCount(last.checks, target));
      assert (a + b)[..|a + b| - 1] == a + binit;
      assert (a + b)[|a + b| - 1] == last;
      assert CheckedColumns(a + b, target) == CheckedColumns(a + binit, target) + tail;
      CheckedColumnsAppend(a, binit, target);
      assert CheckedColumns(b, target) == CheckedColumns(binit, target) + tail;
    }
  }

  /** A column is in the result exactly when it is a column of the schema with
      at least one check named `target`. */
  lemma {:induction false} CheckedColumnsMembers(columns: seq<Column>, target: string, c: Column)
    ensures c in CheckedColumns(columns, target) <==>
      c in columns && exists k :: 0 <= k < |c.checks| && c.checks[k].name == target
  {
    if columns != [] {
      var init := columns[..|columns| - 1];
      var last := columns[|columns| - 1];
      CheckedColumnsMembers(init, target, c);
      RepeatMembers(last, MatchCount(last.checks, target), c);
      MatchCountPositive(last.checks, target);
      assert columns == init + [last];
    }
  }

  /** No column is listed exactly when no check of any column is named `target`. */
  lemma CheckedColumnsEmpty(columns: seq<Column>, target: string)
    ensures CheckedColumns(columns, target) == [] <==>
      forall i, k :: 0 <= i < |columns| && 0 <= k < |columns[i].checks| ==> columns[i].checks[k].name != target
  {
    if CheckedColumns(columns, target) != [] {
      var c := CheckedColumns(columns, target)[0];
      CheckedColumnsMembers(columns, target, c);
    }
    if exists i, k :: 0 <= i < |columns| && 0 <= k < |columns[i].checks| && columns[i].checks[k].name == target {
      var i, k :| 0 <= i < |columns| && 0 <= k < |columns[i].checks| && columns[i].checks[k].name == target;
      CheckedColumnsMembers(columns, target, columns[i]);
    }
  }

  /** A column is listed once per check of it named `target`. */
  lemma {:induction false} CheckedColumnsSingle(c: Column, target: string)
    ensures CheckedColumns([c], target) == Repeat(c, MatchCount(c.checks, target))
  {
    assert [c][..0] == [];
  }

  /** The nested loop of `get_checked_columns`: for every column, in schema
      order, and every check of it, the column is appended when the check is
      named `target`. */
  method CollectCheckedColumns(all: seq<Column>, target: string) returns (columns: seq<Column>)
    ensures columns == CheckedColumns(all, target)
  {
    columns := [];
    for i := 0 to |all|
      invariant columns == CheckedColumns(all[..i], target)
    {
      var column := all[i];
      for j := 0 to |column.checks|
        invariant columns == CheckedColumns(all[..i], target) + Repeat(column, MatchCount(column.checks[..j], target))
      {
        MatchCountSnoc(column.checks, j, target);
        if column.checks[j].name == target {
          columns := columns + [column];
        }
      }
      assert column.checks[..|column.checks|] == column.checks;
      CheckedColumnsSnoc(all, i, target);
    }
    assert all[..|all|] == all;
  }

  // ---------------------------------------------------------------------------
  // Which members each documenter accepts (`can_document_member`)
  // ---------------------------------------------------------------------------

  /** `PanderaModelDocumenter.can_document_member`: base acceptance and
      `issubclass(member, DataFrameModel)`; a `TypeError` from either reads as false. */
  function ModelCanDocument(base: Outcome<bool>, member: PyObject): (r: Outcome<bool>)
    ensures r == Returns(true) <==> base == Returns(true) && member.isModelClass == Holds
    ensures r.Raises? <==> base.Raises? && base.exc != TypeError
    ensures r.Raises? ==> r == base
  {
    match base
    case Raises(TypeError) => Returns(false)
    case Raises(e) => Raises(e)
    case Returns(isVal) =>
      match member.isModelClass
      case RaisesTypeError => Returns(false)
      case Holds => Returns(isVal)
      case Fails => Returns(false)
  }

  /** `PanderaModelConfigDocumenter.can_document_member`: base acceptance, a
      parent whose `__dict__` holds `Config`, and a member named `Config`. */
  function ConfigCanDocument(base: Outcome<bool>, member: PyObject, parent: PyObject): (r: Outcome<bool>)
    ensures r == Returns(true) <==>
      base == Returns(true) && parent.dictKeys.Some? && "Config" in parent.dictKeys.value
      && member.dunderName == Some("Config")
    ensures base == Raises(TypeError) ==> r == Returns(false)
    ensures r.Raises? <==> (base.Raises? && base.exc != TypeError) || (base.Returns? && parent.dictKeys.None?)
  {
    match base
    case Raises(TypeError) => Returns(false)
    case Raises(e) => Raises(e)
    case Returns(isVal) =>
      match parent.dictKeys
      case None => Raises(AttributeError)
      case Some(keys) => Returns(isVal && "Config" in keys && member.dunderName.GetOr("") == "Config")
  }

  /** `PanderaFieldDocumenter.can_document_member`. The base call is made
      before the `try`, so its exceptions propagate; a parent that is not a
      `DataFrameModel` (or on which `issubclass` raises) is refused. */
  function FieldCanDocument(base: Outcome<bool>, memberName: string, parent: PyObject): (r: Outcome<bool>)
    ensures r.Raises? <==> base.Raises?
    ensures r.Raises? ==> r == base
    ensures parent.isModelClass != Holds && base.Returns? ==> r == Returns(false)
    ensures r == Returns(true) <==>
      base == Returns(true) && parent.isModelClass == Holds && memberName in parent.modelAttrs
  {
    match base
    case Raises(e) => Raises(e)
    case Returns(isValid) =>
      if parent.isModelClass != Holds then Returns(false)
      else Returns(isValid && memberName in parent.modelAttrs)
  }

  /** `PanderaCheckDocumenter.can_document_member`: as for fields, and the
      model attribute must be a `classmethod`. */
  function CheckCanDocument(base: Outcome<bool>, memberName: string, parent: PyObject): (r: Outcome<bool>)
    ensures r.Raises? <==> base.Raises?
    ensures r.Raises? ==> r == base
    ensures parent.isModelClass != Holds && base.Returns? ==> r == Returns(false)
    ensures r == Returns(true) <==>
      base == Returns(true) && parent.isModelClass == Holds && memberName in parent.modelAttrs
      && parent.modelAttrs[memberName] == ClassMethodAttr
  {
    match base
    case Raises(e) => Raises(e)
    case Returns(isValid) =>
      if parent.isModelClass != Holds then Returns(false)
      else Returns(isValid && memberName in parent.modelAttrs && parent.modelAttrs[memberName] == ClassMethodAttr)
  }

  /** A member the check documenter accepts is one the field documenter accepts. */
  lemma CheckDocumentableIsField(base: Outcome<bool>, memberName: string, parent: PyObject)
    ensures CheckCanDocument(base, memberName, parent) == Returns(true) ==>
            FieldCanDocument(base, memberName, parent) == Returns(true)
  {
  }

  /** When the base accepts and `issubclass(parent, DataFrameModel)` agrees with
      `isinstance(parent, MetaModel)`, the documenters decide exactly as the
      inspector's predicates do. */
  lemma DocumentersAgreeWithInspector(memberName: string, parent: PyObject)
    requires parent.isModelClass == parent.isMetaModel
    ensures FieldCanDocument(Returns(true), memberName, parent) == Returns(IsPanderaField(parent, memberName))
    ensures CheckCanDocument(Returns(true), memberName, parent) == Returns(IsCheckerByName(memberName, parent))
  {
  }

  // ---------------------------------------------------------------------------
  // The `Config` documenter's member whitelist
  // ---------------------------------------------------------------------------

  const ConfigWhitelist: seq<string> := ["strict", "coerce", "ordered"]

  /** The comprehension of `get_object_members`: the members keyed by a
      whitelisted name, in their original order. */
  function KeptConfigMembers<M>(members: seq<(string, M)>): seq<M> {
    if members == [] then []
    else (if members[0].0 in ConfigWhitelist then [members[0].1] else []) + KeptConfigMembers(members[1..])
  }

  /** `get_object_members`: never "all members", and only the whitelisted ones. */
  function GetObjectMembers<M>(wantAll: bool, members: seq<(string, M)>): (r: (bool, seq<M>))
    ensures !r.0
    ensures |r.1| <= |members|
    ensures forall m :: m in r.1 ==> exists k :: k in ConfigWhitelist && (k, m) in members
  {
    KeptConfigMembersSound(members);
    (false, KeptConfigMembers(members))
  }

  lemma {:induction false} KeptConfigMembersSound<M>(members: seq<(string, M)>)
    ensures |KeptConfigMembers(members)| <= |members|
    ensures forall m :: m in KeptConfigMembers(members) ==> exists k :: k in ConfigWhitelist && (k, m) in members
  {
    if members != [] {
      KeptConfigMembersSound(members[1..]);
      forall m | m in KeptConfigMembers(members)
        ensures exists k :: k in ConfigWhitelist && (k, m) in members
      {
        if m in KeptConfigMembers(members[1..]) {
          var k :| k in ConfigWhitelist && (k, m) in members[1..];
          assert (k, m) in members;
        } else {
          assert (members[0].0, m) == members[0];
        }
      }
    }
  }

  /** The filter keeps order: filtering a concatenation concatenates the filtered parts. */
  lemma {:induction false} KeptConfigMembersAppend<M>(a: seq<(string, M)>, b: seq<(string, M)>)
    ensures KeptConfigMembers(a + b) == KeptConfigMembers(a) + KeptConfigMembers(b)
  {
    if a == [] {
      assert a + b == b;
    } else {
      KeptConfigMembersAppend(a[1..], b);
      assert (a + b)[1..] == a[1..] + b;
    }
  }

  /** A single member is kept exactly when its key is `strict`, `coerce` or `ordered`. */
  lemma KeptConfigMember<M>(key: string, m: M)
    ensures KeptConfigMembers([(key, m)]) == if key in ConfigWhitelist then [m] else []
  {
    assert [(key, m)][1..] == [];
  }

  // ---------------------------------------------------------------------------
  // The documenters as objects
  // ---------------------------------------------------------------------------

  /** `PanderaModelDocumenter` and `PanderaModelConfigDocumenter` hide class arguments. */
  function FormatSignature(): (r: string)
    ensures |r| == 0
  {
    ""
  }

  class ModelDocumenter {
    var options: map<string, OptionValue>

    constructor (options: map<string, OptionValue>)
      ensures this.options == options
    {
      this.options := options;
    }

    /** `document_members`: documents all members, documented or not, whatever
        the user asked; the base class's member walk is not modelled. */
    method DocumentMembers()
      modifies this
      ensures options == old(options)["members" := All]["undoc-members" := All]
      ensures options["members"] == All && options["undoc-members"] == All
      ensures forall k :: k in old(options) && k != "members" && k != "undoc-members" ==>
                k in options && options[k] == old(options)[k]
    {
      options := options["members" := All];
      options := options["undoc-members" := All];
    }
  }

  class FieldDocumenter {
    const buffer: ResultBuffer
    const objpath: seq<string>
    /** the fields among the parent model's `_get_model_attrs()` */
    const modelAttrs: map<string, Field>
    /** `str(self.parent)`, as it appears in cross references */
    const parentText: string
    /** the module `inspect.getmodule` finds for the parent's attribute of that name */
    const checkModule: string -> string
    var options: map<string, OptionValue>
    /** the `no_value` attribute set on the options object (not one of its keys);
        `None` while it is unset */
    var noValue: Option<bool>
    var panderaSchema: Option<Schema>

    constructor (buffer: ResultBuffer, objpath: seq<string>, modelAttrs: map<string, Field>, parentText: string,
                 checkModule: string -> string, options: map<string, OptionValue>)
      ensures this.buffer == buffer && this.objpath == objpath && this.modelAttrs == modelAttrs
      ensures this.parentText == parentText && this.checkModule == checkModule
      ensures this.options == options && noValue == None && panderaSchema == None
    {
      this.buffer := buffer;
      this.objpath := objpath;
      this.modelAttrs := modelAttrs;
      this.parentText := parentText;
      this.checkModule := checkModule;
      this.options := options;
      noValue := None;
      panderaSchema := None;
    }

    /** `add_title`: a failed `pandera_field` lookup raises before any output. */
    method AddTitle() returns (r: Status)
      modifies buffer
      ensures PanderaField(modelAttrs, objpath).Raises? ==>
                r == Raised(PanderaField(modelAttrs, objpath).exc) && buffer.lines == old(buffer.lines)
      ensures PanderaField(modelAttrs, objpath).Returns? ==>
                r == Done && buffer.lines == old(buffer.lines) + TitleLines(PanderaField(modelAttrs, objpath).value)
    {
      var found := PanderaField(modelAttrs, objpath);
      if found.Raises? {
        return Raised(found.exc);
      }
      var field := found.value;
      if !Truthy(field.title) {
        return Done;
      }
      buffer.AddLine(TitleLine(field.title.value));
      return Done;
    }

    /** `add_description`; `prepared` is what `prepare_docstring` makes of the description. */
    method AddDescription(prepared: seq<string>) returns (r: Status)
      modifies buffer
      ensures PanderaField(modelAttrs, objpath).Raises? ==>
                r == Raised(PanderaField(modelAttrs, objpath).exc) && buffer.lines == old(buffer.lines)
      ensures PanderaField(modelAttrs, objpath).Returns? ==>
                r == Done &&
                buffer.lines == old(buffer.lines) + DescriptionLines(PanderaField(modelAttrs, objpath).value, prepared)
    {
      var found := PanderaField(modelAttrs, objpath);
      if found.Raises? {
        return Raised(found.exc);
      }
      if !Truthy(found.value.description) {
        return Done;
      }
      for i := 0 to |prepared|
        invariant buffer.lines == old(buffer.lines) + prepared[..i]
      {
        buffer.AddLine(prepared[i]);
        assert prepared[..i + 1] == prepared[..i] + [prepared[i]];
      }
      assert prepared[..|prepared|] == prepared;
      buffer.AddLine("");
      return Done;
    }

    /** `add_constraints`: the constraint dictionary is built, and so the field
        looked up, before the header is written. */
    method AddConstraints() returns (r: Status)
      modifies buffer
      ensures PanderaField(modelAttrs, objpath).Raises? ==>
                r == Raised(PanderaField(modelAttrs, objpath).exc) && buffer.lines == old(buffer.lines)
      ensures PanderaField(modelAttrs, objpath).Returns? ==>
                r == Done &&
                buffer.lines == old(buffer.lines) + ConstraintLines(PanderaField(modelAttrs, objpath).value)
    {
      var found := PanderaField(modelAttrs, objpath);
      if found.Raises? {
        return Raised(found.exc);
      }
      var constraints := Constraints(found.value);
      buffer.AddLine(ConstraintsHeader);
      for i := 0 to |constraints|
        invariant buffer.lines == old(buffer.lines) + [ConstraintsHeader] + Lines(ConstraintRenderer(), constraints[..i])
      {
        var (key, value) := constraints[i];
        buffer.AddLine(ConstraintLine(key, value));
        LinesSnoc(ConstraintRenderer(), constraints, i);
      }
      assert constraints[..|constraints|] == constraints;
      return Done;
    }

    /** `add_checks`: looks up this field's column in the schema and lists its
        checks; a failed lookup raises before anything is appended. */
    method AddChecks() returns (r: Status)
      modifies buffer
      ensures ChecksOf(panderaSchema, objpath).Raises? ==>
                r == Raised(ChecksOf(panderaSchema, objpath).exc) && buffer.lines == old(buffer.lines)
      ensures ChecksOf(panderaSchema, objpath).Returns? ==>
                r == Done &&
                buffer.lines == old(buffer.lines) + ChecksSection(ChecksOf(panderaSchema, objpath).value, checkModule, parentText)
    {
      var found := ChecksOf(panderaSchema, objpath);
      if found.Raises? {
        return Raised(found.exc);
      }
      EmitCheckLines(buffer, found.value, checkModule, parentText);
      return Done;
    }

    /** `add_directive_header`: hides the attribute's value by setting `no_value`
        on the options object, lets the base class write its header lines from
        the options as they now are, then adds the title option. */
    method AddDirectiveHeader(base: (map<string, OptionValue>, Option<bool>) -> seq<string>) returns (r: Status)
      modifies this, buffer
      ensures noValue == Some(true) && options == old(options) && panderaSchema == old(panderaSchema)
      ensures PanderaField(modelAttrs, objpath).Raises? ==>
                r == Raised(PanderaField(modelAttrs, objpath).exc) &&
                buffer.lines == old(buffer.lines) + base(options, Some(true))
      ensures PanderaField(modelAttrs, objpath).Returns? ==>
                r == Done &&
                buffer.lines == old(buffer.lines) + base(options, Some(true))
                                + TitleLines(PanderaField(modelAttrs, objpath).value)
    {
      noValue := Some(true);
      buffer.AddLines(base(options, noValue));
      r := AddTitle();
    }

    /** `add_content`: the base class's content, then description, constraints
        and checks, read from the schema `to_schema()` returned; the first
        exception stops it. */
    method AddContent(baseContent: seq<string>, schema: Schema, prepared: seq<string>) returns (r: Status)
      modifies this, buffer
      ensures panderaSchema == Some(schema) && options == old(options) && noValue == old(noValue)
      ensures PanderaField(modelAttrs, objpath).Raises? ==>
                r == Raised(PanderaField(modelAttrs, objpath).exc) &&
                buffer.lines == old(buffer.lines) + baseContent
      ensures PanderaField(modelAttrs, objpath).Returns? && ChecksOf(Some(schema), objpath).Raises? ==>
                r == Raised(ChecksOf(Some(schema), objpath).exc) &&
                buffer.lines == old(buffer.lines) + baseContent
                                + DescriptionLines(PanderaField(modelAttrs, objpath).value, prepared)
                                + ConstraintLines(PanderaField(modelAttrs, objpath).value)
      ensures PanderaField(modelAttrs, objpath).Returns? && ChecksOf(Some(schema), objpath).Returns? ==>
                r == Done &&
                buffer.lines == old(buffer.lines) + baseContent
                                + DescriptionLines(PanderaField(modelAttrs, objpath).value, prepared)
                                + ConstraintLines(PanderaField(modelAttrs, objpath).value)
                                + ChecksSection(ChecksOf(Some(schema), objpath).value, checkModule, parentText)
    {
      buffer.AddLines(baseContent);
      panderaSchema := Some(schema);
      r := AddDescription(prepared);
      if r.Raised? {
        return;
      }
      r := AddConstraints();
      if r.Raised? {
        return;
      }
      r := AddChecks();
    }
  }

  class CheckDocumenter {
    const buffer: ResultBuffer
    /** `self.name`, the dotted name of the documented check */
    const name: string
    /** `str(self.parent)` and the name of the parent's module */
    const parentText: string
    const parentModule: string

    constructor (buffer: ResultBuffer, name: string, parentText: string, parentModule: string)
      ensures this.buffer == buffer && this.name == name
      ensures this.parentText == parentText && this.parentModule == parentModule
    {
      this.buffer := buffer;
      this.name := name;
      this.parentText := parentText;
      this.parentModule := parentModule;
    }

    /** `get_checked_columns`, over the schema that `to_schema()` returned. */
    method GetCheckedColumns(schema: Schema) returns (columns: seq<Column>)
      ensures columns == CheckedColumns(schema.columns, LastComponent(name))
    {
      var target := LastComponent(name);
      columns := CollectCheckedColumns(schema.columns, target);
    }

    method AddColumnsList(schema: Schema)
      modifies buffer
      ensures buffer.lines == old(buffer.lines)
                + ColumnsSection(CheckedColumns(schema.columns, LastComponent(name)), parentModule, parentText)
    {
      var checked := GetCheckedColumns(schema);
      EmitColumnLines(buffer, checked, parentModule, parentText);
    }

    /** `add_content`: the base class's content, then the list of validated columns. */
    method AddContent(baseContent: seq<string>, schema: Schema)
      modifies buffer
      ensures buffer.lines == old(buffer.lines) + baseContent
                + ColumnsSection(CheckedColumns(schema.columns, LastComponent(name)), parentModule, parentText)
    {
      buffer.AddLines(baseContent);
      AddColumnsList(schema);
    }
  }
}
