# sphinx-pandera, modelled in Dafny

sphinx-pandera is a Sphinx extension that documents pandera `DataFrameModel`
classes. Its autodoc *documenters* decide which class members are pandera
fields, checks or `Config` blocks. They then write extra reStructuredText lines
for them: a field's title, description, constraints and the checks that
validate it, and for a check the columns it validates. Its Python-domain
*directives* choose a configurable signature prefix and edit the signature
node that Sphinx built. This can drop a module prefix, append a title
annotation, or strip parameter lists and return annotations.

The model keeps the plugin's own logic. Sphinx, docutils and pandera supply
the rest, and their results enter the model as inputs:

- a pandera field is a record `Field(title, description, nullable, unique, coerce)`;
- a check is `Check(name, error)`, a column is `Column(name, checks)`, and a schema is its columns in dictionary order;
- a docutils node is `Node(tagname, text)`;
- the base classes' `can_document_member` and `handle_signature` results are given values;
- the output buffer that `add_line` appends to is a `ResultBuffer` holding a `seq<string>`.

Python exceptions are modelled as values (`Outcome`, `Status`). These are the
`TypeError` a class test can raise, the `AttributeError` of a missing
attribute, the `KeyError` of a missing model attribute or column and the `IndexError` of an empty
path or a short signature. Each member says which exception it raises or
swallows, matching the source.

Files:

- `host.dfy` (module `Host`): shared host values, the output buffer and Python truthiness.
- `inspection.dfy` (`Inspection`): the `ModelInspector` predicates.
- `documenters.dfy` (`Documenters`): the package's documenters. This covers the
  line emitters and the functions that specify them, check-to-column matching,
  the `Config` member whitelist and the `can_document_member` rules.
- `directives.dfy` (`Directives`): the package's directives. This covers signature
  prefixes and the in-place signature-node edits.
- `legacy.dfy` (`Legacy`): the older single-file copy
  `sphinx_contrib/sphinx_pandera/sphinx_pandera.py`. This covers the object-type
  registry update, the check directive's typehint save/restore and that version's
  field and check signature edits.

Several parts of the older copy are line for line the same as the package.
These are the emitters `add_title`, `add_description`, `add_constraints` and
`add_checks` (lines 338-402), `get_checked_columns` and `add_columns_list`
(444-488), the field and check `can_document_member` (284-301, 421-442),
`get_signature_prefix` (106-113), and the model documenter's
`can_document_member` (228-246, apart from its extra `to_schema()` call). They
are modelled once, by the members of `Documenters` and `Directives` cited below.

Where the two versions differ, `Legacy` models the older one:

- the older check directive keeps `desc_returns` nodes. `LegacyCheckKeepsReturns` relates it to the package version;
- the older field directive never pops a child. `FieldSignatureVersionsAgree` relates it to the package version;
- the older field documenter does not set `no_value`.

## Model

| member | source | states |
|---|---|---|
| Inspection.IsPanderaModel | sphinxcontrib/sphinx_pandera/inspection.py:20-27 | true exactly when `isinstance(obj, MetaModel)` holds; a `TypeError` reads as false and is never propagated |
| Inspection.IsPanderaSchema | sphinxcontrib/sphinx_pandera/inspection.py:29-36 | true exactly when `isinstance(obj, BaseSchema)` holds; a `TypeError` reads as false |
| Inspection.IsPanderaModelConfig | sphinxcontrib/sphinx_pandera/inspection.py:38-44 | false without a parent; otherwise true iff the parent really has a `__dict__` holding `Config` and the object is really named `Config`, since the missing-attribute defaults never qualify |
| Inspection.IsPanderaField | sphinxcontrib/sphinx_pandera/inspection.py:46-54 | false for a non-model; otherwise true iff the name is a key of the model attributes |
| Inspection.IsCheckerByName | sphinxcontrib/sphinx_pandera/inspection.py:56-72 | false for a non-model; otherwise true iff the name is a model attribute that is a classmethod |
| Inspection.CheckerIsField | sphinxcontrib/sphinx_pandera/inspection.py:46-72 | every checker name is also a field name of the same model |
| Inspection.FieldNotChecker | sphinxcontrib/sphinx_pandera/inspection.py:46-72 | fields and checkers differ exactly on the model attributes that are not classmethods |
| Documenters.ModelCanDocument | sphinxcontrib/sphinx_pandera/documenters.py:42-54 | accepts iff the base accepts and the member subclasses `DataFrameModel`; a `TypeError` from either reads as false, and only another exception from the base propagates |
| Documenters.ConfigCanDocument | sphinxcontrib/sphinx_pandera/documenters.py:83-98 | accepts iff the base accepts, the parent's `__dict__` holds `Config` and the member is named `Config`; a base `TypeError` reads as false; a parent without `__dict__` raises `AttributeError` |
| Documenters.FieldCanDocument | sphinxcontrib/sphinx_pandera/documenters.py:157-174 | a base exception propagates, since that call is outside the `try`; a non-model parent, or one on which `issubclass` raises, is refused; otherwise accepts iff the base accepts and the name is a model attribute |
| Documenters.CheckCanDocument | sphinxcontrib/sphinx_pandera/documenters.py:295-316 | as for fields, and the attribute must also be a classmethod |
| Documenters.CheckDocumentableIsField | sphinxcontrib/sphinx_pandera/documenters.py:295-316 | a member the check documenter accepts is one the field documenter accepts |
| Documenters.DocumentersAgreeWithInspector | sphinxcontrib/sphinx_pandera/documenters.py:157-174 | when the base accepts and the class tests agree, the field and check documenters decide exactly as `is_pandera_field` and `is_checker_by_name` |
| Documenters.GetObjectMembers | sphinxcontrib/sphinx_pandera/documenters.py:100-114 | returns `False` with at most as many members as given, each keyed `strict`, `coerce` or `ordered` |
| Documenters.KeptConfigMembersSound | sphinxcontrib/sphinx_pandera/documenters.py:110-114 | the whitelist filter never grows the list and keeps only whitelisted members |
| Documenters.KeptConfigMembersAppend | sphinxcontrib/sphinx_pandera/documenters.py:110-114 | the filter keeps the original order: filtering a concatenation concatenates the filtered parts |
| Documenters.KeptConfigMember | sphinxcontrib/sphinx_pandera/documenters.py:110-114 | a single member is kept exactly when its key is in the whitelist `strict`, `coerce`, `ordered` |
| Documenters.FormatSignature | sphinxcontrib/sphinx_pandera/documenters.py:62-66 | model and config signatures hide the class arguments: the signature is empty |
| Documenters.ModelDocumenter.DocumentMembers | sphinxcontrib/sphinx_pandera/documenters.py:56-60 | sets `members` and `undoc-members` to `ALL` whatever the user gave; other options unchanged |
| Documenters.PanderaFieldName | sphinxcontrib/sphinx_pandera/documenters.py:176-182 | the last element of the object path; `IndexError` exactly when the path is empty |
| Documenters.TitleLines | sphinxcontrib/sphinx_pandera/documenters.py:212-218 | at most one line `   :title: <title>`, present exactly when the title is non-empty |
| Documenters.PanderaField | sphinxcontrib/sphinx_pandera/documenters.py:192-198 | the model attribute named by the last path element; `IndexError` exactly for an empty path, `KeyError` exactly for a name the model lacks |
| Documenters.FoundFieldChecks | sphinxcontrib/sphinx_pandera/documenters.py:258-262 | once the field is found, the column lookup on a fetched schema can fail only with `KeyError`, exactly when no column has the field's name |
| Documenters.FieldDocumenter.AddTitle | sphinxcontrib/sphinx_pandera/documenters.py:212-218 | a failed field lookup raises its exception and appends nothing; otherwise appends exactly the title lines after the earlier output |
| Documenters.DescriptionLines | sphinxcontrib/sphinx_pandera/documenters.py:220-232 | nothing for a missing or empty description; otherwise the prepared lines and exactly one blank line |
| Documenters.FieldDocumenter.AddDescription | sphinxcontrib/sphinx_pandera/documenters.py:220-232 | a failed field lookup raises and appends nothing; otherwise the loop appends the prepared lines in order, then one blank line, after the earlier output |
| Documenters.ConstraintLinesShape | sphinxcontrib/sphinx_pandera/documenters.py:234-248 | the constraints section is exactly four lines: `:Constraints:`, then nullable, unique and coerce rendered `True`/`False`, in that order |
| Documenters.FieldDocumenter.AddConstraints | sphinxcontrib/sphinx_pandera/documenters.py:234-248 | a failed field lookup raises before the header and appends nothing; otherwise the loop appends exactly the constraints section after the earlier output |
| Documenters.CheckLineCases | sphinxcontrib/sphinx_pandera/documenters.py:250-276 | a check with a non-empty error shows `   - **<error>**`; any other check links to `<module>.<parent>.<name>` |
| Documenters.ChecksSectionShape | sphinxcontrib/sphinx_pandera/documenters.py:258-276 | nothing for a column without checks; otherwise `:Validated by:` and one line per check in check order, n+1 lines |
| Documenters.LookupColumn | sphinxcontrib/sphinx_pandera/documenters.py:262 | finds the first column with that name, and finds nothing exactly when no column has it |
| Documenters.ChecksOf | sphinxcontrib/sphinx_pandera/documenters.py:262 | the checks of the field's own column; raises `AttributeError` before the schema is set, `IndexError` for an empty path and `KeyError` when no column has the field's name |
| Documenters.FieldDocumenter.AddChecks | sphinxcontrib/sphinx_pandera/documenters.py:258-276 | a failed lookup raises and appends nothing; otherwise appends exactly the checks section of the field's column |
| Documenters.EmitCheckLines | sphinxcontrib/sphinx_pandera/documenters.py:264-276 | no checks append nothing; otherwise the header and then one line per check, in order |
| Documenters.EmitColumnLines | sphinxcontrib/sphinx_pandera/documenters.py:353-362 | no columns append nothing; otherwise the header, one reference per column in order, then a blank line |
| Documenters.EmitLines | sphinxcontrib/sphinx_pandera/documenters.py:269-276 | the shared loop appends exactly the rendered line of each item, in order, after the earlier output |
| Documenters.FieldDocumenter.AddDirectiveHeader | sphinxcontrib/sphinx_pandera/documenters.py:184-190 | sets the `no_value` attribute of the options object (its keys unchanged) before the base header, so the base lines are rendered with it set; then the title lines, or the field lookup's exception |
| Documenters.FieldDocumenter.AddContent | sphinxcontrib/sphinx_pandera/documenters.py:200-210 | base content, then description, constraints and checks from the given schema; a failed field lookup stops it right after the base content, and a failed column lookup after the constraints |
| Documenters.LastComponentSuffix | sphinxcontrib/sphinx_pandera/documenters.py:324 | `rsplit(".", 1)[-1]` is a dot-free suffix of the name, preceded by a `.` when shorter; the whole name exactly when it has no `.` |
| Documenters.MatchCountPositive | sphinxcontrib/sphinx_pandera/documenters.py:322-325 | a column's match count is positive iff one of its checks has the target name |
| Documenters.CheckedColumnsAppend | sphinxcontrib/sphinx_pandera/documenters.py:321-325 | matching keeps schema order: it distributes over concatenation of the column list |
| Documenters.CheckedColumnsSingle | sphinxcontrib/sphinx_pandera/documenters.py:322-325 | a column appears once per check of it with the target name, so it can repeat |
| Documenters.CheckedColumnsMembers | sphinxcontrib/sphinx_pandera/documenters.py:318-327 | a column is listed iff it belongs to the schema and has a check with the target name |
| Documenters.CheckedColumnsEmpty | sphinxcontrib/sphinx_pandera/documenters.py:318-327 | the list is empty iff no check of any column has the target name |
| Documenters.CollectCheckedColumns | sphinxcontrib/sphinx_pandera/documenters.py:320-327 | the nested loop returns exactly the reference list of matched columns |
| Documenters.CheckDocumenter.GetCheckedColumns | sphinxcontrib/sphinx_pandera/documenters.py:318-327 | returns the matched columns for the text after the last `.` of the documenter's name |
| Documenters.ColumnsSectionShape | sphinxcontrib/sphinx_pandera/documenters.py:345-362 | nothing when no column matched; otherwise `:Validates:`, one link per matched column in order, and one blank line, n+2 lines |
| Documenters.CheckDocumenter.AddColumnsList | sphinxcontrib/sphinx_pandera/documenters.py:345-362 | appends exactly the columns section of the matched columns; earlier output untouched |
| Documenters.CheckDocumenter.AddContent | sphinxcontrib/sphinx_pandera/documenters.py:334-343 | base content, then the columns section |
| Directives.SignaturePrefix | sphinxcontrib/sphinx_pandera/directives.py:29-36 | always two nodes, a text node then a space node; the text is the configured value when non-empty and the default otherwise; `AttributeError` iff neither exists |
| Directives.UnconfiguredPrefixes | sphinxcontrib/sphinx_pandera/directives.py:42-105 | with every prefix value empty or unregistered, the class defaults apply: model and model config `class`, field `attribute`, check `classmethod`; the schema directive has no default and raises |
| Directives.ConfigKeysDistinct | sphinxcontrib/sphinx_pandera/directives.py:31 | each directive reads its own `sphinx_pandera_<name>_signature_prefix` value |
| Directives.PanderaSchema.HandleSignature | sphinxcontrib/sphinx_pandera/directives.py:45-51 | sets the `value` option to `False` before the base renders, whatever the user gave, and returns the base's pair unchanged |
| Directives.FieldSignature | sphinxcontrib/sphinx_pandera/directives.py:92-97 | drops the second child iff its text holds a `.`, keeps the rest in order, and appends one `, <title>` annotation iff a title option is given, even an empty one; `IndexError` iff fewer than two children |
| Directives.PanderaField.HandleSignature | sphinxcontrib/sphinx_pandera/directives.py:88-99 | leaves the signature node as `FieldSignature` of the base's children and returns the base's pair |
| Directives.DescSignature.Pop | sphinxcontrib/sphinx_pandera/directives.py:94 | removes exactly the child at the index |
| Directives.DescSignature.Remove | sphinxcontrib/sphinx_pandera/directives.py:122 | removes the first child equal to the given node |
| Directives.DropTaggedStep | sphinxcontrib/sphinx_pandera/directives.py:117-122 | removing the next collected node by value takes out exactly that node, which is still present |
| Directives.DropAllTagged | sphinxcontrib/sphinx_pandera/directives.py:117-122 | once every collected node is removed, exactly the other children remain |
| Directives.RemoveTagged | sphinxcontrib/sphinx_pandera/directives.py:117-122 | the collect-then-remove loop leaves exactly the children whose tag is not removed |
| Directives.UntaggedMembers | sphinxcontrib/sphinx_pandera/directives.py:117-122 | a node survives iff it was a child and its tag is not removed |
| Directives.UntaggedAppend | sphinxcontrib/sphinx_pandera/directives.py:117-122 | survivors keep their original order |
| Directives.UntaggedTwice | sphinxcontrib/sphinx_pandera/directives.py:120 | removing two tag sets in turn removes their union |
| Directives.PanderaCheck.HandleSignature | sphinxcontrib/sphinx_pandera/directives.py:111-123 | removes every `desc_parameterlist` and `desc_returns` child, keeps the others in order, and returns the base's pair |
| Legacy.AddDomainObjectTypes | sphinx_contrib/sphinx_pandera/sphinx_pandera.py:72-89 | the `py` table (created when absent) becomes the registration of the mapping over the old table; other domains are unchanged |
| Legacy.RegisteredPanderaTypes | sphinx_contrib/sphinx_pandera/sphinx_pandera.py:80-89 | the registration adds `[pandera]_field` with roles (obj, any) and `[pandera]_model` with roles (obj, any, class) |
| Legacy.RegisterAllKeepsOtherKeys | sphinx_contrib/sphinx_pandera/sphinx_pandera.py:87-89 | a key that is no `[pandera]_<type>` of the mapping keeps its entry, or stays absent |
| Legacy.RegisterGroupKeepsOtherKeys | sphinx_contrib/sphinx_pandera/sphinx_pandera.py:88-89 | the inner loop touches only the keys of its own types |
| Legacy.AddDomainObjectTypesEffect | sphinx_contrib/sphinx_pandera/sphinx_pandera.py:72-89 | afterwards `py` exists and maps both pandera types to their roles; every other key is unchanged |
| Legacy.LegacyCheckKeepsReturns | sphinx_contrib/sphinx_pandera/sphinx_pandera.py:184-189 | this version keeps `desc_returns` children; removing them afterwards gives the package version's result |
| Legacy.LegacyPanderaCheck.HandleSignature | sphinx_contrib/sphinx_pandera/sphinx_pandera.py:178-190 | removes only `desc_parameterlist` children, keeps the others in order, and returns the base's pair |
| Legacy.LegacyFieldSignature | sphinx_contrib/sphinx_pandera/sphinx_pandera.py:156-158 | keeps every child and appends one title annotation iff the option is given |
| Legacy.FieldSignatureVersionsAgree | sphinx_contrib/sphinx_pandera/sphinx_pandera.py:152-160 | where the second child has no `.`, the package's field signature equals this version's |
| Legacy.LegacyPanderaField.HandleSignature | sphinx_contrib/sphinx_pandera/sphinx_pandera.py:152-160 | leaves the node as `LegacyFieldSignature` of the base's children and returns the base's pair |
| Legacy.LegacyPanderaCheck.BeforeContent | sphinx_contrib/sphinx_pandera/sphinx_pandera.py:192-196 | saves `autodoc_typehints` and sets it to `None` |
| Legacy.LegacyPanderaCheck.AfterContent | sphinx_contrib/sphinx_pandera/sphinx_pandera.py:198-201 | restores the saved `autodoc_typehints` |
| Legacy.LegacyPanderaCheck.RenderContent | sphinx_contrib/sphinx_pandera/sphinx_pandera.py:192-201 | the before/after pair leaves `autodoc_typehints` as it found it |
| Legacy.AddDirectiveHeader | sphinx_contrib/sphinx_pandera/sphinx_pandera.py:311-316 | base header lines from the options as they are (no `no_value` set), then the title lines, or the field lookup's exception |

## Left out

- Sphinx and autodoc internals are not modelled: the base classes' `can_document_member`, `add_content`, `add_directive_header`, `handle_signature`, `before_content` and `after_content`. Their results are inputs: a verdict, content lines, or the nodes and `(fullname, prefix)` pair.
- `add_line` indentation and source names are not modelled. The buffer holds the lines as the plugin formats them.
- The options object's own attribute lookup is not modelled: the base header receives both the option entries and the `no_value` attribute (`None` while unset), and how it combines them is the base's concern.
- `prepare_docstring` is not modelled. `AddDescription` takes its output lines as an input.
- `inspect.getmodule` and `str(parent)` are not modelled. They enter as a module name (a function of the check name for check links) and the parent's text. A failing `getattr(parent, check.name)` in `get_check_func_ref` is not modelled.
- pandera's object model is not modelled: `to_schema()`, `_get_model_attrs()` and the class tests. The schema is an input, attributes are a map, and `isinstance`/`issubclass` are given outcomes. `FieldDocumenter.modelAttrs` holds only the field-valued model attributes, so `pandera_field` on a classmethod attribute (a check, whose `.title` would raise `AttributeError`) is not modelled.
- The import-caching `to_schema()` call in `import_object` (sphinxcontrib/sphinx_pandera/documenters.py:32-40) is not modelled. It has only a side effect. The same holds for the extra `to_schema()` call in the older model documenter's `can_document_member`, so an exception raised by that call is not modelled either.
- `get_field_name` is not modelled. It is a regular expression owned by Sphinx.
- Node rendering and `desc_annotation` internals are not modelled. A node is its tag name and its text.
- Plugin registration is not modelled: `setup`, `add_configuration_values` and the `parallel_*_safe` flags. Registered defaults only matter through `SignaturePrefix`'s `config` input.
- `PanderaModelConfigDocumenter.add_content` is not modelled. It only delegates to the base class.
- The unused `typehints_config_save` of the package's `PanderaCheck` appears only as a field that its constructor sets to `None`.
- Node identity is not modelled. `children.remove` is modelled by value. This is harmless because every node with a removed tag is removed, so the result is the same.
