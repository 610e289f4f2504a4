/** The older single-file version of the plugin (`sphinx_pandera.py`). Its
    documenters' emitters, `get_checked_columns` and `can_document_member`
    rules are those of the package and are modelled once, in `Documenters`;
    this module holds what the older version does differently or only it does:
    the object-type registry update, the check directive's typehint
    save/restore, and its own field and check signature edits. */
module Legacy {
  import opened Host
  import opened Directives
  import Documenters

  // ---------------------------------------------------------------------------
  // `add_domain_object_types`
  // ---------------------------------------------------------------------------

  /** A Sphinx `ObjType`: its local name and the roles that can refer to it. */
  datatype ObjType = ObjType(lname: string, roles: seq<string>)

  type ObjTypeTable = map<string, ObjType>

  /** `obj_types_mapping`: groups of object types, each with its roles. */
  const ObjTypesMapping: seq<(seq<string>, seq<string>)> := [
    (["field"], ["obj", "any"]),
    (["model"], ["obj", "any", "class"])
  ]

  function PanderaKey(objType: string): string {
    "[pandera]_" + objType
  }

  /** The table after the inner loop has registered `objTypes` with `roles`. */
  function RegisterGroup(table: ObjTypeTable, objTypes: seq<string>, roles: seq<string>): ObjTypeTable {
    if objTypes == [] then table
    else
      var t := objTypes[|objTypes| - 1];
      RegisterGroup(table, objTypes[..|objTypes| - 1], roles)[PanderaKey(t) := ObjType(t, roles)]
  }

  /** The table after the outer loop has registered every group of `mapping`. */
  function RegisterAll(table: ObjTypeTable, mapping: seq<(seq<string>, seq<string>)>): ObjTypeTable {
    if mapping == [] then table
    else
      var g := mapping[|mapping| - 1];
      RegisterGroup(RegisterAll(table, mapping[..|mapping| - 1]), g.0, g.1)
  }

  /** `registry.domain_object_types.setdefault("py", {})`, read side. */
  function PyTable(types: map<string, ObjTypeTable>): ObjTypeTable {
    if "py" in types then types["py"] else map[]
  }

  /** The registration adds the two pandera object types and nothing else. */
  lemma RegisteredPanderaTypes(table: ObjTypeTable)
    ensures RegisterAll(table, ObjTypesMapping) ==
      table[PanderaKey("field") := ObjType("field", ["obj", "any"])]
           [PanderaKey("model") := ObjType("model", ["obj", "any", "class"])]
  {
    var m := ObjTypesMapping;
    var fieldRoles, modelRoles := ["obj", "any"], ["obj", "any", "class"];
    assert ["field"][..0] == [] && ["model"][..0] == [];
    assert RegisterGroup(table, ["field"], fieldRoles) == table[PanderaKey("field") := ObjType("field", fieldRoles)];
    assert m[..1][..0] == [];
    assert RegisterAll(table, m[..1][..0]) == table;
    assert m[..1][0] == (["field"], fieldRoles);
    assert RegisterAll(table, m[..1]) == RegisterGroup(table, ["field"], fieldRoles);
    assert m[..|m| - 1] == m[..1];
    assert m[|m| - 1] == (["model"], modelRoles);
    var once := RegisterAll(table, m[..1]);
    assert RegisterAll(table, m) == RegisterGroup(once, ["model"], modelRoles);
    assert RegisterGroup(once, ["model"], modelRoles) == once[PanderaKey("model") := ObjType("model", modelRoles)];
  }

  /** A key that is no `[pandera]_<type>` of the mapping keeps its entry, or its absence. */
  lemma {:induction false} RegisterAllKeepsOtherKeys(table: ObjTypeTable, mapping: seq<(seq<string>, seq<string>)>, key: string)
    requires forall g, t :: 0 <= g < |mapping| && 0 <= t < |mapping[g].0| ==> key != PanderaKey(mapping[g].0[t])
    ensures key in RegisterAll(table, mapping) <==> key in table
    ensures key in table ==> RegisterAll(table, mapping)[key] == table[key]
  {
    if mapping != [] {
      var init := mapping[..|mapping| - 1];
      var g := mapping[|mapping| - 1];
      RegisterAllKeepsOtherKeys(table, init, key);
      RegisterGroupKeepsOtherKeys(RegisterAll(table, init), g.0, g.1, key);
    }
  }

  lemma {:induction false} RegisterGroupKeepsOtherKeys(table: ObjTypeTable, objTypes: seq<string>, roles: seq<string>, key: string)
    requires forall t :: 0 <= t < |objTypes| ==> key != PanderaKey(objTypes[t])
    ensures key in RegisterGroup(table, objTypes, roles) <==> key in table
    ensures key in table ==> RegisterGroup(table, objTypes, roles)[key] == table[key]
  {
    if objTypes != [] {
      RegisterGroupKeepsOtherKeys(table, objTypes[..|objTypes| - 1], roles, key);
    }
  }

  /** The application's registry of object types per domain. */
  class Registry {
    var domainObjectTypes: map<string, ObjTypeTable>

    constructor (domainObjectTypes: map<string, ObjTypeTable>)
      ensures this.domainObjectTypes == domainObjectTypes
    {
      this.domainObjectTypes := domainObjectTypes;
    }
  }

  /** `add_domain_object_types`: creates the `py` table when absent and writes
      each pandera object type into it; other domains are not touched. */
  method AddDomainObjectTypes(registry: Registry)
    modifies registry
    ensures registry.domainObjectTypes ==
      old(registry.domainObjectTypes)["py" := RegisterAll(PyTable(old(registry.domainObjectTypes)), ObjTypesMapping)]
  {
    var start := PyTable(registry.domainObjectTypes);
    // setdefault: the table is inserted and then shared with the registry
    registry.domainObjectTypes := registry.domainObjectTypes["py" := start];
    var objectTypes := start;
    var mapping := ObjTypesMapping;
    for g := 0 to |mapping|
      invariant objectTypes == RegisterAll(start, mapping[..g])
      invariant registry.domainObjectTypes == old(registry.domainObjectTypes)["py" := objectTypes]
    {
      var (objTypes, roles) := mapping[g];
      ghost var before := objectTypes;
      for t := 0 to |objTypes|
        invariant objectTypes == RegisterGroup(before, objTypes[..t], roles)
        invariant registry.domainObjectTypes == old(registry.domainObjectTypes)["py" := objectTypes]
      {
        objectTypes := objectTypes[PanderaKey(objTypes[t]) := ObjType(objTypes[t], roles)];
        registry.domainObjectTypes := registry.domainObjectTypes["py" := objectTypes];
        assert objTypes[..t + 1][..t] == objTypes[..t];
      }
      assert objTypes[..|objTypes|] == objTypes;
      assert mapping[..g + 1][..g] == mapping[..g];
    }
    assert mapping[..|mapping|] == mapping;
  }

  /** After the registration the `py` table maps the pandera field and model
      types to their roles, and every other key of every domain is unchanged. */
  lemma AddDomainObjectTypesEffect(types: map<string, ObjTypeTable>, key: string)
    ensures var after := types["py" := RegisterAll(PyTable(types), ObjTypesMapping)];
      "py" in after && PanderaKey("field") in after["py"] && PanderaKey("model") in after["py"] &&
      after["py"][PanderaKey("field")] == ObjType("field", ["obj", "any"]) &&
      after["py"][PanderaKey("model")] == ObjType("model", ["obj", "any", "class"]) &&
      (key != PanderaKey("field") && key != PanderaKey("model") ==>
        (key in after["py"] <==> key in PyTable(types)) &&
        (key in PyTable(types) ==> after["py"][key] == PyTable(types)[key]))
  {
    RegisteredPanderaTypes(PyTable(types));
    assert PanderaKey("field")[10] == 'f' && PanderaKey("model")[10] == 'm';
  }

  // ---------------------------------------------------------------------------
  // Directives
  // ---------------------------------------------------------------------------

  const LegacyCheckRemovedTags: set<string> := {"desc_parameterlist"}

  /** This version's check directive keeps the return annotation: removing it
      afterwards gives the package version's result. */
  lemma LegacyCheckKeepsReturns(nodes: seq<Node>)
    ensures Untagged(Untagged(nodes, LegacyCheckRemovedTags), {"desc_returns"}) == Untagged(nodes, CheckRemovedTags)
    ensures forall n :: n in nodes && n.tagname == "desc_returns" ==> n in Untagged(nodes, LegacyCheckRemovedTags)
  {
    UntaggedTwice(nodes, LegacyCheckRemovedTags, {"desc_returns"});
    assert LegacyCheckRemovedTags + {"desc_returns"} == CheckRemovedTags;
    forall n | n in nodes && n.tagname == "desc_returns"
      ensures n in Untagged(nodes, LegacyCheckRemovedTags)
    {
      UntaggedMembers(nodes, LegacyCheckRemovedTags, n);
    }
  }

  /** The children this version's `PanderaField.handle_signature` leaves: all
      of them, and the title annotation when the `title` option is given. */
  function LegacyFieldSignature(nodes: seq<Node>, title: Option<OptionValue>): (r: seq<Node>)
    ensures |r| == |nodes| + (if title.Some? then 1 else 0)
    ensures r[..|nodes|] == nodes
    ensures title.Some? ==> r[|nodes|] == TitleAnnotation(title.value)
  {
    if title.Some? then nodes + [TitleAnnotation(title.value)] else nodes
  }

  /** Where the second child carries no `.`, the package version edits the
      signature exactly as this one does. */
  lemma FieldSignatureVersionsAgree(nodes: seq<Node>, title: Option<OptionValue>)
    requires |nodes| >= 2 && '.' !in nodes[1].text
    ensures FieldSignature(nodes, title) == Returns(LegacyFieldSignature(nodes, title))
  {
  }

  /** `PanderaField` of this version */
  class LegacyPanderaField {
    var options: map<string, OptionValue>

    constructor (options: map<string, OptionValue>)
      ensures this.options == options
    {
      this.options := options;
    }

    method HandleSignature(signode: DescSignature, base: BaseSignature) returns (fullname: string, prefix: string)
      modifies signode
      ensures signode.children == LegacyFieldSignature(old(signode.children) + base.nodes, TitleOption(options))
      ensures fullname == base.fullname && prefix == base.prefix
    {
      signode.Extend(base.nodes);
      var title := TitleOption(options);
      if title.Some? {
        signode.Append(TitleAnnotation(title.value));
      }
      fullname, prefix := base.fullname, base.prefix;
    }
  }

  /** The part of the Sphinx configuration the check directive touches. */
  class SphinxConfig {
    /** `autodoc_typehints`; `None` when switched off */
    var autodocTypehints: Option<string>

    constructor (autodocTypehints: Option<string>)
      ensures this.autodocTypehints == autodocTypehints
    {
      this.autodocTypehints := autodocTypehints;
    }
  }

  /** `PanderaCheck` of this version */
  class LegacyPanderaCheck {
    var typehintsSave: Option<string>

    constructor ()
      ensures typehintsSave == None
    {
      typehintsSave := None;
    }

    /** `handle_signature`: drops only the parameter lists the base class rendered. */
    method HandleSignature(signode: DescSignature, base: BaseSignature) returns (fullname: string, prefix: string)
      modifies signode
      ensures signode.children == Untagged(old(signode.children) + base.nodes, LegacyCheckRemovedTags)
      ensures fullname == base.fullname && prefix == base.prefix
    {
      signode.Extend(base.nodes);
      RemoveTagged(signode, LegacyCheckRemovedTags);
      fullname, prefix := base.fullname, base.prefix;
    }

    /** `before_content`: saves `autodoc_typehints` and switches it off. */
    method BeforeContent(config: SphinxConfig)
      modifies this, config
      ensures typehintsSave == old(config.autodocTypehints)
      ensures config.autodocTypehints == None
    {
      typehintsSave := config.autodocTypehints;
      config.autodocTypehints := None;
    }

    /** `after_content`: puts the saved `autodoc_typehints` back. */
    method AfterContent(config: SphinxConfig)
      modifies config
      ensures config.autodocTypehints == typehintsSave
    {
      config.autodocTypehints := typehintsSave;
    }

    /** The directive's run around its content: while the content is rendered
        typehints are off, and afterwards the configuration is as it was. */
    method RenderContent(config: SphinxConfig, render: ResultBuffer, content: seq<string>)
      modifies this, config, render
      ensures config.autodocTypehints == old(config.autodocTypehints)
      ensures render.lines == old(render.lines) + content
    {
      BeforeContent(config);
      assert config.autodocTypehints == None;
      render.AddLines(content);
      AfterContent(config);
    }
  }

  /** This version's field documenter `add_directive_header`: the base class's
      header lines from the options as they are, then the title; neither the
      options nor their `no_value` attribute is touched. */
  method AddDirectiveHeader(doc: Documenters.FieldDocumenter,
                            base: (map<string, OptionValue>, Option<bool>) -> seq<string>)
    returns (r: Status)
    modifies doc.buffer
    ensures Documenters.PanderaField(doc.modelAttrs, doc.objpath).Raises? ==>
              r == Raised(Documenters.PanderaField(doc.modelAttrs, doc.objpath).exc) &&
              doc.buffer.lines == old(doc.buffer.lines) + base(doc.options, doc.noValue)
    ensures Documenters.PanderaField(doc.modelAttrs, doc.objpath).Returns? ==>
              r == Done &&
              doc.buffer.lines == old(doc.buffer.lines) + base(doc.options, doc.noValue)
                                  + Documenters.TitleLines(Documenters.PanderaField(doc.modelAttrs, doc.objpath).value)
  {
    doc.buffer.AddLines(base(doc.options, doc.noValue));
    r := doc.AddTitle();
  }
}
