/** The Python-domain directives of the package (`directives.py`): the
    configurable signature prefix, and the edits the schema, field and check
    directives make to the signature node the base directive built. */
module Directives {
  import opened Host

  datatype DirectiveKind = SchemaDirective | ModelDirective | ModelConfigDirective | FieldDirective | CheckDirective

  /** `config_name` of each directive class */
  function ConfigName(k: DirectiveKind): string {
    match k
    case SchemaDirective => "schema"
    case ModelDirective => "model"
    case ModelConfigDirective => "model_config"
    case FieldDirective => "field"
    case CheckDirective => "check"
  }

  /** `default_prefix` of each directive class; `PanderaSchema` has none (its
      assignment is commented out), so reading it raises `AttributeError`. */
  function DefaultPrefix(k: DirectiveKind): Option<string> {
    match k
    case SchemaDirective => None
    case ModelDirective => Some("class")
    case ModelConfigDirective => Some("class")
    case FieldDirective => Some("attribute")
    case CheckDirective => Some("classmethod")
  }

  /** The name of the Sphinx configuration value a directive reads its prefix from. */
  function ConfigKey(k: DirectiveKind): string {
    "sphinx_pandera_" + ConfigName(k) + "_signature_prefix"
  }

  /** The Sphinx configuration, as far as `getattr(self.env.config, name, None)`
      sees it: a missing name reads as `None`. */
  type Config = map<string, Option<string>>

  /** Whether the configuration holds a truthy value under `key`. */
  predicate Configured(config: Config, key: string) {
    key in config && Truthy(config[key])
  }

  const SigSpace := Node("desc_sig_space", " ")

  function TextNode(s: string): Node {
    Node("#text", s)
  }

  /** `get_signature_prefix`: the configured prefix when it is non-empty, else
      the directive's default, as a text node followed by a space node. */
  function SignaturePrefix(k: DirectiveKind, config: Config): (r: Outcome<seq<Node>>)
    ensures r.Raises? <==> !Configured(config, ConfigKey(k)) && DefaultPrefix(k).None?
    ensures r.Raises? ==> r.exc == AttributeError
    ensures r.Returns? ==> |r.value| == 2 && r.value[0].tagname == "#text" && r.value[1] == SigSpace
    ensures r.Returns? && Configured(config, ConfigKey(k)) ==> r.value[0].text == config[ConfigKey(k)].value
    ensures r.Returns? && !Configured(config, ConfigKey(k)) ==> r.value[0].text == DefaultPrefix(k).value
  {
    var prefix := if ConfigKey(k) in config then config[ConfigKey(k)] else None;
    if Truthy(prefix) then Returns([TextNode(prefix.value), SigSpace])
    else
      match DefaultPrefix(k)
      case None => Raises(AttributeError)
      case Some(d) => Returns([TextNode(d), SigSpace])
  }

  /** With every prefix value empty or unregistered, each directive falls back
      to its class default; the schema directive, which has none, raises. (The
      plugin registers non-empty values for all but the model-config prefix, so
      with the plugin loaded this fallback is reached by that directive, or by a
      value the user set to empty.) */
  lemma UnconfiguredPrefixes(config: Config)
    requires forall k :: !Configured(config, ConfigKey(k))
    ensures SignaturePrefix(ModelDirective, config) == Returns([TextNode("class"), SigSpace])
    ensures SignaturePrefix(ModelConfigDirective, config) == Returns([TextNode("class"), SigSpace])
    ensures SignaturePrefix(FieldDirective, config) == Returns([TextNode("attribute"), SigSpace])
    ensures SignaturePrefix(CheckDirective, config) == Returns([TextNode("classmethod"), SigSpace])
    ensures SignaturePrefix(SchemaDirective, config) == Raises(AttributeError)
  {
    assert !Configured(config, ConfigKey(ModelDirective));
    assert !Configured(config, ConfigKey(ModelConfigDirective));
    assert !Configured(config, ConfigKey(FieldDirective));
    assert !Configured(config, ConfigKey(CheckDirective));
    assert !Configured(config, ConfigKey(SchemaDirective));
  }

  /** Each directive reads a configuration value of its own. */
  lemma ConfigKeysDistinct(a: DirectiveKind, b: DirectiveKind)
    ensures ConfigKey(a) == ConfigKey(b) ==> a == b
  {
    if ConfigKey(a) == ConfigKey(b) {
      var n := |ConfigName(a)|;
      assert |ConfigName(b)| == n;
      assert ConfigName(a) == ConfigKey(a)[15..15 + n];
      assert ConfigName(b) == ConfigKey(b)[15..15 + n];
      assert ConfigName(a)[0] == ConfigName(b)[0];
      assert ConfigName(a)[1] == ConfigName(b)[1];
    }
  }

  // ---------------------------------------------------------------------------
  // Signature nodes
  // ---------------------------------------------------------------------------

  /** `list.remove(x)`: drops the first child equal to `x`. */
  function RemoveFirst(s: seq<Node>, x: Node): seq<Node>
    requires x in s
  {
    if s[0] == x then s[1..] else [s[0]] + RemoveFirst(s[1..], x)
  }

  /** The children whose tag is one of `tags`, in order. */
  function Tagged(s: seq<Node>, tags: set<string>): seq<Node> {
    if s == [] then []
    else (if s[0].tagname in tags then [s[0]] else []) + Tagged(s[1..], tags)
  }

  /** The children whose tag is none of `tags`, in order. */
  function Untagged(s: seq<Node>, tags: set<string>): seq<Node> {
    if s == [] then []
    else (if s[0].tagname in tags then [] else [s[0]]) + Untagged(s[1..], tags)
  }

  /** `s` with its first `k` children tagged from `tags` taken out. */
  function DropTagged(s: seq<Node>, tags: set<string>, k: nat): seq<Node> {
    if k == 0 || s == [] then s
    else if s[0].tagname in tags then DropTagged(s[1..], tags, k - 1)
    else [s[0]] + DropTagged(s[1..], tags, k)
  }

  /** Removing, by value, the next doomed child takes out exactly that child:
      every child before it is kept and differs from it in tag or in position. */
  lemma {:induction false} DropTaggedStep(s: seq<Node>, tags: set<string>, k: nat)
    requires k < |Tagged(s, tags)|
    ensures Tagged(s, tags)[k] in DropTagged(s, tags, k)
    ensures RemoveFirst(DropTagged(s, tags, k), Tagged(s, tags)[k]) == DropTagged(s, tags, k + 1)
  {
    var x := Tagged(s, tags)[k];
    if s[0].tagname in tags {
      if k == 0 {
        assert x == s[0];
      } else {
        assert Tagged(s[1..], tags)[k - 1] == x;
        DropTaggedStep(s[1..], tags, k - 1);
      }
    } else {
      assert Tagged(s, tags) == Tagged(s[1..], tags);
      TaggedHaveTag(s[1..], tags, k);
      DropTaggedStep(s[1..], tags, k);
      assert s[0] != x;
      if k == 0 {
        assert DropTagged(s, tags, 0) == s;
        assert s == [s[0]] + s[1..];
      }
    }
  }

  lemma {:induction false} TaggedHaveTag(s: seq<Node>, tags: set<string>, k: nat)
    requires k < |Tagged(s, tags)|
    ensures Tagged(s, tags)[k].tagname in tags
  {
    if s[0].tagname in tags {
      if k > 0 { TaggedHaveTag(s[1..], tags, k - 1); }
    } else {
      TaggedHaveTag(s[1..], tags, k);
    }
  }

  /** Taking out every tagged child leaves exactly the untagged ones. */
  lemma {:induction false} DropAllTagged(s: seq<Node>, tags: set<string>)
    ensures DropTagged(s, tags, |Tagged(s, tags)|) == Untagged(s, tags)
  {
    if s != [] {
      DropAllTagged(s[1..], tags);
      if s[0].tagname !in tags && |Tagged(s, tags)| == 0 {
        assert DropTagged(s[1..], tags, 0) == s[1..];
        assert s == [s[0]] + s[1..];
      }
    }
  }

  /** A node survives exactly when it was a child and its tag is not removed. */
  lemma {:induction false} UntaggedMembers(s: seq<Node>, tags: set<string>, n: Node)
    ensures n in Untagged(s, tags) <==> n in s && n.tagname !in tags
  {
    if s != [] {
      UntaggedMembers(s[1..], tags, n);
      assert s == [s[0]] + s[1..];
    }
  }

  /** The survivors keep their order: removal distributes over concatenation. */
  lemma {:induction false} UntaggedAppend(a: seq<Node>, b: seq<Node>, tags: set<string>)
    ensures Untagged(a + b, tags) == Untagged(a, tags) + Untagged(b, tags)
  {
    if a == [] {
      assert a + b == b;
    } else {
      var head := if a[0].tagname in tags then [] else [a[0]];
      assert (a + b)[0] == a[0];
      assert (a + b)[1..] == a[1..] + b;
      assert Untagged(a + b, tags) == head + Untagged(a[1..] + b, tags);
      UntaggedAppend(a[1..], b, tags);
      assert Untagged(a, tags) == head + Untagged(a[1..], tags);
    }
  }

  /** Removing two tag sets one after the other removes their union. */
  lemma {:induction false} UntaggedTwice(s: seq<Node>, first: set<string>, second: set<string>)
    ensures Untagged(Untagged(s, first), second) == Untagged(s, first + second)
  {
    if s != [] {
      var rest := Untagged(s[1..], first);
      UntaggedTwice(s[1..], first, second);
      if s[0].tagname in first {
        assert Untagged(s, first) == rest;
      } else {
        var once := [s[0]] + rest;
        assert Untagged(s, first) == once;
        assert once[0] == s[0] && once[1..] == rest;
        assert Untagged(once, second) == (if s[0].tagname in second then [] else [s[0]]) + Untagged(rest, second);
      }
    }
  }

  /** A `desc_signature` node: the children a directive edits in place. */
  class DescSignature {
    var children: seq<Node>

    constructor (children: seq<Node>)
      ensures this.children == children
    {
      this.children := children;
    }

    /** The base class's `handle_signature` appending the nodes it builds. */
    method Extend(nodes: seq<Node>)
      modifies this
      ensures children == old(children) + nodes
    {
      children := children + nodes;
    }

    /** `signode += node` */
    method Append(node: Node)
      modifies this
      ensures children == old(children) + [node]
    {
      children := children + [node];
    }

    /** `signode.pop(i)` */
    method Pop(i: nat)
      requires i < |children|
      modifies this
      ensures children == old(children[..i] + children[i + 1..])
    {
      children := children[..i] + children[i + 1..];
    }

    /** `signode.children.remove(x)` */
    method Remove(x: Node)
      requires x in children
      modifies this
      ensures children == RemoveFirst(old(children), x)
    {
      children := RemoveFirst(children, x);
    }
  }

  /** The loop shared by the check directives: collect the children tagged from
      `tags`, then remove each of them from the signature node by value. */
  method RemoveTagged(signode: DescSignature, tags: set<string>)
    modifies signode
    ensures signode.children == Untagged(old(signode.children), tags)
  {
    ghost var original := signode.children;
    var doomed := Tagged(signode.children, tags);
    for k := 0 to |doomed|
      invariant signode.children == DropTagged(original, tags, k)
    {
      DropTaggedStep(original, tags, k);
      signode.Remove(doomed[k]);
    }
    DropAllTagged(original, tags);
  }

  /** What the base directive's `handle_signature` produced: the nodes it
      appended and the `(fullname, prefix)` pair it returned. */
  datatype BaseSignature = BaseSignature(nodes: seq<Node>, fullname: string, prefix: string)

  /** The `, <title>` annotation the field directives append. */
  function TitleAnnotation(title: OptionValue): Node {
    Node("desc_annotation", ", " + RenderOption(title))
  }

  /** `self.options.get("title")` */
  function TitleOption(options: map<string, OptionValue>): Option<OptionValue> {
    if "title" in options then Some(options["title"]) else None
  }

  /** The children `PanderaField.handle_signature` leaves: the second child is
      dropped when its text holds a `.` (a module or variable prefix), and the
      title annotation is appended when the `title` option is given, even empty.
      Fewer than two children make `signode[1]` raise `IndexError`. */
  function FieldSignature(nodes: seq<Node>, title: Option<OptionValue>): (r: Outcome<seq<Node>>)
    ensures r.Raises? <==> |nodes| < 2
    ensures r.Raises? ==> r.exc == IndexError
    ensures r.Returns? ==> |r.value| == |nodes| - (if '.' in nodes[1].text then 1 else 0) + (if title.Some? then 1 else 0)
    ensures r.Returns? ==> r.value[0] == nodes[0]
    ensures r.Returns? && '.' in nodes[1].text ==> r.value[1..|nodes| - 1] == nodes[2..]
    ensures r.Returns? && '.' !in nodes[1].text ==> r.value[..|nodes|] == nodes
    ensures r.Returns? && title.Some? ==> r.value[|r.value| - 1] == TitleAnnotation(title.value)
  {
    if |nodes| < 2 then Raises(IndexError)
    else
      var kept := if '.' in nodes[1].text then nodes[..1] + nodes[2..] else nodes;
      Returns(if title.Some? then kept + [TitleAnnotation(title.value)] else kept)
  }

  const CheckRemovedTags: set<string> := {"desc_parameterlist", "desc_returns"}

  /** `PanderaSchema`: hides the variable's value before the base class renders it. */
  class PanderaSchema {
    var options: map<string, OptionValue>

    constructor (options: map<string, OptionValue>)
      ensures this.options == options
    {
      this.options := options;
    }

    /** `handle_signature`; `base` is the base class's rendering for given options. */
    method HandleSignature(signode: DescSignature, base: map<string, OptionValue> -> BaseSignature)
      returns (fullname: string, prefix: string)
      modifies this, signode
      ensures options == old(options)["value" := Flag(false)]
      ensures options["value"] == Flag(false)
      ensures signode.children == old(signode.children) + base(options).nodes
      ensures fullname == base(options).fullname && prefix == base(options).prefix
    {
      options := options["value" := Flag(false)];
      var built := base(options);
      signode.Extend(built.nodes);
      fullname, prefix := built.fullname, built.prefix;
    }
  }

  /** `PanderaField` */
  class PanderaField {
    var options: map<string, OptionValue>

    constructor (options: map<string, OptionValue>)
      ensures this.options == options
    {
      this.options := options;
    }

    method HandleSignature(signode: DescSignature, base: BaseSignature) returns (r: Outcome<(string, string)>)
      modifies signode
      ensures FieldSignature(old(signode.children) + base.nodes, TitleOption(options)).Raises? ==>
                r == Raises(IndexError) && signode.children == old(signode.children) + base.nodes
      ensures FieldSignature(old(signode.children) + base.nodes, TitleOption(options)).Returns? ==>
                r == Returns((base.fullname, base.prefix)) &&
                signode.children == FieldSignature(old(signode.children) + base.nodes, TitleOption(options)).value
    {
      signode.Extend(base.nodes);
      if |signode.children| < 2 {
        return Raises(IndexError);
      }
      ghost var built := signode.children;
      if '.' in signode.children[1].text {
        signode.Pop(1);
      }
      assert signode.children == if '.' in built[1].text then built[..1] + built[2..] else built;
      var title := TitleOption(options);
      if title.Some? {
        signode.Append(TitleAnnotation(title.value));
      }
      r := Returns((base.fullname, base.prefix));
    }
  }

  /** `PanderaCheck` */
  class PanderaCheck {
    /** `typehints_config_save`, set up but not used by this version */
    var typehintsSave: Option<string>

    constructor ()
      ensures typehintsSave == None
    {
      typehintsSave := None;
    }

    /** `handle_signature`: drops every parameter list and return annotation
        the base class rendered, keeping the other children in order. */
    method HandleSignature(signode: DescSignature, base: BaseSignature) returns (fullname: string, prefix: string)
      modifies signode
      ensures signode.children == Untagged(old(signode.children) + base.nodes, CheckRemovedTags)
      ensures fullname == base.fullname && prefix == base.prefix
    {
      signode.Extend(base.nodes);
      RemoveTagged(signode, CheckRemovedTags);
      fullname, prefix := base.fullname, base.prefix;
    }
  }
}
