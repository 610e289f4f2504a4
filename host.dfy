/** Values the plugin receives from its two hosts (Sphinx/docutils and pandera),
    reduced to what the plugin's own code inspects. */
module Host {

  datatype Option<+T> = None | Some(value: T) {
    /** `getattr(obj, name, default)`: the value when present, else the default */
    function GetOr(default: T): T {
      match this
      case Some(v) => v
      case None => default
    }
  }

  /** The Python exceptions that the plugin's code raises, catches or lets through. */
  datatype PyExc = TypeError | AttributeError | KeyError | IndexError

  /** The outcome of a Python call: the value it returned or the exception it raised. */
  datatype Outcome<+T> = Returns(value: T) | Raises(exc: PyExc)

  /** The outcome of a call that returns `None`. */
  datatype Status = Done | Raised(exc: PyExc)

  /** The outcome of an `isinstance`/`issubclass` test against a pandera class;
      such a test raises `TypeError` when its first argument is not a class. */
  datatype TypeTest = Holds | Fails | RaisesTypeError

  /** Python truthiness of an optional string: `None` and `""` are false. */
  predicate Truthy(s: Option<string>) {
    s.Some? && s.value != ""
  }

  /** `f"{b}"` for a Python bool */
  function PyBool(b: bool): string {
    if b then "True" else "False"
  }

  /** A value of a directive's or documenter's `options` dictionary. */
  datatype OptionValue = Str(s: string) | Flag(b: bool) | All

  /** `f"{v}"` for an option value (`ALL` renders as Sphinx's sentinel name) */
  function RenderOption(v: OptionValue): string {
    match v
    case Str(s) => s
    case Flag(b) => PyBool(b)
    case All => "ALL"
  }

  /** A docutils node, reduced to its tag name and its `astext()`. */
  datatype Node = Node(tagname: string, text: string)

  /** The output buffer (`self.directive.result`) that `add_line` appends to. */
  class ResultBuffer {
    var lines: seq<string>

    constructor ()
      ensures lines == []
    {
      lines := [];
    }

    /** `add_line(line, source)`; the indentation autodoc adds is not modelled */
    method AddLine(line: string)
      modifies this
      ensures lines == old(lines) + [line]
    {
      lines := lines + [line];
    }

    /** Several `add_line` calls in a row, as a base-class hook makes them. */
    method AddLines(more: seq<string>)
      modifies this
      ensures lines == old(lines) + more
    {
      lines := lines + more;
    }
  }
}
