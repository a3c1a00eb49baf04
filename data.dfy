// The symbol records shared by the parser and the Markdown renderer.
//
// ArgumentInfo is never changed after it is built, so it is a value.
// FunctionInfo, ClassInfo and ModuleInfo are objects: the renderer writes a
// placeholder into their `docstring` field in place, so that field is a `var`;
// every other field is only ever set by the constructor and is a `const`.
module Data {

  datatype Option<+T> = None | Some(value: T)

  /** One parameter of a function: `type_hint` defaults to "Any" and
      `default_value` to None, as the record's own field defaults say. */
  datatype ArgumentInfo = ArgumentInfo(
    name: string,
    typeHint: Option<string> := Some("Any"),
    defaultValue: Option<string> := None)

  /** The default field values of ArgumentInfo. */
  lemma ArgumentInfoDefaults(name: string)
    ensures ArgumentInfo(name).name == name
    ensures ArgumentInfo(name).typeHint == Some("Any")
    ensures ArgumentInfo(name).defaultValue == None
  {
  }

  /** A parameter name marked as variadic: "*args" or "**kwargs". */
  predicate Starred(name: string) { |name| > 0 && name[0] == '*' }

  class FunctionInfo {
    const name: string
    const args: seq<ArgumentInfo>
    const returnType: Option<string>
    var docstring: Option<string>
    const decorators: seq<string>
    const isAsync: bool
    const className: Option<string>

    /** `is_async` defaults to false and `class_name` to None. */
    constructor (name: string, args: seq<ArgumentInfo>, returnType: Option<string>,
                 docstring: Option<string>, decorators: seq<string>,
                 isAsync: bool := false, className: Option<string> := None)
      ensures this.name == name && this.args == args && this.returnType == returnType
      ensures this.docstring == docstring && this.decorators == decorators
      ensures this.isAsync == isAsync && this.className == className
    {
      this.name := name;
      this.args := args;
      this.returnType := returnType;
      this.docstring := docstring;
      this.decorators := decorators;
      this.isAsync := isAsync;
      this.className := className;
    }
  }

  /** A class record: no field has a default. */
  class ClassInfo {
    const name: string
    const bases: seq<string>
    const methods: seq<FunctionInfo>
    var docstring: Option<string>
    const decorators: seq<string>

    constructor (name: string, bases: seq<string>, methods: seq<FunctionInfo>,
                 docstring: Option<string>, decorators: seq<string>)
      ensures this.name == name && this.bases == bases && this.methods == methods
      ensures this.docstring == docstring && this.decorators == decorators
    {
      this.name := name;
      this.bases := bases;
      this.methods := methods;
      this.docstring := docstring;
      this.decorators := decorators;
    }
  }

  /** A module record: `docstring` defaults to None. */
  class ModuleInfo {
    const name: string
    const classes: seq<ClassInfo>
    const functions: seq<FunctionInfo>
    var docstring: Option<string>

    constructor (name: string, classes: seq<ClassInfo>, functions: seq<FunctionInfo>,
                 docstring: Option<string> := None)
      ensures this.name == name && this.classes == classes
      ensures this.functions == functions && this.docstring == docstring
    {
      this.name := name;
      this.classes := classes;
      this.functions := functions;
      this.docstring := docstring;
    }
  }
}
