// Extraction of one function's signature from its syntax-tree node: the
// parameters with their type hints and defaults, the return annotation and
// the decorators.
//
// The syntax tree comes from an external parser and expressions are turned
// back into source text by an external printer (`ast.unparse`). An expression
// is therefore an abstract type here, and the printer is a function value
// `unparse` about which nothing is known except that it is a function.
module CodeParser {
  import opened Data

  /** An expression node of the syntax tree. */
  type Expr

  /** A declared parameter: its name and its optional annotation. */
  datatype Arg = Arg(arg: string, annotation: Option<Expr>)

  /** The parameter lists of a declaration. `defaults` belong to a trailing run
      of `posonlyargs + args`; `kwDefaults` has one optional slot per
      keyword-only parameter. */
  datatype Arguments = Arguments(
    posonlyargs: seq<Arg>,
    args: seq<Arg>,
    vararg: Option<Arg>,
    kwonlyargs: seq<Arg>,
    kwDefaults: seq<Option<Expr>>,
    kwarg: Option<Arg>,
    defaults: seq<Expr>)

  datatype DefKind = FunctionDef | AsyncFunctionDef

  /** A `def` or `async def` node. `docstring` is what the external
      docstring reader returns for the node. */
  datatype FunctionNode = FunctionNode(
    kind: DefKind,
    name: string,
    args: Arguments,
    returnAnnotation: Option<Expr>,
    decoratorList: seq<Expr>,
    docstring: Option<string>)

  function Min(a: int, b: int): int { if a <= b then a else b }

  /** The positional parameters, positional-only ones first. */
  function Positional(a: Arguments): seq<Arg> { a.posonlyargs + a.args }

  /** The rendered annotation, or "Any" when there is none. */
  function TypeHint(unparse: Expr -> string, p: Arg): string
  {
    if p.annotation.Some? then unparse(p.annotation.value) else "Any"
  }

  /** The entry for positional parameter i: defaults are matched to the
      parameters from the right, through the offset P - D. */
  function PositionalInfo(unparse: Expr -> string, params: seq<Arg>, defaults: seq<Expr>, i: nat): ArgumentInfo
    requires i < |params|
  {
    var offset := |params| - |defaults|;
    ArgumentInfo(params[i].arg, Some(TypeHint(unparse, params[i])),
                 if i >= offset then Some(unparse(defaults[i - offset])) else None)
  }

  function PositionalInfos(unparse: Expr -> string, params: seq<Arg>, defaults: seq<Expr>): seq<ArgumentInfo>
  {
    seq(|params|, i requires 0 <= i < |params| => PositionalInfo(unparse, params, defaults, i))
  }

  /** The entry for keyword-only parameter k, paired with its own default slot. */
  function KeywordOnlyInfo(unparse: Expr -> string, kwonly: seq<Arg>, kwDefaults: seq<Option<Expr>>, k: nat): ArgumentInfo
    requires k < |kwonly| && k < |kwDefaults|
  {
    ArgumentInfo(kwonly[k].arg, Some(TypeHint(unparse, kwonly[k])),
                 if kwDefaults[k].Some? then Some(unparse(kwDefaults[k].value)) else None)
  }

  /** Keyword-only parameters zipped with their default slots; the zip stops at
      the shorter of the two lists. */
  function KeywordOnlyInfos(unparse: Expr -> string, kwonly: seq<Arg>, kwDefaults: seq<Option<Expr>>): seq<ArgumentInfo>
  {
    seq(Min(|kwonly|, |kwDefaults|), k requires 0 <= k < Min(|kwonly|, |kwDefaults|) =>
      KeywordOnlyInfo(unparse, kwonly, kwDefaults, k))
  }

  /** The entry for `*args` or `**kwargs`, if declared: the name is tagged with
      `marker` and there is never a default. */
  function VariadicInfo(unparse: Expr -> string, marker: string, p: Option<Arg>): seq<ArgumentInfo>
  {
    if p.Some? then [ArgumentInfo(marker + p.value.arg, Some(TypeHint(unparse, p.value)), None)] else []
  }

  /** The whole parameter list: positional, `*args`, keyword-only, `**kwargs`. */
  function ArgumentInfos(unparse: Expr -> string, a: Arguments): seq<ArgumentInfo>
  {
    PositionalInfos(unparse, Positional(a), a.defaults)
    + VariadicInfo(unparse, "*", a.vararg)
    + KeywordOnlyInfos(unparse, a.kwonlyargs, a.kwDefaults)
    + VariadicInfo(unparse, "**", a.kwarg)
  }

  /** Parses one `def` or `async def` node. */
  class FunctionParser {
    const node: FunctionNode
    const unparse: Expr -> string

    constructor (node: FunctionNode, unparse: Expr -> string)
      ensures this.node == node && this.unparse == unparse
    {
      this.node := node;
      this.unparse := unparse;
    }

    /** A new record holding the node's signature; `class_name` keeps its default. */
    method Parse() returns (info: FunctionInfo)
      ensures fresh(info)
      ensures info.name == node.name
      ensures info.args == ArgumentInfos(unparse, node.args)
      ensures info.returnType == ReturnType()
      ensures info.docstring == node.docstring
      ensures |info.decorators| == |node.decoratorList|
      ensures forall i :: 0 <= i < |node.decoratorList| ==> info.decorators[i] == "@" + unparse(node.decoratorList[i])
      ensures info.isAsync <==> node.kind == AsyncFunctionDef
      ensures info.className == None
    {
      var args := ParseArguments();
      var decorators := ParseDecorators();
      info := new FunctionInfo(node.name, args, ReturnType(), node.docstring, decorators,
                               node.kind == AsyncFunctionDef);
    }

    method ParseArguments() returns (argsInfo: seq<ArgumentInfo>)
      ensures argsInfo == ArgumentInfos(unparse, node.args)
    {
      var a := node.args;
      var params := a.posonlyargs + a.args;
      var defaults := a.defaults;
      var offset := |params| - |defaults|;
      argsInfo := [];
      for i := 0 to |params|
        invariant argsInfo == PositionalInfos(unparse, params, defaults)[..i]
      {
        var defaultValue := None;
        if i >= offset {
          defaultValue := Some(unparse(defaults[i - offset]));
        }
        argsInfo := argsInfo + [ArgumentInfo(params[i].arg, Some(TypeHint(unparse, params[i])), defaultValue)];
      }
      if a.vararg.Some? {
        var p := a.vararg.value;
        argsInfo := argsInfo + [ArgumentInfo("*" + p.arg, Some(TypeHint(unparse, p)), None)];
      }
      ghost var before := argsInfo;
      for k := 0 to Min(|a.kwonlyargs|, |a.kwDefaults|)
        invariant argsInfo == before + KeywordOnlyInfos(unparse, a.kwonlyargs, a.kwDefaults)[..k]
      {
        var p, defaultValue := a.kwonlyargs[k], a.kwDefaults[k];
        argsInfo := argsInfo + [ArgumentInfo(p.arg, Some(TypeHint(unparse, p)),
                                             if defaultValue.Some? then Some(unparse(defaultValue.value)) else None)];
      }
      if a.kwarg.Some? {
        var p := a.kwarg.value;
        argsInfo := argsInfo + [ArgumentInfo("**" + p.arg, Some(TypeHint(unparse, p)), None)];
      }
    }

    /** The rendered return annotation; absent exactly when there is none. */
    function ReturnType(): (r: Option<string>)
      ensures r.None? <==> node.returnAnnotation.None?
      ensures node.returnAnnotation.Some? ==> r == Some(unparse(node.returnAnnotation.value))
    {
      if node.returnAnnotation.Some? then Some(unparse(node.returnAnnotation.value)) else None
    }

    /** One "@"-prefixed entry per decorator, in declaration order. */
    method ParseDecorators() returns (decorators: seq<string>)
      ensures |decorators| == |node.decoratorList|
      ensures forall i :: 0 <= i < |decorators| ==> decorators[i] == "@" + unparse(node.decoratorList[i])
    {
      decorators := [];
      for i := 0 to |node.decoratorList|
        invariant |decorators| == i
        invariant forall j :: 0 <= j < i ==> decorators[j] == "@" + unparse(node.decoratorList[j])
      {
        decorators := decorators + ["@" + unparse(node.decoratorList[i])];
      }
    }
  }

  /** The number of entries that carry a default. */
  function CountDefaults(s: seq<ArgumentInfo>): nat
  {
    if s == [] then 0 else (if s[0].defaultValue.Some? then 1 else 0) + CountDefaults(s[1..])
  }

  lemma {:induction false} CountDefaultsAppend(s: seq<ArgumentInfo>, t: seq<ArgumentInfo>)
    ensures CountDefaults(s + t) == CountDefaults(s) + CountDefaults(t)
  {
    if s != [] {
      assert (s + t)[0] == s[0] && (s + t)[1..] == s[1..] + t;
      CountDefaultsAppend(s[1..], t);
    } else {
      assert s + t == t;
    }
  }

  lemma {:induction false} CountDefaultsNone(s: seq<ArgumentInfo>)
    requires forall i :: 0 <= i < |s| ==> s[i].defaultValue.None?
    ensures CountDefaults(s) == 0
  {
    if s != [] {
      CountDefaultsNone(s[1..]);
    }
  }

  lemma {:induction false} CountDefaultsAll(s: seq<ArgumentInfo>)
    requires forall i :: 0 <= i < |s| ==> s[i].defaultValue.Some?
    ensures CountDefaults(s) == |s|
  {
    if s != [] {
      CountDefaultsAll(s[1..]);
    }
  }

  /** Positional entry i has a default exactly when i >= P - D, and then it is
      default number i - (P - D); the index is always in range, even when
      there are more defaults than positional parameters. */
  lemma PositionalDefault(unparse: Expr -> string, a: Arguments, i: nat)
    requires i < |Positional(a)|
    ensures var r, p, d := ArgumentInfos(unparse, a), |Positional(a)|, |a.defaults|;
      i < |r| && r[i].name == Positional(a)[i].arg &&
      (r[i].defaultValue.Some? <==> i >= p - d) &&
      (i >= p - d ==> 0 <= i - (p - d) < d && r[i].defaultValue == Some(unparse(a.defaults[i - (p - d)])))
  {
  }

  /** With D <= P defaults, exactly the last D positional entries carry one,
      holding the defaults in declaration order; the first P - D carry none. */
  lemma {:induction false} TrailingDefaults(unparse: Expr -> string, a: Arguments)
    requires |a.defaults| <= |Positional(a)|
    ensures var r, p, d := ArgumentInfos(unparse, a), |Positional(a)|, |a.defaults|;
      p <= |r| && CountDefaults(r[..p]) == d &&
      (forall i :: 0 <= i < p - d ==> r[i].defaultValue.None?) &&
      (forall k :: 0 <= k < d ==> r[p - d + k].defaultValue == Some(unparse(a.defaults[k])))
  {
    var r, p, d := ArgumentInfos(unparse, a), |Positional(a)|, |a.defaults|;
    var front := PositionalInfos(unparse, Positional(a), a.defaults);
    assert r[..p] == front;
    assert front == front[..p - d] + front[p - d..];
    CountDefaultsNone(front[..p - d]);
    CountDefaultsAll(front[p - d..]);
    CountDefaultsAppend(front[..p - d], front[p - d..]);
  }

  /** With more defaults than positional parameters (a declaration the
      language rejects), every positional entry takes one of the last P
      defaults, without an out-of-range access. */
  lemma {:induction false} SurplusDefaults(unparse: Expr -> string, a: Arguments)
    requires |a.defaults| > |Positional(a)|
    ensures var r, p, d := ArgumentInfos(unparse, a), |Positional(a)|, |a.defaults|;
      p <= |r| && CountDefaults(r[..p]) == p &&
      (forall i :: 0 <= i < p ==> r[i].defaultValue == Some(unparse(a.defaults[d - p + i])))
  {
    var r, p := ArgumentInfos(unparse, a), |Positional(a)|;
    assert r[..p] == PositionalInfos(unparse, Positional(a), a.defaults);
    CountDefaultsAll(r[..p]);
  }

  /** Where each kind of parameter ends up, how long the list is, and that the
      variadic entries are tagged and never carry a default. */
  lemma ArgumentLayout(unparse: Expr -> string, a: Arguments)
    ensures var r, p := ArgumentInfos(unparse, a), |Positional(a)|;
      var v, w := if a.vararg.Some? then 1 else 0, if a.kwarg.Some? then 1 else 0;
      var k := Min(|a.kwonlyargs|, |a.kwDefaults|);
      |r| == p + v + k + w &&
      (forall i :: 0 <= i < p ==> r[i].name == Positional(a)[i].arg &&
                                  r[i].typeHint == Some(TypeHint(unparse, Positional(a)[i]))) &&
      (a.vararg.Some? ==> r[p] == ArgumentInfo("*" + a.vararg.value.arg, Some(TypeHint(unparse, a.vararg.value)), None)) &&
      (forall j :: 0 <= j < k ==> r[p + v + j].name == a.kwonlyargs[j].arg &&
                                  r[p + v + j].typeHint == Some(TypeHint(unparse, a.kwonlyargs[j]))) &&
      (a.kwarg.Some? ==> r[|r| - 1] == ArgumentInfo("**" + a.kwarg.value.arg, Some(TypeHint(unparse, a.kwarg.value)), None))
  {
  }

  /** Each keyword-only entry has a default exactly when its own slot does,
      whatever its neighbours' slots hold. */
  lemma KeywordOnlyDefault(unparse: Expr -> string, a: Arguments, j: nat)
    requires j < |a.kwonlyargs| && j < |a.kwDefaults|
    ensures var r, p := ArgumentInfos(unparse, a), |Positional(a)|;
      var v := if a.vararg.Some? then 1 else 0;
      p + v + j < |r| &&
      (r[p + v + j].defaultValue.Some? <==> a.kwDefaults[j].Some?) &&
      (a.kwDefaults[j].Some? ==> r[p + v + j].defaultValue == Some(unparse(a.kwDefaults[j].value)))
  {
  }

  /** The type hint is the rendered annotation, else "Any". */
  lemma TypeHintOrAny(unparse: Expr -> string, p: Arg)
    ensures p.annotation.None? ==> TypeHint(unparse, p) == "Any"
    ensures p.annotation.Some? ==> TypeHint(unparse, p) == unparse(p.annotation.value)
  {
  }

  /** When no declared name starts with "*" (as no identifier does), the
      entries whose names start with "*" are exactly the `*args` and
      `**kwargs` entries, and none of them carries a default. */
  lemma StarredEntries(unparse: Expr -> string, a: Arguments)
    requires forall p :: p in Positional(a) + a.kwonlyargs ==> !Starred(p.arg)
    ensures var r, p := ArgumentInfos(unparse, a), |Positional(a)|;
      forall i :: 0 <= i < |r| ==>
        (Starred(r[i].name) <==> (a.vararg.Some? && i == p) || (a.kwarg.Some? && i == |r| - 1)) &&
        (Starred(r[i].name) ==> r[i].defaultValue.None?)
  {
    var r, p := ArgumentInfos(unparse, a), |Positional(a)|;
    var v := if a.vararg.Some? then 1 else 0;
    var k := Min(|a.kwonlyargs|, |a.kwDefaults|);
    forall i | 0 <= i < |r|
      ensures Starred(r[i].name) <==> (a.vararg.Some? && i == p) || (a.kwarg.Some? && i == |r| - 1)
    {
      if i < p {
        assert Positional(a)[i] in Positional(a) + a.kwonlyargs;
      } else if i < p + v {
      } else if i < p + v + k {
        assert a.kwonlyargs[i - p - v] in Positional(a) + a.kwonlyargs;
      }
    }
  }

  /** The signature `(param1: int, param2: str = "default", *args,
      kwonly1: float, kwonly2: bool = True, **kwargs)`. */
  lemma ExampleSignature(unparse: Expr -> string, int_: Expr, str_: Expr, default_: Expr,
                         float_: Expr, bool_: Expr, true_: Expr)
    requires unparse(int_) == "int" && unparse(str_) == "str" && unparse(default_) == "'default'"
    requires unparse(float_) == "float" && unparse(bool_) == "bool" && unparse(true_) == "True"
    ensures ArgumentInfos(unparse, Arguments(
              [], [Arg("param1", Some(int_)), Arg("param2", Some(str_))], Some(Arg("args", None)),
              [Arg("kwonly1", Some(float_)), Arg("kwonly2", Some(bool_))], [None, Some(true_)],
              Some(Arg("kwargs", None)), [default_]))
         == [ArgumentInfo("param1", Some("int"), None),
             ArgumentInfo("param2", Some("str"), Some("'default'")),
             ArgumentInfo("*args", Some("Any"), None),
             ArgumentInfo("kwonly1", Some("float"), None),
             ArgumentInfo("kwonly2", Some("bool"), Some("True")),
             ArgumentInfo("**kwargs", Some("Any"), None)]
  {
    var a := Arguments(
      [], [Arg("param1", Some(int_)), Arg("param2", Some(str_))], Some(Arg("args", None)),
      [Arg("kwonly1", Some(float_)), Arg("kwonly2", Some(bool_))], [None, Some(true_)],
      Some(Arg("kwargs", None)), [default_]);
    assert PositionalInfos(unparse, Positional(a), a.defaults)
        == [ArgumentInfo("param1", Some("int"), None), ArgumentInfo("param2", Some("str"), Some("'default'"))];
    assert KeywordOnlyInfos(unparse, a.kwonlyargs, a.kwDefaults)
        == [ArgumentInfo("kwonly1", Some("float"), None), ArgumentInfo("kwonly2", Some("bool"), Some("True"))];
    assert "*" + "args" == "*args" && "**" + "kwargs" == "**kwargs";
    assert VariadicInfo(unparse, "*", a.vararg) == [ArgumentInfo("*args", Some("Any"), None)];
    assert VariadicInfo(unparse, "**", a.kwarg) == [ArgumentInfo("**kwargs", Some("Any"), None)];
  }
}
