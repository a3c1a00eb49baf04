// The Markdown renderer: turns a module, class or function record into a list
// of lines, recursing into methods and module members two heading levels
// deeper. Rendering writes a placeholder into every empty docstring it meets,
// in place, so the records it renders are objects and the renderer's methods
// say which docstrings they may change and to what.
module Markdown {
  import opened Data
  import opened Templates

  datatype Result<T> = Ok(value: T) | Error(message: string)

  const Placeholder: string := "No docstring provided."

  /** The heading marker: "#" repeated n times, empty when n <= 0. */
  function Hashes(n: int): string
    decreases n
  {
    if n <= 0 then "" else "#" + Hashes(n - 1)
  }

  /** The docstring as rendered: an absent or empty one reads as the placeholder. */
  function DocText(d: Option<string>): (r: string)
    ensures r != ""
  {
    if d.Some? && d.value != "" then d.value else Placeholder
  }

  /** A docstring that the renderer leaves as it is. */
  predicate IsFilled(d: Option<string>)
  {
    d.Some? && d.value != ""
  }

  /** The docstring after the renderer has filled it in. */
  function Filled(d: Option<string>): Option<string>
  {
    Some(DocText(d))
  }

  /** A docstring that rendering either left alone or filled in. */
  predicate FillStep(before: Option<string>, after: Option<string>)
  {
    after == before || after == Filled(before)
  }

  /** A value put into a format slot: None prints as "None". */
  function OptionText(o: Option<string>): string
  {
    if o.Some? then o.value else "None"
  }

  /** The return type as rendered: absent or empty reads as "None". */
  function ReturnText(r: Option<string>): string
  {
    if r.Some? && r.value != "" then r.value else "None"
  }

  /** "Owner." for a method whose class name is set and non-empty, else nothing. */
  function OwnerPrefix(className: Option<string>): string
  {
    if className.Some? && className.value != "" then className.value + "." else ""
  }

  function AsyncMarker(isAsync: bool): string
  {
    if isAsync then "async " else ""
  }

  /** One argument line: `*args`/`**kwargs` by name only, others as name,
      type and default. */
  function ArgLine(t: FunctionTemplate, a: ArgumentInfo): string
    requires t.Valid()
  {
    if Starred(a.name) then Format(t.vkargTemplate, [a.name])
    else Format(t.defaultTemplate, [a.name, OptionText(a.typeHint), OptionText(a.defaultValue)])
  }

  function ArgLines(t: FunctionTemplate, args: seq<ArgumentInfo>): seq<string>
    requires t.Valid()
  {
    seq(|args|, i requires 0 <= i < |args| => ArgLine(t, args[i]))
  }

  /** One line per item, each through the same one-slot template. */
  function EachLine(t: Template, items: seq<string>): seq<string>
    requires t.Slots() <= 1
  {
    seq(|items|, i requires 0 <= i < |items| => Format(t, [items[i]]))
  }

  /** The rendering of one function at heading level `level`, given how its
      docstring reads. */
  function FunctionText(t: FunctionTemplate, f: FunctionInfo, doc: string, level: int): seq<string>
    requires t.Valid()
  {
    var sub := Hashes(level + 1);
    [Format(t.nameTemplate, [Hashes(level), AsyncMarker(f.isAsync), OwnerPrefix(f.className), f.name]),
     Format(t.argTitleTemplate, [sub])]
    + ArgLines(t, f.args)
    + [Format(t.returnTitleTemplate, [sub]),
       Format(t.returnTypeTemplate, [ReturnText(f.returnType)]),
       Format(t.docstringTitleTemplate, [sub]),
       Format(t.docstringContentTemplate, [doc])]
  }

  /** The rendering of one function as it stands in the heap. */
  function FunctionLines(t: FunctionTemplate, f: FunctionInfo, level: int): seq<string>
    requires t.Valid()
    reads f`docstring
  {
    FunctionText(t, f, DocText(f.docstring), level)
  }

  /** How the docstrings of the given functions read, one by one. */
  function DocTexts(fs: seq<FunctionInfo>): (r: seq<string>)
    reads fs`docstring
    ensures |r| == |fs|
  {
    if fs == [] then [] else DocTexts(fs[..|fs| - 1]) + [DocText(fs[|fs| - 1].docstring)]
  }

  /** The renderings of several functions one after the other, given how
      their docstrings read. */
  function FunctionsText(t: FunctionTemplate, fs: seq<FunctionInfo>, docs: seq<string>, level: int): seq<string>
    requires t.Valid() && |docs| == |fs|
  {
    if fs == [] then []
    else FunctionsText(t, fs[..|fs| - 1], docs[..|fs| - 1], level) + FunctionText(t, fs[|fs| - 1], docs[|fs| - 1], level)
  }

  function FunctionsLines(t: FunctionTemplate, fs: seq<FunctionInfo>, level: int): seq<string>
    requires t.Valid()
    reads fs`docstring
  {
    FunctionsText(t, fs, DocTexts(fs), level)
  }

  /** The methods of the given classes. */
  ghost function MethodsOf(cs: seq<ClassInfo>): set<FunctionInfo>
  {
    set c, f | c in cs && f in c.methods :: f
  }

  /** The classes a possibly absent record stands for: none or itself. */
  function ClassSeq(c: ClassInfo?): seq<ClassInfo>
  {
    if c == null then [] else [c]
  }

  /** The classes of a possibly absent module. */
  function ModuleClasses(m: ModuleInfo?): seq<ClassInfo>
  {
    if m == null then [] else m.classes
  }

  /** The module-level functions of a possibly absent module. */
  function ModuleFunctions(m: ModuleInfo?): seq<FunctionInfo>
  {
    if m == null then [] else m.functions
  }

  ghost function ClassSet(c: ClassInfo?): set<ClassInfo>
  {
    if c == null then {} else {c}
  }

  ghost function ModuleSet(m: ModuleInfo?): set<ModuleInfo>
  {
    if m == null then {} else {m}
  }

  ghost function FunctionSet(f: FunctionInfo?): set<FunctionInfo>
  {
    if f == null then {} else {f}
  }

  /** The lines of a class rendering that come before its methods: heading,
      bases and decorators, up to the "Methods" title. */
  function ClassHead(ct: ClassTemplate, c: ClassInfo, level: int): seq<string>
    requires ct.Valid()
  {
    var sub := Hashes(level + 1);
    [Format(ct.nameTemplate, [Hashes(level), c.name]), Format(ct.basesTitleTemplate, [sub])]
    + EachLine(ct.basesTemplate, c.bases)
    + [Format(ct.decoratorsTitleTemplate, [sub])]
    + EachLine(ct.decoratorTemplate, c.decorators)
    + [Format(ct.methodsTitleTemplate, [sub])]
  }

  /** The rendering of one class: heading, bases, decorators, methods two
      levels deeper, description; given how the docstrings of the class and
      of its methods read. */
  function ClassText(ct: ClassTemplate, ft: FunctionTemplate, c: ClassInfo, doc: string,
                     methodDocs: seq<string>, level: int): seq<string>
    requires ct.Valid() && ft.Valid() && |methodDocs| == |c.methods|
  {
    ClassHead(ct, c, level)
    + FunctionsText(ft, c.methods, methodDocs, level + 2)
    + [Format(ct.docstringTitleTemplate, [Hashes(level + 1)]),
       Format(ct.docstringContentTemplate, [doc])]
  }

  function ClassLines(ct: ClassTemplate, ft: FunctionTemplate, c: ClassInfo, level: int): seq<string>
    requires ct.Valid() && ft.Valid()
    reads c`docstring, c.methods`docstring
  {
    ClassText(ct, ft, c, DocText(c.docstring), DocTexts(c.methods), level)
  }

  /** How the docstrings of the given classes' methods read, class by class. */
  function MethodDocTexts(cs: seq<ClassInfo>): (r: seq<seq<string>>)
    reads MethodsOf(cs)`docstring
    ensures |r| == |cs| && forall j :: 0 <= j < |cs| ==> r[j] == DocTexts(cs[j].methods)
  {
    if cs == [] then []
    else
      var n := |cs| - 1;
      assert MethodsOf(cs[..n]) <= MethodsOf(cs) by {
        forall f | f in MethodsOf(cs[..n]) ensures f in MethodsOf(cs) {
          var c :| c in cs[..n] && f in c.methods;
        }
      }
      assert forall f :: f in cs[n].methods ==> f in MethodsOf(cs);
      MethodDocTexts(cs[..n]) + [DocTexts(cs[n].methods)]
  }

  /** How the docstrings of the given classes read, one by one. */
  function ClassDocTexts(cs: seq<ClassInfo>): (r: seq<string>)
    reads cs`docstring
    ensures |r| == |cs|
  {
    if cs == [] then [] else ClassDocTexts(cs[..|cs| - 1]) + [DocText(cs[|cs| - 1].docstring)]
  }

  /** One docstring text per class and one per method of each class. */
  predicate DocsFit(cs: seq<ClassInfo>, docs: seq<string>, methodDocs: seq<seq<string>>)
  {
    |docs| == |cs| && |methodDocs| == |cs| && forall j :: 0 <= j < |cs| ==> |methodDocs[j]| == |cs[j].methods|
  }

  /** The renderings of several classes one after the other, given how the
      docstrings of the classes and of their methods read. */
  function ClassesText(ct: ClassTemplate, ft: FunctionTemplate, cs: seq<ClassInfo>, docs: seq<string>,
                       methodDocs: seq<seq<string>>, level: int): seq<string>
    requires ct.Valid() && ft.Valid() && DocsFit(cs, docs, methodDocs)
  {
    if cs == [] then []
    else
      var n := |cs| - 1;
      ClassesText(ct, ft, cs[..n], docs[..n], methodDocs[..n], level)
      + ClassText(ct, ft, cs[n], docs[n], methodDocs[n], level)
  }

  function ClassesLines(ct: ClassTemplate, ft: FunctionTemplate, cs: seq<ClassInfo>, level: int): seq<string>
    requires ct.Valid() && ft.Valid()
    reads cs`docstring, MethodsOf(cs)`docstring
  {
    ClassesText(ct, ft, cs, ClassDocTexts(cs), MethodDocTexts(cs), level)
  }

  /** The docstrings of the classes and of their methods read as `docs` and
      `methodDocs` say. */
  ghost predicate ClassesRead(cs: seq<ClassInfo>, docs: seq<string>, methodDocs: seq<seq<string>>)
    reads cs`docstring, MethodsOf(cs)`docstring
  {
    && DocsFit(cs, docs, methodDocs)
    && (forall j :: 0 <= j < |cs| ==> DocText(cs[j].docstring) == docs[j])
    && (forall j, i :: 0 <= j < |cs| && 0 <= i < |cs[j].methods| ==>
          assert cs[j] in cs && cs[j].methods[i] in cs[j].methods;
          DocText(cs[j].methods[i].docstring) == methodDocs[j][i])
  }

  /** The class and all its methods hold filled-in docstrings. */
  ghost predicate ClassFilled(c: ClassInfo)
    reads c`docstring, c.methods`docstring
  {
    IsFilled(c.docstring) && forall f :: f in c.methods ==> IsFilled(f.docstring)
  }

  /** The docstrings of the given functions as they stand, one by one. */
  ghost function Docs(fs: seq<FunctionInfo>): (r: seq<Option<string>>)
    reads fs`docstring
    ensures |r| == |fs| && forall i :: 0 <= i < |fs| ==> r[i] == fs[i].docstring
  {
    if fs == [] then [] else Docs(fs[..|fs| - 1]) + [fs[|fs| - 1].docstring]
  }

  /** The docstring of a class and those of its methods, as they stand. */
  datatype ClassDocstrings = ClassDocstrings(doc: Option<string>, methodDocs: seq<Option<string>>)

  /** The docstrings of the given classes and of their methods, class by class. */
  ghost function ClassDocs(cs: seq<ClassInfo>): (r: seq<ClassDocstrings>)
    reads cs`docstring, MethodsOf(cs)`docstring
    ensures |r| == |cs| && forall j :: 0 <= j < |cs| ==> r[j] == ClassDocstrings(cs[j].docstring, Docs(cs[j].methods))
  {
    if cs == [] then []
    else
      var n := |cs| - 1;
      MethodsOfLast(cs);
      ClassDocs(cs[..n]) + [ClassDocstrings(cs[n].docstring, Docs(cs[n].methods))]
  }

  /** The methods of all but the last class, and those of the last, are
      among the methods of all of them. */
  lemma MethodsOfLast(cs: seq<ClassInfo>)
    requires cs != []
    ensures MethodsOf(cs[..|cs| - 1]) <= MethodsOf(cs)
    ensures forall f :: f in cs[|cs| - 1].methods ==> f in MethodsOf(cs)
  {
    var n := |cs| - 1;
    forall f | f in MethodsOf(cs[..n]) ensures f in MethodsOf(cs) {
      var c :| c in cs[..n] && f in c.methods;
    }
  }

  /** The docstrings of a module, of its classes and their methods and of its
      functions, as they stand at one moment. */
  datatype Docstrings = Docstrings(moduleDoc: Option<string>, classDocs: seq<ClassDocstrings>,
                                   functionDocs: seq<Option<string>>)

  ghost function DocstringsOf(m: ModuleInfo): Docstrings
    reads m`docstring, m.classes`docstring, MethodsOf(m.classes)`docstring, m.functions`docstring
  {
    Docstrings(m.docstring, ClassDocs(m.classes), Docs(m.functions))
  }

  /** Every docstring of the module, its classes, their methods and its
      functions is the filled-in form of the one `d` records in its place. */
  ghost predicate FilledFrom(m: ModuleInfo, d: Docstrings)
    reads m`docstring, m.classes`docstring, MethodsOf(m.classes)`docstring, m.functions`docstring
  {
    && m.docstring == Filled(d.moduleDoc)
    && |d.classDocs| == |m.classes| && |d.functionDocs| == |m.functions|
    && (forall j :: 0 <= j < |m.classes| ==> m.classes[j].docstring == Filled(d.classDocs[j].doc))
    && (forall j :: 0 <= j < |m.classes| ==> |d.classDocs[j].methodDocs| == |m.classes[j].methods|)
    && (forall j, i :: 0 <= j < |m.classes| && 0 <= i < |m.classes[j].methods| ==>
          assert m.classes[j].methods[i] in MethodsOf(m.classes) by { MethodsOfHas(m.classes, j); }
          m.classes[j].methods[i].docstring == Filled(d.classDocs[j].methodDocs[i]))
    && forall i :: 0 <= i < |m.functions| ==> m.functions[i].docstring == Filled(d.functionDocs[i])
  }

  /** Every docstring of the module, its classes, their methods and its
      functions is the filled-in form of what it was in the earlier state. */
  twostate predicate ModuleFilledIn(m: ModuleInfo)
    reads m`docstring, m.classes`docstring, MethodsOf(m.classes)`docstring, m.functions`docstring
  {
    FilledFrom(m, old(DocstringsOf(m)))
  }

  /** Docstrings filled in member by member are filled in position by
      position. */
  twostate lemma ModuleFilledInByMember(m: ModuleInfo)
    requires m.docstring == Filled(old(m.docstring))
    requires forall c :: c in m.classes ==> c.docstring == Filled(old(c.docstring))
    requires forall f :: f in MethodsOf(m.classes) ==> f.docstring == Filled(old(f.docstring))
    requires forall f :: f in m.functions ==> f.docstring == Filled(old(f.docstring))
    ensures ModuleFilledIn(m)
  {
    forall j | 0 <= j < |m.classes|
      ensures forall i :: 0 <= i < |m.classes[j].methods| ==>
                m.classes[j].methods[i].docstring == Filled(old(m.classes[j].methods[i].docstring))
    {
      MethodsOfHas(m.classes, j);
    }
  }

  /** The rendering of one module: a fixed "Module:" heading, description,
      classes and then functions, each two levels deeper. */
  function ModuleLines(mt: ModuleTemplate, ct: ClassTemplate, ft: FunctionTemplate, m: ModuleInfo, level: int): seq<string>
    requires mt.Valid() && ct.Valid() && ft.Valid()
    reads m`docstring, m.classes`docstring, MethodsOf(m.classes)`docstring, m.functions`docstring
  {
    ModuleHead(mt, m.name, DocText(m.docstring), level) + ModuleMembers(mt, ct, ft, m, level)
  }

  /** The heading, description and classes title of a module whose
      docstring reads `doc`. */
  function ModuleHead(mt: ModuleTemplate, name: string, doc: string, level: int): seq<string>
    requires mt.Valid()
  {
    var sub := Hashes(level + 1);
    [Hashes(level) + " Module: " + name,
     Format(mt.docstringTitleTemplate, [sub]),
     Format(mt.docstringContentTemplate, [doc]),
     Format(mt.classesTitleTemplate, [sub])]
  }

  /** The classes and then the functions of a module, two levels deeper. */
  function ModuleMembers(mt: ModuleTemplate, ct: ClassTemplate, ft: FunctionTemplate, m: ModuleInfo, level: int): seq<string>
    requires mt.Valid() && ct.Valid() && ft.Valid()
    reads m.classes`docstring, MethodsOf(m.classes)`docstring, m.functions`docstring
  {
    ClassesLines(ct, ft, m.classes, level + 2)
    + [Format(mt.functionsTitleTemplate, [Hashes(level + 1)])]
    + FunctionsLines(ft, m.functions, level + 2)
  }

  class MarkdownGenerator {
    var filePath: string
    var moduleInfo: ModuleInfo?
    const classInfo: ClassInfo?
    const functionInfo: FunctionInfo?
    const moduleTemplate: ModuleTemplate
    const classTemplate: ClassTemplate
    const functionTemplate: FunctionTemplate
    var lines: seq<string>

    constructor (filePath: string, moduleInfo: ModuleInfo? := null, classInfo: ClassInfo? := null,
                 functionInfo: FunctionInfo? := null, moduleTemplate: ModuleTemplate := ModuleTemplate(),
                 classTemplate: ClassTemplate := ClassTemplate(),
                 functionTemplate: FunctionTemplate := FunctionTemplate())
      ensures this.filePath == filePath && this.moduleInfo == moduleInfo
      ensures this.classInfo == classInfo && this.functionInfo == functionInfo
      ensures this.moduleTemplate == moduleTemplate && this.classTemplate == classTemplate
      ensures this.functionTemplate == functionTemplate && lines == []
    {
      this.filePath := filePath;
      this.moduleInfo := moduleInfo;
      this.classInfo := classInfo;
      this.functionInfo := functionInfo;
      this.moduleTemplate := moduleTemplate;
      this.classTemplate := classTemplate;
      this.functionTemplate := functionTemplate;
      lines := [];
    }

    /** No template has more slots than the renderer fills. */
    predicate TemplatesValid()
    {
      moduleTemplate.Valid() && classTemplate.Valid() && functionTemplate.Valid()
    }

    /** The record a `_generate_*` call renders: the one passed in, else
        the one the generator holds. */
    function ChosenFunction(info: FunctionInfo?): FunctionInfo?
    {
      if info != null then info else functionInfo
    }

    function ChosenClass(info: ClassInfo?): ClassInfo?
    {
      if info != null then info else classInfo
    }

    function ChosenModule(info: ModuleInfo?): ModuleInfo?
      reads this`moduleInfo
    {
      if info != null then info else moduleInfo
    }

    /** Renders the chosen record as the top-level document. Precedence is
        module, then class, then function; with none of the three the result
        is an error and `lines` is left empty. Every other branch overwrites
        `lines`, so clearing them on that branch alone reaches the same state
        as clearing them first. */
    method Generate() returns (r: Result<seq<string>>)
      requires moduleInfo != null ==> TemplatesValid()
      requires moduleInfo == null && classInfo != null ==> classTemplate.Valid() && functionTemplate.Valid()
      requires moduleInfo == null && classInfo == null && functionInfo != null ==> functionTemplate.Valid()
      modifies this`lines, ModuleSet(moduleInfo)`docstring, ModuleClasses(moduleInfo)`docstring, ClassSet(classInfo)`docstring,
               MethodsOf(ModuleClasses(moduleInfo))`docstring, MethodsOf(ClassSeq(classInfo))`docstring,
               ModuleFunctions(moduleInfo)`docstring, FunctionSet(functionInfo)`docstring
      ensures r.Ok? ==> r.value == lines
      ensures r.Error? ==> lines == []
      ensures moduleInfo != null ==>
        && r == Ok(ModuleLines(moduleTemplate, classTemplate, functionTemplate, moduleInfo, 1))
        && ModuleFilledIn(moduleInfo)
      ensures moduleInfo != null && functionInfo != null && functionInfo !in MethodsOf(ModuleClasses(moduleInfo))
              && functionInfo !in ModuleFunctions(moduleInfo) ==>
        functionInfo.docstring == old(functionInfo.docstring)
      ensures moduleInfo != null && classInfo != null && classInfo !in ModuleClasses(moduleInfo) ==>
        classInfo.docstring == old(classInfo.docstring)
      ensures moduleInfo != null && classInfo != null ==>
        forall f :: f in classInfo.methods && f !in MethodsOf(ModuleClasses(moduleInfo)) && f !in ModuleFunctions(moduleInfo) ==>
          f.docstring == old(f.docstring)
      ensures moduleInfo == null && classInfo != null ==>
        && r == Ok(ClassLines(classTemplate, functionTemplate, classInfo, 1))
        && classInfo.docstring == Filled(old(classInfo.docstring))
        && forall f :: f in classInfo.methods ==> f.docstring == Filled(old(f.docstring))
      ensures moduleInfo == null && classInfo != null && functionInfo != null && functionInfo !in classInfo.methods ==>
        functionInfo.docstring == old(functionInfo.docstring)
      ensures moduleInfo == null && classInfo == null && functionInfo != null ==>
        r == Ok(FunctionLines(functionTemplate, functionInfo, 1))
        && functionInfo.docstring == Filled(old(functionInfo.docstring))
      ensures moduleInfo == null && classInfo == null && functionInfo == null ==>
        r == Error("No information provided to generate markdown.")
    {
      if moduleInfo != null {
        r := GenerateModuleDocument(DocstringsOf(moduleInfo));
      } else if classInfo != null {
        r := GenerateClassDocument();
      } else if functionInfo != null {
        r := GenerateFunctionDocument();
      } else {
        lines := [];
        r := Error("No information provided to generate markdown.");
      }
    }

    /** The module branch of `Generate`: the lines kept are the module's,
        every docstring in the module is filled in from `d`, the docstrings
        as they stand on entry, and the stored function, the stored class and
        its methods keep theirs unless they belong to the module. The last
        three are added one per method, from the inside out, which keeps each
        proof about what the call leaves alone to a single statement. */
    method GenerateModuleDocument(ghost d: Docstrings) returns (r: Result<seq<string>>)
      requires TemplatesValid() && moduleInfo != null && d == DocstringsOf(moduleInfo)
      modifies this`lines, ModuleSet(moduleInfo)`docstring, ModuleClasses(moduleInfo)`docstring,
               MethodsOf(ModuleClasses(moduleInfo))`docstring, ModuleFunctions(moduleInfo)`docstring
      ensures r == Ok(ModuleLines(moduleTemplate, classTemplate, functionTemplate, moduleInfo, 1)) && lines == r.value
      ensures FilledFrom(moduleInfo, d)
      ensures functionInfo != null && functionInfo !in MethodsOf(ModuleClasses(moduleInfo)) && functionInfo !in ModuleFunctions(moduleInfo) ==>
        functionInfo.docstring == old(functionInfo.docstring)
      ensures classInfo != null && classInfo !in ModuleClasses(moduleInfo) ==> classInfo.docstring == old(classInfo.docstring)
      ensures classInfo != null ==>
        forall f :: f in classInfo.methods && f !in MethodsOf(ModuleClasses(moduleInfo)) && f !in ModuleFunctions(moduleInfo) ==>
          f.docstring == old(f.docstring)
    {
      r := ModuleDocumentKeepingClass(d);
    }

    /** `ModuleDocumentKeepingFunction`, adding that the stored class keeps
        its docstring when it is not one of the module's classes. */
    method ModuleDocumentKeepingClass(ghost d: Docstrings) returns (r: Result<seq<string>>)
      requires TemplatesValid() && moduleInfo != null && d == DocstringsOf(moduleInfo)
      modifies this`lines, ModuleSet(moduleInfo)`docstring, ModuleClasses(moduleInfo)`docstring,
               MethodsOf(ModuleClasses(moduleInfo))`docstring, ModuleFunctions(moduleInfo)`docstring
      ensures r == Ok(ModuleLines(moduleTemplate, classTemplate, functionTemplate, moduleInfo, 1)) && lines == r.value
      ensures FilledFrom(moduleInfo, d)
      ensures functionInfo != null && functionInfo !in MethodsOf(ModuleClasses(moduleInfo)) && functionInfo !in ModuleFunctions(moduleInfo) ==>
        functionInfo.docstring == old(functionInfo.docstring)
      ensures classInfo != null && classInfo !in ModuleClasses(moduleInfo) ==> classInfo.docstring == old(classInfo.docstring)
    {
      r := ModuleDocumentKeepingFunction(d);
    }

    /** `ModuleDocument`, adding that the stored function keeps its docstring
        when it is neither a method of the module's classes nor one of its
        functions. */
    method ModuleDocumentKeepingFunction(ghost d: Docstrings) returns (r: Result<seq<string>>)
      requires TemplatesValid() && moduleInfo != null && d == DocstringsOf(moduleInfo)
      modifies this`lines, ModuleSet(moduleInfo)`docstring, ModuleClasses(moduleInfo)`docstring,
               MethodsOf(ModuleClasses(moduleInfo))`docstring, ModuleFunctions(moduleInfo)`docstring
      ensures r == Ok(ModuleLines(moduleTemplate, classTemplate, functionTemplate, moduleInfo, 1)) && lines == r.value
      ensures FilledFrom(moduleInfo, d)
      ensures functionInfo != null && functionInfo !in MethodsOf(ModuleClasses(moduleInfo)) && functionInfo !in ModuleFunctions(moduleInfo) ==>
        functionInfo.docstring == old(functionInfo.docstring)
    {
      r := ModuleDocument(d);
    }

    /** Renders the module and keeps its lines. */
    method ModuleDocument(ghost d: Docstrings) returns (r: Result<seq<string>>)
      requires TemplatesValid() && moduleInfo != null && d == DocstringsOf(moduleInfo)
      modifies this`lines, ModuleSet(moduleInfo)`docstring, ModuleClasses(moduleInfo)`docstring,
               MethodsOf(ModuleClasses(moduleInfo))`docstring, ModuleFunctions(moduleInfo)`docstring
      ensures r == Ok(ModuleLines(moduleTemplate, classTemplate, functionTemplate, moduleInfo, 1)) && lines == r.value
      ensures FilledFrom(moduleInfo, d)
    {
      r := ModuleDocumentLines(d);
      KeepModuleLines(r.value, d);
    }

    /** Keeps `value`, the module's rendering, as the generator's lines; the
        rendering does not depend on the lines, so it is still the module's. */
    method KeepModuleLines(value: seq<string>, ghost d: Docstrings)
      requires TemplatesValid() && moduleInfo != null
      requires value == ModuleLines(moduleTemplate, classTemplate, functionTemplate, moduleInfo, 1)
      requires FilledFrom(moduleInfo, d)
      modifies this`lines
      ensures lines == value && value == ModuleLines(moduleTemplate, classTemplate, functionTemplate, moduleInfo, 1)
      ensures FilledFrom(moduleInfo, d)
    {
      label before:
      lines := value;
      ModuleLinesKept@before(moduleInfo);
      FilledFromKept@before(moduleInfo, d);
    }

    /** `GenerateModuleDocument` before it keeps the lines: what the module
        renderer promises about the document and the docstrings it fills in. */
    method ModuleDocumentLines(ghost d: Docstrings) returns (r: Result<seq<string>>)
      requires TemplatesValid() && moduleInfo != null && d == DocstringsOf(moduleInfo)
      modifies ModuleSet(moduleInfo)`docstring, ModuleClasses(moduleInfo)`docstring,
               MethodsOf(ModuleClasses(moduleInfo))`docstring, ModuleFunctions(moduleInfo)`docstring
      ensures r == Ok(ModuleLines(moduleTemplate, classTemplate, functionTemplate, moduleInfo, 1))
      ensures FilledFrom(moduleInfo, d)
    {
      r := GenerateModuleMarkdown(null, 1);
      ModuleFilledInByMember(moduleInfo);
    }

    /** Docstrings left as they were are still filled in from `d`. */
    twostate lemma FilledFromKept(m: ModuleInfo, new d: Docstrings)
      requires old(FilledFrom(m, d))
      requires unchanged(m, m.classes, MethodsOf(m.classes), m.functions)
      ensures FilledFrom(m, d)
    {
    }

    twostate lemma ModuleLinesKept(m: ModuleInfo)
      requires TemplatesValid()
      requires unchanged(m, m.classes, MethodsOf(m.classes), m.functions)
      ensures ModuleLines(moduleTemplate, classTemplate, functionTemplate, m, 1)
           == old(ModuleLines(moduleTemplate, classTemplate, functionTemplate, m, 1))
    {
      assert DocTexts(m.functions) == old(DocTexts(m.functions));
      assert ClassDocTexts(m.classes) == old(ClassDocTexts(m.classes));
      MethodDocTextsKept(m.classes);
    }

    /** The class branch of `Generate`. */
    method GenerateClassDocument() returns (r: Result<seq<string>>)
      requires classTemplate.Valid() && functionTemplate.Valid() && classInfo != null
      modifies this`lines, ClassSet(classInfo)`docstring, MethodsOf(ClassSeq(classInfo))`docstring
      ensures r == Ok(ClassLines(classTemplate, functionTemplate, classInfo, 1)) && lines == r.value
      ensures classInfo.docstring == Filled(old(classInfo.docstring))
      ensures forall f :: f in classInfo.methods ==> f.docstring == Filled(old(f.docstring))
      ensures functionInfo != null && functionInfo !in classInfo.methods ==>
        functionInfo.docstring == old(functionInfo.docstring)
    {
      ghost var c := classInfo;
      r := GenerateClassMarkdown(null, 1);
      ghost var rendered := ClassLines(classTemplate, functionTemplate, c, 1);
      lines := r.value;
      assert classInfo == c;
      assert ClassLines(classTemplate, functionTemplate, c, 1) == rendered;
    }

    /** The function branch of `Generate`. */
    method GenerateFunctionDocument() returns (r: Result<seq<string>>)
      requires functionTemplate.Valid() && functionInfo != null
      modifies this`lines, FunctionSet(functionInfo)`docstring
      ensures r == Ok(FunctionLines(functionTemplate, functionInfo, 1)) && lines == r.value
      ensures functionInfo.docstring == Filled(old(functionInfo.docstring))
    {
      ghost var f := functionInfo;
      r := GenerateFunctionMarkdown(null, 1);
      ghost var rendered := FunctionLines(functionTemplate, f, 1);
      lines := r.value;
      assert functionInfo == f;
      assert FunctionLines(functionTemplate, f, 1) == rendered;
    }

    /** `_generate_function_markdown`: renders the given function, or the
        stored one when none is given; an error when there is neither. */
    method GenerateFunctionMarkdown(info: FunctionInfo?, level: int) returns (r: Result<seq<string>>)
      requires functionTemplate.Valid()
      modifies FunctionSet(ChosenFunction(info))`docstring
      ensures ChosenFunction(info) == null ==> r == Error("No FunctionInfo provided for markdown generation.")
      ensures ChosenFunction(info) != null ==>
        var f := ChosenFunction(info);
        r == Ok(FunctionLines(functionTemplate, f, level)) && f.docstring == Filled(old(f.docstring))
    {
      var f := ChosenFunction(info);
      if f == null {
        return Error("No FunctionInfo provided for markdown generation.");
      }
      var out := RenderFunction(f, level);
      assert ChosenFunction(info) == f;
      r := Ok(out);
    }

    /** `_generate_class_markdown`: as above, for a class. */
    method GenerateClassMarkdown(info: ClassInfo?, level: int) returns (r: Result<seq<string>>)
      requires classTemplate.Valid() && functionTemplate.Valid()
      modifies ClassSet(ChosenClass(info))`docstring, MethodsOf(ClassSeq(ChosenClass(info)))`docstring
      ensures ChosenClass(info) == null ==> r == Error("No ClassInfo provided for markdown generation.")
      ensures ChosenClass(info) != null ==>
        var c := ChosenClass(info);
        && r == Ok(ClassLines(classTemplate, functionTemplate, c, level))
        && c.docstring == Filled(old(c.docstring))
        && forall f :: f in c.methods ==> f.docstring == Filled(old(f.docstring))
    {
      var c := ChosenClass(info);
      if c == null {
        return Error("No ClassInfo provided for markdown generation.");
      }
      assert ClassSeq(c) == [c];
      MethodsOfHas(ClassSeq(c), 0);
      var out := RenderClass(c, level);
      assert ChosenClass(info) == c;
      r := Ok(out);
    }

    /** `_generate_module_markdown`: as above, for a module. */
    method GenerateModuleMarkdown(info: ModuleInfo?, level: int) returns (r: Result<seq<string>>)
      requires TemplatesValid()
      modifies ModuleSet(ChosenModule(info))`docstring, ModuleClasses(ChosenModule(info))`docstring,
               MethodsOf(ModuleClasses(ChosenModule(info)))`docstring, ModuleFunctions(ChosenModule(info))`docstring
      ensures ChosenModule(info) == null ==> r == Error("No ModuleInfo provided for markdown generation.")
      ensures ChosenModule(info) != null ==>
        var m := ChosenModule(info);
        && r == Ok(ModuleLines(moduleTemplate, classTemplate, functionTemplate, m, level))
        && m.docstring == Filled(old(m.docstring))
        && (forall c :: c in m.classes ==> c.docstring == Filled(old(c.docstring)))
        && forall f :: f in MethodsOf(m.classes) || f in m.functions ==> f.docstring == Filled(old(f.docstring))
    {
      var m := ChosenModule(info);
      if m == null {
        return Error("No ModuleInfo provided for markdown generation.");
      }
      assert ModuleClasses(m) == m.classes && ModuleFunctions(m) == m.functions;
      var out := RenderModule(m, level);
      assert ChosenModule(info) == m;
      r := Ok(out);
    }

    /** Renders one function and fills in its docstring if it is empty. */
    method RenderFunction(f: FunctionInfo, level: int) returns (out: seq<string>)
      requires functionTemplate.Valid()
      modifies f`docstring
      ensures f.docstring == Filled(old(f.docstring))
      ensures out == FunctionLines(functionTemplate, f, level) == old(FunctionLines(functionTemplate, f, level))
    {
      var t := functionTemplate;
      var headPrefix := Hashes(level);
      var classStr := if f.className.Some? && f.className.value != "" then f.className.value + "." else "";
      var asyncStr := if f.isAsync then "async " else "";
      out := [Format(t.nameTemplate, [headPrefix, asyncStr, classStr, f.name])];
      var subPrefix := Hashes(level + 1);
      out := out + [Format(t.argTitleTemplate, [subPrefix])];
      ghost var head := out;
      var argLines := RenderArgs(f.args);
      out := out + argLines;
      ghost var body := out;
      out := out + [Format(t.returnTitleTemplate, [subPrefix])];
      var returnStr := if f.returnType.Some? && f.returnType.value != "" then f.returnType.value else "None";
      out := out + [Format(t.returnTypeTemplate, [returnStr])];
      out := out + [Format(t.docstringTitleTemplate, [subPrefix])];
      if f.docstring.None? || f.docstring.value == "" {
        f.docstring := Some(Placeholder);
      }
      out := out + [Format(t.docstringContentTemplate, [f.docstring.value])];
      assert f.docstring.value == DocText(f.docstring);
      assert out == body + [Format(t.returnTitleTemplate, [subPrefix]),
                            Format(t.returnTypeTemplate, [ReturnText(f.returnType)]),
                            Format(t.docstringTitleTemplate, [subPrefix]),
                            Format(t.docstringContentTemplate, [DocText(f.docstring)])];
      assert head == [Format(t.nameTemplate, [Hashes(level), AsyncMarker(f.isAsync), OwnerPrefix(f.className), f.name]),
                      Format(t.argTitleTemplate, [subPrefix])];
    }

    /** Renders one line per argument: a starred name through the variadic
        template, any other through the template with its hint and default. */
    method RenderArgs(args: seq<ArgumentInfo>) returns (out: seq<string>)
      requires functionTemplate.Valid()
      ensures out == ArgLines(functionTemplate, args)
    {
      var t := functionTemplate;
      out := [];
      for i := 0 to |args|
        invariant |out| == i && forall j :: 0 <= j < i ==> out[j] == ArgLine(t, args[j])
      {
        var arg := args[i];
        var argStr;
        if |arg.name| > 0 && arg.name[0] == '*' {
          argStr := Format(t.vkargTemplate, [arg.name]);
        } else {
          argStr := Format(t.defaultTemplate, [arg.name, OptionText(arg.typeHint),
                                               if arg.defaultValue.Some? then arg.defaultValue.value else "None"]);
        }
        assert argStr == ArgLine(t, arg);
        out := out + [argStr];
      }
    }

    /** Renders the given functions one after the other, as the class renderer
        does for its methods and the module renderer for its functions. A
        function listed twice is filled in at its first rendering and keeps
        that docstring afterwards. */
    method RenderFunctions(fs: seq<FunctionInfo>, level: int) returns (out: seq<string>)
      requires functionTemplate.Valid()
      modifies fs`docstring
      ensures forall f :: f in fs ==> f.docstring == Filled(old(f.docstring))
      ensures out == FunctionsLines(functionTemplate, fs, level) == old(FunctionsLines(functionTemplate, fs, level))
    {
      out := [];
      ghost var docs := DocTexts(fs);
      DocTextsAt(fs);
      for k := 0 to |fs|
        invariant out == FunctionsText(functionTemplate, fs[..k], docs[..k], level)
        invariant forall j :: 0 <= j < |fs| ==> DocText(fs[j].docstring) == docs[j]
        invariant forall j :: 0 <= j < k ==> IsFilled(fs[j].docstring)
      {
        var functionLines := RenderFunctionAt(fs, fs[k], k, level, docs);
        FunctionsTextSnoc(functionTemplate, fs, docs, k, level);
        out := out + functionLines;
      }
      assert fs[..|fs|] == fs && docs[..|fs|] == docs;
      DocTextsAre(fs, docs);
      FilledAsRead(fs, docs);
    }

    /** One step of RenderFunctions: renders `fs[k]`. Filling in its docstring
        does not change how any docstring of `fs` reads. */
    method RenderFunctionAt(fs: seq<FunctionInfo>, f: FunctionInfo, k: nat, level: int, ghost docs: seq<string>)
      returns (lines: seq<string>)
      requires functionTemplate.Valid() && k < |fs| && fs[k] == f && |docs| == |fs|
      requires forall j :: 0 <= j < |fs| ==> DocText(fs[j].docstring) == docs[j]
      requires forall j :: 0 <= j < k ==> IsFilled(fs[j].docstring)
      modifies f`docstring
      ensures forall j :: 0 <= j < |fs| ==> DocText(fs[j].docstring) == docs[j]
      ensures forall j :: 0 <= j < k + 1 ==> IsFilled(fs[j].docstring)
      ensures lines == FunctionText(functionTemplate, f, docs[k], level)
    {
      lines := RenderFunction(f, level);
    }

    /** Renders the heading, bases and decorators of a class. */
    method RenderClassHead(c: ClassInfo, level: int) returns (out: seq<string>)
      requires classTemplate.Valid()
      ensures out == ClassHead(classTemplate, c, level)
    {
      var t := classTemplate;
      out := [Format(t.nameTemplate, [Hashes(level), c.name])];
      var subPrefix := Hashes(level + 1);
      out := out + [Format(t.basesTitleTemplate, [subPrefix])];
      ghost var h0 := out;
      for i := 0 to |c.bases|
        invariant out == h0 + EachLine(t.basesTemplate, c.bases[..i])
      {
        EachLineSnoc(t.basesTemplate, c.bases, i);
        out := out + [Format(t.basesTemplate, [c.bases[i]])];
      }
      assert c.bases[..|c.bases|] == c.bases;
      out := out + [Format(t.decoratorsTitleTemplate, [subPrefix])];
      ghost var h1 := out;
      for i := 0 to |c.decorators|
        invariant out == h1 + EachLine(t.decoratorTemplate, c.decorators[..i])
      {
        EachLineSnoc(t.decoratorTemplate, c.decorators, i);
        out := out + [Format(t.decoratorTemplate, [c.decorators[i]])];
      }
      assert c.decorators[..|c.decorators|] == c.decorators;
      out := out + [Format(t.methodsTitleTemplate, [subPrefix])];
    }

    /** Renders one class, its methods two levels deeper, and fills in the
        empty docstrings of the class and of its methods. */
    method RenderClass(c: ClassInfo, level: int) returns (out: seq<string>)
      requires classTemplate.Valid() && functionTemplate.Valid()
      modifies c`docstring, c.methods`docstring
      ensures c.docstring == Filled(old(c.docstring))
      ensures forall f :: f in c.methods ==> f.docstring == Filled(old(f.docstring))
      ensures out == ClassLines(classTemplate, functionTemplate, c, level) == old(ClassLines(classTemplate, functionTemplate, c, level))
    {
      var t := classTemplate;
      var head := RenderClassHead(c, level);
      var methodsLines := RenderFunctions(c.methods, level + 2);
      var subPrefix := Hashes(level + 1);
      if c.docstring.None? || c.docstring.value == "" {
        c.docstring := Some(Placeholder);
      }
      out := head + methodsLines
        + [Format(t.docstringTitleTemplate, [subPrefix]), Format(t.docstringContentTemplate, [c.docstring.value])];
    }

    /** Renders the given classes one after the other, as the module renderer
        does. A class or method listed twice is filled in at its first
        rendering and keeps that docstring afterwards. */
    method RenderClasses(cs: seq<ClassInfo>, level: int) returns (out: seq<string>)
      requires classTemplate.Valid() && functionTemplate.Valid()
      modifies cs`docstring, MethodsOf(cs)`docstring
      ensures forall c :: c in cs ==> c.docstring == Filled(old(c.docstring))
      ensures forall f :: f in MethodsOf(cs) ==> f.docstring == Filled(old(f.docstring))
      ensures out == ClassesLines(classTemplate, functionTemplate, cs, level)
    {
      ghost var docs := ClassDocTexts(cs);
      ghost var methodDocs := MethodDocTexts(cs);
      ClassesReadNow(cs);
      out := RenderEachClass(cs, level, docs, methodDocs);
      ClassDocTextsAre(cs, docs, methodDocs);
      forall f | f in MethodsOf(cs)
        ensures f.docstring == Filled(old(f.docstring))
      {
        var j, i :| 0 <= j < |cs| && 0 <= i < |cs[j].methods| && cs[j].methods[i] == f;
        assert ClassFilled(cs[j]);
      }
    }

    /** The loop of RenderClasses, stated on how the docstrings read: they
        read as before, and every one is filled in afterwards. */
    method RenderEachClass(cs: seq<ClassInfo>, level: int, ghost docs: seq<string>,
                           ghost methodDocs: seq<seq<string>>) returns (out: seq<string>)
      requires classTemplate.Valid() && functionTemplate.Valid()
      requires DocsFit(cs, docs, methodDocs) && ClassesRead(cs, docs, methodDocs)
      modifies cs`docstring, MethodsOf(cs)`docstring
      ensures ClassesRead(cs, docs, methodDocs)
      ensures forall j :: 0 <= j < |cs| ==> ClassFilled(cs[j])
      ensures out == ClassesText(classTemplate, functionTemplate, cs, docs, methodDocs, level)
    {
      out := [];
      for k := 0 to |cs|
        invariant DocsFit(cs[..k], docs[..k], methodDocs[..k])
        invariant out == ClassesText(classTemplate, functionTemplate, cs[..k], docs[..k], methodDocs[..k], level)
        invariant ClassesRead(cs, docs, methodDocs)
        invariant forall j :: 0 <= j < k ==> ClassFilled(cs[j])
      {
        MethodsOfHas(cs, k);
        var classLines := RenderClassAt(cs, cs[k], k, level, docs, methodDocs);
        ClassesTextSnoc(classTemplate, functionTemplate, cs, docs, methodDocs, k, level);
        out := out + classLines;
      }
      assert cs[..|cs|] == cs && docs[..|cs|] == docs && methodDocs[..|cs|] == methodDocs;
    }

    /** One step of RenderClasses: renders `cs[k]`. Filling in docstrings does
        not change how any docstring of `cs` or of their methods reads. */
    method RenderClassAt(cs: seq<ClassInfo>, c: ClassInfo, k: nat, level: int,
                         ghost docs: seq<string>, ghost methodDocs: seq<seq<string>>)
      returns (lines: seq<string>)
      requires classTemplate.Valid() && functionTemplate.Valid() && k < |cs| && cs[k] == c
      requires ClassesRead(cs, docs, methodDocs)
      requires forall j :: 0 <= j < k ==> ClassFilled(cs[j])
      modifies c`docstring, c.methods`docstring
      ensures ClassesRead(cs, docs, methodDocs)
      ensures forall j :: 0 <= j < k + 1 ==> ClassFilled(cs[j])
      ensures lines == ClassText(classTemplate, functionTemplate, c, docs[k], methodDocs[k], level)
    {
      DocTextsAre(c.methods, methodDocs[k]);
      lines := RenderClass(c, level);
      ClassesStillRead(cs, docs, methodDocs);
    }

    /** Renders one module, its classes and functions two levels deeper, and
        fills in every empty docstring it meets. */
    method RenderModule(m: ModuleInfo, level: int) returns (out: seq<string>)
      requires TemplatesValid()
      modifies m`docstring, m.classes`docstring, MethodsOf(m.classes)`docstring, m.functions`docstring
      ensures m.docstring == Filled(old(m.docstring))
      ensures forall c :: c in m.classes ==> c.docstring == Filled(old(c.docstring))
      ensures forall f :: f in MethodsOf(m.classes) || f in m.functions ==> f.docstring == Filled(old(f.docstring))
      ensures out == ModuleLines(moduleTemplate, classTemplate, functionTemplate, m, level)
    {
      var head := RenderModuleHead(m, level);
      ghost var doc := m.docstring;
      var members := RenderModuleMembers(m, level);
      assert m.docstring == doc;
      out := head + members;
    }

    /** The first lines of RenderModule: heading, description title, the
        description (filled in first when empty) and the classes title. */
    method RenderModuleHead(m: ModuleInfo, level: int) returns (head: seq<string>)
      requires moduleTemplate.Valid()
      modifies m`docstring
      ensures m.docstring == Filled(old(m.docstring))
      ensures head == ModuleHead(moduleTemplate, m.name, DocText(m.docstring), level)
    {
      var t := moduleTemplate;
      var subPrefix := Hashes(level + 1);
      head := [Hashes(level) + " Module: " + m.name, Format(t.docstringTitleTemplate, [subPrefix])];
      if m.docstring.None? || m.docstring.value == "" {
        m.docstring := Some(Placeholder);
      }
      head := head + [Format(t.docstringContentTemplate, [m.docstring.value]), Format(t.classesTitleTemplate, [subPrefix])];
    }

    /** The part of RenderModule after the description: classes, then
        functions. */
    method RenderModuleMembers(m: ModuleInfo, level: int) returns (out: seq<string>)
      requires TemplatesValid()
      modifies m.classes`docstring, MethodsOf(m.classes)`docstring, m.functions`docstring
      ensures forall c :: c in m.classes ==> c.docstring == Filled(old(c.docstring))
      ensures forall f :: f in MethodsOf(m.classes) || f in m.functions ==> f.docstring == Filled(old(f.docstring))
      ensures out == ModuleMembers(moduleTemplate, classTemplate, functionTemplate, m, level)
    {
      var classesLines := RenderClasses(m.classes, level + 2);
      var functionsLines := RenderModuleFunctions(m, level + 2);
      assert classesLines == ClassesLines(classTemplate, functionTemplate, m.classes, level + 2);
      out := classesLines + [Format(moduleTemplate.functionsTitleTemplate, [Hashes(level + 1)])] + functionsLines;
    }

    /** Renders the functions of a module once its classes are rendered: the
        class renderings, whose docstrings are all filled in, stay as they were. */
    method RenderModuleFunctions(m: ModuleInfo, level: int) returns (out: seq<string>)
      requires classTemplate.Valid() && functionTemplate.Valid()
      requires forall f :: f in MethodsOf(m.classes) ==> IsFilled(f.docstring)
      modifies m.functions`docstring
      ensures forall f :: f in m.functions ==> f.docstring == Filled(old(f.docstring))
      ensures forall f :: f in MethodsOf(m.classes) ==> f.docstring == old(f.docstring)
      ensures out == FunctionsLines(functionTemplate, m.functions, level)
      ensures ClassesLines(classTemplate, functionTemplate, m.classes, level)
           == old(ClassesLines(classTemplate, functionTemplate, m.classes, level))
    {
      ghost var docs := ClassDocTexts(m.classes);
      ghost var methodDocs := MethodDocTexts(m.classes);
      ClassesReadNow(m.classes);
      out := RenderFunctions(m.functions, level);
      assert ClassesRead(m.classes, docs, methodDocs);
      ClassDocTextsAre(m.classes, docs, methodDocs);
    }
  }

  /** Docstrings that are filled and read as they did before are the
      filled-in forms of what they were. */
  twostate lemma FilledAsRead(fs: seq<FunctionInfo>, new docs: seq<string>)
    requires |docs| == |fs| && forall j :: 0 <= j < |fs| ==> old(DocText(fs[j].docstring)) == docs[j]
    requires forall j :: 0 <= j < |fs| ==> DocText(fs[j].docstring) == docs[j] && IsFilled(fs[j].docstring)
    ensures forall f :: f in fs ==> f.docstring == Filled(old(f.docstring))
  {
    forall f | f in fs
      ensures f.docstring == Filled(old(f.docstring))
    {
      var j :| 0 <= j < |fs| && fs[j] == f;
    }
  }

  lemma DocTextsAre(fs: seq<FunctionInfo>, docs: seq<string>)
    requires |docs| == |fs| && forall j :: 0 <= j < |fs| ==> DocText(fs[j].docstring) == docs[j]
    ensures DocTexts(fs) == docs
  {
    DocTextsAt(fs);
  }

  /** `DocTexts` lists each function's docstring as rendered, in order. */
  lemma {:induction false} DocTextsAt(fs: seq<FunctionInfo>)
    ensures forall j :: 0 <= j < |fs| ==> DocTexts(fs)[j] == DocText(fs[j].docstring)
  {
    if fs != [] {
      DocTextsAt(fs[..|fs| - 1]);
    }
  }

  lemma {:induction false} ClassDocTextsAt(cs: seq<ClassInfo>)
    ensures forall j :: 0 <= j < |cs| ==> ClassDocTexts(cs)[j] == DocText(cs[j].docstring)
  {
    if cs != [] {
      ClassDocTextsAt(cs[..|cs| - 1]);
    }
  }

  lemma {:induction false} MethodDocTextsAt(cs: seq<ClassInfo>)
    ensures forall j :: 0 <= j < |cs| ==> MethodDocTexts(cs)[j] == DocTexts(cs[j].methods)
  {
    if cs != [] {
      MethodDocTextsAt(cs[..|cs| - 1]);
    }
  }

  lemma FunctionsTextSnoc(t: FunctionTemplate, fs: seq<FunctionInfo>, docs: seq<string>, k: nat, level: int)
    requires t.Valid() && |docs| == |fs| && k < |fs|
    ensures FunctionsText(t, fs[..k + 1], docs[..k + 1], level)
         == FunctionsText(t, fs[..k], docs[..k], level) + FunctionText(t, fs[k], docs[k], level)
  {
    assert fs[..k + 1][..k] == fs[..k] && docs[..k + 1][..k] == docs[..k];
  }

  twostate lemma MethodDocTextsKept(cs: seq<ClassInfo>)
    requires forall f :: f in MethodsOf(cs) ==> old(f.docstring) == f.docstring
    ensures MethodDocTexts(cs) == old(MethodDocTexts(cs))
  {
    forall j | 0 <= j < |cs|
      ensures MethodDocTexts(cs)[j] == old(MethodDocTexts(cs))[j]
    {
      MethodsOfHas(cs, j);
      assert DocTexts(cs[j].methods) == old(DocTexts(cs[j].methods));
    }
  }

  /** Docstrings that were only filled in still read the same, and those
      that were filled in stay so. */
  twostate lemma ClassesStillRead(cs: seq<ClassInfo>, new docs: seq<string>, new methodDocs: seq<seq<string>>)
    requires old(ClassesRead(cs, docs, methodDocs))
    requires forall d: ClassInfo :: old(allocated(d)) ==> FillStep(old(d.docstring), d.docstring)
    requires forall f: FunctionInfo :: old(allocated(f)) ==> FillStep(old(f.docstring), f.docstring)
    ensures ClassesRead(cs, docs, methodDocs)
    ensures forall j :: 0 <= j < |cs| && old(ClassFilled(cs[j])) ==> ClassFilled(cs[j])
  {
  }

  lemma MethodsOfHas(cs: seq<ClassInfo>, k: nat)
    requires k < |cs|
    ensures forall f :: f in cs[k].methods ==> f in MethodsOf(cs)
  {
  }

  /** The docstrings of the classes and their methods read as `docs` and
      `methodDocs` say. */
  lemma ClassDocTextsAre(cs: seq<ClassInfo>, docs: seq<string>, methodDocs: seq<seq<string>>)
    requires ClassesRead(cs, docs, methodDocs)
    ensures ClassDocTexts(cs) == docs && MethodDocTexts(cs) == methodDocs
  {
    ClassDocTextsAt(cs);
    MethodDocTextsAt(cs);
    forall j | 0 <= j < |cs|
      ensures MethodDocTexts(cs)[j] == methodDocs[j]
    {
      DocTextsAre(cs[j].methods, methodDocs[j]);
    }
  }

  lemma ClassesReadNow(cs: seq<ClassInfo>)
    ensures ClassesRead(cs, ClassDocTexts(cs), MethodDocTexts(cs))
  {
    ClassDocTextsAt(cs);
    MethodDocTextsAt(cs);
    forall j | 0 <= j < |cs|
      ensures MethodDocTexts(cs)[j] == DocTexts(cs[j].methods)
      ensures forall i :: 0 <= i < |cs[j].methods| ==> DocTexts(cs[j].methods)[i] == DocText(cs[j].methods[i].docstring)
    {
      DocTextsAt(cs[j].methods);
    }
  }

  lemma ClassesTextSnoc(ct: ClassTemplate, ft: FunctionTemplate, cs: seq<ClassInfo>, docs: seq<string>,
                        methodDocs: seq<seq<string>>, k: nat, level: int)
    requires ct.Valid() && ft.Valid() && DocsFit(cs, docs, methodDocs) && k < |cs|
    ensures ClassesText(ct, ft, cs[..k + 1], docs[..k + 1], methodDocs[..k + 1], level)
         == ClassesText(ct, ft, cs[..k], docs[..k], methodDocs[..k], level)
            + ClassText(ct, ft, cs[k], docs[k], methodDocs[k], level)
  {
    assert cs[..k + 1][..k] == cs[..k] && docs[..k + 1][..k] == docs[..k];
    assert methodDocs[..k + 1][..k] == methodDocs[..k];
  }

  lemma EachLineSnoc(t: Template, items: seq<string>, i: nat)
    requires t.Slots() <= 1 && i < |items|
    ensures EachLine(t, items[..i + 1]) == EachLine(t, items[..i]) + [Format(t, [items[i]])]
  {
  }
}
