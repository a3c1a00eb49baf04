// What the renderer's output looks like: how many lines each record renders
// to, the order of its sections and members, the heading markers, the text
// the default templates give each line, and that filling in a docstring does
// not change how the record renders.
module Rendering {
  import opened Data
  import opened Templates
  import opened Markdown

  /** The heading marker of level n is n "#" characters (none when n <= 0). */
  lemma {:induction false} HashesShape(n: int)
    ensures |Hashes(n)| == if n <= 0 then 0 else n
    ensures forall i :: 0 <= i < |Hashes(n)| ==> Hashes(n)[i] == '#'
  {
    if n > 0 {
      HashesShape(n - 1);
      assert Hashes(n) == "#" + Hashes(n - 1);
    }
  }

  /** Filling in a docstring does not change how it renders; a filled-in
      docstring is left alone, so filling in twice is filling in once. */
  lemma FilledRendersTheSame(d: Option<string>)
    ensures DocText(Filled(d)) == DocText(d)
    ensures IsFilled(Filled(d)) && Filled(Filled(d)) == Filled(d)
    ensures Filled(d) == d <==> IsFilled(d)
  {
  }

  /** Six lines per function plus one per argument. */
  function FunctionsLineCount(fs: seq<FunctionInfo>): nat
  {
    if fs == [] then 0 else FunctionsLineCount(fs[..|fs| - 1]) + |fs[|fs| - 1].args| + 6
  }

  /** Per class: six lines, one per base, one per decorator, and its methods. */
  function ClassesLineCount(cs: seq<ClassInfo>): nat
  {
    if cs == [] then 0
    else
      var c := cs[|cs| - 1];
      ClassesLineCount(cs[..|cs| - 1]) + 6 + |c.bases| + |c.decorators| + FunctionsLineCount(c.methods)
  }

  /** A function renders to its heading, the Args title, one line per
      argument in order, the Returns title, the return type, the Description
      title and the description: |args| + 6 lines. */
  lemma FunctionTextLayout(t: FunctionTemplate, f: FunctionInfo, doc: string, level: int)
    requires t.Valid()
    ensures var r, n, sub := FunctionText(t, f, doc, level), |f.args|, Hashes(level + 1);
      && |r| == n + 6
      && r[0] == Format(t.nameTemplate, [Hashes(level), AsyncMarker(f.isAsync), OwnerPrefix(f.className), f.name])
      && r[1] == Format(t.argTitleTemplate, [sub])
      && (forall i :: 0 <= i < n ==> r[2 + i] == ArgLine(t, f.args[i]))
      && r[n + 2] == Format(t.returnTitleTemplate, [sub])
      && r[n + 3] == Format(t.returnTypeTemplate, [ReturnText(f.returnType)])
      && r[n + 4] == Format(t.docstringTitleTemplate, [sub])
      && r[n + 5] == Format(t.docstringContentTemplate, [doc])
  {
  }

  /** With the default templates: `*args` and `**kwargs` show their name
      only; every other argument shows name, type and default, an absent one
      as "None". */
  lemma DefaultArgLine(a: ArgumentInfo)
    ensures FunctionTemplate().Valid()
    ensures Starred(a.name) ==> ArgLine(FunctionTemplate(), a) == "- `" + a.name + "`"
    ensures !Starred(a.name) ==>
      ArgLine(FunctionTemplate(), a)
      == "- `" + a.name + "`: `" + OptionText(a.typeHint) + "` = `" + OptionText(a.defaultValue) + "`"
  {
    DefaultFunctionTemplateFormats("", "", "", a.name, OptionText(a.typeHint), OptionText(a.defaultValue));
  }

  /** The lines of a function rendered with the default templates. */
  lemma DefaultFunctionText(f: FunctionInfo, doc: string, level: int)
    ensures FunctionTemplate().Valid()
    ensures var r, n, sub := FunctionText(FunctionTemplate(), f, doc, level), |f.args|, Hashes(level + 1);
      && |r| == n + 6
      && r[0] == Hashes(level) + " `" + AsyncMarker(f.isAsync) + OwnerPrefix(f.className) + f.name + "`"
      && r[1] == sub + " Args:"
      && (forall i :: 0 <= i < n ==> r[2 + i] == ArgLine(FunctionTemplate(), f.args[i]))
      && r[n + 2] == sub + " Returns:"
      && r[n + 3] == "- `" + ReturnText(f.returnType) + "`"
      && r[n + 4] == sub + " Description:"
      && r[n + 5] == doc
  {
    var t := FunctionTemplate();
    FunctionTextLayout(t, f, doc, level);
    DefaultFunctionTemplateFormats(Hashes(level), AsyncMarker(f.isAsync), OwnerPrefix(f.className), f.name, "", "");
    DefaultFunctionTemplateFormats(Hashes(level + 1), "", "", "", ReturnText(f.returnType), doc);
  }

  /** Functions render one after the other: the rendering of a list split
      anywhere is the renderings of its two parts, in order. */
  lemma {:induction false} FunctionsTextAppend(t: FunctionTemplate, fs: seq<FunctionInfo>, gs: seq<FunctionInfo>,
                                               fDocs: seq<string>, gDocs: seq<string>, level: int)
    requires t.Valid() && |fDocs| == |fs| && |gDocs| == |gs|
    ensures FunctionsText(t, fs + gs, fDocs + gDocs, level)
         == FunctionsText(t, fs, fDocs, level) + FunctionsText(t, gs, gDocs, level)
  {
    if gs == [] {
      assert fs + gs == fs && fDocs + gDocs == fDocs;
    } else {
      var n := |gs| - 1;
      FunctionsTextAppend(t, fs, gs[..n], fDocs, gDocs[..n], level);
      DropLastOfAppend(fs, gs);
      DropLastOfAppend(fDocs, gDocs);
      AppendAssociates(FunctionsText(t, fs, fDocs, level), FunctionsText(t, gs[..n], gDocs[..n], level),
                       FunctionText(t, gs[n], gDocs[n], level));
    }
  }

  /** Dropping the last element of `xs + ys`, with `ys` non-empty, drops it from `ys`. */
  lemma DropLastOfAppend<T>(xs: seq<T>, ys: seq<T>)
    requires ys != []
    ensures (xs + ys)[..|xs + ys| - 1] == xs + ys[..|ys| - 1]
    ensures (xs + ys)[|xs + ys| - 1] == ys[|ys| - 1]
  {
  }

  lemma AppendAssociates(a: seq<string>, b: seq<string>, c: seq<string>)
    ensures a + b + c == a + (b + c)
  {
  }

  lemma {:induction false} FunctionsTextLength(t: FunctionTemplate, fs: seq<FunctionInfo>, docs: seq<string>, level: int)
    requires t.Valid() && |docs| == |fs|
    ensures |FunctionsText(t, fs, docs, level)| == FunctionsLineCount(fs)
  {
    if fs != [] {
      var n := |fs| - 1;
      FunctionsTextLength(t, fs[..n], docs[..n], level);
      FunctionTextLayout(t, fs[n], docs[n], level);
    }
  }

  /** A class renders to its heading, the Bases title, one line per base,
      the Decorators title, one line per decorator, the Methods title, its
      methods in order two levels deeper, the Description title and the
      description. */
  lemma ClassTextLayout(ct: ClassTemplate, ft: FunctionTemplate, c: ClassInfo, doc: string,
                        methodDocs: seq<string>, level: int)
    requires ct.Valid() && ft.Valid() && |methodDocs| == |c.methods|
    ensures var r, b, d, sub := ClassText(ct, ft, c, doc, methodDocs, level), |c.bases|, |c.decorators|, Hashes(level + 1);
      var methods := FunctionsText(ft, c.methods, methodDocs, level + 2);
      var m := |methods|;
      && |r| == 6 + b + d + FunctionsLineCount(c.methods)
      && r[0] == Format(ct.nameTemplate, [Hashes(level), c.name])
      && r[1] == Format(ct.basesTitleTemplate, [sub])
      && (forall i :: 0 <= i < b ==> r[2 + i] == Format(ct.basesTemplate, [c.bases[i]]))
      && r[2 + b] == Format(ct.decoratorsTitleTemplate, [sub])
      && (forall i :: 0 <= i < d ==> r[3 + b + i] == Format(ct.decoratorTemplate, [c.decorators[i]]))
      && r[3 + b + d] == Format(ct.methodsTitleTemplate, [sub])
      && r[4 + b + d..4 + b + d + m] == methods
      && r[4 + b + d + m] == Format(ct.docstringTitleTemplate, [sub])
      && r[5 + b + d + m] == Format(ct.docstringContentTemplate, [doc])
  {
    FunctionsTextLength(ft, c.methods, methodDocs, level + 2);
    var r := ClassText(ct, ft, c, doc, methodDocs, level);
    var b, d := |c.bases|, |c.decorators|;
    var sub := Hashes(level + 1);
    var head := ClassHead(ct, c, level);
    var methods := FunctionsText(ft, c.methods, methodDocs, level + 2);
    assert r == head + methods + [Format(ct.docstringTitleTemplate, [sub]), Format(ct.docstringContentTemplate, [doc])];
    assert |head| == 4 + b + d;
    assert r[..4 + b + d] == head;
    forall i | 0 <= i < b
      ensures r[2 + i] == Format(ct.basesTemplate, [c.bases[i]])
    {
      assert r[2 + i] == head[2 + i];
    }
    forall i | 0 <= i < d
      ensures r[3 + b + i] == Format(ct.decoratorTemplate, [c.decorators[i]])
    {
      assert r[3 + b + i] == head[3 + b + i];
    }
  }

  /** The lines of the head of a class rendered with the default template. */
  lemma DefaultClassHead(c: ClassInfo, level: int)
    ensures ClassTemplate().Valid()
    ensures var r, b, d, sub := ClassHead(ClassTemplate(), c, level), |c.bases|, |c.decorators|, Hashes(level + 1);
      && |r| == 4 + b + d
      && r[0] == Hashes(level) + " `class " + c.name + "`"
      && r[1] == sub + " Bases:"
      && (forall i :: 0 <= i < b ==> r[2 + i] == "- Bases: " + c.bases[i])
      && r[2 + b] == sub + " Decorators:"
      && (forall i :: 0 <= i < d ==> r[3 + b + i] == "- " + c.decorators[i])
      && r[3 + b + d] == sub + " Methods:"
  {
    var ct := ClassTemplate();
    var r, b, d, sub := ClassHead(ct, c, level), |c.bases|, |c.decorators|, Hashes(level + 1);
    DefaultClassTemplateFormats(Hashes(level), c.name, "");
    DefaultClassTemplateFormats(sub, "", "");
    forall i | 0 <= i < b
      ensures r[2 + i] == "- Bases: " + c.bases[i]
    {
      DefaultClassTemplateFormats(sub, "", c.bases[i]);
    }
    forall i | 0 <= i < d
      ensures r[3 + b + i] == "- " + c.decorators[i]
    {
      DefaultClassTemplateFormats(sub, "", c.decorators[i]);
    }
  }

  lemma {:induction false} ClassesTextLength(ct: ClassTemplate, ft: FunctionTemplate, cs: seq<ClassInfo>,
                                             docs: seq<string>, methodDocs: seq<seq<string>>, level: int)
    requires ct.Valid() && ft.Valid() && DocsFit(cs, docs, methodDocs)
    ensures |ClassesText(ct, ft, cs, docs, methodDocs, level)| == ClassesLineCount(cs)
  {
    if cs != [] {
      var n := |cs| - 1;
      ClassesTextLength(ct, ft, cs[..n], docs[..n], methodDocs[..n], level);
      ClassTextLayout(ct, ft, cs[n], docs[n], methodDocs[n], level);
    }
  }

  /** Two lists of classes with their docstring texts fit together. */
  lemma DocsFitAppend(cs: seq<ClassInfo>, ds: seq<ClassInfo>, cDocs: seq<string>, dDocs: seq<string>,
                      cMethodDocs: seq<seq<string>>, dMethodDocs: seq<seq<string>>)
    requires DocsFit(cs, cDocs, cMethodDocs) && DocsFit(ds, dDocs, dMethodDocs)
    ensures DocsFit(cs + ds, cDocs + dDocs, cMethodDocs + dMethodDocs)
  {
    forall j | 0 <= j < |cs + ds|
      ensures |(cMethodDocs + dMethodDocs)[j]| == |(cs + ds)[j].methods|
    {
      if j >= |cs| {
        assert (cMethodDocs + dMethodDocs)[j] == dMethodDocs[j - |cs|];
      }
    }
  }

  /** Rendering `cs + ds` ends with the last class of `ds`. */
  lemma ClassesTextAppendLast(ct: ClassTemplate, ft: FunctionTemplate, cs: seq<ClassInfo>, ds: seq<ClassInfo>,
                              cDocs: seq<string>, dDocs: seq<string>,
                              cMethodDocs: seq<seq<string>>, dMethodDocs: seq<seq<string>>, level: int)
    requires ct.Valid() && ft.Valid() && ds != []
    requires DocsFit(cs + ds, cDocs + dDocs, cMethodDocs + dMethodDocs) && DocsFit(ds, dDocs, dMethodDocs)
    ensures var n := |ds| - 1;
      && DocsFit(cs + ds[..n], cDocs + dDocs[..n], cMethodDocs + dMethodDocs[..n])
      && ClassesText(ct, ft, cs + ds, cDocs + dDocs, cMethodDocs + dMethodDocs, level)
         == ClassesText(ct, ft, cs + ds[..n], cDocs + dDocs[..n], cMethodDocs + dMethodDocs[..n], level)
            + ClassText(ct, ft, ds[n], dDocs[n], dMethodDocs[n], level)
  {
    ClassesTextLast(ct, ft, cs + ds, cDocs + dDocs, cMethodDocs + dMethodDocs, level);
    DropLastOfAppend(cs, ds);
    DropLastOfAppend(cDocs, dDocs);
    DropLastOfAppend(cMethodDocs, dMethodDocs);
  }

  /** The rendering of a non-empty list of classes ends with its last class. */
  lemma ClassesTextLast(ct: ClassTemplate, ft: FunctionTemplate, cs: seq<ClassInfo>,
                        docs: seq<string>, methodDocs: seq<seq<string>>, level: int)
    requires ct.Valid() && ft.Valid() && DocsFit(cs, docs, methodDocs) && cs != []
    ensures var n := |cs| - 1;
      && DocsFit(cs[..n], docs[..n], methodDocs[..n])
      && ClassesText(ct, ft, cs, docs, methodDocs, level)
         == ClassesText(ct, ft, cs[..n], docs[..n], methodDocs[..n], level) + ClassText(ct, ft, cs[n], docs[n], methodDocs[n], level)
  {
  }

  /** Classes render one after the other, in order. */
  lemma {:induction false} ClassesTextAppend(ct: ClassTemplate, ft: FunctionTemplate, cs: seq<ClassInfo>, ds: seq<ClassInfo>,
                                             cDocs: seq<string>, dDocs: seq<string>,
                                             cMethodDocs: seq<seq<string>>, dMethodDocs: seq<seq<string>>, level: int)
    requires ct.Valid() && ft.Valid()
    requires DocsFit(cs, cDocs, cMethodDocs) && DocsFit(ds, dDocs, dMethodDocs)
    ensures DocsFit(cs + ds, cDocs + dDocs, cMethodDocs + dMethodDocs)
    ensures ClassesText(ct, ft, cs + ds, cDocs + dDocs, cMethodDocs + dMethodDocs, level)
         == ClassesText(ct, ft, cs, cDocs, cMethodDocs, level) + ClassesText(ct, ft, ds, dDocs, dMethodDocs, level)
  {
    DocsFitAppend(cs, ds, cDocs, dDocs, cMethodDocs, dMethodDocs);
    if ds == [] {
      assert cs + ds == cs && cDocs + dDocs == cDocs && cMethodDocs + dMethodDocs == cMethodDocs;
    } else {
      var n := |ds| - 1;
      assert DocsFit(ds[..n], dDocs[..n], dMethodDocs[..n]);
      ClassesTextAppend(ct, ft, cs, ds[..n], cDocs, dDocs[..n], cMethodDocs, dMethodDocs[..n], level);
      ClassesTextAppendLast(ct, ft, cs, ds, cDocs, dDocs, cMethodDocs, dMethodDocs, level);
      AppendAssociates(ClassesText(ct, ft, cs, cDocs, cMethodDocs, level),
                       ClassesText(ct, ft, ds[..n], dDocs[..n], dMethodDocs[..n], level),
                       ClassText(ct, ft, ds[n], dDocs[n], dMethodDocs[n], level));
    }
  }

  /** A module renders to the fixed "Module:" heading, the Description title,
      the description, the Classes title, its classes in order two levels
      deeper, the Functions title and its functions in order two levels
      deeper. */
  lemma ModuleLinesLayout(mt: ModuleTemplate, ct: ClassTemplate, ft: FunctionTemplate, m: ModuleInfo, level: int)
    requires mt.Valid() && ct.Valid() && ft.Valid()
    ensures var r, sub := ModuleLines(mt, ct, ft, m, level), Hashes(level + 1);
      var classes := ClassesLines(ct, ft, m.classes, level + 2);
      var k := |classes|;
      && |r| == 5 + k + |FunctionsLines(ft, m.functions, level + 2)|
      && r[..4] == ModuleHead(mt, m.name, DocText(m.docstring), level)
      && r[0] == Hashes(level) + " Module: " + m.name
      && r[4..4 + k] == classes
      && r[4 + k] == Format(mt.functionsTitleTemplate, [sub])
      && r[5 + k..] == FunctionsLines(ft, m.functions, level + 2)
  {
    var head := ModuleHead(mt, m.name, DocText(m.docstring), level);
    var classes := ClassesLines(ct, ft, m.classes, level + 2);
    var title := [Format(mt.functionsTitleTemplate, [Hashes(level + 1)])];
    var functions := FunctionsLines(ft, m.functions, level + 2);
    ModuleLinesParts(ModuleLines(mt, ct, ft, m, level), head, classes, title, functions);
  }

  /** Five lines of its own per module, plus its classes and functions. */
  lemma ModuleLinesLength(mt: ModuleTemplate, ct: ClassTemplate, ft: FunctionTemplate, m: ModuleInfo, level: int)
    requires mt.Valid() && ct.Valid() && ft.Valid()
    ensures |ModuleLines(mt, ct, ft, m, level)| == 5 + ClassesLineCount(m.classes) + FunctionsLineCount(m.functions)
  {
    ModuleLinesLayout(mt, ct, ft, m, level);
    ClassesTextLength(ct, ft, m.classes, ClassDocTexts(m.classes), MethodDocTexts(m.classes), level + 2);
    FunctionsTextLength(ft, m.functions, DocTexts(m.functions), level + 2);
  }

  /** Where the four parts of a module rendering sit in it. */
  lemma ModuleLinesParts(r: seq<string>, head: seq<string>, classes: seq<string>, title: seq<string>, functions: seq<string>)
    requires r == head + classes + title + functions && |head| == 4 && |title| == 1
    ensures |r| == 5 + |classes| + |functions|
    ensures r[..4] == head && r[4..4 + |classes|] == classes && r[4 + |classes|] == title[0]
    ensures r[5 + |classes|..] == functions
  {
  }

  /** The head of a module rendered with the default template. */
  lemma DefaultModuleHead(name: string, doc: string, level: int)
    ensures ModuleTemplate().Valid()
    ensures var sub := Hashes(level + 1);
      ModuleHead(ModuleTemplate(), name, doc, level)
      == [Hashes(level) + " Module: " + name, sub + " Description:", doc, sub + " Classes:"]
  {
    DefaultModuleTemplateFormats(Hashes(level + 1), doc);
  }

  /** Filling in docstrings does not change how a list of functions reads. */
  twostate lemma {:induction false} DocTextsFilled(fs: seq<FunctionInfo>)
    requires forall f :: f in fs ==> FillStep(old(f.docstring), f.docstring)
    ensures DocTexts(fs) == old(DocTexts(fs))
  {
    if fs != [] {
      DocTextsFilled(fs[..|fs| - 1]);
      FilledRendersTheSame(old(fs[|fs| - 1].docstring));
    }
  }

  twostate lemma {:induction false} ClassDocTextsFilled(cs: seq<ClassInfo>)
    requires forall c :: c in cs ==> FillStep(old(c.docstring), c.docstring)
    ensures ClassDocTexts(cs) == old(ClassDocTexts(cs))
  {
    if cs != [] {
      ClassDocTextsFilled(cs[..|cs| - 1]);
      FilledRendersTheSame(old(cs[|cs| - 1].docstring));
    }
  }

  twostate lemma MethodDocTextsFilled(cs: seq<ClassInfo>)
    requires forall f :: f in MethodsOf(cs) ==> FillStep(old(f.docstring), f.docstring)
    ensures MethodDocTexts(cs) == old(MethodDocTexts(cs))
  {
    forall j | 0 <= j < |cs|
      ensures MethodDocTexts(cs)[j] == old(MethodDocTexts(cs))[j]
    {
      MethodsOfHas(cs, j);
      DocTextsFilled(cs[j].methods);
    }
  }

  /** Rendering a class again after its docstrings were filled in gives
      the same lines: the class renders the same before and after. */
  twostate lemma ClassLinesFilled(ct: ClassTemplate, ft: FunctionTemplate, c: ClassInfo, level: int)
    requires ct.Valid() && ft.Valid()
    requires FillStep(old(c.docstring), c.docstring)
    requires forall f :: f in c.methods ==> FillStep(old(f.docstring), f.docstring)
    ensures ClassLines(ct, ft, c, level) == old(ClassLines(ct, ft, c, level))
  {
    DocTextsFilled(c.methods);
    FilledRendersTheSame(old(c.docstring));
  }

  /** The same for a module: rendering it twice gives the same lines. */
  twostate lemma ModuleLinesFilled(mt: ModuleTemplate, ct: ClassTemplate, ft: FunctionTemplate, m: ModuleInfo, level: int)
    requires mt.Valid() && ct.Valid() && ft.Valid()
    requires FillStep(old(m.docstring), m.docstring)
    requires forall c :: c in m.classes ==> FillStep(old(c.docstring), c.docstring)
    requires forall f :: f in MethodsOf(m.classes) || f in m.functions ==> FillStep(old(f.docstring), f.docstring)
    ensures ModuleLines(mt, ct, ft, m, level) == old(ModuleLines(mt, ct, ft, m, level))
  {
    DocTextsFilled(m.functions);
    ClassDocTextsFilled(m.classes);
    MethodDocTextsFilled(m.classes);
    FilledRendersTheSame(old(m.docstring));
  }
}
