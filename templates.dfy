// The format strings that lay out the rendered Markdown, and Python's
// `str.format` restricted to what these strings use: auto-numbered `{}` slots
// and no `{{` escapes, field names or format specifications.
module Templates {

  /** A format string `lead {} rest[0] {} rest[1] ... {} rest[n-1]`:
      literal text with one `{}` slot before each element of `rest`. */
  datatype Template = Template(lead: string, rest: seq<string>)
  {
    /** The number of `{}` slots. */
    function Slots(): nat { |rest| }

    /** The template written out as the format string it stands for. */
    function Text(): string
    {
      lead + SlotsText(rest)
    }
  }

  function SlotsText(rest: seq<string>): string
  {
    if rest == [] then "" else "{}" + rest[0] + SlotsText(rest[1..])
  }

  /** The i-th positional argument goes into the i-th slot; arguments past the
      last slot are ignored, as `str.format` ignores them. Fewer arguments than
      slots raise IndexError in Python, so that is excluded by `requires`. */
  function Format(t: Template, args: seq<string>): string
    requires t.Slots() <= |args|
  {
    t.lead + Fill(t.rest, args)
  }

  function Fill(rest: seq<string>, args: seq<string>): string
    requires |rest| <= |args|
  {
    if rest == [] then "" else args[0] + rest[0] + Fill(rest[1..], args[1..])
  }

  /** Formatting reads only the first Slots() arguments. */
  lemma {:induction false} FormatIgnoresExtraArgs(t: Template, args: seq<string>)
    requires t.Slots() <= |args|
    ensures Format(t, args) == Format(t, args[..t.Slots()])
  {
    FillIgnoresExtraArgs(t.rest, args);
  }

  lemma {:induction false} FillIgnoresExtraArgs(rest: seq<string>, args: seq<string>)
    requires |rest| <= |args|
    ensures Fill(rest, args) == Fill(rest, args[..|rest|])
  {
    if rest != [] {
      FillIgnoresExtraArgs(rest[1..], args[1..]);
      assert args[..|rest|][1..] == args[1..][..|rest| - 1];
    }
  }

  /** Every literal chunk survives formatting: the result is exactly as long
      as the template's literal text plus the arguments put into its slots. */
  lemma {:induction false} FormatLength(t: Template, args: seq<string>)
    requires t.Slots() <= |args|
    ensures |Format(t, args)| == |t.lead| + FillLength(t.rest, args)
  {
    FillLengthIsLength(t.rest, args);
  }

  function FillLength(rest: seq<string>, args: seq<string>): nat
    requires |rest| <= |args|
  {
    if rest == [] then 0 else |args[0]| + |rest[0]| + FillLength(rest[1..], args[1..])
  }

  lemma {:induction false} FillLengthIsLength(rest: seq<string>, args: seq<string>)
    requires |rest| <= |args|
    ensures |Fill(rest, args)| == FillLength(rest, args)
  {
    if rest != [] {
      FillLengthIsLength(rest[1..], args[1..]);
    }
  }

  /** A template `{}` followed by a fixed title, as every `*_title_template` is. */
  function Titled(title: string): Template { Template("", [title]) }

  /** The identity format string `{}`. */
  const Identity: Template := Template("", [""])

  /** The layout of one function. */
  datatype FunctionTemplate = FunctionTemplate(
    nameTemplate: Template := Template("", [" `", "", "", "`"]),
    argTitleTemplate: Template := Titled(" Args:"),
    defaultTemplate: Template := Template("- `", ["`: `", "` = `", "`"]),
    vkargTemplate: Template := Template("- `", ["`"]),
    returnTitleTemplate: Template := Titled(" Returns:"),
    returnTypeTemplate: Template := Template("- `", ["`"]),
    docstringTitleTemplate: Template := Titled(" Description:"),
    docstringContentTemplate: Template := Identity)
  {
    /** No template has more slots than the renderer fills: heading level,
        async marker, owner prefix and name; name, type and default; one
        value for every other template. */
    predicate Valid()
    {
      nameTemplate.Slots() <= 4 && argTitleTemplate.Slots() <= 1 &&
      defaultTemplate.Slots() <= 3 && vkargTemplate.Slots() <= 1 &&
      returnTitleTemplate.Slots() <= 1 && returnTypeTemplate.Slots() <= 1 &&
      docstringTitleTemplate.Slots() <= 1 && docstringContentTemplate.Slots() <= 1
    }
  }

  /** The layout of one class; `methodTemplate` is a fresh default function layout. */
  datatype ClassTemplate = ClassTemplate(
    nameTemplate: Template := Template("", [" `class ", "`"]),
    basesTitleTemplate: Template := Titled(" Bases:"),
    basesTemplate: Template := Template("- Bases: ", [""]),
    decoratorsTitleTemplate: Template := Titled(" Decorators:"),
    decoratorTemplate: Template := Template("- ", [""]),
    methodsTitleTemplate: Template := Titled(" Methods:"),
    methodTemplate: FunctionTemplate := FunctionTemplate(),
    docstringTitleTemplate: Template := Titled(" Description:"),
    docstringContentTemplate: Template := Identity)
  {
    /** No template the class renderer fills has more slots than it supplies. */
    predicate Valid()
    {
      nameTemplate.Slots() <= 2 && basesTitleTemplate.Slots() <= 1 &&
      basesTemplate.Slots() <= 1 && decoratorsTitleTemplate.Slots() <= 1 &&
      decoratorTemplate.Slots() <= 1 && methodsTitleTemplate.Slots() <= 1 &&
      docstringTitleTemplate.Slots() <= 1 && docstringContentTemplate.Slots() <= 1
    }
  }

  /** The layout of one module; `nameTemplate` is never read by the renderer,
      which writes the module heading itself. */
  datatype ModuleTemplate = ModuleTemplate(
    nameTemplate: Template := Template("", [" Module: *", "*"]),
    classesTitleTemplate: Template := Titled(" Classes:"),
    classTemplate: ClassTemplate := ClassTemplate(),
    functionsTitleTemplate: Template := Titled(" Functions:"),
    functionTemplate: FunctionTemplate := FunctionTemplate(),
    docstringTitleTemplate: Template := Titled(" Description:"),
    docstringContentTemplate: Template := Identity)
  {
    /** No template the module renderer fills has more slots than it supplies. */
    predicate Valid()
    {
      classesTitleTemplate.Slots() <= 1 && functionsTitleTemplate.Slots() <= 1 &&
      docstringTitleTemplate.Slots() <= 1 && docstringContentTemplate.Slots() <= 1
    }
  }

  /** The chunk-and-slot form of each default function template agrees with
      the literal format string it models. */
  lemma DefaultFunctionTemplateTexts()
    ensures FunctionTemplate().nameTemplate.Text() == "{} `{}{}{}`"
    ensures FunctionTemplate().argTitleTemplate.Text() == "{} Args:"
    ensures FunctionTemplate().defaultTemplate.Text() == "- `{}`: `{}` = `{}`"
    ensures FunctionTemplate().vkargTemplate.Text() == "- `{}`"
    ensures FunctionTemplate().returnTitleTemplate.Text() == "{} Returns:"
    ensures FunctionTemplate().returnTypeTemplate.Text() == "- `{}`"
    ensures FunctionTemplate().docstringTitleTemplate.Text() == "{} Description:"
    ensures FunctionTemplate().docstringContentTemplate.Text() == "{}"
  {
    OneSlotText("", " Args:");
    OneSlotText("- `", "`");
    OneSlotText("", " Returns:");
    OneSlotText("", " Description:");
    OneSlotText("", "");
    NameAndDefaultTexts();
  }

  lemma NameAndDefaultTexts()
    ensures Template("", [" `", "", "", "`"]).Text() == "{} `{}{}{}`"
    ensures Template("- `", ["`: `", "` = `", "`"]).Text() == "- `{}`: `{}` = `{}`"
  {
    NameText();
    assert SlotsText(["`"]) == "{}`";
    assert SlotsText(["` = `", "`"]) == "{}` = `{}`";
    assert SlotsText(["`: `", "` = `", "`"]) == "{}`: `{}` = `{}`";
  }

  lemma NameText()
    ensures Template("", [" `", "", "", "`"]).Text() == "{} `{}{}{}`"
  {
    assert SlotsText(["`"]) == "{}`";
    assert SlotsText(["", "`"]) == "{}{}`";
    assert SlotsText(["", "", "`"]) == "{}{}{}`";
  }

  /** The same for the default class template; its method layout defaults
      to a freshly built default function layout. */
  lemma DefaultClassTemplateTexts()
    ensures ClassTemplate().nameTemplate.Text() == "{} `class {}`"
    ensures ClassTemplate().basesTitleTemplate.Text() == "{} Bases:"
    ensures ClassTemplate().basesTemplate.Text() == "- Bases: {}"
    ensures ClassTemplate().decoratorsTitleTemplate.Text() == "{} Decorators:"
    ensures ClassTemplate().decoratorTemplate.Text() == "- {}"
    ensures ClassTemplate().methodsTitleTemplate.Text() == "{} Methods:"
    ensures ClassTemplate().docstringTitleTemplate.Text() == "{} Description:"
    ensures ClassTemplate().docstringContentTemplate.Text() == "{}"
    ensures ClassTemplate().methodTemplate == FunctionTemplate()
  {
    OneSlotText("", " Bases:");
    OneSlotText("- Bases: ", "");
    OneSlotText("", " Decorators:");
    OneSlotText("- ", "");
    OneSlotText("", " Methods:");
    OneSlotText("", " Description:");
    OneSlotText("", "");
    ClassNameText();
  }

  lemma ClassNameText()
    ensures Template("", [" `class ", "`"]).Text() == "{} `class {}`"
  {
    assert SlotsText(["`"]) == "{}`";
    assert SlotsText([" `class ", "`"]) == "{} `class {}`";
  }

  /** The same for the default module template; its nested class and
      function layouts default to freshly built defaults. */
  lemma DefaultModuleTemplateTexts()
    ensures ModuleTemplate().nameTemplate.Text() == "{} Module: *{}*"
    ensures ModuleTemplate().classesTitleTemplate.Text() == "{} Classes:"
    ensures ModuleTemplate().functionsTitleTemplate.Text() == "{} Functions:"
    ensures ModuleTemplate().docstringTitleTemplate.Text() == "{} Description:"
    ensures ModuleTemplate().docstringContentTemplate.Text() == "{}"
    ensures ModuleTemplate().classTemplate == ClassTemplate()
    ensures ModuleTemplate().functionTemplate == FunctionTemplate()
  {
    OneSlotText("", " Description:");
    OneSlotText("", "");
    OneSlotText("", " Classes:");
    OneSlotText("", " Functions:");
    ModuleNameText();
  }

  lemma ModuleNameText()
    ensures Template("", [" Module: *", "*"]).Text() == "{} Module: *{}*"
  {
    assert SlotsText(["*"]) == "{}*";
    assert SlotsText([" Module: *", "*"]) == "{} Module: *{}*";
  }

  lemma OneSlotText(lead: string, trail: string)
    ensures Template(lead, [trail]).Text() == lead + "{}" + trail
  {
    assert SlotsText([trail]) == "{}" + trail + "";
    assert "{}" + trail + "" == "{}" + trail;
  }

  /** The defaults fit the renderer. */
  lemma DefaultTemplatesValid()
    ensures FunctionTemplate().Valid() && ClassTemplate().Valid() && ModuleTemplate().Valid()
  {
  }

  /** Filling the one slot of `lead {} trail` with x. */
  lemma OneSlotFormat(lead: string, trail: string, x: string)
    ensures Format(Template(lead, [trail]), [x]) == lead + x + trail
  {
    assert Fill([trail], [x]) == x + trail + "";
    assert x + trail + "" == x + trail;
  }

  /** What each default function template produces from its arguments. */
  lemma DefaultFunctionTemplateFormats(h: string, a: string, o: string, n: string, t: string, d: string)
    ensures Format(FunctionTemplate().nameTemplate, [h, a, o, n]) == h + " `" + a + o + n + "`"
    ensures Format(FunctionTemplate().argTitleTemplate, [h]) == h + " Args:"
    ensures Format(FunctionTemplate().defaultTemplate, [n, t, d]) == "- `" + n + "`: `" + t + "` = `" + d + "`"
    ensures Format(FunctionTemplate().vkargTemplate, [n]) == "- `" + n + "`"
    ensures Format(FunctionTemplate().returnTitleTemplate, [h]) == h + " Returns:"
    ensures Format(FunctionTemplate().returnTypeTemplate, [t]) == "- `" + t + "`"
    ensures Format(FunctionTemplate().docstringTitleTemplate, [h]) == h + " Description:"
    ensures Format(FunctionTemplate().docstringContentTemplate, [d]) == d
  {
    OneSlotFormat("", " Args:", h);
    OneSlotFormat("- `", "`", n);
    OneSlotFormat("- `", "`", t);
    OneSlotFormat("", " Returns:", h);
    OneSlotFormat("", " Description:", h);
    OneSlotFormat("", "", d);
    assert Fill(["`"], [n]) == n + "`" + "";
    assert Fill(["", "`"], [o, n]) == o + "" + (n + "`" + "");
    assert Fill(["", "", "`"], [a, o, n]) == a + "" + (o + "" + (n + "`" + ""));
    assert Fill([" `", "", "", "`"], [h, a, o, n]) == h + " `" + (a + "" + (o + "" + (n + "`" + "")));
    assert Fill(["`"], [d]) == d + "`" + "";
    assert Fill(["` = `", "`"], [t, d]) == t + "` = `" + (d + "`" + "");
    assert Fill(["`: `", "` = `", "`"], [n, t, d]) == n + "`: `" + (t + "` = `" + (d + "`" + ""));
  }

  /** What each default class template produces from its arguments. */
  lemma DefaultClassTemplateFormats(h: string, n: string, x: string)
    ensures Format(ClassTemplate().nameTemplate, [h, n]) == h + " `class " + n + "`"
    ensures Format(ClassTemplate().basesTitleTemplate, [h]) == h + " Bases:"
    ensures Format(ClassTemplate().basesTemplate, [x]) == "- Bases: " + x
    ensures Format(ClassTemplate().decoratorsTitleTemplate, [h]) == h + " Decorators:"
    ensures Format(ClassTemplate().decoratorTemplate, [x]) == "- " + x
    ensures Format(ClassTemplate().methodsTitleTemplate, [h]) == h + " Methods:"
    ensures Format(ClassTemplate().docstringTitleTemplate, [h]) == h + " Description:"
    ensures Format(ClassTemplate().docstringContentTemplate, [x]) == x
  {
    OneSlotFormat("", " Bases:", h);
    OneSlotFormat("- Bases: ", "", x);
    OneSlotFormat("", " Decorators:", h);
    OneSlotFormat("- ", "", x);
    OneSlotFormat("", " Methods:", h);
    OneSlotFormat("", " Description:", h);
    OneSlotFormat("", "", x);
    assert Fill(["`"], [n]) == n + "`" + "";
    assert Fill([" `class ", "`"], [h, n]) == h + " `class " + (n + "`" + "");
  }

  /** What each default module template produces from its arguments. */
  lemma DefaultModuleTemplateFormats(h: string, x: string)
    ensures Format(ModuleTemplate().classesTitleTemplate, [h]) == h + " Classes:"
    ensures Format(ModuleTemplate().functionsTitleTemplate, [h]) == h + " Functions:"
    ensures Format(ModuleTemplate().docstringTitleTemplate, [h]) == h + " Description:"
    ensures Format(ModuleTemplate().docstringContentTemplate, [x]) == x
  {
    OneSlotFormat("", " Classes:", h);
    OneSlotFormat("", " Functions:", h);
    OneSlotFormat("", " Description:", h);
    OneSlotFormat("", "", x);
  }
}
