# auto-report: signature extraction and Markdown rendering

This project models the core of auto-report, a tool that documents Python
source files as Markdown. It has two halves.

- `FunctionParser` reads one `def` or `async def` node of the syntax tree. It
  produces a `FunctionInfo` record with the name, the parameter list, the
  return annotation, the docstring, the decorators and the async flag.
- `MarkdownGenerator` turns a `ModuleInfo`, `ClassInfo` or `FunctionInfo`
  record into a list of Markdown lines. It recurses into the methods of a
  class and the classes and functions of a module, two heading levels
  deeper each time. It writes the placeholder "No docstring provided." into
  every empty docstring it meets, in the record itself.

The files:

- `data.dfy` (module `Data`) holds the records. `ArgumentInfo` is a value.
  `FunctionInfo`, `ClassInfo` and `ModuleInfo` are classes, because the
  renderer overwrites their `docstring` field in place. Every other field is
  a `const`.
- `templates.dfy` (module `Templates`) holds the three template records and
  the part of Python's `str.format` they use. A template is literal text with
  `{}` slots between the pieces. `Format` fills the slots in order and
  ignores surplus arguments.
- `codeparser.dfy` (module `CodeParser`) holds `FunctionParser`. Its loops are
  methods. Each is proved equal to a specification function (`ArgumentInfos`)
  or to its elementwise meaning, and the offset arithmetic of the defaults is
  proved about that function.
- `markdown.dfy` (module `Markdown`) holds `MarkdownGenerator`.
  - Each `_generate_*` routine is a method that builds the lines step by step
    and fills in docstrings.
  - Each is proved equal to a heap-reading rendering function
    (`FunctionLines`, `ClassLines`, `ModuleLines`). Those functions are in
    turn defined on heap-free text functions (`FunctionText`, `ClassText`,
    `ModuleHead`).
  - Each method also states which docstrings it changes and to what, down to
    the methods of a class and the members of a module, `Generate` included.
  - `Generate` and its branch methods also state what they leave alone. In the
    class branch, the stored function keeps its docstring unless it is one of
    the class's methods. In the module branch, the stored class, its methods
    and the stored function keep theirs unless they belong to the module.
    Three nested helper methods below `GenerateModuleDocument` add these
    statements one at a time.
  - The stored class and function records are `const` fields, because the
    source assigns them only in the constructor. The stored module is a `var`,
    because `load_file` replaces it.
  - `Generate` clears `lines` only on the branch that reports the error. The
    other branches overwrite `lines`, so the state reached is the one the
    source reaches by clearing it first.
- `rendering.dfy` (module `Rendering`) holds what the renderer's output looks
  like. It has no source file of its own: its lemmas are properties of the
  rendering functions of `markdown.dfy`, and each cites the renderer lines it
  describes.
  - line counts, and the position of every section and member;
  - the concrete text the default templates give each line;
  - that lists of members render piecewise;
  - that filling in a docstring does not change how a record renders, so
    rendering a record twice gives the same lines.

`ast.unparse`, which prints an expression back as source text, is outside
the model. An expression is an abstract type `Expr`, and the printer is a
function value `unparse: Expr -> string` held by the parser. Nothing is
assumed about it beyond being a function. The docstring reader
`ast.get_docstring` is likewise taken as given: a `FunctionNode` carries the
docstring it would return.

Where the code and its documentation disagree, the model follows the code.

- The module heading is written directly as `"#" * level + " Module: " + name`.
  The `ModuleTemplate.name_template` format string is never used.
- Methods of a class are rendered with the generator's own function template,
  not with `ClassTemplate.method_template`. Classes of a module are rendered
  with the generator's class template, not with `ModuleTemplate.class_template`.
- `generate` tests the stored records for truth. A record object is always
  true in Python, so the test is a null test here.

## Model

| member | source | states |
|---|---|---|
| Data.ArgumentInfoDefaults | src/data.py:4-8 | An argument built from a name alone has type hint "Any" and no default value. |
| Data.FunctionInfo.constructor | src/data.py:10-18 | A function record holds the given fields; `is_async` defaults to false and `class_name` to None. |
| Data.ClassInfo.constructor | src/data.py:20-26 | A class record holds the given fields; none has a default. |
| Data.ModuleInfo.constructor | src/data.py:28-33 | A module record holds the given fields; its docstring defaults to None. |
| Templates.FormatIgnoresExtraArgs | src/markdown_generator.py:56 | Formatting reads only as many arguments as the template has slots; surplus arguments change nothing. |
| Templates.FormatLength | src/markdown_generator.py:56 | A formatted line is exactly as long as the template's literal text plus the arguments placed in its slots. |
| Templates.DefaultFunctionTemplateTexts | src/template.py:4-15 | Each default function template, written back out as a format string, is the literal string of the source: four slots in the name, three in the argument line, one in every other. |
| Templates.NameAndDefaultTexts | src/template.py:5-8 | The name template is "{} \`{}{}{}\`" and the argument template "- \`{}\`: \`{}\` = \`{}\`". |
| Templates.NameText | src/template.py:5 | The function name template is "{} \`{}{}{}\`". |
| Templates.DefaultClassTemplateTexts | src/template.py:17-31 | Each default class template is the literal string of the source, and the nested method layout is a fresh default function layout. |
| Templates.ClassNameText | src/template.py:19 | The class name template is "{} \`class {}\`". |
| Templates.DefaultModuleTemplateTexts | src/template.py:33-44 | Each default module template is the literal string of the source, and the nested class and function layouts are fresh defaults. |
| Templates.ModuleNameText | src/template.py:35 | The unused module name template is "{} Module: \*{}\*". |
| Templates.DefaultTemplatesValid | src/template.py:4-44 | No default template has more slots than the renderer supplies arguments for, so rendering with the defaults never raises IndexError. |
| Templates.DefaultFunctionTemplateFormats | src/template.py:5-15 | The text each default function template gives for any arguments: the heading is prefix + " \`" + async + owner + name + "\`", an argument line is "- \`n\`: \`t\` = \`d\`", a title is the prefix and a fixed word, the description is the docstring unchanged. |
| Templates.DefaultClassTemplateFormats | src/template.py:19-31 | The text each default class template gives: prefix + " \`class " + name + "\`", "- Bases: " + base, "- " + decorator, fixed titles and the docstring unchanged. |
| Templates.DefaultModuleTemplateFormats | src/template.py:37-44 | The text each default module template gives: the Classes, Functions and Description titles and the docstring unchanged. |
| CodeParser.FunctionParser.constructor | src/codepaser.py:10-12 | The parser holds the node it was given. |
| CodeParser.FunctionParser.Parse | src/codepaser.py:14-22 | A fresh record: the node's name and docstring, the parameter list of `ArgumentInfos`, the return type, one "@"-entry per decorator in order, async exactly for an `async def`, and no class name. |
| CodeParser.FunctionParser.ParseArguments | src/codepaser.py:24-65 | The two loops and two conditionals build exactly `ArgumentInfos`: positional parameters with their defaults matched by offset, then `*args`, then keyword-only parameters zipped with their default slots, then `**kwargs`. |
| CodeParser.FunctionParser.ReturnType | src/codepaser.py:67-70 | The return type is absent exactly when the annotation is, and otherwise is the printed annotation. |
| CodeParser.FunctionParser.ParseDecorators | src/codepaser.py:72-76 | One entry per decorator, in declaration order, each "@" followed by the printed expression. |
| CodeParser.PositionalDefault | src/codepaser.py:28-34 | Positional entry i has a default exactly when i >= P - D. That default is default number i - (P - D), and that index is always in range. |
| CodeParser.TrailingDefaults | src/codepaser.py:28-40 | With D <= P defaults, exactly D of the first P entries carry one. They are the last D, holding the defaults in declaration order; the first P - D carry none. |
| CodeParser.SurplusDefaults | src/codepaser.py:28-34 | With more defaults than positional parameters, every positional entry takes one of the last P defaults, and no index goes out of range. |
| CodeParser.ArgumentLayout | src/codepaser.py:28-64 | The list has P + [vararg] + min(\|kwonlyargs\|, \|kw_defaults\|) + [kwarg] entries. Positional, `*args`, keyword-only and `**kwargs` entries sit in that order, with their names and type hints. The variadic entries are named "\*" + name and "\*\*" + name, and neither has a default. |
| CodeParser.KeywordOnlyDefault | src/codepaser.py:50-56 | Each keyword-only entry has a default exactly when its own default slot is set, and then it is that printed expression. |
| CodeParser.TypeHintOrAny | src/codepaser.py:38-62 | A type hint is the printed annotation, or "Any" when there is none. |
| CodeParser.StarredEntries | src/codepaser.py:42-64 | When no declared name starts with "\*", the entries whose names do are exactly `*args` and `**kwargs`, and they carry no default. |
| CodeParser.ExampleSignature | src/codepaser.py:24-65 | The signature `(param1: int, param2: str = "default", *args, kwonly1: float, kwonly2: bool = True, **kwargs)` yields param1(int), param2(str = 'default'), \*args(Any), kwonly1(float), kwonly2(bool = True), \*\*kwargs(Any). |
| Markdown.DocText | src/markdown_generator.py:73-75 | A docstring as rendered is never empty: an absent or empty one reads as the placeholder. |
| Markdown.MarkdownGenerator.constructor | src/markdown_generator.py:7-23 | The generator holds the given path, records and templates, and the templates default to the default templates. |
| Markdown.MarkdownGenerator.Generate | src/markdown_generator.py:29-43 | Dispatch precedence is module, then class, then function. The chosen record's rendering at level 1 is returned and kept in `lines`. Every docstring it renders is filled in: for a module, those of the module, its classes, their methods and its functions; for a class, those of the class and its methods; for a function, its own. A stored class or function outside the rendered tree keeps its docstring. With no record, the result is the "No information provided" error and `lines` is left empty. |
| Markdown.MarkdownGenerator.GenerateModuleDocument | src/markdown_generator.py:34-35 | The module branch: the lines kept are the stored module's rendering at level 1. Each docstring of the module, its classes, their methods and its functions becomes the filled-in form of the one it had on entry. The stored class, its methods and the stored function keep their docstrings unless they belong to the module. |
| Markdown.MarkdownGenerator.GenerateClassDocument | src/markdown_generator.py:36-37 | The class branch: the lines kept are the stored class's rendering at level 1, and the docstrings of the class and of each of its methods are filled in. The stored function keeps its docstring unless it is one of the class's methods. |
| Markdown.MarkdownGenerator.GenerateFunctionDocument | src/markdown_generator.py:38-39 | The function branch: the lines kept are the stored function's rendering at level 1, and its docstring is filled in. |
| Markdown.MarkdownGenerator.GenerateFunctionMarkdown | src/markdown_generator.py:45-77 | The given function is rendered, or the stored one when none is given; with neither, the result is the "No FunctionInfo" error. The rendered function's docstring is filled in. |
| Markdown.MarkdownGenerator.GenerateClassMarkdown | src/markdown_generator.py:79-109 | The same for a class: the given or stored class is rendered, else the "No ClassInfo" error. The docstrings of the class and of all its methods are filled in. |
| Markdown.MarkdownGenerator.GenerateModuleMarkdown | src/markdown_generator.py:111-138 | The same for a module: the given or stored module is rendered, else the "No ModuleInfo" error. The docstrings of the module, its classes, their methods and its functions are filled in. |
| Markdown.MarkdownGenerator.RenderFunction | src/markdown_generator.py:51-77 | The lines are the function's rendering, the same before and after its docstring is filled in. The docstring becomes the placeholder when absent or empty, and nothing else changes. |
| Markdown.MarkdownGenerator.RenderArgs | src/markdown_generator.py:62-67 | One line per argument, in order. A name starting with "\*" goes through the variadic template alone; any other goes through the argument template with its type hint and its default, an absent default as "None". |
| Markdown.MarkdownGenerator.RenderFunctions | src/markdown_generator.py:134-136 | Functions are rendered in order, each one's lines as that function renders. Every docstring is filled in, and the whole rendering is the same before and after. |
| Markdown.MarkdownGenerator.RenderClassHead | src/markdown_generator.py:85-99 | The heading, then the Bases title and one line per base, then the Decorators title and one line per decorator, then the Methods title. |
| Markdown.MarkdownGenerator.RenderClass | src/markdown_generator.py:85-109 | The lines are the class's rendering: its methods come in order two levels deeper. The rendering is the same before and after the fill, and the docstrings of the class and its methods are filled in. |
| Markdown.MarkdownGenerator.RenderClasses | src/markdown_generator.py:129-131 | Classes are rendered in order, each as it renders. Every class and method docstring is filled in, even when a record is listed twice. |
| Markdown.MarkdownGenerator.RenderModule | src/markdown_generator.py:117-138 | The lines are the module's rendering, and every docstring of the module, its classes, their methods and its functions is filled in. |
| Markdown.MarkdownGenerator.RenderModuleHead | src/markdown_generator.py:117-128 | The fixed "Module:" heading, the Description title, the filled-in docstring and the Classes title. |
| Markdown.MarkdownGenerator.RenderModuleMembers | src/markdown_generator.py:127-136 | The classes, then the Functions title, then the functions, two levels deeper; their docstrings are filled in. |
| Markdown.MarkdownGenerator.RenderModuleFunctions | src/markdown_generator.py:133-136 | Rendering the module's functions after its classes leaves the class renderings as they were. |
| Rendering.HashesShape | src/markdown_generator.py:52 | The heading marker of level n is exactly n "#" characters, and none when n <= 0. |
| Rendering.FilledRendersTheSame | src/markdown_generator.py:73-75 | Filling in a docstring does not change how it renders. A filled-in docstring is left as it is, so filling in twice is filling in once. |
| Rendering.FunctionTextLayout | src/markdown_generator.py:51-77 | A function renders to \|args\| + 6 lines: heading, Args title, one line per argument in order, Returns title, return type, Description title, description. |
| Rendering.DefaultArgLine | src/markdown_generator.py:62-67 | With the default templates, an argument whose name starts with "\*" shows its name only. Any other shows name, type and default, with an absent default as "None". |
| Rendering.DefaultFunctionText | src/markdown_generator.py:51-77 | The concrete lines of a function under the default templates. An absent or empty return type reads "None", and the sub-headings use level + 1 "#". |
| Rendering.FunctionsTextAppend | src/markdown_generator.py:134-136 | A list of functions split anywhere renders as its two parts, one after the other. |
| Rendering.FunctionsTextLength | src/markdown_generator.py:100-102 | A list of functions renders to the sum of \|args\| + 6 over its members. |
| Rendering.ClassTextLayout | src/markdown_generator.py:85-109 | A class renders to 6 + \|bases\| + \|decorators\| + its methods' lines. The sections come in the order heading, Bases, Decorators, Methods, Description; the Bases and Decorators titles appear even when the lists are empty, and the methods follow in order two levels deeper. |
| Rendering.DefaultClassHead | src/markdown_generator.py:85-99 | The concrete head lines of a class under the default template. |
| Rendering.ClassesTextLength | src/markdown_generator.py:129-131 | A list of classes renders to the sum of their line counts. |
| Rendering.ClassesTextAppend | src/markdown_generator.py:129-131 | A list of classes split anywhere renders as its two parts, one after the other. |
| Rendering.ModuleLinesLayout | src/markdown_generator.py:117-138 | A module renders to the "Module:" heading (not the template), the Description title and text, the Classes title, its classes in order, the Functions title, and its functions in order. |
| Rendering.ModuleLinesLength | src/markdown_generator.py:117-138 | A module renders to 5 lines of its own plus the lines of its classes and functions. |
| Rendering.DefaultModuleHead | src/markdown_generator.py:117-128 | The concrete head lines of a module under the default template. |
| Rendering.DocTextsFilled | src/markdown_generator.py:73-75 | Filling in docstrings does not change how a list of functions reads. |
| Rendering.ClassLinesFilled | src/markdown_generator.py:105-107 | A class whose docstrings were filled in renders as before, so rendering it twice gives the same lines. |
| Rendering.ModuleLinesFilled | src/markdown_generator.py:124-126 | The same for a module, its classes, their methods and its functions. |

## Left out

- `ast.unparse` and `ast.get_docstring` are printers and readers of the external parser's syntax tree. They are an abstract function and a given field, so nothing is proved about the text they produce.
- `load_file`, and the `file_path` argument of `generate`, reload the module through `FileParser`. `FileParser` is not part of this model.
- `save_markdown` (file output and a printed message) is left out as I/O, and so is its call inside `generate`. `Generate` takes no save path.
- `load_template` is left out because its body is empty.
- `ClassParser` is left out because it is cut short in the source and has no parse logic. How a method's `class_name` gets set is not in the source, so the model takes it from the record as given.
- `FunctionParser.__str__` is debug output only.
- `main.py` is a driver that prints its results; only its example signature appears, in `CodeParser.ExampleSignature`.
- The importers name the parser module `src.codeparser`, while the file is `src/codepaser.py`. The model treats them as one module.
- `str.format` is modelled only for auto-numbered `{}` slots. `{{` escapes, named or numbered fields and format specifications are not modelled; no template in the source uses them.
- Too few arguments for a template raise IndexError in Python. Here every renderer method instead requires templates with no more slots than it supplies (`Valid`), and `DefaultTemplatesValid` shows that the defaults meet this.
- `ModuleTemplate.nameTemplate`, the nested `ModuleTemplate.classTemplate` and `ModuleTemplate.functionTemplate`, and `ClassTemplate.methodTemplate` are held but never read by the renderer, as in the source.
- Markdown.MarkdownGenerator.constructor: Python's constructor does not create `lines`, which exists only once `generate` runs; the model starts it empty.
- Markdown.MarkdownGenerator.RenderModule, Markdown.MarkdownGenerator.RenderClasses and Markdown.MarkdownGenerator.GenerateModuleMarkdown: their contracts do not say that the rendering is the same before and after the fill. `Rendering.ModuleLinesFilled` and `Rendering.ClassLinesFilled` state that separately.
- A concrete rendering of a whole example record under the default templates is not given. The per-line default texts (`DefaultFunctionText`, `DefaultClassHead`, `DefaultModuleHead`) stand in for it.
