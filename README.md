# notebook-doc: metadata collection and docstring normalisation

notebook-doc renders HTML documentation for the functions defined in a
notebook. `render_documentation(globals_dict, module_name, enable_links)`
runs in three steps:

1. `get_functions` keeps the namespace entries that are callable and whose
   `__module__` is `"__main__"`. For each one it records four things: the
   header (name followed by signature), the docstring (`""` when there is
   none), a map from parameter name to type name, and the return type name.
2. `parse_docstrings` parses each docstring and builds one record per
   function:
   - newlines and tabs become `<br>` and four `&nbsp;` in the long
     description and in the raises, returns and examples descriptions;
     argument and short descriptions are kept as they are;
   - declared types are reconciled with the types written in the docstring.
3. The records, the title (default `"Notebook"`) and the link flag go to
   an HTML template.

This project models steps 1 and 2 and the composition in step 3. It proves
what each step promises.

Modules, one per component:

- `Wrappers`: `Option` stands for Python's `None`. `Result` holds a value or
  the exception raised in its place.
- `Errors` (errors.dfy): the exceptions that escape the pipeline, each
  tagged with the function being documented.
- `DisplayText`: the escaping `replace` chain, proved against a
  character-by-character definition and an unescaping inverse.
- `TypeNames`: type hints and how they become names. A union is joined
  with `" or "`, and that join is proved to round-trip.
- `Collector`: `get_functions`. `GetFunctions` and `BuildParamTypes` are
  methods whose loops mirror the source's loops. They are proved equal to
  the functions `Collect` and `ParamTypes`, and lemmas state what those
  functions promise.
- `Normalizer`: `parse_docstrings`. `ParseDocstrings` is a loop proved
  equal to `NormalizeAll`. The per-function dictionary literal becomes the
  function `Normalize`.
- `Render`: `render_documentation`, up to the page template.

Inputs that stand in for reflection and for the parser:

- A namespace is a sequence of `Entry` values in dictionary order. Each
  entry has:
  - a callable flag;
  - `__module__`;
  - the rendered signature;
  - `__doc__`;
  - the parameter names;
  - the map returned by `get_type_hints`, whose key `"return"` holds the
    return hint.
- A type hint is one of three cases:
  - `Union` with each member's `__name__`, or `None` for a member without one;
  - `Named`, a hint with a name;
  - `Nameless`, a hint without a `__name__`.

  Only a hint whose `get_origin` is `typing.Union` is a `Union`
  (lines 50, 69). On Python 3.10 to 3.13 an `X | Y` annotation has origin
  `types.UnionType` and no `__name__`, so it is `Nameless`: `None` for a
  parameter (lines 56-60) and a raise for the return (line 76).
- The docstring parser is a function parameter. It returns a `Docstring`
  record or the message of the error it raises.

The collected dictionary is a sequence of `(name, record)` pairs in
insertion order. Its keys are distinct whenever the namespace's names are,
as they always are in a Python dictionary (`CollectKeysDistinct`).

### Behaviour of the code that the model keeps

- **Type hints without a name.** Only the non-union parameter branch
  catches `AttributeError` and records `None` instead
  (src/notebook_doc/doc_functions.py:57-60).
  - A nameless non-union return hint raises `AttributeError` (line 76).
  - A union with a nameless member raises for a parameter and for the
    return (lines 51-54, 70-73).
- **Parser errors.** An exception from the docstring parser is not caught
  (line 116). `Normalize` then gives `ParseFailed`.
- **Absent sections.** `args`, `raises` and `examples` are `None` exactly
  when the parser gives `None` for that section (lines 139, 150, 172). An
  empty list stays an empty list.
- **Further exceptions.**
  - A function with no parameters has no parameter map (line 66). If its
    docstring still documents arguments, the test `arg.arg_name in None`
    raises `TypeError` (line 131). This is `NoParamTypeMap`.
  - A raised-error, return or example entry without a description raises
    `AttributeError` at `.replace` (lines 144, 157, 165). This is
    `NoDescription`.
- **Declared versus documented types.** Arguments and the return differ:
  - for an argument, the declared entry is used whenever the name is a key
    of the parameter map, even when its value is `None` (lines 130-132);
  - for the return, the declared type is used only when it is not `None`
    (lines 154-156).

### Definitions and the lemmas about them

The "## Model" table names the members whose contracts state the
properties. These are the definitions they are stated about:

- `TypeNames`
  - `ResolveParamHint` (src/notebook_doc/doc_functions.py:49-62) resolves
    a parameter's hint. Its cases are stated by `ResolveParamHintCases`.
  - `ResolveReturnHint` (lines 68-78) resolves the return hint. It is
    compared with the parameter case by `ReturnDiffersOnlyOnNameless`.
  - `JoinOr` (lines 55, 74) is `" or ".join`. Its laws are
    `JoinOrConcat`, `JoinOrRoundTrip` and `UnionOfTwo`.
- `Collector`
  - `ParamTypes` (lines 45-66) is the parameter map. `BuildParamTypes` is
    proved equal to it, and `RecordParamTypes` states its cases.
  - `Record` (lines 39-89) is one function's record. It is described by
    `RecordRaises`, `RecordHeadAndDoc`, `RecordParamTypes` and
    `RecordReturnType`.
  - `CollectAll` and `Collect` (lines 39-91) give the collected
    dictionary. `GetFunctions` is proved equal to `Collect`, and
    `CollectAllShape`, `CollectAllFirstError`, `CollectAllErrorPersists`,
    `CollectShape` and `CollectKeysDistinct` state what they give.
- `Normalizer`
  - `Normalize` (lines 118-174) builds one `func_details` dictionary. It
    is described by `NormalizeShape`, `NormalizeArgs`, `NormalizeReturns`,
    `NormalizeRaisesAndExamples`, `NormalizeLongDescription` and
    `NormalizeRaisesWhen`.
  - The parts of `Normalize`, described by the same lemmas, are:
    - `Args` (lines 127-140);
    - `ArgType` (lines 130-132);
    - `Raises` (lines 141-151);
    - `Returns` (lines 152-162);
    - `ReturnType` (lines 154-156);
    - `Examples` (lines 163-173);
    - `LongDescription` (lines 122-126).
  - `NormalizeAll` (lines 105-177) is the whole pass. `ParseDocstrings` is
    proved equal to it, and `NormalizeAllShape`, `NormalizeAllFirstError`
    and `NormalizeAllErrorPersists` state what it gives.
- `Render`
  - `Title` (line 360) is the title with its default.
  - `Pipeline` (lines 356-357) is collection followed by normalisation.
  - Both are used in the contract of `RenderDocumentation`. `Pipeline` is
    described by `PipelineShape`, `NothingLocalNothingDocumented`,
    `DocumentedNamesDistinct` and `ZeroParameterFunctionWithDocumentedArgs`.

## Model

| member | source | states |
|---|---|---|
| `Collector.LocalFunctions` | src/notebook_doc/doc_functions.py:17-22 | an entry is kept exactly when it is in the namespace, is callable and its module is `"__main__"` |
| `Collector.LocalFunctionsConcat` | src/notebook_doc/doc_functions.py:17-22 | filtering distributes over concatenation, so the kept entries stay in namespace order |
| `Collector.LocalFunctionsExtremes` | src/notebook_doc/doc_functions.py:17-22 | a namespace without local functions keeps nothing; one of only local functions keeps everything |
| `Collector.BuildParamTypes` | src/notebook_doc/doc_functions.py:40-66 | the `names_types` loop gives `None` for a function without parameters; otherwise it gives the map from each parameter to its resolved hint, or raises when some parameter's hint raises |
| `Collector.GetFunctions` | src/notebook_doc/doc_functions.py:7-91 | the loop gives exactly `Collect(ns)`: the records of the local functions, in order, stopped by the first one that raises |
| `Collector.CollectAllErrorPersists` | src/notebook_doc/doc_functions.py:39-78 | once a prefix of the functions raises, the whole collection raises the same error |
| `Collector.CollectAllShape` | src/notebook_doc/doc_functions.py:39-89 | the collection succeeds exactly when every record does; it then holds one `(name, record)` per function, in order |
| `Collector.CollectAllFirstError` | src/notebook_doc/doc_functions.py:39-78 | the error raised is the error of the first function whose record raises |
| `Collector.CollectShape` | src/notebook_doc/doc_functions.py:81-89 | the dictionary's keys are the local functions' names in namespace order, each paired with that function's record |
| `Collector.CollectKeysDistinct` | src/notebook_doc/doc_functions.py:81-89 | distinct namespace names give distinct keys |
| `Collector.RecordRaises` | src/notebook_doc/doc_functions.py:45-78 | a record raises exactly when a parameter's union has a nameless member, or the return hint is nameless or such a union; the error names the function |
| `Collector.RecordHeadAndDoc` | src/notebook_doc/doc_functions.py:84-89 | the header is the name followed by the signature; a missing docstring becomes `""` and a present one is kept verbatim |
| `Collector.RecordParamTypes` | src/notebook_doc/doc_functions.py:40-66 | no parameters gives `None`; otherwise the keys are exactly the parameters, unannotated or nameless hints map to `None`, a named hint to its name, a union to its joined names |
| `Collector.RecordReturnType` | src/notebook_doc/doc_functions.py:68-78 | no `"return"` hint gives `None`; a named hint gives its name; a union gives its joined names; a successful record never has a nameless return hint |
| `TypeNames.ResolveParamHintCases` | src/notebook_doc/doc_functions.py:49-62 | a parameter hint raises exactly when it is a union with a nameless member; it resolves to `None` exactly when it is absent or nameless |
| `TypeNames.ReturnDiffersOnlyOnNameless` | src/notebook_doc/doc_functions.py:49-78 | return and parameter resolution agree on every hint except a nameless one, which raises for the return and gives `None` for a parameter |
| `TypeNames.UnionOfTwo` | src/notebook_doc/doc_functions.py:50-74 | a union of `A` and `B` resolves to `"A or B"`, for a parameter and for the return |
| `TypeNames.JoinOrConcat` | src/notebook_doc/doc_functions.py:55-55 | joining two non-empty runs of names equals joining each run and putting one `" or "` between them |
| `TypeNames.JoinOrRoundTrip` | src/notebook_doc/doc_functions.py:51-55 | member names without spaces are recovered, in declaration order, from their `" or "` join |
| `DisplayText.ReplaceChar` | src/notebook_doc/doc_functions.py:122-124 | after `replace`, every character comes from the input, other than the replaced one, or from the replacement; text without the pattern is unchanged |
| `DisplayText.Escape` | src/notebook_doc/doc_functions.py:122-124 | escaped text contains no newline and no tab |
| `DisplayText.EscapeIsCharwise` | src/notebook_doc/doc_functions.py:144-146 | the two chained replaces equal escaping one character at a time: newline to `<br>`, tab to four `&nbsp;`, anything else unchanged |
| `DisplayText.EscapeConcat` | src/notebook_doc/doc_functions.py:157-159 | escaping a concatenation equals concatenating the escaped parts |
| `DisplayText.EscapeFixedPoints` | src/notebook_doc/doc_functions.py:165-167 | text is unchanged exactly when it holds neither a newline nor a tab |
| `DisplayText.EscapeLength` | src/notebook_doc/doc_functions.py:122-124 | each newline adds 3 characters and each tab adds 23 |
| `DisplayText.EscapeRoundTrip` | src/notebook_doc/doc_functions.py:122-124 | text without `<` and `&` is recovered from its escaped form |
| `DisplayText.EscapeMergesMarkup` | src/notebook_doc/doc_functions.py:122-124 | without that restriction the escaping loses information: a newline and a literal `<br>` escape to the same text |
| `Normalizer.ParseDocstrings` | src/notebook_doc/doc_functions.py:94-177 | the loop gives exactly `NormalizeAll`: one record per collected entry, in order, stopped by the first entry that raises |
| `Normalizer.NormalizeAllErrorPersists` | src/notebook_doc/doc_functions.py:108-175 | once a prefix of the entries raises, the whole pass raises the same error |
| `Normalizer.NormalizeAllShape` | src/notebook_doc/doc_functions.py:105-177 | the pass succeeds exactly when every entry does; it then gives one record per entry, in input order |
| `Normalizer.NormalizeAllFirstError` | src/notebook_doc/doc_functions.py:108-175 | the error raised is the error of the first entry that raises |
| `Normalizer.NormalizeShape` | src/notebook_doc/doc_functions.py:118-175 | `name` is the key; `head` is the collected header; the short description is copied; `args`, `raises`, `returns` and `examples` are `None` exactly when the parsed section is `None` |
| `Normalizer.NormalizeLongDescription` | src/notebook_doc/doc_functions.py:122-126 | a `None` or empty long description passes through; any other is escaped and holds no newline or tab |
| `Normalizer.NormalizeArgs` | src/notebook_doc/doc_functions.py:127-140 | one argument per documented argument, in order; name, optionality, default and description are copied; the declared type is used whenever the name is a key, otherwise the documented type |
| `Normalizer.NormalizeReturns` | src/notebook_doc/doc_functions.py:152-162 | the return name is copied and the description escaped; the declared type is used only when it is not `None`, otherwise the documented type |
| `Normalizer.NormalizeRaisesAndExamples` | src/notebook_doc/doc_functions.py:141-173 | raised errors and examples map one to one, in order; descriptions are escaped, and types and snippets are copied |
| `Normalizer.NormalizeRaisesWhen` | src/notebook_doc/doc_functions.py:116-173 | a parser error is reported as the failure; documented arguments without a parameter map raise `TypeError`; otherwise only a missing description raises |
| `Render.RenderDocumentation` | src/notebook_doc/doc_functions.py:329-364 | the page holds the records from collection followed by normalisation and the link flag; the title is `module_name`, or `"Notebook"` when none is given; errors pass through |
| `Render.PipelineShape` | src/notebook_doc/doc_functions.py:356-357 | end to end, there is one record per local function, in namespace order, named after it, headed by its name and signature, and built from its own parsed docstring |
| `Render.NothingLocalNothingDocumented` | src/notebook_doc/doc_functions.py:17-22 | a namespace of imported or non-callable entries only documents nothing |
| `Render.DocumentedNamesDistinct` | src/notebook_doc/doc_functions.py:81-89 | distinct namespace names give distinct record names, so each function gets its own anchor |
| `Render.ZeroParameterFunctionWithDocumentedArgs` | src/notebook_doc/doc_functions.py:64-131 | a local function with no parameters whose docstring documents arguments makes the pipeline raise |
| `Render.AddScenario` | src/notebook_doc/doc_functions.py:356-357 | for `add(a: int, b: int) -> int`, which has the docstring "Adds two numbers." with an Args and a Returns section, beside an imported callable, there is exactly one record; both arguments take the declared `int` and the return is `int` / `"sum"` |

## Left out

- Reflection is not modelled: `callable`, `__module__`, `__doc__`,
  `inspect.signature`, `get_type_hints`, `get_origin`/`get_args` and
  `__name__` (src/notebook_doc/doc_functions.py:17-78). Their results are
  the fields of `Entry` and the cases of `TypeHint`. Errors raised inside
  reflection are not modelled either, for example `inspect.signature` on a
  builtin or an unresolvable forward reference in `get_type_hints`.
- `docstring_parser.parse` is not modelled: its grammar is a foreign
  library. The parser is the `Parser` parameter, and its result and error
  are inputs.
- `generate_html` and its Jinja2 template are not modelled
  (src/notebook_doc/doc_functions.py:180-326). This is presentation markup
  from an external template engine. `Render.Page` is exactly what the
  template is given; the HTML text is not produced.
- `Render.RenderDocumentation` has no default arguments. Passing `None`
  and `false` gives `render_documentation`'s defaults.
- Exceptions keep only the function they arose in and their kind. Python's
  message text is dropped; only the parser's message is kept.
- `get_functions` builds the docstring and header lists in passes before
  its types loop (lines 25-30); the model builds them in the same loop.
  Those steps cannot fail in the model, so the result is the same.
- The insertion order of a `names_types` dictionary is not kept (it is a
  `map`), because it is only ever read with `in` and subscripts.
