/**
 * The entry point, `render_documentation`: collects the local functions,
 * normalises their docstrings and hands the records, the title and the link
 * flag to the page template.
 */
module Render {
  import opened Wrappers
  import opened Errors
  import opened Collector
  import opened Normalizer
  import opened TypeNames
  import opened DisplayText

  const DefaultTitle: string := "Notebook"

  /** What the page template is given: the records, the title and the link flag. */
  datatype Page = Page(docs: seq<FunctionDoc>, title: string, enableLinks: bool)

  function Title(moduleName: Option<string>): string {
    if moduleName.Some? then moduleName.value else DefaultTitle
  }

  /** Collection followed by normalisation. */
  function Pipeline(ns: seq<Entry>, parse: Parser): Result<seq<FunctionDoc>, Error> {
    match Collect(ns)
    case Err(e) => Err(e)
    case Ok(docstrings) => NormalizeAll(docstrings, parse)
  }

  /** `render_documentation`, up to the template it hands its page to. */
  method RenderDocumentation(ns: seq<Entry>, moduleName: Option<string>, enableLinks: bool, parse: Parser)
    returns (r: Result<Page, Error>)
    ensures r.Ok? <==> Pipeline(ns, parse).Ok?
    ensures r.Err? ==> r.error == Pipeline(ns, parse).error
    ensures r.Ok? ==> r.value.docs == Pipeline(ns, parse).value && r.value.enableLinks == enableLinks
    ensures r.Ok? && moduleName == None ==> r.value.title == DefaultTitle
    ensures r.Ok? && moduleName.Some? ==> r.value.title == moduleName.value
  {
    var docstrings := GetFunctions(ns);
    if docstrings.Err? {
      return Err(docstrings.error);
    }
    var parsedDocstrings := ParseDocstrings(docstrings.value, parse);
    if parsedDocstrings.Err? {
      return Err(parsedDocstrings.error);
    }
    return Ok(Page(parsedDocstrings.value, Title(moduleName), enableLinks));
  }

  /**
   * End to end: one record per local function, in namespace order, named
   * after it and headed by its name and signature, with a docstring parsed
   * from its `__doc__` (or from "" when it has none).
   */
  lemma PipelineShape(ns: seq<Entry>, parse: Parser)
    requires Pipeline(ns, parse).Ok?
    ensures var fs := LocalFunctions(ns);
            var docs := Pipeline(ns, parse).value;
            |docs| == |fs| &&
            forall k :: 0 <= k < |fs| ==>
              Record(fs[k]).Ok? &&
              Normalize(fs[k].name, Record(fs[k]).value, parse(DocText(fs[k].doc))).Ok? &&
              docs[k] == Normalize(fs[k].name, Record(fs[k]).value, parse(DocText(fs[k].doc))).value &&
              docs[k].name == fs[k].name &&
              docs[k].head == fs[k].name + fs[k].signature
  {
    var fs := LocalFunctions(ns);
    CollectAllShape(fs);
    var c := Collect(ns).value;
    NormalizeAllShape(c, parse);
    forall k | 0 <= k < |fs|
      ensures Record(fs[k]).Ok?
      ensures Normalize(fs[k].name, Record(fs[k]).value, parse(DocText(fs[k].doc))).Ok?
      ensures Pipeline(ns, parse).value[k] == Normalize(fs[k].name, Record(fs[k]).value, parse(DocText(fs[k].doc))).value
      ensures Pipeline(ns, parse).value[k].name == fs[k].name
      ensures Pipeline(ns, parse).value[k].head == fs[k].name + fs[k].signature
    {
      assert c[k] == (fs[k].name, Record(fs[k]).value);
      NormalizeShape(fs[k].name, Record(fs[k]).value, parse(DocText(fs[k].doc)));
    }
  }

  /** A namespace holding no local function documents nothing. */
  lemma NothingLocalNothingDocumented(ns: seq<Entry>, parse: Parser)
    requires forall k :: 0 <= k < |ns| ==> !IsLocalFunction(ns[k])
    ensures Pipeline(ns, parse) == Ok([])
  {
    LocalFunctionsExtremes(ns);
  }

  /** Distinct names in the namespace give distinct record names, so one anchor per function. */
  lemma DocumentedNamesDistinct(ns: seq<Entry>, parse: Parser)
    requires DistinctNames(ns)
    requires Pipeline(ns, parse).Ok?
    ensures var docs := Pipeline(ns, parse).value;
            forall i, j :: 0 <= i < j < |docs| ==> docs[i].name != docs[j].name
  {
    LocalFunctionsDistinct(ns);
    PipelineShape(ns, parse);
  }

  /**
   * A local function without parameters whose docstring documents arguments
   * makes the whole pipeline raise: its parameter map is `None`.
   */
  lemma ZeroParameterFunctionWithDocumentedArgs(ns: seq<Entry>, parse: Parser, k: nat)
    requires k < |ns| && IsLocalFunction(ns[k]) && |ns[k].params| == 0
    requires var d := parse(DocText(ns[k].doc));
             d.Ok? && d.value.params.Some? && |d.value.params.value| > 0
    ensures Pipeline(ns, parse).Err?
  {
    var e := ns[k];
    var fs := LocalFunctions(ns);
    assert e in fs;
    var j :| 0 <= j < |fs| && fs[j] == e;
    CollectAllShape(fs);
    if Collect(ns).Ok? {
      var c := Collect(ns).value;
      assert c[j] == (e.name, Record(e).value);
      RecordParamTypes(e);
      RecordHeadAndDoc(e);
      NormalizeRaisesWhen(e.name, Record(e).value, parse(DocText(e.doc)));
      assert NormalizeEntry(c[j], parse).Err?;
      NormalizeAllShape(c, parse);
    }
  }

  /** The docstring of `add` in the scenario below. */
  const AddDoc: string := "Adds two numbers.\n\nArgs:\n    a: first\n    b: second\n\nReturns:\n    int: sum"

  /** The `add` function of the scenario below, annotated `(a: int, b: int) -> int`. */
  function AddEntry(): Entry {
    Entry("add", true, MainModule, "(a: int, b: int) -> int", Some(AddDoc),
          ["a", "b"], map["a" := Named("int"), "b" := Named("int"), ReturnKey := Named("int")])
  }

  lemma AddParamTypes()
    ensures ParamTypes(["a", "b"], AddEntry().hints) == Ok(Some(map["a" := Some("int"), "b" := Some("int")]))
  {
    var hints := AddEntry().hints;
    var params := ["a", "b"];
    assert HintOf(hints, "a") == Some(Named("int"));
    assert HintOf(hints, "b") == Some(Named("int"));
    forall p | p in params ensures ResolveParamHint(HintOf(hints, p)) == Ok(Some("int")) {
      assert p == "a" || p == "b";
    }
    var m := map p | p in params :: ResolveParamHint(HintOf(hints, p)).value;
    assert m.Keys == {"a", "b"};
    assert m == map["a" := Some("int"), "b" := Some("int")];
  }

  /** Both parameters and the return of `add` are declared `int`. */
  lemma AddRecord()
    ensures Record(AddEntry()) ==
            Ok(RawRecord("add" + "(a: int, b: int) -> int", AddDoc,
                         Some(map["a" := Some("int"), "b" := Some("int")]), Some("int")))
  {
    var add := AddEntry();
    AddParamTypes();
    assert ParamTypes(add.params, add.hints) == Ok(Some(map["a" := Some("int"), "b" := Some("int")]));
    assert HintOf(add.hints, ReturnKey) == Some(Named("int"));
    assert ResolveReturnHint(HintOf(add.hints, ReturnKey)) == Ok(Some("int"));
    assert DocText(add.doc) == AddDoc;
  }

  function AddRawRecord(): RawRecord {
    RawRecord("add" + "(a: int, b: int) -> int", AddDoc,
              Some(map["a" := Some("int"), "b" := Some("int")]), Some("int"))
  }

  /** The imported `sqrt` beside `add` is left out of the collection. */
  lemma AddCollected()
    ensures Collect([Entry("sqrt", true, "math", "(x, /)", None, ["x"], map[]), AddEntry()]) ==
            Ok([("add", AddRawRecord())])
  {
    var add := AddEntry();
    var imported := Entry("sqrt", true, "math", "(x, /)", None, ["x"], map[]);
    assert [imported, add][1..] == [add] && [add][1..] == [];
    assert LocalFunctions([add]) == [add] + LocalFunctions([]);
    assert LocalFunctions([imported, add]) == [add];
    AddRecord();
    assert [add][..|[add]| - 1] == [];
    assert CollectAll([]) == Ok([]);
    assert Record([add][0]) == Ok(AddRawRecord());
    assert CollectAll([add]) == Ok([] + [("add", AddRawRecord())]);
    assert [] + [("add", AddRawRecord())] == [("add", AddRawRecord())];
    assert Collect([imported, add]) == CollectAll([add]);
  }

  /**
   * The documented parser result for `add`: no types and no optionality in
   * the text, and empty lists for the sections it lacks.
   */
  function AddDocstring(): Docstring {
    Docstring(Some("Adds two numbers."), None,
              Some([DocParam("a", None, None, None, Some("first")),
                    DocParam("b", None, None, None, Some("second"))]),
              Some([]), Some(DocReturns(None, Some("int"), Some("sum"))), Some([]))
  }

  function AddFunctionDoc(): FunctionDoc {
    FunctionDoc("add", "add" + "(a: int, b: int) -> int", Some("Adds two numbers."), None,
                Some([ArgInfo("a", Some("int"), None, None, Some("first")),
                      ArgInfo("b", Some("int"), None, None, Some("second"))]),
                Some([]), Some(ReturnsInfo(None, Some("int"), "sum")), Some([]))
  }

  /** The declared `int` fills in the argument types the docstring does not give. */
  lemma AddArgs()
    ensures Args("add", AddDocstring().params, AddRawRecord().paramTypes) == Ok(AddFunctionDoc().args)
  {
    var ps := AddDocstring().params.value;
    var args := AddFunctionDoc().args.value;
    var types := AddRawRecord().paramTypes.value;
    assert "a" in types && "b" in types && types["a"] == Some("int") && types["b"] == Some("int");
    var got := seq(|ps|, i requires 0 <= i < |ps| =>
      ArgInfo(ps[i].argName, ArgType(types, ps[i]), ps[i].isOptional, ps[i].defaultValue, ps[i].description));
    assert got[0] == args[0] && got[1] == args[1];
    assert got == args;
  }

  lemma AddNormalized()
    ensures Normalize("add", AddRawRecord(), Ok(AddDocstring())) == Ok(AddFunctionDoc())
  {
    var rec := AddRawRecord();
    var d := AddDocstring();
    AddArgs();
    EscapeFixedPoints("sum");
    assert Returns("add", d.returnDoc, rec.returnType) == Ok(Some(ReturnsInfo(None, Some("int"), "sum")));
    assert d.raises == Some([]) && d.examples == Some([]);
    assert |Raises("add", d.raises).value.value| == 0;
    assert |Examples("add", d.examples).value.value| == 0;
  }

  /**
   * Scenario: `add(a: int, b: int) -> int` with its arguments and return
   * documented, beside an imported callable: one record, for `add`, with
   * both arguments typed `int`.
   */
  lemma AddScenario(parse: Parser)
    requires parse(AddDoc) == Ok(AddDocstring())
    ensures Pipeline([Entry("sqrt", true, "math", "(x, /)", None, ["x"], map[]), AddEntry()], parse) ==
            Ok([AddFunctionDoc()])
  {
    AddCollected();
    AddNormalized();
    var entries := [("add", AddRawRecord())];
    assert entries[0].1.doc == AddDoc;
    assert entries[..|entries| - 1] == [];
    assert NormalizeAll([], parse) == Ok([]);
    assert NormalizeEntry(entries[0], parse) == Ok(AddFunctionDoc());
    assert NormalizeAll(entries, parse) == Ok([] + [AddFunctionDoc()]);
    assert [] + [AddFunctionDoc()] == [AddFunctionDoc()];
  }
}
