/**
 * The docstring normaliser, `parse_docstrings`: parses each collected
 * docstring and builds the record the page is rendered from, escaping
 * descriptions for display and reconciling the documented types with the
 * declared ones.
 */
module Normalizer {
  import opened Wrappers
  import opened Errors
  import opened DisplayText
  import opened Collector

  /** One documented argument, as the docstring parser returns it. */
  datatype DocParam = DocParam(
    argName: string,
    typeName: Option<string>,
    isOptional: Option<bool>,
    defaultValue: Option<string>,
    description: Option<string>)

  datatype DocRaises = DocRaises(typeName: Option<string>, description: Option<string>)

  datatype DocReturns = DocReturns(returnName: Option<string>, typeName: Option<string>, description: Option<string>)

  datatype DocExample = DocExample(description: Option<string>, snippet: Option<string>)

  /** A parsed docstring; each section is `None` when the parser leaves it out. */
  datatype Docstring = Docstring(
    shortDescription: Option<string>,
    longDescription: Option<string>,
    params: Option<seq<DocParam>>,
    raises: Option<seq<DocRaises>>,
    returnDoc: Option<DocReturns>,
    examples: Option<seq<DocExample>>)

  /** The docstring parser: a parsed docstring, or the message of the error it raises. */
  type Parser = string -> Result<Docstring, string>

  datatype ArgInfo = ArgInfo(
    argName: string,
    argType: Option<string>,
    isOptional: Option<bool>,
    defaultValue: Option<string>,
    description: Option<string>)

  datatype RaisesInfo = RaisesInfo(typeName: Option<string>, description: string)

  datatype ReturnsInfo = ReturnsInfo(name: Option<string>, typeName: Option<string>, description: string)

  datatype ExampleInfo = ExampleInfo(description: string, snippet: Option<string>)

  /** The `func_details` dictionary of one function. */
  datatype FunctionDoc = FunctionDoc(
    name: string,
    head: string,
    shortDescription: Option<string>,
    longDescription: Option<string>,
    args: Option<seq<ArgInfo>>,
    raises: Option<seq<RaisesInfo>>,
    returnDoc: Option<ReturnsInfo>,
    examples: Option<seq<ExampleInfo>>)

  /** A long description is escaped only when it is a non-empty string. */
  function LongDescription(d: Option<string>): Option<string> {
    if d.Some? && d.value != "" then Some(Escape(d.value)) else d
  }

  /** The declared entry wins whenever the name is a key, even when its value is `None`. */
  function ArgType(types: ParamTypeMap, p: DocParam): Option<string> {
    if p.argName in types then types[p.argName] else p.typeName
  }

  /** The declared return type wins only when it is not `None`. */
  function ReturnType(declared: Option<string>, documented: Option<string>): Option<string> {
    if declared.Some? then declared else documented
  }

  /** The `args` list; the `in` test raises when there is no parameter map and there are arguments. */
  function Args(name: string, params: Option<seq<DocParam>>, types: Option<ParamTypeMap>): Result<Option<seq<ArgInfo>>, Error> {
    match params
    case None => Ok(None)
    case Some(ps) =>
      if |ps| == 0 then Ok(Some([]))
      else if types.None? then Err(NoParamTypeMap(name))
      else
        Ok(Some(seq(|ps|, i requires 0 <= i < |ps| =>
          ArgInfo(ps[i].argName, ArgType(types.value, ps[i]), ps[i].isOptional, ps[i].defaultValue, ps[i].description))))
  }

  /** The `raises` list; escaping a missing description raises. */
  function Raises(name: string, raises: Option<seq<DocRaises>>): Result<Option<seq<RaisesInfo>>, Error> {
    match raises
    case None => Ok(None)
    case Some(rs) =>
      if forall i :: 0 <= i < |rs| ==> rs[i].description.Some? then
        Ok(Some(seq(|rs|, i requires 0 <= i < |rs| && rs[i].description.Some? =>
          RaisesInfo(rs[i].typeName, Escape(rs[i].description.value)))))
      else Err(NoDescription(name))
  }

  /** The `returns` entry; escaping a missing description raises. */
  function Returns(name: string, returnDoc: Option<DocReturns>, declared: Option<string>): Result<Option<ReturnsInfo>, Error> {
    match returnDoc
    case None => Ok(None)
    case Some(rt) =>
      if rt.description.None? then Err(NoDescription(name))
      else Ok(Some(ReturnsInfo(rt.returnName, ReturnType(declared, rt.typeName), Escape(rt.description.value))))
  }

  /** The `examples` list; escaping a missing description raises. */
  function Examples(name: string, examples: Option<seq<DocExample>>): Result<Option<seq<ExampleInfo>>, Error> {
    match examples
    case None => Ok(None)
    case Some(xs) =>
      if forall i :: 0 <= i < |xs| ==> xs[i].description.Some? then
        Ok(Some(seq(|xs|, i requires 0 <= i < |xs| && xs[i].description.Some? =>
          ExampleInfo(Escape(xs[i].description.value), xs[i].snippet))))
      else Err(NoDescription(name))
  }

  /** One function's record from its collected entry and its parsed docstring, fields in source order. */
  function Normalize(name: string, rec: RawRecord, parsed: Result<Docstring, string>): Result<FunctionDoc, Error> {
    match parsed
    case Err(message) => Err(ParseFailed(name, message))
    case Ok(d) =>
      var args :- Args(name, d.params, rec.paramTypes);
      var raises :- Raises(name, d.raises);
      var returnDoc :- Returns(name, d.returnDoc, rec.returnType);
      var examples :- Examples(name, d.examples);
      Ok(FunctionDoc(name, rec.head, d.shortDescription, LongDescription(d.longDescription),
                     args, raises, returnDoc, examples))
  }

  function NormalizeEntry(entry: (string, RawRecord), parse: Parser): Result<FunctionDoc, Error> {
    Normalize(entry.0, entry.1, parse(entry.1.doc))
  }

  /** The records of all entries in order; the first entry that raises stops the pass. */
  function NormalizeAll(docstrings: Collected, parse: Parser): Result<seq<FunctionDoc>, Error>
    decreases |docstrings|
  {
    if |docstrings| == 0 then Ok([])
    else
      match NormalizeAll(docstrings[..|docstrings| - 1], parse)
      case Err(e) => Err(e)
      case Ok(acc) =>
        match NormalizeEntry(docstrings[|docstrings| - 1], parse)
        case Err(e) => Err(e)
        case Ok(f) => Ok(acc + [f])
  }

  /** `parse_docstrings`: appends one record per collected function. */
  method ParseDocstrings(docstrings: Collected, parse: Parser) returns (r: Result<seq<FunctionDoc>, Error>)
    ensures r == NormalizeAll(docstrings, parse)
  {
    var funcs: seq<FunctionDoc> := [];
    for i := 0 to |docstrings|
      invariant NormalizeAll(docstrings[..i], parse) == Ok(funcs)
    {
      assert docstrings[..i + 1][..i] == docstrings[..i];
      var (funcName, strings) := docstrings[i];
      var parsed := parse(strings.doc);
      var details := Normalize(funcName, strings, parsed);
      if details.Err? {
        NormalizeAllErrorPersists(docstrings, parse, i + 1);
        return Err(details.error);
      }
      funcs := funcs + [details.value];
    }
    assert docstrings[..|docstrings|] == docstrings;
    return Ok(funcs);
  }

  lemma {:induction false} NormalizeAllErrorPersists(docstrings: Collected, parse: Parser, n: nat)
    requires n <= |docstrings| && NormalizeAll(docstrings[..n], parse).Err?
    ensures NormalizeAll(docstrings, parse) == NormalizeAll(docstrings[..n], parse)
    decreases |docstrings| - n
  {
    if n < |docstrings| {
      assert docstrings[..n + 1][..n] == docstrings[..n];
      NormalizeAllErrorPersists(docstrings, parse, n + 1);
    } else {
      assert docstrings[..n] == docstrings;
    }
  }

  /** One output per input, in input order; the pass succeeds exactly when every entry does. */
  lemma {:induction false} NormalizeAllShape(docstrings: Collected, parse: Parser)
    ensures NormalizeAll(docstrings, parse).Ok? <==>
              forall k :: 0 <= k < |docstrings| ==> NormalizeEntry(docstrings[k], parse).Ok?
    ensures NormalizeAll(docstrings, parse).Ok? ==>
              |NormalizeAll(docstrings, parse).value| == |docstrings| &&
              forall k :: 0 <= k < |docstrings| ==>
                NormalizeAll(docstrings, parse).value[k] == NormalizeEntry(docstrings[k], parse).value
    decreases |docstrings|
  {
    if |docstrings| > 0 {
      var init := docstrings[..|docstrings| - 1];
      NormalizeAllShape(init, parse);
      assert forall k :: 0 <= k < |init| ==> init[k] == docstrings[k];
    }
  }

  /** The error raised is the one of the first entry, in order, that raises. */
  lemma {:induction false} NormalizeAllFirstError(docstrings: Collected, parse: Parser, j: nat)
    requires j < |docstrings| && NormalizeEntry(docstrings[j], parse).Err?
    requires forall k :: 0 <= k < j ==> NormalizeEntry(docstrings[k], parse).Ok?
    ensures NormalizeAll(docstrings, parse) == Err(NormalizeEntry(docstrings[j], parse).error)
  {
    var pre := docstrings[..j];
    NormalizeAllShape(pre, parse);
    assert forall k :: 0 <= k < j ==> pre[k] == docstrings[k];
    assert docstrings[..j + 1][..j] == pre;
    NormalizeAllErrorPersists(docstrings, parse, j + 1);
  }

  /** Every description that reaches the page holds no newline and no tab. */
  predicate DisplaySafe(s: string) {
    '\n' !in s && '\t' !in s
  }

  /**
   * The shape of a record: its name is the key and its head the collected
   * header; the short description is copied; each section is absent exactly
   * when the parser left it out.
   */
  lemma NormalizeShape(name: string, rec: RawRecord, parsed: Result<Docstring, string>)
    requires Normalize(name, rec, parsed).Ok?
    ensures parsed.Ok?
    ensures var f := Normalize(name, rec, parsed).value;
            var d := parsed.value;
            f.name == name && f.head == rec.head &&
            f.shortDescription == d.shortDescription &&
            (f.args.None? <==> d.params.None?) &&
            (f.raises.None? <==> d.raises.None?) &&
            (f.returnDoc.None? <==> d.returnDoc.None?) &&
            (f.examples.None? <==> d.examples.None?)
  {
  }

  /** A missing or empty long description passes through; any other is escaped for display. */
  lemma NormalizeLongDescription(name: string, rec: RawRecord, parsed: Result<Docstring, string>)
    requires Normalize(name, rec, parsed).Ok?
    ensures var f := Normalize(name, rec, parsed).value;
            var d := parsed.value;
            (d.longDescription == None ==> f.longDescription == None) &&
            (d.longDescription == Some("") ==> f.longDescription == Some("")) &&
            (d.longDescription.Some? && d.longDescription.value != "" ==>
               f.longDescription == Some(Escape(d.longDescription.value)) &&
               DisplaySafe(f.longDescription.value))
  {
  }

  /**
   * Arguments: one per documented argument, in order, name, optionality,
   * default and description copied, the declared type preferred whenever the
   * name is a key of the parameter map.
   */
  lemma NormalizeArgs(name: string, rec: RawRecord, parsed: Result<Docstring, string>)
    requires Normalize(name, rec, parsed).Ok?
    requires parsed.Ok? && parsed.value.params.Some?
    ensures var ps := parsed.value.params.value;
            var args := Normalize(name, rec, parsed).value.args.value;
            |args| == |ps| &&
            (|ps| > 0 ==> rec.paramTypes.Some?) &&
            forall k :: 0 <= k < |ps| ==>
              args[k].argName == ps[k].argName &&
              args[k].isOptional == ps[k].isOptional &&
              args[k].defaultValue == ps[k].defaultValue &&
              args[k].description == ps[k].description &&
              (ps[k].argName in rec.paramTypes.value ==> args[k].argType == rec.paramTypes.value[ps[k].argName]) &&
              (ps[k].argName !in rec.paramTypes.value ==> args[k].argType == ps[k].typeName)
  {
  }

  /** Return: name copied, description escaped, the declared type used only when it is not `None`. */
  lemma NormalizeReturns(name: string, rec: RawRecord, parsed: Result<Docstring, string>)
    requires Normalize(name, rec, parsed).Ok?
    requires parsed.Ok? && parsed.value.returnDoc.Some?
    ensures var rt := parsed.value.returnDoc.value;
            var info := Normalize(name, rec, parsed).value.returnDoc.value;
            rt.description.Some? &&
            info.name == rt.returnName &&
            (rec.returnType.Some? ==> info.typeName == rec.returnType) &&
            (rec.returnType.None? ==> info.typeName == rt.typeName) &&
            info.description == Escape(rt.description.value) &&
            DisplaySafe(info.description)
  {
  }

  /** Raised errors and examples: one per parsed entry, in order, descriptions escaped, the rest copied. */
  lemma NormalizeRaisesAndExamples(name: string, rec: RawRecord, parsed: Result<Docstring, string>)
    requires Normalize(name, rec, parsed).Ok?
    ensures var f := Normalize(name, rec, parsed).value;
            var d := parsed.value;
            (d.raises.Some? ==>
               var rs := d.raises.value;
               |f.raises.value| == |rs| &&
               forall k :: 0 <= k < |rs| ==>
                 rs[k].description.Some? &&
                 f.raises.value[k] == RaisesInfo(rs[k].typeName, Escape(rs[k].description.value)) &&
                 DisplaySafe(f.raises.value[k].description)) &&
            (d.examples.Some? ==>
               var xs := d.examples.value;
               |f.examples.value| == |xs| &&
               forall k :: 0 <= k < |xs| ==>
                 xs[k].description.Some? &&
                 f.examples.value[k] == ExampleInfo(Escape(xs[k].description.value), xs[k].snippet) &&
                 DisplaySafe(f.examples.value[k].description))
  {
  }

  predicate MissingDescriptions(d: Docstring) {
    (d.raises.Some? && exists k :: 0 <= k < |d.raises.value| && d.raises.value[k].description.None?) ||
    (d.returnDoc.Some? && d.returnDoc.value.description.None?) ||
    (d.examples.Some? && exists k :: 0 <= k < |d.examples.value| && d.examples.value[k].description.None?)
  }

  /**
   * When normalisation raises: a parser error is passed on; documented
   * arguments without a parameter map raise a TypeError first; otherwise a
   * missing description raises; nothing else does.
   */
  lemma NormalizeRaisesWhen(name: string, rec: RawRecord, parsed: Result<Docstring, string>)
    ensures parsed.Err? ==> Normalize(name, rec, parsed) == Err(ParseFailed(name, parsed.error))
    ensures parsed.Ok? && parsed.value.params.Some? && |parsed.value.params.value| > 0 && rec.paramTypes.None? ==>
              Normalize(name, rec, parsed) == Err(NoParamTypeMap(name))
    ensures Normalize(name, rec, parsed).Ok? <==>
              parsed.Ok? &&
              !(parsed.value.params.Some? && |parsed.value.params.value| > 0 && rec.paramTypes.None?) &&
              !MissingDescriptions(parsed.value)
  {
  }
}
