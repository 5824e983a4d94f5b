/**
 * The signature collector, `get_functions`: keeps the namespace entries that
 * are callable and defined in `__main__`, and records for each its header,
 * its docstring and the display names of its parameter and return types.
 */
module Collector {
  import opened Wrappers
  import opened Errors
  import opened TypeNames

  /**
   * One namespace entry as reflection would describe it: whether it is
   * callable, its `__module__`, its rendered signature, its `__doc__`, its
   * parameter names in order and its type hints (`"return"` for the return).
   */
  datatype Entry = Entry(
    name: string,
    isCallable: bool,
    moduleName: string,
    signature: string,
    doc: Option<string>,
    params: seq<string>,
    hints: map<string, TypeHint>)

  type ParamTypeMap = map<string, Option<string>>

  /** The four-element list stored per function: header, docstring, parameter types, return type. */
  datatype RawRecord = RawRecord(
    head: string,
    doc: string,
    paramTypes: Option<ParamTypeMap>,
    returnType: Option<string>)

  /** The collected dictionary, in insertion order. */
  type Collected = seq<(string, RawRecord)>

  const MainModule: string := "__main__"
  const ReturnKey: string := "return"

  predicate IsLocalFunction(e: Entry) {
    e.isCallable && e.moduleName == MainModule
  }

  predicate DistinctNames(es: seq<Entry>) {
    forall i, j :: 0 <= i < j < |es| ==> es[i].name != es[j].name
  }

  predicate DistinctKeys(c: Collected) {
    forall i, j :: 0 <= i < j < |c| ==> c[i].0 != c[j].0
  }

  /** The `func_list` comprehension: the local functions, in namespace order. */
  function LocalFunctions(ns: seq<Entry>): (fs: seq<Entry>)
    ensures forall e {:trigger e in fs} :: e in fs <==> e in ns && IsLocalFunction(e)
  {
    if ns == [] then []
    else (if IsLocalFunction(ns[0]) then [ns[0]] else []) + LocalFunctions(ns[1..])
  }

  function HintOf(hints: map<string, TypeHint>, key: string): Option<TypeHint> {
    if key in hints then Some(hints[key]) else None
  }

  /**
   * The `names_types` dictionary of one function, or `None` when it has no
   * parameters; raises when a parameter's union hint has a nameless member.
   */
  function ParamTypes(params: seq<string>, hints: map<string, TypeHint>): Result<Option<ParamTypeMap>, HintError> {
    if |params| == 0 then Ok(None)
    else if exists p :: p in params && ResolveParamHint(HintOf(hints, p)).Err? then Err(NoNameAttribute)
    else Ok(Some(map p | p in params :: ResolveParamHint(HintOf(hints, p)).value))
  }

  function DocText(doc: Option<string>): string {
    if doc.Some? then doc.value else ""
  }

  /** What the collector stores for one local function, or the error it raises. */
  function Record(e: Entry): Result<RawRecord, Error> {
    match ParamTypes(e.params, e.hints)
    case Err(_) => Err(NoTypeName(e.name))
    case Ok(paramTypes) =>
      match ResolveReturnHint(HintOf(e.hints, ReturnKey))
      case Err(_) => Err(NoTypeName(e.name))
      case Ok(returnType) => Ok(RawRecord(e.name + e.signature, DocText(e.doc), paramTypes, returnType))
  }

  /** The records of `fs` in order; the first function that raises stops the collection. */
  function CollectAll(fs: seq<Entry>): Result<Collected, Error>
    decreases |fs|
  {
    if |fs| == 0 then Ok([])
    else
      match CollectAll(fs[..|fs| - 1])
      case Err(e) => Err(e)
      case Ok(acc) =>
        var f := fs[|fs| - 1];
        match Record(f)
        case Err(e) => Err(e)
        case Ok(rec) => Ok(acc + [(f.name, rec)])
  }

  /** The result of `get_functions` on a namespace. */
  function Collect(ns: seq<Entry>): Result<Collected, Error> {
    CollectAll(LocalFunctions(ns))
  }

  /** The inner loop of `get_functions`: fills `names_types` one parameter at a time. */
  method BuildParamTypes(params: seq<string>, hints: map<string, TypeHint>)
    returns (r: Result<Option<ParamTypeMap>, HintError>)
    ensures r == ParamTypes(params, hints)
  {
    if |params| == 0 {
      return Ok(None);
    }
    var namesTypes: ParamTypeMap := map[];
    for i := 0 to |params|
      invariant forall p {:trigger p in namesTypes} :: p in namesTypes <==> p in params[..i]
      invariant forall p {:trigger p in namesTypes} :: p in namesTypes ==> ResolveParamHint(HintOf(hints, p)) == Ok(namesTypes[p])
    {
      var resolved := ResolveParamHint(HintOf(hints, params[i]));
      if resolved.Err? {
        assert params[i] in params;
        return Err(resolved.error);
      }
      assert params[..i + 1] == params[..i] + [params[i]];
      namesTypes := namesTypes[params[i] := resolved.value];
    }
    assert params[..|params|] == params;
    forall p | p in params
      ensures p in namesTypes && ResolveParamHint(HintOf(hints, p)) == Ok(namesTypes[p])
    {
      assert p in params[..|params|];
    }
    assert namesTypes == map p | p in params :: ResolveParamHint(HintOf(hints, p)).value;
    return Ok(Some(namesTypes));
  }

  /** `get_functions`: one record per local function, in namespace order. */
  method GetFunctions(ns: seq<Entry>) returns (r: Result<Collected, Error>)
    ensures r == Collect(ns)
  {
    var funcList := LocalFunctions(ns);
    var docstrings: Collected := [];
    for i := 0 to |funcList|
      invariant CollectAll(funcList[..i]) == Ok(docstrings)
    {
      var f := funcList[i];
      assert funcList[..i + 1][..i] == funcList[..i];
      assert funcList[..i + 1][i] == f;
      var funcTypes := BuildParamTypes(f.params, f.hints);
      if funcTypes.Err? {
        assert Record(f) == Err(NoTypeName(f.name));
        CollectAllErrorPersists(funcList, i + 1);
        return Err(NoTypeName(f.name));
      }
      var retType := ResolveReturnHint(HintOf(f.hints, ReturnKey));
      if retType.Err? {
        assert Record(f) == Err(NoTypeName(f.name));
        CollectAllErrorPersists(funcList, i + 1);
        return Err(NoTypeName(f.name));
      }
      var rec := RawRecord(f.name + f.signature, DocText(f.doc), funcTypes.value, retType.value);
      assert Record(f) == Ok(rec);
      docstrings := docstrings + [(f.name, rec)];
    }
    assert funcList[..|funcList|] == funcList;
    return Ok(docstrings);
  }

  /** Once a prefix of the functions raises, the whole collection raises the same error. */
  lemma {:induction false} CollectAllErrorPersists(fs: seq<Entry>, n: nat)
    requires n <= |fs| && CollectAll(fs[..n]).Err?
    ensures CollectAll(fs) == CollectAll(fs[..n])
    decreases |fs| - n
  {
    if n < |fs| {
      assert fs[..n + 1][..n] == fs[..n];
      CollectAllErrorPersists(fs, n + 1);
    } else {
      assert fs[..n] == fs;
    }
  }

  /** The collection succeeds exactly when every function's record does, and then lists them in order. */
  lemma {:induction false} CollectAllShape(fs: seq<Entry>)
    ensures CollectAll(fs).Ok? <==> forall k :: 0 <= k < |fs| ==> Record(fs[k]).Ok?
    ensures CollectAll(fs).Ok? ==>
              |CollectAll(fs).value| == |fs| &&
              forall k :: 0 <= k < |fs| ==> CollectAll(fs).value[k] == (fs[k].name, Record(fs[k]).value)
    decreases |fs|
  {
    if |fs| > 0 {
      var init := fs[..|fs| - 1];
      CollectAllShape(init);
      assert forall k :: 0 <= k < |init| ==> init[k] == fs[k];
    }
  }

  /** The error raised is the one of the first function, in order, whose record raises. */
  lemma {:induction false} CollectAllFirstError(fs: seq<Entry>, j: nat)
    requires j < |fs| && Record(fs[j]).Err?
    requires forall k :: 0 <= k < j ==> Record(fs[k]).Ok?
    ensures CollectAll(fs) == Err(Record(fs[j]).error)
  {
    var pre := fs[..j];
    CollectAllShape(pre);
    assert forall k :: 0 <= k < j ==> pre[k] == fs[k];
    assert fs[..j + 1][..j] == pre;
    CollectAllErrorPersists(fs, j + 1);
  }

  /** Filtering distributes over concatenation, so namespace order is kept. */
  lemma {:induction false} LocalFunctionsConcat(a: seq<Entry>, b: seq<Entry>)
    ensures LocalFunctions(a + b) == LocalFunctions(a) + LocalFunctions(b)
  {
    if a == [] {
      assert a + b == b;
    } else {
      assert (a + b)[0] == a[0];
      assert (a + b)[1..] == a[1..] + b;
      LocalFunctionsConcat(a[1..], b);
    }
  }

  /** A namespace without local functions collects to nothing; one of only local functions keeps them all. */
  lemma {:induction false} LocalFunctionsExtremes(ns: seq<Entry>)
    ensures (forall k :: 0 <= k < |ns| ==> !IsLocalFunction(ns[k])) ==> LocalFunctions(ns) == []
    ensures (forall k :: 0 <= k < |ns| ==> IsLocalFunction(ns[k])) ==> LocalFunctions(ns) == ns
  {
    if ns != [] {
      LocalFunctionsExtremes(ns[1..]);
      assert forall k :: 0 <= k < |ns[1..]| ==> ns[1..][k] == ns[k + 1];
      assert [ns[0]] + ns[1..] == ns;
    }
  }

  lemma {:induction false} LocalFunctionsDistinct(ns: seq<Entry>)
    requires DistinctNames(ns)
    ensures DistinctNames(LocalFunctions(ns))
  {
    if ns != [] {
      var tail := ns[1..];
      assert DistinctNames(tail) by {
        forall i, j | 0 <= i < j < |tail| ensures tail[i].name != tail[j].name {
          assert tail[i] == ns[i + 1] && tail[j] == ns[j + 1];
        }
      }
      LocalFunctionsDistinct(tail);
      var rest := LocalFunctions(tail);
      if IsLocalFunction(ns[0]) {
        forall k | 0 <= k < |rest| ensures rest[k].name != ns[0].name {
          assert rest[k] in rest;
          var j :| 0 <= j < |tail| && tail[j] == rest[k];
          assert tail[j] == ns[j + 1];
        }
      }
    }
  }

  /**
   * The collected dictionary: its keys are the local functions' names in
   * namespace order, each with that function's record; it is present exactly
   * when no local function's record raises.
   */
  lemma CollectShape(ns: seq<Entry>)
    ensures Collect(ns).Ok? <==> forall e :: e in LocalFunctions(ns) ==> Record(e).Ok?
    ensures Collect(ns).Ok? ==>
              |Collect(ns).value| == |LocalFunctions(ns)| &&
              forall k :: 0 <= k < |LocalFunctions(ns)| ==>
                Collect(ns).value[k].0 == LocalFunctions(ns)[k].name &&
                Collect(ns).value[k].1 == Record(LocalFunctions(ns)[k]).value
  {
    CollectAllShape(LocalFunctions(ns));
  }

  /** Names that are unique in the namespace stay unique as keys. */
  lemma CollectKeysDistinct(ns: seq<Entry>)
    requires DistinctNames(ns)
    requires Collect(ns).Ok?
    ensures DistinctKeys(Collect(ns).value)
  {
    LocalFunctionsDistinct(ns);
    CollectAllShape(LocalFunctions(ns));
  }

  /** A function is never left out for its types; it raises exactly for these hints. */
  lemma RecordRaises(e: Entry)
    ensures Record(e).Err? <==>
              (|e.params| > 0 && exists p :: p in e.params && p in e.hints && HasNamelessMember(e.hints[p])) ||
              (ReturnKey in e.hints && (e.hints[ReturnKey] == Nameless || HasNamelessMember(e.hints[ReturnKey])))
    ensures Record(e).Err? ==> Record(e).error == NoTypeName(e.name)
  {
  }

  /** The header is the name followed by the signature; a missing docstring is stored as "". */
  lemma RecordHeadAndDoc(e: Entry)
    requires Record(e).Ok?
    ensures Record(e).value.head == e.name + e.signature
    ensures e.doc == None ==> Record(e).value.doc == ""
    ensures forall d :: e.doc == Some(d) ==> Record(e).value.doc == d
  {
  }

  /**
   * The parameter map: absent for a function without parameters, otherwise
   * keyed by exactly its parameter names, with `None` for an unannotated
   * parameter or a hint without a name.
   */
  lemma RecordParamTypes(e: Entry)
    requires Record(e).Ok?
    ensures Record(e).value.paramTypes.None? <==> |e.params| == 0
    ensures Record(e).value.paramTypes.Some? ==>
              var m := Record(e).value.paramTypes.value;
              (forall p :: p in m <==> p in e.params) &&
              (forall p :: p in e.params && p !in e.hints ==> m[p] == None) &&
              (forall p :: p in e.params && p in e.hints && e.hints[p] == Nameless ==> m[p] == None) &&
              (forall p, n :: p in e.params && p in e.hints && e.hints[p] == Named(n) ==> m[p] == Some(n)) &&
              (forall p :: p in e.params && p in e.hints && e.hints[p].Union? ==>
                 AllNamed(e.hints[p].members) && m[p] == Some(JoinOr(MemberNames(e.hints[p].members))))
  {
  }

  /** The return type: `None` without a `"return"` hint, else its name or its flattened union. */
  lemma RecordReturnType(e: Entry)
    requires Record(e).Ok?
    ensures ReturnKey !in e.hints ==> Record(e).value.returnType == None
    ensures forall n :: HintOf(e.hints, ReturnKey) == Some(Named(n)) ==> Record(e).value.returnType == Some(n)
    ensures ReturnKey in e.hints && e.hints[ReturnKey].Union? ==>
              AllNamed(e.hints[ReturnKey].members) &&
              Record(e).value.returnType == Some(JoinOr(MemberNames(e.hints[ReturnKey].members)))
    ensures HintOf(e.hints, ReturnKey) != Some(Nameless)
  {
  }
}
