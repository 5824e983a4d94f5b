/**
 * How a type hint becomes the display name recorded for a parameter or a
 * return value: a union is flattened to its member names joined by " or ",
 * any other hint contributes its `__name__`.
 */
module TypeNames {
  import opened Wrappers

  /**
   * A type hint as the resolver sees it: a `Union` (its members' `__name__`,
   * `None` where a member has none), another hint that has a `__name__`, or
   * one that has none.
   */
  datatype TypeHint =
    | Union(members: seq<Option<string>>)
    | Named(name: string)
    | Nameless

  /** The AttributeError raised when `__name__` is read from a hint without one. */
  datatype HintError = NoNameAttribute

  const Separator: string := " or "

  /** `" or ".join(names)`. */
  function JoinOr(names: seq<string>): string {
    if |names| == 0 then ""
    else if |names| == 1 then names[0]
    else names[0] + Separator + JoinOr(names[1..])
  }

  predicate AllNamed(members: seq<Option<string>>) {
    forall i :: 0 <= i < |members| ==> members[i].Some?
  }

  predicate HasNamelessMember(h: TypeHint) {
    h.Union? && !AllNamed(h.members)
  }

  function MemberNames(members: seq<Option<string>>): (names: seq<string>)
    requires AllNamed(members)
    ensures |names| == |members|
    ensures forall i :: 0 <= i < |members| ==> members[i] == Some(names[i])
  {
    seq(|members|, i requires 0 <= i < |members| => members[i].value)
  }

  /** The union's display name; reading a missing member name raises. */
  function UnionName(members: seq<Option<string>>): Result<string, HintError> {
    if AllNamed(members) then Ok(JoinOr(MemberNames(members))) else Err(NoNameAttribute)
  }

  /** A parameter's hint (`None` when unannotated); a nameless non-union hint falls back to `None`. */
  function ResolveParamHint(h: Option<TypeHint>): Result<Option<string>, HintError> {
    match h
    case None => Ok(None)
    case Some(Union(members)) =>
      (match UnionName(members)
       case Ok(n) => Ok(Some(n))
       case Err(e) => Err(e))
    case Some(Named(n)) => Ok(Some(n))
    case Some(Nameless) => Ok(None)
  }

  /** The `"return"` hint; here a nameless non-union hint has no fallback and raises. */
  function ResolveReturnHint(h: Option<TypeHint>): Result<Option<string>, HintError> {
    match h
    case None => Ok(None)
    case Some(Union(members)) =>
      (match UnionName(members)
       case Ok(n) => Ok(Some(n))
       case Err(e) => Err(e))
    case Some(Named(n)) => Ok(Some(n))
    case Some(Nameless) => Err(NoNameAttribute)
  }

  /** What a parameter hint resolves to, case by case, including when it raises. */
  lemma ResolveParamHintCases(h: Option<TypeHint>)
    ensures ResolveParamHint(h).Err? <==> h.Some? && HasNamelessMember(h.value)
    ensures ResolveParamHint(h) == Ok(None) <==> h == None || h == Some(Nameless)
    ensures forall n :: h == Some(Named(n)) ==> ResolveParamHint(h) == Ok(Some(n))
    ensures h.Some? && h.value.Union? && AllNamed(h.value.members) ==>
              ResolveParamHint(h) == Ok(Some(JoinOr(MemberNames(h.value.members))))
  {
  }

  /** The return resolution is the parameter resolution except for a nameless hint. */
  lemma ReturnDiffersOnlyOnNameless(h: Option<TypeHint>)
    ensures h != Some(Nameless) ==> ResolveReturnHint(h) == ResolveParamHint(h)
    ensures ResolveReturnHint(Some(Nameless)) == Err(NoNameAttribute)
    ensures ResolveParamHint(Some(Nameless)) == Ok(None)
  {
  }

  /** A two-member union, for a parameter or the return, reads "A or B". */
  lemma UnionOfTwo(a: string, b: string)
    ensures ResolveParamHint(Some(Union([Some(a), Some(b)]))) == Ok(Some(a + " or " + b))
    ensures ResolveReturnHint(Some(Union([Some(a), Some(b)]))) == Ok(Some(a + " or " + b))
  {
    assert MemberNames([Some(a), Some(b)]) == [a, b];
    assert JoinOr([a, b]) == a + Separator + JoinOr([b]);
  }

  /** Joining two non-empty runs of names is joining each and separating them once. */
  lemma {:induction false} JoinOrConcat(a: seq<string>, b: seq<string>)
    requires |a| > 0 && |b| > 0
    ensures JoinOr(a + b) == JoinOr(a) + Separator + JoinOr(b)
  {
    if |a| > 1 {
      assert (a + b)[1..] == a[1..] + b;
      JoinOrConcat(a[1..], b);
    } else {
      assert (a + b)[1..] == b;
    }
  }

  /** `s.split(c)`. */
  function Split(s: string, c: char): (parts: seq<string>)
    ensures |parts| > 0
  {
    if s == [] then [[]]
    else
      var rest := Split(s[1..], c);
      if s[0] == c then [[]] + rest else [[s[0]] + rest[0]] + rest[1..]
  }

  /** Every other element, starting with the first. */
  function Evens<T>(xs: seq<T>): seq<T>
    decreases |xs|
  {
    if |xs| <= 1 then xs else [xs[0]] + Evens(xs[2..])
  }

  /** Reading a flattened union back: split at the spaces and drop the "or" words. */
  function UnionMembers(s: string): seq<string> {
    Evens(Split(s, ' '))
  }

  lemma {:induction false} SplitWithoutSeparator(a: string, c: char)
    requires c !in a
    ensures Split(a, c) == [a]
  {
    if a != [] {
      SplitWithoutSeparator(a[1..], c);
      assert [a[0]] + a[1..] == a;
    }
  }

  lemma {:induction false} SplitAtFirst(a: string, c: char, b: string)
    requires c !in a
    ensures Split(a + [c] + b, c) == [a] + Split(b, c)
  {
    var s := a + [c] + b;
    if a == [] {
      assert s[0] == c && s[1..] == b;
    } else {
      assert s[0] == a[0];
      assert s[1..] == a[1..] + [c] + b;
      SplitAtFirst(a[1..], c, b);
      assert [a[0]] + a[1..] == a;
    }
  }

  /** The first separator splits off the first name and the word "or". */
  lemma SplitJoinStep(first: string, rest: string)
    requires ' ' !in first
    ensures Split(first + Separator + rest, ' ') == [first, "or"] + Split(rest, ' ')
  {
    var word := Separator[1..3];
    var tail := word + [' '] + rest;
    assert word == "or" && ' ' !in word;
    assert first + Separator + rest == first + [' '] + tail;
    SplitAtFirst(first, ' ', tail);
    SplitAtFirst(word, ' ', rest);
    assert Split(first + Separator + rest, ' ') == [first] + ([word] + Split(rest, ' '));
  }

  /** Round trip: names without spaces are recovered from their " or " join. */
  lemma {:induction false} JoinOrRoundTrip(names: seq<string>)
    requires |names| > 0
    requires forall i :: 0 <= i < |names| ==> ' ' !in names[i]
    ensures UnionMembers(JoinOr(names)) == names
  {
    if |names| == 1 {
      SplitWithoutSeparator(names[0], ' ');
    } else {
      var rest := names[1..];
      assert forall i :: 0 <= i < |rest| ==> ' ' !in rest[i] by {
        forall i | 0 <= i < |rest| ensures ' ' !in rest[i] {
          assert rest[i] == names[i + 1];
        }
      }
      JoinOrRoundTrip(rest);
      SplitJoinStep(names[0], JoinOr(rest));
      var parts := Split(JoinOr(names), ' ');
      assert parts == [names[0], "or"] + Split(JoinOr(rest), ' ');
      assert parts[2..] == Split(JoinOr(rest), ' ');
      assert Evens(parts) == [names[0]] + Evens(parts[2..]);
      assert [names[0]] + rest == names;
    }
  }
}
