/** The fixed set of step categories, a string-valued enumeration. */
module Enums {
  import opened Records

  datatype StepType = Filtering | Ranking | Generation | Selection

  /** The string value a member stands for (the enum derives from `str`). */
  function Value(t: StepType): (r: string)
    ensures |r| > 0 && forall i :: 0 <= i < |r| ==> 'a' <= r[i] <= 'z'
  {
    match t
    case Filtering => "filtering"
    case Ranking => "ranking"
    case Generation => "generation"
    case Selection => "selection"
  }

  /** Lookup by value, `StepType(s)`; an unknown string has no member. */
  function Parse(s: string): (r: Option<StepType>)
    ensures r.Some? ==> Value(r.value) == s
  {
    if s == "filtering" then Some(Filtering)
    else if s == "ranking" then Some(Ranking)
    else if s == "generation" then Some(Generation)
    else if s == "selection" then Some(Selection)
    else None
  }

  /** All members in declaration order. */
  function Members(): (r: seq<StepType>)
    ensures |r| == 4
    ensures forall i, j :: 0 <= i < j < |r| ==> Value(r[i]) != Value(r[j])
  {
    [Filtering, Ranking, Generation, Selection]
  }

  /** Every member is listed. */
  lemma MembersComplete(t: StepType)
    ensures t in Members()
  {
    match t
    case Filtering => assert Members()[0] == t;
    case Ranking => assert Members()[1] == t;
    case Generation => assert Members()[2] == t;
    case Selection => assert Members()[3] == t;
  }

  /** Parsing inverts taking the value, and only the four values parse. */
  lemma ParseValue(t: StepType, s: string)
    ensures Parse(Value(t)) == Some(t)
    ensures Parse(s).Some? <==> exists u: StepType :: s == Value(u)
  {
    if s in {"filtering", "ranking", "generation", "selection"} {
      assert s == Value(Parse(s).value);
    }
  }

  /** Distinct members have distinct values. */
  lemma ValueInjective(a: StepType, b: StepType)
    ensures Value(a) == Value(b) ==> a == b
  {
    ParseValue(a, "");
    ParseValue(b, "");
  }
}
