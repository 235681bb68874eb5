/** Compiled queries and the one change the adapter makes to them: when the
    client has no custom `format` function, every `Date` parameter is
    replaced by its database date string before the query is sent. */
module Queries {
  import opened Types
  import opened DateFormat

  /** A positional parameter. A valid `Date` is represented by the string
      `toISOString()` returns for it; an invalid `Date` (whose
      `toISOString()` throws) by `InvalidDate`. The other constructors stand
      for the non-`Date` values the query builder may pass, which the
      adapter never inspects. */
  datatype Param =
    | DateValue(iso: string)
    | InvalidDate
    | Text(text: string)
    | Integer(value: int)
    | Boolean(flag: bool)
    | Null

  /** SQL text plus its positional parameters, as compiled upstream. */
  datatype CompiledQuery = CompiledQuery(sql: string, parameters: seq<Param>)

  /** The callback of `parameters.map`: a `Date` becomes `formatDate(date)`. */
  function FormatParam(p: Param): (r: Result<Param>)
    ensures p.InvalidDate? <==> r.Err?
    ensures r.Err? ==> r.error == InvalidTimeValue
    ensures p.DateValue? ==> r == Ok(Text(FormatDate(p.iso)))
    ensures !p.DateValue? && !p.InvalidDate? ==> r == Ok(p)
  {
    match p
    case DateValue(iso) => Ok(Text(FormatDate(iso)))
    case InvalidDate => Err(InvalidTimeValue)
    case _ => Ok(p)
  }

  /** The parameters `execute` hands to the client: unchanged when the client
      has a custom formatter, otherwise mapped by `FormatAll`. */
  function RewriteParams(hasFormat: bool, ps: seq<Param>): (r: Result<seq<Param>>)
    ensures hasFormat ==> r == Ok(ps)
    ensures r.Err? ==> r.error == InvalidTimeValue
    ensures r.Ok? ==> |r.value| == |ps|
  {
    if hasFormat then Ok(ps) else FormatAll(ps)
  }

  /** `parameters.map(...)` with the callback `FormatParam`. The map stops at
      the first invalid `Date`, whose RangeError rejects the call. */
  function FormatAll(ps: seq<Param>): (r: Result<seq<Param>>)
    ensures r.Err? ==> r.error == InvalidTimeValue
    ensures r.Ok? ==> |r.value| == |ps|
  {
    if ps == [] then Ok([])
    else
      match FormatParam(ps[0])
      case Err(e) => Err(e)
      case Ok(p) =>
        match FormatAll(ps[1..])
        case Err(e) => Err(e)
        case Ok(rest) => Ok([p] + rest)
  }

  /** The map fails exactly when some parameter is an invalid `Date`. */
  lemma {:induction false} FormatAllFailsExactly(ps: seq<Param>)
    ensures FormatAll(ps).Ok? <==> forall i :: 0 <= i < |ps| ==> !ps[i].InvalidDate?
  {
    if ps != [] {
      FormatAllFailsExactly(ps[1..]);
      assert forall i :: 1 <= i < |ps| ==> ps[i] == ps[1..][i - 1];
    }
  }

  /** When the map succeeds, each element is the callback's value for the
      element at the same position. */
  lemma {:induction false} FormatAllPointwise(ps: seq<Param>)
    requires FormatAll(ps).Ok?
    ensures forall i :: 0 <= i < |ps| ==> FormatParam(ps[i]) == Ok(FormatAll(ps).value[i])
  {
    if ps != [] {
      FormatAllPointwise(ps[1..]);
      var out := FormatAll(ps).value;
      var rest := FormatAll(ps[1..]).value;
      assert out == [out[0]] + rest;
      forall i | 1 <= i < |ps| ensures FormatParam(ps[i]) == Ok(out[i]) {
        assert ps[i] == ps[1..][i - 1] && out[i] == rest[i - 1];
      }
    }
  }

  /** After the rewrite no `Date` is left, and the rewrite keeps every
      non-`Date` value where it was. */
  lemma RewriteLeavesNoDates(ps: seq<Param>)
    requires RewriteParams(false, ps).Ok?
    ensures var qs := RewriteParams(false, ps).value;
      (forall i :: 0 <= i < |qs| ==> !qs[i].DateValue? && !qs[i].InvalidDate?) &&
      (forall i :: 0 <= i < |ps| && !ps[i].DateValue? ==> qs[i] == ps[i])
  {
    var qs := RewriteParams(false, ps).value;
    FormatAllPointwise(ps);
    forall i | 0 <= i < |qs| ensures !qs[i].DateValue? && !qs[i].InvalidDate? {
      assert FormatParam(ps[i]) == Ok(qs[i]);
    }
  }

  /** Rewriting already rewritten parameters changes nothing. */
  lemma RewriteIdempotent(ps: seq<Param>)
    requires RewriteParams(false, ps).Ok?
    ensures var qs := RewriteParams(false, ps).value; RewriteParams(false, qs) == Ok(qs)
  {
    var qs := RewriteParams(false, ps).value;
    RewriteLeavesNoDates(ps);
    FormatAllFailsExactly(qs);
    FormatAllPointwise(qs);
    var again := RewriteParams(false, qs);
    assert again.Ok?;
    assert again.value == qs;
  }
}
