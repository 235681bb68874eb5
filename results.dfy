/** How `execute` turns the client's raw result into the query builder's
    `QueryResult`: an embedded error is raised, the affected-row count and
    the insert id become big integers (or stay absent), and the rows pass
    through untouched. */
module Results {
  import opened Types
  import opened BigIntText

  /** A row as the client decodes it; the adapter never looks inside. */
  type Row = map<string, string>

  /** What the client's `execute` resolves to. `error` is set only by client
      versions older than 1.3.0, which return errors instead of throwing;
      `None` stands for an absent `error`, a missing or null `rowsAffected`
      and a null `insertId` (an `insertId` left undefined is not modelled). */
  datatype RawResult = RawResult(
    error: Option<string>,
    rowsAffected: Option<nat>,
    insertId: Option<string>,
    rows: seq<Row>)

  /** The query builder's result; `None` stands for `undefined`. */
  datatype QueryResult = QueryResult(
    insertId: Option<int>,
    rows: seq<Row>,
    numAffectedRows: Option<int>)

  /** The normalisation at the end of `execute`. */
  function Normalize(raw: RawResult): (r: Result<QueryResult>)
    // an embedded error is raised, never returned
    ensures raw.error.Some? ==> r == Err(ClientError(raw.error.value))
    // otherwise only an insert id that BigInt cannot read fails the call
    ensures raw.error.None? ==>
      (r.Err? <==> raw.insertId.Some? && raw.insertId.value != "0" && ParseBigInt(raw.insertId.value).None?)
    ensures r.Err? && raw.error.None? ==> r.error == InvalidBigInt(raw.insertId.value)
    // rows pass through
    ensures r.Ok? ==> r.value.rows == raw.rows
    // the count is absent exactly when the client gave none, and keeps its value
    ensures r.Ok? ==> (r.value.numAffectedRows.None? <==> raw.rowsAffected.None?)
    ensures r.Ok? && raw.rowsAffected.Some? ==> r.value.numAffectedRows == Some(raw.rowsAffected.value as int)
    // the insert id is absent exactly when the client gave null or the text "0"
    ensures r.Ok? ==> (r.value.insertId.None? <==> raw.insertId.None? || raw.insertId == Some("0"))
    ensures r.Ok? && r.value.insertId.Some? ==> ParseBigInt(raw.insertId.value) == r.value.insertId
  {
    if raw.error.Some? then Err(ClientError(raw.error.value))
    else
      var numAffectedRows := match raw.rowsAffected
        case None => None
        case Some(n) => Some(n as int);
      match raw.insertId
      case None => Ok(QueryResult(None, raw.rows, numAffectedRows))
      case Some(text) =>
        if text == "0" then Ok(QueryResult(None, raw.rows, numAffectedRows))
        else
          match ParseBigInt(text)
          case None => Err(InvalidBigInt(text))
          case Some(v) => Ok(QueryResult(Some(v), raw.rows, numAffectedRows))
  }

  /** For the text the client writes for an insert id (the canonical decimal
      text of an integer), the normalised id is that integer, and absent
      exactly when it is zero: never `0n`. */
  lemma InsertIdRoundTrip(raw: RawResult, id: int)
    requires raw.error.None? && raw.insertId == Some(IntegerText(id))
    ensures Normalize(raw).Ok?
    ensures Normalize(raw).value.insertId == if id == 0 then None else Some(id)
  {
    IntegerTextZero(id);
    IntegerRoundTrip(id);
  }

  /** The test is on the text, not on the value: a non-canonical zero such
      as `"00"` is converted and yields an insert id of `0n`. */
  lemma NonCanonicalZeroInsertId(raw: RawResult)
    requires raw.error.None? && raw.insertId == Some("00")
    ensures Normalize(raw).Ok? && Normalize(raw).value.insertId == Some(0)
  {
    var text := raw.insertId.value;
    assert |text| == 2 && text[0] == '0' && text[1] == '0';
    ZeroIdText(raw, text);
  }

  lemma ZeroIdText(raw: RawResult, text: string)
    requires raw.error.None? && raw.insertId == Some(text)
    requires |text| == 2 && text[0] == '0' && text[1] == '0'
    ensures Normalize(raw).Ok? && Normalize(raw).value.insertId == Some(0)
  {
    assert text != "0";
    TwoZeros(text);
  }
}
