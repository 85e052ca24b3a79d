/**
 * The search request sent to the archive and the outcome it produces.
 * The network round trip and the JSON decoding are not modelled; their outcome is an input.
 */
module ArchiveApi {
  import opened RandomChoice

  datatype Option<+T> = None | Some(value: T)

  /** One entry of `response.docs`, carrying the requested fields. */
  datatype Doc = Doc(identifier: string, title: string, mediatype: string, description: string, format: string)

  /**
   * What the awaited `fetch` and `response.json()` yield: the `docs` array, or `Failure` for every
   * exception caught by the handler (a rejected fetch, a body that is not JSON, a missing `response.docs`).
   */
  datatype Outcome = Ok(docs: seq<Doc>) | Failure

  const QueryPrefix := "mediatype:"
  const FieldList := "identifier,title,mediatype,description,format"
  const Rows: nat := 50
  const PageCount: nat := 100
  const OutputFormat := "json"

  /** The values handed to `URLSearchParams`, before they are rendered as strings. */
  datatype Request = Request(q: string, fields: string, rows: nat, page: nat, output: string)

  /** The query string restricting the search to one media type. */
  function MediaTypeQuery(t: string): (q: string)
    ensures |q| == |QueryPrefix| + |t|
    ensures q[..|QueryPrefix|] == QueryPrefix && q[|QueryPrefix|..] == t
  {
    QueryPrefix + t
  }

  /** The media type a query string asks for, if it has the `mediatype:` form. */
  function QueriedMediaType(q: string): (t: Option<string>)
    ensures t.Some? ==> MediaTypeQuery(t.value) == q
  {
    if |QueryPrefix| <= |q| && q[..|QueryPrefix|] == QueryPrefix then Some(q[|QueryPrefix|..]) else None
  }

  lemma QueriedMediaTypeInverts(t: string)
    ensures QueriedMediaType(MediaTypeQuery(t)) == Some(t)
  {
  }

  /**
   * The parameters built from the selection (lines 29-39): one selected type picked by `typeDraw`,
   * a page in [1, 100] picked by `pageDraw`, fixed fields, page size and output format.
   */
  function BuildRequest(selected: seq<string>, typeDraw: real, pageDraw: real): (req: Request)
    requires selected != [] && IsDraw(typeDraw) && IsDraw(pageDraw)
    ensures exists i :: 0 <= i < |selected| && req.q == MediaTypeQuery(selected[i])
    ensures QueriedMediaType(req.q).Some? && QueriedMediaType(req.q).value in selected
    ensures req.fields == FieldList && req.rows == 50 && req.output == "json"
    ensures 1 <= req.page <= 100
  {
    var t := selected[RandomIndex(typeDraw, |selected|)];
    QueriedMediaTypeInverts(t);
    Request(MediaTypeQuery(t), FieldList, Rows, RandomIndex(pageDraw, PageCount) + 1, OutputFormat)
  }

  /** Every selected type is queried for some draw. */
  lemma EveryTypeCanBeQueried(selected: seq<string>, i: nat)
    requires i < |selected|
    ensures IsDraw((i as real) / (|selected| as real))
    ensures BuildRequest(selected, (i as real) / (|selected| as real), 0.0).q == MediaTypeQuery(selected[i])
  {
    RandomIndexReaches(|selected|, i);
  }

  /** Every page in [1, 100] is requested for some draw. */
  lemma EveryPageCanBeRequested(selected: seq<string>, page: nat)
    requires selected != [] && 1 <= page <= 100
    ensures IsDraw(((page - 1) as real) / 100.0)
    ensures BuildRequest(selected, 0.0, ((page - 1) as real) / 100.0).page == page
  {
    RandomIndexReaches(PageCount, page - 1);
  }

  predicate IsDigit(c: char)
  {
    '0' <= c <= '9'
  }

  predicate AllDigits(s: string)
  {
    forall i :: 0 <= i < |s| ==> IsDigit(s[i])
  }

  function DigitChar(d: nat): (c: char)
    requires d < 10
    ensures IsDigit(c) && c as int - '0' as int == d
  {
    ('0' as int + d) as char
  }

  /**
   * The decimal rendering JavaScript's Number-to-string conversion gives the `rows` and `page` values
   * (both below 1e21, where it would switch to exponent form): decimal digits, no leading zero.
   */
  function NatToDecimal(n: nat): (s: string)
    ensures |s| >= 1 && AllDigits(s)
    ensures |s| > 1 ==> s[0] != '0'
    decreases n
  {
    if n < 10 then [DigitChar(n)] else NatToDecimal(n / 10) + [DigitChar(n % 10)]
  }

  /** Reads a string of decimal digits back as a number. */
  function DecimalToNat(s: string): (n: nat)
    requires AllDigits(s)
  {
    if s == [] then 0 else DecimalToNat(s[..|s| - 1]) * 10 + (s[|s| - 1] as int - '0' as int)
  }

  lemma {:induction false} DecimalRoundTrip(n: nat)
    ensures DecimalToNat(NatToDecimal(n)) == n
    decreases n
  {
    var s := NatToDecimal(n);
    if n >= 10 {
      DecimalRoundTrip(n / 10);
      assert s[..|s| - 1] == NatToDecimal(n / 10);
    }
  }

  const ParamKeys: seq<string> := ["q", "fl[]", "rows", "page", "output"]

  /** The ordered key/value pairs the request carries, with numbers rendered as decimal strings. */
  function QueryParams(req: Request): (ps: seq<(string, string)>)
    ensures |ps| == |ParamKeys| && forall k :: 0 <= k < |ps| ==> ps[k].0 == ParamKeys[k]
    ensures req.rows == Rows ==> ps[2].1 == "50"
  {
    [("q", req.q), ("fl[]", req.fields), ("rows", NatToDecimal(req.rows)),
     ("page", NatToDecimal(req.page)), ("output", req.output)]
  }

  /** Reads the five parameters back, or `None` when the keys or the numbers do not fit. */
  function ParseQueryParams(ps: seq<(string, string)>): (r: Option<Request>)
  {
    if |ps| == 5 && ps[0].0 == "q" && ps[1].0 == "fl[]" && ps[2].0 == "rows" && ps[3].0 == "page"
       && ps[4].0 == "output" && AllDigits(ps[2].1) && AllDigits(ps[3].1)
    then Some(Request(ps[0].1, ps[1].1, DecimalToNat(ps[2].1), DecimalToNat(ps[3].1), ps[4].1))
    else None
  }

  /** The parameter list loses nothing: the request is recovered from it. */
  lemma ParamsRoundTrip(req: Request)
    ensures ParseQueryParams(QueryParams(req)) == Some(req)
  {
    DecimalRoundTrip(req.rows);
    DecimalRoundTrip(req.page);
  }
}
