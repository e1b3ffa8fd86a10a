/** The portfolio calculator: it checks the allocation ratios, splits the
    total amount per period between the funds, runs the single-fund
    calculator once per fund in input order, and adds up principal and
    ending assets to get the portfolio's rate of return. */
module Portfolio {
  import opened Wrappers
  import opened TextSplit
  import opened Payload
  import opened QueryUrl

  /** The calculator parameters every fund of the portfolio shares, already
      rendered as the text that goes into the URL. */
  datatype Settings = Settings(
    round: string, sdate: string, edate: string, dtr: string,
    p: string, stype: string, needfirst: string)

  /** One single-fund query: fund code, amount per period, shared parameters. */
  datatype Call = Call(code: string, amount: real, settings: Settings)

  /** Python's conversions between numbers and text: `str(x)`, which renders
      the amount in the URL, and `float(s)`, which fails on text that is not
      a number. */
  datatype Conversions = Conversions(show: real -> string, parse: string -> Option<real>)

  /** Why a single-fund query fails. */
  datatype QueryError =
    | Transport                     // the HTTP request failed
    | Malformed(cause: ParseError)  // the reply has no token or no colon

  /** Why a portfolio calculation is aborted; each is an uncaught exception
      in Python. */
  datatype Error =
    | RatioExceedsOne           // the ratios add up to more than 1
    | Failed(cause: QueryError) // a single-fund query failed
    | ShortRow                  // a row has fewer than four fields: `row[3]` fails
    | NotANumber(text: string)  // `float` rejects a field
    | ZeroPrincipal             // the total principal is zero: the division fails

  function QueryOf(call: Call, py: Conversions): Query {
    var s := call.settings;
    Query(call.code, s.round, s.sdate, s.edate, s.dtr, s.p, py.show(call.amount), s.stype, s.needfirst)
  }

  /** What the single-fund calculator makes of the provider's answer:
      `None` is a failed request, a reply is parsed into a row. */
  function Respond(answer: Option<string>): (r: Result<seq<string>, QueryError>)
    ensures r == Err(Transport) <==> answer.None?
    ensures r == Err(Malformed(NoToken)) <==> answer.Some? && Blank(answer.value)
    ensures r == Err(Malformed(NoColon)) <==> answer.Some? && !Blank(answer.value) && ':' !in Words(answer.value)[0]
    ensures r.Ok? ==> forall k :: 0 <= k < |r.value| ==>
      '|' !in r.value[k] && ':' !in r.value[k] && Spaceless(r.value[k])
  {
    match answer
    case None => Err(Transport)
    case Some(body) =>
      match ParseRow(body)
      case Err(e) => Err(Malformed(e))
      case Ok(row) => Ok(row)
  }

  /** The single-fund calculator: build the query URL, fetch it from the
      provider (`reply` stands for the network) and read the answer. */
  function SingleFund(reply: string -> Option<string>, call: Call, py: Conversions): (r: Result<seq<string>, QueryError>)
    ensures var answer := reply(BuildUrl(QueryOf(call, py)));
      && (r == Err(Transport) <==> answer.None?)
      && (r.Err? && r != Err(Transport) <==> answer.Some? && ParseRow(answer.value).Err?)
      && (r.Ok? ==> answer.Some? && ParseRow(answer.value) == Ok(r.value))
  {
    Respond(reply(BuildUrl(QueryOf(call, py))))
  }

  /** A serialised row in the reply comes back as exactly that row. */
  lemma RespondRow(head: string, quote: char, fields: seq<string>, tail: string)
    requires Spaceless(head) && ':' !in head
    requires quote != ':' && !IsSpace(quote)
    requires forall k :: 0 <= k < |fields| ==>
      '|' !in fields[k] && ':' !in fields[k] && Spaceless(fields[k])
    requires '|' !in tail && ':' !in tail && Spaceless(tail)
    ensures Respond(Some(head + [':'] + [quote] + Terminated(fields, '|') + tail)) == Ok(fields)
  {
    RoundTrip(head, quote, fields, tail);
  }

  /** The single-fund calculator as the portfolio calculator sees it: an
      oracle that answers each query with a row or a failure. `calls` logs
      every query issued, in order. Deployed, `income` is
      `c => SingleFund(reply, c, py)`. */
  class Calculator {
    const income: Call -> Result<seq<string>, QueryError>
    ghost var calls: seq<Call>

    constructor (income: Call -> Result<seq<string>, QueryError>)
      ensures this.income == income && calls == []
    {
      this.income := income;
      calls := [];
    }

    /** One single-fund query. */
    method InvestmentIncome(code: string, amount: real, settings: Settings)
      returns (r: Result<seq<string>, QueryError>)
      modifies this
      ensures calls == old(calls) + [Call(code, amount, settings)]
      ensures r == income(Call(code, amount, settings))
    {
      r := income(Call(code, amount, settings));
      calls := calls + [Call(code, amount, settings)];
    }
  }

  /** A list of result rows that its owner appends to in place. */
  class RowList {
    var rows: seq<seq<string>>

    constructor (rows: seq<seq<string>>)
      ensures this.rows == rows
    {
      this.rows := rows;
    }

    method Append(row: seq<string>)
      modifies this
      ensures rows == old(rows) + [row]
    {
      rows := rows + [row];
    }
  }

  function Min(a: int, b: int): int {
    if a <= b then a else b
  }

  /** Python's `sum`: left to right, starting from zero. */
  function Sum(xs: seq<real>): real {
    if xs == [] then 0.0 else Sum(xs[..|xs| - 1]) + xs[|xs| - 1]
  }

  lemma SumSnoc(xs: seq<real>, x: real)
    ensures Sum(xs + [x]) == Sum(xs) + x
  {
    assert (xs + [x])[..|xs|] == xs;
  }

  /** The sum of two lists of amounts is the sum of their sums. */
  lemma {:induction false} SumAppend(xs: seq<real>, ys: seq<real>)
    ensures Sum(xs + ys) == Sum(xs) + Sum(ys)
    decreases |ys|
  {
    if ys == [] {
      assert xs + ys == xs;
    } else {
      var init := ys[..|ys| - 1];
      assert xs + ys == (xs + init) + [ys[|ys| - 1]];
      SumSnoc(xs + init, ys[|ys| - 1]);
      SumAppend(xs, init);
    }
  }

  /** The amount per period given to each fund. */
  function Allocation(total: real, ratios: seq<real>): (amounts: seq<real>)
    ensures |amounts| == |ratios|
    ensures forall i :: 0 <= i < |ratios| ==> amounts[i] == total * ratios[i]
  {
    seq(|ratios|, i requires 0 <= i < |ratios| => total * ratios[i])
  }

  /** The single-fund queries of `zip(codes, amounts)`: as many as the
      shorter list, the i-th with the i-th code and the i-th amount. */
  function Zip(codes: seq<string>, amounts: seq<real>, s: Settings): (calls: seq<Call>)
    ensures |calls| == Min(|codes|, |amounts|)
  {
    if codes == [] || amounts == [] then []
    else [Call(codes[0], amounts[0], s)] + Zip(codes[1..], amounts[1..], s)
  }

  /** The i-th query pairs the i-th code with the i-th amount. */
  lemma {:induction false} ZipAt(codes: seq<string>, amounts: seq<real>, s: Settings, i: nat)
    requires i < |codes| && i < |amounts|
    ensures i < |Zip(codes, amounts, s)|
    ensures Zip(codes, amounts, s)[i] == Call(codes[i], amounts[i], s)
    decreases i
  {
    if i > 0 {
      ZipAt(codes[1..], amounts[1..], s, i - 1);
    }
  }

  /** The queries of the portfolio calculator: one per pair of code and
      ratio, in input order, the i-th for `codes[i]` with amount
      `total * ratios[i]` and the shared parameters unchanged. */
  lemma Queries(total: real, codes: seq<string>, ratios: seq<real>, s: Settings)
    ensures var calls := Zip(codes, Allocation(total, ratios), s);
      && |calls| == Min(|codes|, |ratios|)
      && forall i :: 0 <= i < |calls| ==> calls[i] == Call(codes[i], total * ratios[i], s)
  {
    var amounts := Allocation(total, ratios);
    forall i | 0 <= i < Min(|codes|, |ratios|)
      ensures Zip(codes, amounts, s)[i] == Call(codes[i], total * ratios[i], s)
    {
      ZipAt(codes, amounts, s, i);
    }
  }

  /** `float(text.replace(",", ""))` */
  function Number(text: string, py: Conversions): (r: Result<real, Error>)
    ensures r.Ok? <==> py.parse(Remove(text, ',')).Some?
    ensures r.Ok? ==> py.parse(Remove(text, ',')) == Some(r.value)
    ensures r.Err? ==> r.error == NotANumber(Remove(text, ',')) && ',' !in r.error.text
  {
    var plain := Remove(text, ',');
    match py.parse(plain)
    case None => Err(NotANumber(plain))
    case Some(x) => Ok(x)
  }

  /** A row whose principal (field 3) and ending assets (the last but one
      field) both read as numbers. */
  predicate Readable(row: seq<string>, py: Conversions) {
    |row| >= 4 && Number(row[3], py).Ok? && Number(row[|row| - 2], py).Ok?
  }

  /** The principal of each row, `0` where it does not read as a number. */
  function Principals(rows: seq<seq<string>>, py: Conversions): seq<real> {
    seq(|rows|, i requires 0 <= i < |rows| =>
      if |rows[i]| >= 4 then Number(rows[i][3], py).GetOr(0.0) else 0.0)
  }

  /** The ending assets of each row, `0` where they do not read as a number. */
  function Assets(rows: seq<seq<string>>, py: Conversions): seq<real> {
    seq(|rows|, i requires 0 <= i < |rows| =>
      if |rows[i]| >= 4 then Number(rows[i][|rows[i]| - 2], py).GetOr(0.0) else 0.0)
  }

  lemma ReadableSnoc(rows: seq<seq<string>>, row: seq<string>, py: Conversions)
    requires Readable(row, py)
    ensures Principals(rows + [row], py) == Principals(rows, py) + [Number(row[3], py).value]
    ensures Assets(rows + [row], py) == Assets(rows, py) + [Number(row[|row| - 2], py).value]
  {
    assert Principals(rows + [row], py)[..|rows|] == Principals(rows, py);
    assert Assets(rows + [row], py)[..|rows|] == Assets(rows, py);
  }

  /** The rows fetched so far with their running totals. */
  datatype Totals = Totals(rows: seq<seq<string>>, principal: real, assets: real)

  /** The answer to a query is a readable row. */
  predicate Usable(answer: Result<seq<string>, QueryError>, py: Conversions) {
    answer.Ok? && Readable(answer.value, py)
  }

  /** One turn of the portfolio calculator's loop: given the totals so far
      and the answer for the next fund, append the row, then read its
      principal and then its assets. */
  function Step(prev: Result<Totals, Error>, answer: Result<seq<string>, QueryError>, py: Conversions): (r: Result<Totals, Error>)
    ensures r.Ok? <==> prev.Ok? && Usable(answer, py)
    ensures r.Ok? ==> r.value.rows == prev.value.rows + [answer.value]
    ensures prev.Err? ==> r == prev
    ensures r == Err(RatioExceedsOne) ==> prev == Err(RatioExceedsOne)
  {
    match prev
    case Err(e) => Err(e)
    case Ok(t) =>
      match answer
      case Err(e) => Err(Failed(e))
      case Ok(row) =>
        if |row| < 4 then Err(ShortRow)
        else
          match Number(row[3], py)
          case Err(e) => Err(e)
          case Ok(principal) =>
            match Number(row[|row| - 2], py)
            case Err(e) => Err(e)
            case Ok(assets) => Ok(Totals(t.rows + [row], t.principal + principal, t.assets + assets))
  }

  lemma StepOk(t: Totals, row: seq<string>, py: Conversions)
    requires Readable(row, py)
    ensures Step(Ok(t), Ok(row), py)
         == Ok(Totals(t.rows + [row], t.principal + Number(row[3], py).value, t.assets + Number(row[|row| - 2], py).value))
  {
  }

  /** The loop of the portfolio calculator over `calls`, stopping at the
      first failure. */
  function Collect(calls: seq<Call>, income: Call -> Result<seq<string>, QueryError>, py: Conversions): (r: Result<Totals, Error>)
    ensures r.Ok? ==> |r.value.rows| == |calls|
    ensures r != Err(RatioExceedsOne)
    decreases |calls|
  {
    if calls == [] then Ok(Totals([], 0.0, 0.0))
    else Step(Collect(calls[..|calls| - 1], income, py), income(calls[|calls| - 1]), py)
  }

  lemma TakeSnoc<T>(xs: seq<T>, i: nat)
    requires i < |xs|
    ensures xs[..i + 1] == xs[..i] + [xs[i]]
  {
  }

  lemma CollectUnfold(calls: seq<Call>, i: nat, income: Call -> Result<seq<string>, QueryError>, py: Conversions)
    requires i < |calls|
    ensures Collect(calls[..i + 1], income, py) == Step(Collect(calls[..i], income, py), income(calls[i]), py)
  {
    assert calls[..i + 1][..i] == calls[..i];
  }

  /** The loop stops at query `issued`: every query before it succeeded and
      that one failed. */
  predicate StopsAt(calls: seq<Call>, issued: nat, income: Call -> Result<seq<string>, QueryError>, py: Conversions) {
    && 0 < issued <= |calls|
    && Collect(calls[..issued - 1], income, py).Ok?
    && Collect(calls[..issued], income, py).Err?
  }

  /** One turn of the loop over `Zip(codes, amounts, s)`: after `i` successful
      turns, the next query is `pending[i]`, the totals become `Collect` of
      one more query, and a failing turn is where the loop stops, with its
      error. */
  lemma LoopStep(codes: seq<string>, amounts: seq<real>, s: Settings, i: nat,
                 income: Call -> Result<seq<string>, QueryError>, py: Conversions,
                 totals: Totals, next: Result<Totals, Error>)
    requires i < |codes| && i < |amounts|
    requires Collect(Zip(codes, amounts, s)[..i], income, py) == Ok(totals)
    requires next == Step(Ok(totals), income(Call(codes[i], amounts[i], s)), py)
    ensures var pending := Zip(codes, amounts, s);
      && i < |pending|
      && pending[..i + 1] == pending[..i] + [Call(codes[i], amounts[i], s)]
      && Collect(pending[..i + 1], income, py) == next
      && (next.Err? ==> StopsAt(pending, i + 1, income, py) && Collect(pending, income, py) == next)
  {
    var pending := Zip(codes, amounts, s);
    ZipAt(codes, amounts, s, i);
    TakeSnoc(pending, i);
    CollectUnfold(pending, i, income, py);
    if next.Err? {
      CollectFailsEarly(pending, i + 1, income, py);
    }
  }

  /** Once a prefix of the queries fails, the whole loop fails the same way. */
  lemma {:induction false} CollectFailsEarly(calls: seq<Call>, k: nat, income: Call -> Result<seq<string>, QueryError>, py: Conversions)
    requires k <= |calls|
    requires Collect(calls[..k], income, py).Err?
    ensures Collect(calls, income, py) == Collect(calls[..k], income, py)
    decreases |calls| - k
  {
    if k == |calls| {
      assert calls[..k] == calls;
    } else {
      CollectUnfold(calls, k, income, py);
      CollectFailsEarly(calls, k + 1, income, py);
    }
  }

  /** Every query is answered with a readable row. */
  predicate AllUsable(calls: seq<Call>, income: Call -> Result<seq<string>, QueryError>, py: Conversions) {
    forall k :: 0 <= k < |calls| ==> Usable(income(calls[k]), py)
  }

  lemma UsableSnoc(calls: seq<Call>, income: Call -> Result<seq<string>, QueryError>, py: Conversions)
    requires calls != []
    ensures AllUsable(calls, income, py)
        <==> AllUsable(calls[..|calls| - 1], income, py) && Usable(income(calls[|calls| - 1]), py)
  {
    var prefix := calls[..|calls| - 1];
    assert forall k :: 0 <= k < |prefix| ==> prefix[k] == calls[k];
  }

  /** The loop succeeds exactly when every answer is a readable row. */
  lemma {:induction false} CollectOk(calls: seq<Call>, income: Call -> Result<seq<string>, QueryError>, py: Conversions)
    ensures Collect(calls, income, py).Ok? <==> AllUsable(calls, income, py)
    decreases |calls|
  {
    if calls != [] {
      var n := |calls| - 1;
      CollectOk(calls[..n], income, py);
      assert Collect(calls, income, py) == Step(Collect(calls[..n], income, py), income(calls[n]), py);
      UsableSnoc(calls, income, py);
    }
  }

  /** When every answer is a readable row, the loop succeeds; its rows are
      the answers in query order, and its totals are the sums of their
      principal and of their ending assets. */
  lemma {:induction false} CollectTotals(calls: seq<Call>, income: Call -> Result<seq<string>, QueryError>, py: Conversions)
    requires AllUsable(calls, income, py)
    ensures Collect(calls, income, py).Ok?
    ensures var t := Collect(calls, income, py).value;
      && |t.rows| == |calls|
      && (forall k :: 0 <= k < |calls| ==> t.rows[k] == income(calls[k]).value)
      && t.principal == Sum(Principals(t.rows, py))
      && t.assets == Sum(Assets(t.rows, py))
    decreases |calls|
  {
    if calls != [] {
      var n := |calls| - 1;
      var prefix := calls[..n];
      var row := income(calls[n]).value;
      UsableSnoc(calls, income, py);
      CollectTotals(prefix, income, py);
      var tp := Collect(prefix, income, py).value;
      assert Collect(calls, income, py) == Step(Ok(tp), Ok(row), py);
      StepOk(tp, row, py);
      ReadableSnoc(tp.rows, row, py);
      SumSnoc(Principals(tp.rows, py), Number(row[3], py).value);
      SumSnoc(Assets(tp.rows, py), Number(row[|row| - 2], py).value);
      var rows := tp.rows + [row];
      forall k | 0 <= k < |calls| ensures rows[k] == income(calls[k]).value {
        if k < n {
          assert prefix[k] == calls[k];
        }
      }
    }
  }

  /** A failing loop reports the failure of the first query whose answer is
      not a readable row, as if that fund had been alone. */
  lemma CollectFirstFailure(calls: seq<Call>, j: nat, income: Call -> Result<seq<string>, QueryError>, py: Conversions)
    requires j < |calls|
    requires forall k :: 0 <= k < j ==> Usable(income(calls[k]), py)
    requires !Usable(income(calls[j]), py)
    ensures Collect(calls, income, py) == Step(Ok(Totals([], 0.0, 0.0)), income(calls[j]), py)
    ensures Collect(calls, income, py).Err?
  {
    var prefix := calls[..j];
    assert forall k :: 0 <= k < j ==> prefix[k] == calls[k];
    CollectOk(prefix, income, py);
    CollectUnfold(calls, j, income, py);
    CollectFailsEarly(calls, j + 1, income, py);
  }

  /** The rate of return of ending assets over principal. */
  function RateOfReturn(principal: real, assets: real): real
    requires principal != 0.0
  {
    (assets - principal) / principal
  }

  /** The rate of return grows the principal into the ending assets. */
  lemma Growth(principal: real, assets: real)
    requires principal != 0.0
    ensures principal * (1.0 + RateOfReturn(principal, assets)) == assets
  {
    var rate := RateOfReturn(principal, assets);
    assert principal * rate == assets - principal;
  }

  /** What the portfolio calculator returns. */
  datatype Report = Report(rows: seq<seq<string>>, totalPrincipal: real, rateOfReturn: real)

  /** The whole portfolio calculation, as a function of its inputs and of the
      single-fund calculator. */
  function Aggregate(total: real, codes: seq<string>, ratios: seq<real>, s: Settings,
                     income: Call -> Result<seq<string>, QueryError>, py: Conversions): (r: Result<Report, Error>)
    ensures r == Err(RatioExceedsOne) <==> Sum(ratios) > 1.0
    ensures r.Ok? ==> r.value.totalPrincipal != 0.0 && |r.value.rows| == Min(|codes|, |ratios|)
  {
    if Sum(ratios) > 1.0 then Err(RatioExceedsOne)
    else
      match Collect(Zip(codes, Allocation(total, ratios), s), income, py)
      case Err(e) => Err(e)
      case Ok(t) =>
        if t.principal == 0.0 then Err(ZeroPrincipal)
        else Ok(Report(t.rows, t.principal, RateOfReturn(t.principal, t.assets)))
  }

  /** `Aggregate` once the ratios are accepted: the outcome of the loop, then
      the zero-principal check. */
  lemma AggregateOf(total: real, codes: seq<string>, ratios: seq<real>, s: Settings,
                    income: Call -> Result<seq<string>, QueryError>, py: Conversions, t: Totals)
    requires Sum(ratios) <= 1.0
    requires Collect(Zip(codes, Allocation(total, ratios), s), income, py) == Ok(t)
    ensures t.principal == 0.0 ==> Aggregate(total, codes, ratios, s, income, py) == Err(ZeroPrincipal)
    ensures t.principal != 0.0 ==>
      (Aggregate(total, codes, ratios, s, income, py)
         == Ok(Report(t.rows, t.principal, RateOfReturn(t.principal, t.assets))))
  {
  }

  /** What a successful portfolio calculation promises: the ratios were
      accepted; its rows are the answers for the funds in input order, one
      per pair of code and ratio; its principal is the sum of their principal
      fields and is not zero; and principal grown by the rate of return is
      the sum of their ending-asset fields. */
  lemma AggregateOk(total: real, codes: seq<string>, ratios: seq<real>, s: Settings,
                    income: Call -> Result<seq<string>, QueryError>, py: Conversions)
    requires Aggregate(total, codes, ratios, s, income, py).Ok?
    ensures var r := Aggregate(total, codes, ratios, s, income, py).value;
      var calls := Zip(codes, Allocation(total, ratios), s);
      && Sum(ratios) <= 1.0
      && |r.rows| == Min(|codes|, |ratios|)
      && (forall k :: 0 <= k < |calls| ==>
            Usable(income(calls[k]), py) && r.rows[k] == income(calls[k]).value)
      && r.totalPrincipal == Sum(Principals(r.rows, py)) != 0.0
      && r.rateOfReturn == RateOfReturn(r.totalPrincipal, Sum(Assets(r.rows, py)))
  {
    var calls := Zip(codes, Allocation(total, ratios), s);
    var c := Collect(calls, income, py);
    assert Sum(ratios) <= 1.0 && c.Ok?;
    var t := c.value;
    assert Aggregate(total, codes, ratios, s, income, py).value
        == Report(t.rows, t.principal, RateOfReturn(t.principal, t.assets));
    CollectOk(calls, income, py);
    CollectTotals(calls, income, py);
  }

  /** With no fund at all (no code or no ratio), the principal is zero and
      the division fails. */
  lemma EmptyPortfolio(total: real, codes: seq<string>, ratios: seq<real>, s: Settings,
                       income: Call -> Result<seq<string>, QueryError>, py: Conversions)
    requires codes == [] || ratios == []
    requires Sum(ratios) <= 1.0
    ensures Aggregate(total, codes, ratios, s, income, py) == Err(ZeroPrincipal)
  {
    assert Zip(codes, Allocation(total, ratios), s) == [];
  }

  /** The result of the portfolio calculator: the list of fund rows (which
      the caller may go on to append to), total principal, rate of return. */
  datatype Portfolio = Portfolio(list: RowList, totalPrincipal: real, rateOfReturn: real)

  /** One turn of the portfolio calculator's loop: query the fund, append
      its row, add its principal and its ending assets to the totals. */
  method Turn(calculator: Calculator, code: string, amount: real, s: Settings, py: Conversions, before: Totals)
    returns (next: Result<Totals, Error>)
    modifies calculator
    ensures calculator.calls == old(calculator.calls) + [Call(code, amount, s)]
    ensures next == Step(Ok(before), calculator.income(Call(code, amount, s)), py)
  {
    var answer := calculator.InvestmentIncome(code, amount, s);
    if answer.Err? {
      return Err(Failed(answer.error));
    }
    var row := answer.value;
    var rows := before.rows + [row];
    if |row| < 4 {
      return Err(ShortRow);
    }
    var principal := Number(row[3], py);
    if principal.Err? {
      return Err(principal.error);
    }
    var totalPrincipal := before.principal + principal.value;
    var assets := Number(row[|row| - 2], py);
    if assets.Err? {
      return Err(assets.error);
    }
    var totalAssets := before.assets + assets.value;
    next := Ok(Totals(rows, totalPrincipal, totalAssets));
  }

  /** The loop of the portfolio calculator: one turn per query of
      `Zip(codes, amounts, s)`, in order, stopping at the first failure. It
      issues the queries up to and including the one that fails and ends as
      `Collect` describes. */
  method FundLoop(calculator: Calculator, codes: seq<string>, amounts: seq<real>, s: Settings, py: Conversions)
    returns (result: Result<Totals, Error>, ghost issued: nat)
    modifies calculator
    ensures var pending := Zip(codes, amounts, s);
      && issued <= |pending|
      && calculator.calls == old(calculator.calls) + pending[..issued]
      && result == Collect(pending, calculator.income, py)
      && (result.Ok? ==> issued == |pending|)
      && (result.Err? ==> StopsAt(pending, issued, calculator.income, py))
  {
    ghost var pending := Zip(codes, amounts, s);
    var totals := Totals([], 0.0, 0.0);
    var i := 0;
    while i < |codes| && i < |amounts|
      invariant i <= |pending|
      invariant calculator.calls == old(calculator.calls) + pending[..i]
      invariant Collect(pending[..i], calculator.income, py) == Ok(totals)
    {
      var next := Turn(calculator, codes[i], amounts[i], s, py, totals);
      LoopStep(codes, amounts, s, i, calculator.income, py, totals, next);
      if next.Err? {
        return next, i + 1;
      }
      totals := next.value;
      i := i + 1;
    }
    assert pending[..i] == pending;
    return Ok(totals), i;
  }

  /** The portfolio calculator. It issues no query at all when the ratios add
      up to more than 1; otherwise it issues the queries of
      `Zip(codes, Allocation(total, ratios), s)` in order, up to and including
      the first that fails, and returns what `Aggregate` describes. */
  method PortfolioIncome(calculator: Calculator, total: real, codes: seq<string>, ratios: seq<real>,
                         s: Settings, py: Conversions)
    returns (r: Result<Portfolio, Error>, ghost issued: nat)
    modifies calculator
    ensures var pending := Zip(codes, Allocation(total, ratios), s);
      && issued <= |pending|
      && calculator.calls == old(calculator.calls) + pending[..issued]
      && (Sum(ratios) > 1.0 ==> issued == 0)
      && (r.Ok? ==> issued == |pending|)
      && (Sum(ratios) <= 1.0 && Collect(pending, calculator.income, py).Ok? ==> issued == |pending|)
      && (Sum(ratios) <= 1.0 && Collect(pending, calculator.income, py).Err? ==>
            StopsAt(pending, issued, calculator.income, py))
    ensures r.Err? ==> Aggregate(total, codes, ratios, s, calculator.income, py) == Err(r.error)
    ensures r.Ok? ==>
      (&& fresh(r.value.list)
       && Aggregate(total, codes, ratios, s, calculator.income, py)
            == Ok(Report(r.value.list.rows, r.value.totalPrincipal, r.value.rateOfReturn)))
  {
    if Sum(ratios) > 1.0 {
      return Err(RatioExceedsOne), 0;
    }
    var allocation := Allocation(total, ratios);
    var result;
    result, issued := FundLoop(calculator, codes, allocation, s, py);
    if result.Err? {
      return Err(result.error), issued;
    }
    var totals := result.value;
    AggregateOf(total, codes, ratios, s, calculator.income, py, totals);
    if totals.principal == 0.0 {
      return Err(ZeroPrincipal), issued;
    }
    var rateOfReturn := RateOfReturn(totals.principal, totals.assets);
    var list := new RowList(totals.rows);
    r := Ok(Portfolio(list, totals.principal, rateOfReturn));
  }
}
