# Fund investment calculator — a Dafny model

`investment_tools.py` computes what a periodic investment plan in one or more
mutual funds would have earned. It asks the public "automatic investment plan"
calculator of fund.eastmoney.com. For one fund, it builds a query URL from the
plan's parameters, fetches the reply and cuts the reply into a row of text
fields: code, name, number of periods, principal, dividend mode, ending
assets and rate of return.

For a portfolio, it:
- refuses ratios that add up to more than 1;
- splits the amount per period between the funds;
- queries the funds one after another;
- adds up each row's principal and ending assets;
- returns the rows, the total principal and the rate of return.

A presentation helper appends a summary row to the list of rows, in place.

This project models that core and proves what it does:

- `TextSplit`: the pieces of Python's `str` used by the parser:
  - `split()` on whitespace;
  - `split(sep)`;
  - `replace(",", "")`;
  - the whitespace set of `str.isspace`.
- `Payload`: the parse of the reply. It takes the first whitespace-delimited
  token, keeps the text between its first and second colon, drops the first
  character, splits on the bar character and drops the last piece. It fails exactly when the
  reply is blank or the first token has no colon.
- `QueryUrl`: the query URL. It is the fixed endpoint followed by eleven
  `key=value` pairs in a fixed order, each value inserted verbatim. When no
  value contains `&`, the pairs read back from the URL.
- `Portfolio`: the portfolio calculator.
  - The single-fund calculator is a `Calculator` object. It answers each query
    through the function value `income` and keeps a ghost log of the queries
    issued.
  - `PortfolioIncome` is the imperative calculation: the ratio check, then
    `FundLoop`, one `Turn` per fund, then the division. Its result and its
    query log are proved against `Aggregate`, a function of the inputs and of
    the single-fund answers.
  - The lemmas state what `Aggregate` means.
- `Presenter`: the seven-cell summary row and its in-place append to the
  caller's `RowList`.

Python's number conversions are function values passed in as parameters, not
modelled functions. These are `str(x)` and `float(s)` (`Conversions`), and
`f"{x:.2f}"` (`Formats`). The reply of the provider is a function value too
(`SingleFund`'s `reply`), and so is the single-fund calculator seen by the
portfolio loop (`Calculator.income`). Amounts are `real`.

## Model

| member | source | states |
|---|---|---|
| TextSplit.Words | investment_tools.py:38 | `split()` returns only non-empty, whitespace-free words, and returns none exactly when the text is blank (empty or all whitespace) |
| TextSplit.FirstWord | investment_tools.py:38 | after leading whitespace, the first word of `split()` is the first whitespace-free run, whatever follows the next whitespace |
| TextSplit.Split | investment_tools.py:38 | `split(d)` gives at least one piece, no piece contains `d`, there are two or more pieces exactly when `d` occurs, and joining the pieces with `d` gives the text back |
| TextSplit.SplitJoin | investment_tools.py:38 | splitting the `d`-join of `d`-free parts gives back exactly those parts |
| TextSplit.SplitTerminated | investment_tools.py:38 | splitting fields each followed by `d`, then a `d`-free tail, gives the fields plus the tail as one last piece |
| TextSplit.Remove | investment_tools.py:73-74 | `replace(",", "")` leaves no `,`, leaves text without `,` unchanged and never lengthens it |
| TextSplit.RemoveKeeps | investment_tools.py:73-74 | `replace(",", "")` keeps every character other than `,` and adds none |
| TextSplit.RemoveChar | investment_tools.py:73-74 | on one character, `replace(",", "")` deletes a `,` and keeps anything else |
| TextSplit.RemoveAppend | investment_tools.py:73-74 | `replace(",", "")` of a concatenation is the concatenation of the two results, so the kept characters stay in their order and each is kept once |
| TextSplit.DropSeparator | investment_tools.py:73-74 | a `,` between two comma-free runs, as in `10,500.00`, is dropped and the runs are joined |
| Payload.ParseRow | investment_tools.py:38 | the parse fails with no token exactly when the reply is blank, and with no colon exactly when its first token has no `:`; every field returned is free of the bar separator, `:` and whitespace |
| Payload.RoundTrip | investment_tools.py:38 | `head:` + any opening character + fields each followed by the bar separator + a trailer parses back to exactly those fields, for any head, fields and trailer free of whitespace and `:` (and fields and trailer free of the bar) |
| Payload.ParseSegment | investment_tools.py:38 | leading whitespace, everything after a second colon and everything after the first whitespace after the segment are ignored: only the segment between the first two colons of the first token decides the row |
| Payload.ParseFirstToken | investment_tools.py:38 | anything after the first token is ignored |
| Payload.EmptySegment | investment_tools.py:38 | a segment of at most one character yields an empty row, not an error |
| Payload.FieldsOfTerminated | investment_tools.py:38 | dropping the opening character, splitting on the bar separator and dropping the last piece returns the serialised fields |
| Payload.ProviderExample | investment_tools.py:38 | an example reply in the provider's format for fund F1 (callback `FundDTSY.result`, six bar-terminated fields ending in `10,500.00`) parses to its six fields, with the closing `"})` dropped |
| QueryUrl.BuildUrl | investment_tools.py:33-36 | the URL is the endpoint followed by the `&`-join of `key=value` for fcode, sdate, edate, shdate (empty), round, dtr, p, je, stype, needfirst and jsoncallback=FundDTSY.result, in that order |
| QueryUrl.Layout | investment_tools.py:34-35 | the three-part concatenation equals that `&`-join |
| QueryUrl.UrlParts | investment_tools.py:33-36 | the URL starts with the endpoint and the rest is the query string |
| QueryUrl.DecodeParams | investment_tools.py:34-35 | with no `&` in any value, the query string splits into exactly the eleven pairs, each read back as its key and its value |
| QueryUrl.UrlRoundTrip | investment_tools.py:33-36 | with no `&` in any value, reading the URL back after the endpoint gives every parameter name with exactly the value inserted, in order |
| Portfolio.Respond | investment_tools.py:37-38 | the single-fund calculator fails with a transport error exactly when there is no reply, with no token exactly when the reply is blank, and with no colon exactly when the reply's first token has no `:`; the fields it returns are free of the bar separator, `:` and whitespace |
| Portfolio.SingleFund | investment_tools.py:33-38 | the single-fund calculator sends the URL built from the call's parameters; it fails with a transport error exactly when that URL gets no reply and with a parse error exactly when the reply does not parse, and otherwise returns the parsed row |
| Portfolio.RespondRow | investment_tools.py:37-38 | a reply serialising a row makes the single-fund calculator answer that row |
| Portfolio.Calculator.InvestmentIncome | investment_tools.py:70-71 | one single-fund query: the answer is the oracle's answer for that call, and the call is appended to the log |
| Portfolio.RowList.Append | investment_tools.py:79-81 | `list.append`: the row is added at the end of the list, in place, and the earlier rows stay as they were |
| Portfolio.SumSnoc | investment_tools.py:65 | adding one more amount adds it to the sum |
| Portfolio.SumAppend | investment_tools.py:65 | the sum of two lists of amounts joined is the sum of their sums |
| Portfolio.Allocation | investment_tools.py:68 | one amount per ratio, the i-th being the amount per period times `ratios[i]` |
| Portfolio.Number | investment_tools.py:73-74 | the field reads as a number exactly when `float` accepts it with every `,` removed, and then it is that number; otherwise the error names the comma-free text |
| Portfolio.Zip | investment_tools.py:69 | `zip(codes, amounts)` has as many queries as the shorter list |
| Portfolio.ZipAt | investment_tools.py:69 | the i-th query pairs the i-th code with the i-th amount |
| Portfolio.Queries | investment_tools.py:68-69 | the queries are `min(len(codes), len(ratios))` in input order, the i-th with `codes[i]`, amount `total * ratios[i]` and the shared parameters unchanged |
| Portfolio.Turn | investment_tools.py:70-74 | one turn logs one query and ends as `Step` says: the query's failure, a short row, a field that is not a number, or the totals with the row appended and its principal and ending assets added |
| Portfolio.Step | investment_tools.py:70-74 | a turn succeeds exactly when the loop has not failed and the answer is a row with at least four fields whose principal and ending assets read as numbers; then the row is appended; a failed loop stays failed with its error, and a turn fails with the ratio error only when the loop already had |
| Portfolio.Collect | investment_tools.py:69-74 | the loop never fails with the ratio error, and on success it has one row per query |
| Portfolio.LoopStep | investment_tools.py:69-74 | after `i` successful turns, the next query is the i-th pair of code and amount, one more turn gives `Collect` of one more query, and a failing turn is where the loop stops, with the loop's error |
| Portfolio.FundLoop | investment_tools.py:67-74 | the loop issues the queries in order and ends with `Collect` of all queries; on success every query was issued; on failure it stopped at the first failing query: the queries before it all succeeded, and it was the last one issued |
| Portfolio.CollectOk | investment_tools.py:69-74 | the loop succeeds exactly when every answer is a row with at least four fields whose principal and ending assets read as numbers |
| Portfolio.CollectTotals | investment_tools.py:69-74 | then its rows are the answers in query order, its principal is the sum of the principal fields and its assets the sum of the ending-asset fields, with `,` removed |
| Portfolio.CollectFailsEarly | investment_tools.py:69-74 | once a prefix of the queries fails, the loop fails with that error |
| Portfolio.CollectFirstFailure | investment_tools.py:69-74 | a failing loop reports the error of the first unusable answer, the same as if that fund had been alone |
| Portfolio.Aggregate | investment_tools.py:65-76 | the calculation fails with the ratio error exactly when the ratios add up to more than 1, so a sum below 1 is accepted; on success the principal is not zero and there is one row per pair of code and ratio |
| Portfolio.AggregateOk | investment_tools.py:65-76 | on success the ratios add up to at most 1, there is one row per pair of code and ratio, each row is the usable answer for its fund in input order, the principal is the sum of the principal fields and is not zero, and the rate is that of the summed ending assets over it |
| Portfolio.Growth | investment_tools.py:75 | the principal grown by the rate of return is the ending assets |
| Portfolio.EmptyPortfolio | investment_tools.py:67-75 | with no code or no ratio, the principal stays 0 and the division fails |
| Portfolio.PortfolioIncome | investment_tools.py:65-76 | it issues no query when the ratios add up to more than 1; otherwise it issues the queries of the portfolio in order, all of them when every answer is usable, and up to and including the first failing one when one fails, every earlier one having succeeded; its error or its fresh list of rows, principal and rate are exactly those of `Aggregate` |
| Presenter.Percent2 | investment_tools.py:81 | `:.2%` is the value times 100 in `:.2f`, followed by `%` |
| Presenter.TrailerRow | investment_tools.py:79-81 | the summary row has one cell per column: cell 2 is the principal label, cell 3 (the principal column) the principal text, cell 5 the rate label, cell 6 (the rate column) the rate text, and every other cell is empty |
| Presenter.PrettyPrint | investment_tools.py:79-81 | the summary row is appended to the caller's list in place, and the earlier rows stay as they were |

## Left out

- The HTTP GET, its request headers and the UTF-8 decode (investment_tools.py:26-31, 37) are network I/O. The reply is the function value `reply: string -> Option<string>`, with `None` for a failed request. It is deterministic: one URL always gets the same reply.
- Floating point: `sum(ratio_list)`, `total_amount * ratio`, the accumulation and the division are exact `real` arithmetic. Float rounding can decide the `> 1` check differently right at the boundary.
- `float(s)`, `str(x)` in the URL and the `:.2f` formatting are function values (`Conversions.parse`, `Conversions.show`, `Formats.fixed2`). Their own behaviour is not modelled. `Percent2` states `:.2%` in terms of `:.2f`.
- The integer parameters `round_`, `dtr`, `stype` and `needfirst`, and the fee `p`, enter the model already rendered as text (`Settings`).
- Portfolio.PortfolioIncome: it is proved against the single-fund calculator as an oracle (`Calculator.income`). The deployed oracle is `c => SingleFund(reply, c, py)`. What that composition answers is covered in pieces by `QueryUrl.UrlRoundTrip` and `Portfolio.RespondRow`. No single lemma joins the URL built for a query to the row parsed from the reply.
- Portfolio.PortfolioIncome: Python appends each answer to `founds_income_list` inside the loop. The model accumulates the rows as a value and allocates the caller's `RowList` once the loop has succeeded. The list is local to the function until it is returned, so no caller sees the difference.
- Portfolio.AggregateOk: the rate of return is stated as `RateOfReturn` of the summed ending assets over the principal. Its meaning, that the principal grown by the rate is the ending assets, is the separate lemma `Portfolio.Growth`.
- TextSplit.Words: only the first word of `split()` is described exactly (`TextSplit.FirstWord`). For later words, the model states only that they are non-empty and whitespace-free. The parse reads only the first word.
- `raise("ratio error!")` raises a `TypeError` in Python 3, because a string is not an exception. The model names the outcome `RatioExceedsOne`. All exceptions are modelled as `Error` values, and the exception types are not distinguished.
- The docstring of `portfolio_income_calculator` asks for ratios adding up to exactly 1. The code refuses only sums above 1, and the model follows the code (`Portfolio.Aggregate`).
- The pandas `DataFrame` and its styling (investment_tools.py:82-88) are presentation through a foreign library. Also omitted: pandas' refusal of rows whose length is not seven.
- The usage example in the trailing string literal (investment_tools.py:91-105) is not code.
