/** The summary row appended to the portfolio's fund rows before they are
    shown as a table. */
module Presenter {
  import opened Portfolio

  /** The table's column headers: fund code, fund name, number of periods,
      principal invested (yuan), dividend mode, ending assets (yuan), rate of
      return. */
  const Columns: seq<string> :=
    ["基金代码", "基金全称", "定投总期数", "投入总本金(元)", "分红方式", "期末总资产(元)", "定投收益率"]

  /** "The portfolio's total principal is" */
  const PrincipalLabel: string := "投资组合投入总金额为"
  /** "The portfolio's total rate of return is" */
  const RateLabel: string := "投资组合总收益率为"

  /** Python's `f"{x:.2f}"`: fixed point with two decimals. */
  datatype Formats = Formats(fixed2: real -> string)

  /** Python's `f"{x:.2%}"`: the value times 100 in fixed point with two
      decimals, followed by a percent sign. */
  function Percent2(fmt: Formats, x: real): (text: string)
    ensures |text| >= 1 && text[|text| - 1] == '%'
    ensures text[..|text| - 1] == fmt.fixed2(x * 100.0)
  {
    fmt.fixed2(x * 100.0) + "%"
  }

  /** The summary row: the principal label and total under the principal
      column's neighbour and the principal column, the rate label and rate
      under the ending-assets and rate columns, every other cell empty. */
  function TrailerRow(principalText: string, rateText: string): (row: seq<string>)
    ensures |row| == |Columns|
    ensures row[2] == PrincipalLabel && row[3] == principalText && Columns[3] == "投入总本金(元)"
    ensures row[5] == RateLabel && row[6] == rateText && Columns[6] == "定投收益率"
    ensures forall i :: 0 <= i < |row| && i != 2 && i != 3 && i != 5 && i != 6 ==> row[i] == ""
  {
    ["", ""] + [PrincipalLabel, principalText] + ["", RateLabel, rateText]
  }

  /** `prety_print`'s first step: the summary row is appended, in place, to
      the caller's list of fund rows; the fund rows stay as they were. */
  method PrettyPrint(list: RowList, totalPrincipal: real, rateOfReturn: real, fmt: Formats)
    modifies list
    ensures list.rows == old(list.rows) + [TrailerRow(fmt.fixed2(totalPrincipal), Percent2(fmt, rateOfReturn))]
  {
    list.Append(TrailerRow(fmt.fixed2(totalPrincipal), Percent2(fmt, rateOfReturn)));
  }
}
