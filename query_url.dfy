/** The query URL of the single-fund calculator: a fixed endpoint followed by
    the calculator parameters in a fixed order, every value inserted as it is. */
module QueryUrl {
  import opened TextSplit

  const Endpoint: string := "http://fund.eastmoney.com/data/FundInvestCaculator_AIPDatas.aspx?"
  const Callback: string := "FundDTSY.result"

  /** The parameters of one calculator query, each already rendered as the
      text that goes into the URL: fund code, cadence (months between debits,
      -7 for weekly), start and end date, day of debit, purchase fee in
      percent, amount per period, dividend mode, first-debit flag. */
  datatype Query = Query(
    fcode: string, round: string, sdate: string, edate: string, dtr: string,
    p: string, je: string, stype: string, needfirst: string)

  /** The parameter names, in the order the URL carries them. */
  const Keys: seq<string> :=
    ["fcode", "sdate", "edate", "shdate", "round", "dtr", "p", "je", "stype", "needfirst", "jsoncallback"]

  /** The value of each parameter of `Keys`; `shdate` is always empty. */
  function Values(q: Query): seq<string> {
    [q.fcode, q.sdate, q.edate, "", q.round, q.dtr, q.p, q.je, q.stype, q.needfirst, Callback]
  }

  /** `key=value` */
  function Param(key: string, value: string): string {
    key + "=" + value
  }

  /** The URL, assembled from three pieces as the calculator does. It is the
      endpoint followed by `key=value` for every parameter of `Keys`, in that
      order, separated by `&`. */
  function BuildUrl(q: Query): (url: string)
    ensures url == Endpoint + Join(Params(q), '&')
  {
    var url1 := Endpoint;
    var url2 := "fcode=" + q.fcode + "&sdate=" + q.sdate + "&edate=" + q.edate + "&shdate=&round=" + q.round;
    var url3 := "&dtr=" + q.dtr + "&p=" + q.p + "&je=" + q.je + "&stype=" + q.stype
      + "&needfirst=" + q.needfirst + "&jsoncallback=FundDTSY.result";
    Layout(q);
    url1 + url2 + url3
  }

  /** The `key=value` pairs of the URL, in order. */
  function Params(q: Query): (r: seq<string>)
    ensures |r| == |Keys|
  {
    [Param("fcode", q.fcode), Param("sdate", q.sdate), Param("edate", q.edate), Param("shdate", ""),
     Param("round", q.round), Param("dtr", q.dtr), Param("p", q.p), Param("je", q.je),
     Param("stype", q.stype), Param("needfirst", q.needfirst), Param("jsoncallback", Callback)]
  }

  /** Joining one more part at the end. */
  lemma {:induction false} JoinSnoc(xs: seq<string>, y: string, d: char)
    requires xs != []
    ensures Join(xs + [y], d) == Join(xs, d) + [d] + y
    decreases |xs|
  {
    if |xs| == 1 {
      assert (xs + [y])[1..] == [y];
    } else {
      assert (xs + [y])[1..] == xs[1..] + [y];
      JoinSnoc(xs[1..], y, d);
    }
  }

  /** One `&key=value` step of the calculator's concatenation. */
  lemma JoinStep(ps: seq<string>, i: nat, lead: string, prefix: string, key: string, value: string, text: string)
    requires 1 <= i < |ps|
    requires lead + Join(ps[..i], '&') == prefix
    requires ps[i] == Param(key, value)
    requires text == ['&'] + key + "="
    ensures lead + Join(ps[..i + 1], '&') == prefix + text + value
  {
    assert ps[..i + 1] == ps[..i] + [ps[i]];
    JoinSnoc(ps[..i], ps[i], '&');
  }

  /** Joining two non-empty lists of parts. */
  lemma {:induction false} JoinAppend(xs: seq<string>, ys: seq<string>, d: char)
    requires xs != [] && ys != []
    ensures Join(xs + ys, d) == Join(xs, d) + [d] + Join(ys, d)
    decreases |xs|
  {
    if |xs| == 1 {
      assert (xs + ys)[1..] == ys;
    } else {
      assert (xs + ys)[1..] == xs[1..] + ys;
      JoinAppend(xs[1..], ys, d);
    }
  }

  lemma LayoutHead(q: Query)
    ensures Join(Params(q)[..5], '&')
         == "fcode=" + q.fcode + "&sdate=" + q.sdate + "&edate=" + q.edate + "&shdate=&round=" + q.round
  {
    var ps := Params(q)[..5];
    var joined := "fcode=" + q.fcode;
    assert Join(ps[..1], '&') == joined by {
      assert ps[..1] == [ps[0]];
    }
    JoinStep(ps, 1, "", joined, "sdate", q.sdate, "&sdate=");
    joined := joined + "&sdate=" + q.sdate;
    JoinStep(ps, 2, "", joined, "edate", q.edate, "&edate=");
    joined := joined + "&edate=" + q.edate;
    JoinStep(ps, 3, "", joined, "shdate", "", "&shdate=");
    joined := joined + "&shdate=" + "";
    JoinStep(ps, 4, "", joined, "round", q.round, "&round=");
    joined := joined + "&round=" + q.round;
    assert ps[..5] == ps;
    var upToEdate := "fcode=" + q.fcode + "&sdate=" + q.sdate + "&edate=" + q.edate;
    assert upToEdate + "&shdate=" + "" + "&round=" == upToEdate + "&shdate=&round=";
  }

  lemma LayoutMid(q: Query)
    ensures ['&'] + Join(Params(q)[5..8], '&') == "&dtr=" + q.dtr + "&p=" + q.p + "&je=" + q.je
  {
    var ps := Params(q)[5..8];
    var joined := "&dtr=" + q.dtr;
    assert ['&'] + Join(ps[..1], '&') == joined by {
      assert ps[..1] == [ps[0]];
    }
    JoinStep(ps, 1, ['&'], joined, "p", q.p, "&p=");
    joined := joined + "&p=" + q.p;
    JoinStep(ps, 2, ['&'], joined, "je", q.je, "&je=");
    assert ps[..3] == ps;
  }

  lemma LayoutEnd(q: Query)
    ensures ['&'] + Join(Params(q)[8..], '&')
         == "&stype=" + q.stype + "&needfirst=" + q.needfirst + "&jsoncallback=FundDTSY.result"
  {
    var ps := Params(q)[8..];
    var joined := "&stype=" + q.stype;
    assert ['&'] + Join(ps[..1], '&') == joined by {
      assert ps[..1] == [ps[0]];
    }
    JoinStep(ps, 1, ['&'], joined, "needfirst", q.needfirst, "&needfirst=");
    joined := joined + "&needfirst=" + q.needfirst;
    JoinStep(ps, 2, ['&'], joined, "jsoncallback", Callback, "&jsoncallback=");
    assert ps[..3] == ps;
  }

  /** The first five pairs, then `&`, then the rest. */
  lemma LayoutFront(q: Query)
    ensures Join(Params(q), '&')
         == "fcode=" + q.fcode + "&sdate=" + q.sdate + "&edate=" + q.edate + "&shdate=&round=" + q.round
            + ['&'] + Join(Params(q)[5..], '&')
  {
    var ps := Params(q);
    assert ps == ps[..5] + ps[5..];
    JoinAppend(ps[..5], ps[5..], '&');
    LayoutHead(q);
  }

  /** The last six pairs, each preceded by `&`. */
  lemma LayoutBack(q: Query)
    ensures ['&'] + Join(Params(q)[5..], '&')
         == "&dtr=" + q.dtr + "&p=" + q.p + "&je=" + q.je
            + ("&stype=" + q.stype + "&needfirst=" + q.needfirst + "&jsoncallback=FundDTSY.result")
  {
    var ps := Params(q);
    assert ps[5..] == ps[5..8] + ps[8..];
    JoinAppend(ps[5..8], ps[8..], '&');
    LayoutMid(q);
    LayoutEnd(q);
    Assoc(['&'], Join(ps[5..8], '&'), ['&'] + Join(ps[8..], '&'));
  }

  /** The calculator's left-to-right concatenation is the `&`-join of the
      `key=value` pairs. */
  lemma Layout(q: Query)
    ensures "fcode=" + q.fcode + "&sdate=" + q.sdate + "&edate=" + q.edate + "&shdate=&round=" + q.round
      + ("&dtr=" + q.dtr + "&p=" + q.p + "&je=" + q.je + "&stype=" + q.stype
      + "&needfirst=" + q.needfirst + "&jsoncallback=FundDTSY.result")
      == Join(Params(q), '&')
  {
    var ps := Params(q);
    var head := "fcode=" + q.fcode + "&sdate=" + q.sdate + "&edate=" + q.edate + "&shdate=&round=" + q.round;
    var mid := "&dtr=" + q.dtr + "&p=" + q.p + "&je=" + q.je;
    LayoutFront(q);
    LayoutBack(q);
    Assoc(head, ['&'], Join(ps[5..], '&'));
    Assoc(mid, "&stype=", q.stype);
    Assoc(mid, "&stype=" + q.stype, "&needfirst=");
    Assoc(mid, "&stype=" + q.stype + "&needfirst=", q.needfirst);
    Assoc(mid, "&stype=" + q.stype + "&needfirst=" + q.needfirst, "&jsoncallback=FundDTSY.result");
  }

  /** How a query string is read back: split on `&`, then each piece at its
      first `=`; a piece without `=` is a key with an empty value. */
  function DecodeQuery(query: string): (pairs: seq<(string, string)>)
    ensures |pairs| == |Split(query, '&')|
  {
    var pieces := Split(query, '&');
    seq(|pieces|, i requires 0 <= i < |pieces| => SplitPair(pieces[i]))
  }

  function SplitPair(piece: string): (string, string) {
    var n := IndexOf(piece, '=');
    if n == |piece| then (piece, "") else (piece[..n], piece[n + 1..])
  }

  /** A `key=value` piece is read back as its key and value when the key has no `=`. */
  lemma SplitPairParam(key: string, value: string)
    requires '=' !in key
    ensures SplitPair(Param(key, value)) == (key, value)
  {
    var piece := Param(key, value);
    assert piece == key + ("=" + value);
    IndexOfAfter(key, "=" + value, '=');
    assert piece[..|key|] == key;
    assert piece[|key| + 1..] == value;
  }

  /** Each pair of the URL holds the key of `Keys` and the value of `Values` at its position. */
  lemma ParamsAt(q: Query, i: nat)
    requires i < |Keys|
    ensures Params(q)[i] == Param(Keys[i], Values(q)[i])
    ensures '=' !in Keys[i] && '&' !in Keys[i]
  {
  }

  /** The URL is the endpoint followed by the query string. */
  lemma UrlParts(q: Query)
    ensures |BuildUrl(q)| >= |Endpoint|
    ensures BuildUrl(q)[..|Endpoint|] == Endpoint
    ensures BuildUrl(q)[|Endpoint|..] == Join(Params(q), '&')
  {
    var url := BuildUrl(q);
    assert url == Endpoint + Join(Params(q), '&');
  }

  /** The query string reads back as the parameters, in order. */
  lemma DecodeParams(q: Query)
    requires forall i :: 0 <= i < |Keys| ==> '&' !in Values(q)[i]
    ensures |DecodeQuery(Join(Params(q), '&'))| == |Keys|
    ensures forall i :: 0 <= i < |Keys| ==> DecodeQuery(Join(Params(q), '&'))[i] == (Keys[i], Values(q)[i])
  {
    var ps := Params(q);
    forall i | 0 <= i < |ps| ensures '&' !in ps[i] {
      ParamsAt(q, i);
    }
    SplitJoin(ps, '&');
    forall i | 0 <= i < |Keys|
      ensures DecodeQuery(Join(ps, '&'))[i] == (Keys[i], Values(q)[i])
    {
      ParamsAt(q, i);
      SplitPairParam(Keys[i], Values(q)[i]);
    }
  }

  /** Round trip: when no value contains `&`, reading the query string of
      the URL back gives every parameter name with exactly the value that
      was inserted, in the calculator's order. */
  lemma UrlRoundTrip(q: Query)
    requires forall i :: 0 <= i < |Keys| ==> '&' !in Values(q)[i]
    ensures |BuildUrl(q)| >= |Endpoint| && BuildUrl(q)[..|Endpoint|] == Endpoint
    ensures var pairs := DecodeQuery(BuildUrl(q)[|Endpoint|..]);
      |pairs| == |Keys| && forall i :: 0 <= i < |Keys| ==> pairs[i] == (Keys[i], Values(q)[i])
  {
    UrlParts(q);
    DecodeParams(q);
  }
}
