/** The parse step of the single-fund query: the provider answers with text
    such as `FundDTSY.result({msg:"F1|Name1|12|10,000.00|1|10,500.00|"})`, and
    the row of fields is read from it by taking the first whitespace-delimited
    token, keeping the piece between its first and second colon, dropping that
    piece's first character (the opening quote), splitting on `|` and dropping
    the last element. */
module Payload {
  import opened Wrappers
  import opened TextSplit

  /** Both failures surface as an IndexError in Python. */
  datatype ParseError =
    | NoToken  // the payload is empty or all whitespace: `split()[0]` fails
    | NoColon  // the first token has no colon: `split(":")[1]` fails

  /** `s[1:]`: everything but the first character; empty stays empty. */
  function DropFirst(s: string): (r: string)
    ensures |r| == if s == [] then 0 else |s| - 1
    ensures forall c :: c in r ==> c in s
  {
    if s == [] then [] else s[1..]
  }

  /** The row held by the segment between the first and second colon. */
  function FieldsOf(segment: string): (fields: seq<string>)
    ensures forall k :: 0 <= k < |fields| ==> '|' !in fields[k]
    ensures forall k :: 0 <= k < |fields| ==> forall c :: c in fields[k] ==> c in segment
  {
    var cells := Split(DropFirst(segment), '|');
    cells[..|cells| - 1]
  }

  /** The whole parse. It fails exactly when there is no token or the first
      token has no colon, and every field it returns is free of `|`, `:` and
      whitespace. */
  function ParseRow(payload: string): (r: Result<seq<string>, ParseError>)
    ensures r == Err(NoToken) <==> Blank(payload)
    ensures r == Err(NoColon) <==> !Blank(payload) && ':' !in Words(payload)[0]
    ensures r.Ok? ==> forall k :: 0 <= k < |r.value| ==>
      '|' !in r.value[k] && ':' !in r.value[k] && Spaceless(r.value[k])
  {
    var words := Words(payload);
    if words == [] then Err(NoToken)
    else
      var pieces := Split(words[0], ':');
      if |pieces| < 2 then Err(NoColon)
      else
        var fields := FieldsOf(pieces[1]);
        assert forall k :: 0 <= k < |fields| ==> forall c :: c in fields[k] ==> c in words[0];
        Ok(fields)
  }

  /** The first piece of a split ends at the first separator. */
  lemma SplitHead(a: string, b: string, d: char)
    requires d !in a
    requires b == [] || b[0] == d
    ensures Split(a + b, d)[0] == a
  {
    IndexOfAfter(a, b, d);
    assert (a + b)[..|a|] == a;
  }

  /** A character that is neither the separator nor in any field does not
      occur in the terminated serialisation. */
  lemma {:induction false} TerminatedExcludes(fields: seq<string>, d: char, x: char)
    requires x != d
    requires forall k :: 0 <= k < |fields| ==> x !in fields[k]
    ensures x !in Terminated(fields, d)
    decreases |fields|
  {
    if fields != [] {
      TerminatedExcludes(fields[1..], d, x);
    }
  }

  /** Whitespace-free fields and separator give a whitespace-free serialisation. */
  lemma {:induction false} TerminatedSpaceless(fields: seq<string>, d: char)
    requires !IsSpace(d)
    requires forall k :: 0 <= k < |fields| ==> Spaceless(fields[k])
    ensures Spaceless(Terminated(fields, d))
    decreases |fields|
  {
    if fields != [] {
      TerminatedSpaceless(fields[1..], d);
      var s := Terminated(fields, d);
      assert s == fields[0] + [d] + Terminated(fields[1..], d);
      forall c | c in s ensures !IsSpace(c) {
        if c != d && c !in fields[0] {
          assert c in Terminated(fields[1..], d);
        }
      }
    }
  }

  /** Only the segment between the first and second colon of the first token
      matters: the payload may have leading whitespace, and anything after a
      second colon or after the first whitespace following the segment is
      ignored. */
  lemma ParseSegment(lead: string, head: string, segment: string, rest: string)
    requires Blank(lead)
    requires Spaceless(head) && ':' !in head
    requires Spaceless(segment) && ':' !in segment
    requires rest == [] || rest[0] == ':' || IsSpace(rest[0])
    ensures ParseRow(lead + head + [':'] + segment + rest) == Ok(FieldsOf(segment))
  {
    var m := WordEnd(rest);
    var w := head + [':'] + segment + rest[..m];
    SegmentWord(lead, head, segment, rest);
    SegmentSplit(head, segment, rest);
  }

  /** The first token of such a payload runs from `head` to the end of the
      first word of `rest`. */
  lemma SegmentWord(lead: string, head: string, segment: string, rest: string)
    requires Blank(lead)
    requires Spaceless(head) && Spaceless(segment)
    ensures var w := head + [':'] + segment + rest[..WordEnd(rest)];
      Words(lead + head + [':'] + segment + rest) != []
      && Words(lead + head + [':'] + segment + rest)[0] == w
  {
    var payload := lead + head + [':'] + segment + rest;
    var m := WordEnd(rest);
    var tail := rest[..m];
    var w := head + [':'] + segment + tail;
    assert payload == lead + w + rest[m..] by {
      assert rest == tail + rest[m..];
      Assoc(lead + head + [':'] + segment, tail, rest[m..]);
      Assoc(lead, head, [':']);
      Assoc(lead, head + [':'], segment);
      Assoc(lead, head + [':'] + segment, tail);
    }
    assert Spaceless(w) by {
      forall c | c in w ensures !IsSpace(c) {
        assert c in head || c == ':' || c in segment || c in tail;
      }
    }
    FirstWord(lead, w, rest[m..]);
  }

  /** That token's second colon-separated piece is `segment`. */
  lemma SegmentSplit(head: string, segment: string, rest: string)
    requires ':' !in head && ':' !in segment
    requires rest == [] || rest[0] == ':' || IsSpace(rest[0])
    ensures var w := head + [':'] + segment + rest[..WordEnd(rest)];
      |Split(w, ':')| >= 2 && Split(w, ':')[1] == segment
  {
    var m := WordEnd(rest);
    var tail := rest[..m];
    var w := head + [':'] + segment + tail;
    assert w == head + [':'] + (segment + tail);
    SplitCons(head, ':', segment + tail);
    assert tail == [] || tail[0] == ':' by {
      if rest != [] && rest[0] == ':' {
        assert m >= 1;
      }
    }
    SplitHead(segment, tail, ':');
  }

  /** Anything after the first whitespace that follows the first token is
      ignored. */
  lemma ParseFirstToken(lead: string, w: string, rest: string)
    requires Blank(lead)
    requires w != [] && Spaceless(w)
    requires rest == [] || IsSpace(rest[0])
    ensures ParseRow(lead + w + rest) == ParseRow(w)
  {
    FirstWord(lead, w, rest);
    FirstWord([], w, []);
    assert [] + w + [] == w;
  }

  /** A segment of at most one character (the opening quote or nothing)
      yields an empty row. */
  lemma EmptySegment(segment: string)
    requires |segment| <= 1
    ensures FieldsOf(segment) == []
  {
    SplitWhole(DropFirst(segment), '|');
  }

  /** Round trip: the provider's serialisation of a row parses back to exactly
      that row, whatever the callback prefix, the opening character and the
      trailer after the last `|`. */
  lemma RoundTrip(head: string, quote: char, fields: seq<string>, tail: string)
    requires Spaceless(head) && ':' !in head
    requires quote != ':' && !IsSpace(quote)
    requires forall k :: 0 <= k < |fields| ==>
      '|' !in fields[k] && ':' !in fields[k] && Spaceless(fields[k])
    requires '|' !in tail && ':' !in tail && Spaceless(tail)
    ensures ParseRow(head + [':'] + [quote] + Terminated(fields, '|') + tail) == Ok(fields)
  {
    var segment := [quote] + Terminated(fields, '|') + tail;
    assert ':' !in segment && Spaceless(segment) by {
      TerminatedExcludes(fields, '|', ':');
      TerminatedSpaceless(fields, '|');
    }
    ParseToken(head, segment);
    FieldsOfTerminated(quote, fields, tail);
    calc {
      ParseRow(head + [':'] + [quote] + Terminated(fields, '|') + tail);
      { Assoc(head + [':'], [quote], Terminated(fields, '|'));
        Assoc(head + [':'], [quote] + Terminated(fields, '|'), tail); }
      ParseRow(head + [':'] + segment);
      Ok(FieldsOf(segment));
      Ok(fields);
    }
  }

  /** A whole token with one colon: the row is read from what follows it. */
  lemma ParseToken(head: string, segment: string)
    requires Spaceless(head) && ':' !in head
    requires Spaceless(segment) && ':' !in segment
    ensures ParseRow(head + [':'] + segment) == Ok(FieldsOf(segment))
  {
    var e: string := [];
    assert e + head + [':'] + segment + e == head + [':'] + segment;
    ParseSegment(e, head, segment, e);
  }

  /** The segment's opening character is dropped and the trailer after the
      last `|` is discarded. */
  lemma FieldsOfTerminated(quote: char, fields: seq<string>, tail: string)
    requires forall k :: 0 <= k < |fields| ==> '|' !in fields[k]
    requires '|' !in tail
    ensures FieldsOf([quote] + Terminated(fields, '|') + tail) == fields
  {
    var body := Terminated(fields, '|') + tail;
    assert DropFirst([quote] + Terminated(fields, '|') + tail) == body by {
      Assoc([quote], Terminated(fields, '|'), tail);
      assert ([quote] + body)[1..] == body;
    }
    assert Split(body, '|') == fields + [tail] by {
      SplitTerminated(fields, tail, '|');
    }
    DropLast(fields, tail);
  }

  lemma DropLast<T>(xs: seq<T>, x: T)
    ensures (xs + [x])[..|xs + [x]| - 1] == xs
  {
  }

  /** An example reply in the provider's format parses to its six fields; the
      `"})` after the last `|` is dropped. The reply is written one field at
      a time. */
  lemma ProviderExample()
    ensures ParseRow("FundDTSY.result({msg:\"" + "F1|" + "Name1|" + "12|" + "10,000.00|" + "1|" + "10,500.00|" + "\"})")
         == Ok(["F1", "Name1", "12", "10,000.00", "1", "10,500.00"])
  {
    var fields := ["F1", "Name1", "12", "10,000.00", "1", "10,500.00"];
    ExampleFieldsPlain(fields);
    ExampleHeadPlain();
    RoundTrip("FundDTSY.result({msg", '"', fields, "\"})");
    ExampleText(fields);
  }

  lemma ExampleHeadPlain()
    ensures Spaceless("FundDTSY.result({msg") && ':' !in "FundDTSY.result({msg"
    ensures '|' !in "\"})" && ':' !in "\"})" && Spaceless("\"})")
  {
  }

  lemma ExampleFieldsPlain(fields: seq<string>)
    requires fields == ["F1", "Name1", "12", "10,000.00", "1", "10,500.00"]
    ensures forall k :: 0 <= k < |fields| ==>
      '|' !in fields[k] && ':' !in fields[k] && Spaceless(fields[k])
  {
    assert Spaceless("F1") && Spaceless("Name1") && Spaceless("12");
    assert Spaceless("10,000.00") && Spaceless("1") && Spaceless("10,500.00");
  }

  lemma ExampleText(fields: seq<string>)
    requires fields == ["F1", "Name1", "12", "10,000.00", "1", "10,500.00"]
    ensures "FundDTSY.result({msg" + [':'] + ['"'] + Terminated(fields, '|') + "\"})"
         == "FundDTSY.result({msg:\"" + "F1|" + "Name1|" + "12|" + "10,000.00|" + "1|" + "10,500.00|" + "\"})"
  {
    assert "FundDTSY.result({msg" + [':'] + ['"'] == "FundDTSY.result({msg:\"";
    TerminatedSix("F1", "Name1", "12", "10,000.00", "1", "10,500.00", '|');
    assert "F1" + ['|'] == "F1|" && "Name1" + ['|'] == "Name1|" && "12" + ['|'] == "12|";
    assert "10,000.00" + ['|'] == "10,000.00|" && "1" + ['|'] == "1|" && "10,500.00" + ['|'] == "10,500.00|";
    var h := "FundDTSY.result({msg:\"";
    Assoc(h, "F1|", "Name1|");
    Assoc(h, "F1|" + "Name1|", "12|");
    Assoc(h, "F1|" + "Name1|" + "12|", "10,000.00|");
    Assoc(h, "F1|" + "Name1|" + "12|" + "10,000.00|", "1|");
    Assoc(h, "F1|" + "Name1|" + "12|" + "10,000.00|" + "1|", "10,500.00|");
  }

  /** Six fields serialised, each followed by the separator. */
  lemma TerminatedSix(a: string, b: string, c: string, e: string, f: string, g: string, d: char)
    ensures Terminated([a, b, c, e, f, g], d)
         == (a + [d]) + (b + [d]) + (c + [d]) + (e + [d]) + (f + [d]) + (g + [d])
  {
    TerminatedCons(g, [], d);
    TerminatedCons(f, [g], d);
    TerminatedCons(e, [f, g], d);
    TerminatedCons(c, [e, f, g], d);
    TerminatedCons(b, [c, e, f, g], d);
    TerminatedCons(a, [b, c, e, f, g], d);
  }

}
