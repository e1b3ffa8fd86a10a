/** The three Python string operations the payload parser is built from:
    `s.split()` (runs of whitespace), `s.split(sep)` for a one-character
    separator, and `s.replace(ch, "")`. */
module TextSplit {

  /** Python's notion of whitespace for `str.split()` with no argument
      (the characters for which `str.isspace()` holds). */
  predicate IsSpace(c: char) {
    || ('\t' <= c <= '\r')
    || ('\U{1c}' <= c <= ' ')
    || c == '\U{85}' || c == '\U{a0}' || c == '\U{1680}'
    || ('\U{2000}' <= c <= '\U{200a}')
    || c == '\U{2028}' || c == '\U{2029}' || c == '\U{202f}'
    || c == '\U{205f}' || c == '\U{3000}'
  }

  /** Nothing but whitespace (possibly nothing at all). */
  predicate Blank(s: string) {
    forall c :: c in s ==> IsSpace(c)
  }

  /** No whitespace anywhere. */
  predicate Spaceless(s: string) {
    forall c :: c in s ==> !IsSpace(c)
  }

  /** Length of the leading run of non-whitespace characters. */
  function WordEnd(s: string): (n: nat)
    ensures n <= |s|
    ensures Spaceless(s[..n])
    ensures n < |s| ==> IsSpace(s[n])
  {
    if s == [] || IsSpace(s[0]) then 0
    else
      var n := 1 + WordEnd(s[1..]);
      assert s[..n] == [s[0]] + s[1..][..n - 1];
      n
  }

  /** `s.split()`: the maximal runs of non-whitespace characters, in order. */
  function Words(s: string): (r: seq<string>)
    ensures forall k :: 0 <= k < |r| ==> r[k] != [] && Spaceless(r[k])
    ensures r == [] <==> Blank(s)
    decreases |s|
  {
    if s == [] then []
    else if IsSpace(s[0]) then
      var r := Words(s[1..]);
      assert Blank(s[1..]) ==> Blank(s) by {
        if Blank(s[1..]) {
          forall c | c in s ensures IsSpace(c) {
            if c != s[0] { assert c in s[1..]; }
          }
        }
      }
      r
    else
      var n := WordEnd(s);
      assert s[..n] != [];
      [s[..n]] + Words(s[n..])
  }

  /** Position of the first `d` in `s`, or `|s|` when there is none. */
  function IndexOf(s: string, d: char): (n: nat)
    ensures n <= |s|
    ensures d !in s[..n]
    ensures n < |s| ==> s[n] == d
  {
    if s == [] || s[0] == d then 0
    else
      var n := 1 + IndexOf(s[1..], d);
      assert s[..n] == [s[0]] + s[1..][..n - 1];
      n
  }

  /** `xs` glued together with `d` between neighbours: Python's `d.join(xs)`. */
  function Join(xs: seq<string>, d: char): string {
    if xs == [] then ""
    else if |xs| == 1 then xs[0]
    else xs[0] + [d] + Join(xs[1..], d)
  }

  /** `s.split(d)` for a one-character separator `d`: the pieces between the
      occurrences of `d`. There is always at least one piece, none contains
      `d`, every character of a piece comes from `s`, and joining the pieces
      with `d` gives back `s`. */
  function Split(s: string, d: char): (r: seq<string>)
    ensures |r| >= 1
    ensures forall k :: 0 <= k < |r| ==> d !in r[k]
    ensures forall k :: 0 <= k < |r| ==> forall c :: c in r[k] ==> c in s
    ensures |r| >= 2 <==> d in s
    ensures Join(r, d) == s
    decreases |s|
  {
    var n := IndexOf(s, d);
    if n == |s| then
      assert s[..n] == s;
      [s]
    else
      var rest := Split(s[n + 1..], d);
      var r := [s[..n]] + rest;
      assert r[1..] == rest;
      assert s == s[..n] + [d] + s[n + 1..];
      forall k | 0 <= k < |r| ensures forall c :: c in r[k] ==> c in s {
        if k > 0 {
          forall c | c in r[k] ensures c in s {
            assert c in s[n + 1..];
          }
        }
      }
      r
  }

  /** The serialisation the provider uses for a row: every field followed by `d`. */
  function Terminated(fields: seq<string>, d: char): string {
    if fields == [] then "" else fields[0] + [d] + Terminated(fields[1..], d)
  }

  /** Serialising one more field in front. */
  lemma TerminatedCons(field: string, fields: seq<string>, d: char)
    ensures Terminated([field] + fields, d) == field + [d] + Terminated(fields, d)
  {
    assert ([field] + fields)[1..] == fields;
  }

  /** `s.replace(d, "")`: `s` with every `d` removed and nothing else changed. */
  function Remove(s: string, d: char): (r: string)
    ensures d !in r
    ensures d !in s ==> r == s
    ensures |r| <= |s|
  {
    if s == [] then ""
    else if s[0] == d then Remove(s[1..], d)
    else
      var r := [s[0]] + Remove(s[1..], d);
      assert s == [s[0]] + s[1..];
      r
  }

  /** `Remove` keeps every other character. */
  lemma {:induction false} RemoveKeeps(s: string, d: char)
    ensures forall c :: c in Remove(s, d) <==> c in s && c != d
  {
    if s != [] {
      RemoveKeeps(s[1..], d);
      assert s == [s[0]] + s[1..];
    }
  }

  /** `Remove` of one character: the separator goes, anything else stays. */
  lemma RemoveChar(c: char, d: char)
    ensures Remove([c], d) == if c == d then "" else [c]
  {
  }

  /** `Remove` works piecewise: removing from a concatenation is the
      concatenation of the removals. With `RemoveChar` this fixes the result
      character by character, in order. */
  lemma {:induction false} RemoveAppend(a: string, b: string, d: char)
    ensures Remove(a + b, d) == Remove(a, d) + Remove(b, d)
    decreases |a|
  {
    if a == [] {
      assert a + b == b;
    } else {
      assert (a + b)[0] == a[0];
      assert (a + b)[1..] == a[1..] + b;
      RemoveAppend(a[1..], b, d);
    }
  }

  /** A separator `d` between two `d`-free runs is dropped and the runs are
      joined, as for the thousands separator in `10,500.00`. */
  lemma DropSeparator(a: string, b: string, d: char)
    requires d !in a && d !in b
    ensures Remove(a + [d] + b, d) == a + b
  {
    assert a + [d] + b == a + ([d] + b);
    RemoveAppend(a, [d] + b, d);
    RemoveAppend([d], b, d);
    RemoveChar(d, d);
    assert [] + b == b;
  }

  /** A first occurrence of `d` right after a `d`-free prefix is found there. */
  lemma IndexOfAfter(a: string, b: string, d: char)
    requires d !in a
    requires b == [] || b[0] == d
    ensures IndexOf(a + b, d) == |a|
  {
    var s := a + b;
    assert s[..|a|] == a;
    forall i | 0 <= i < |a| ensures s[i] != d {
      assert s[i] == a[i] && a[i] in a;
    }
    forall m | |a| < m <= |s| ensures d in s[..m] {
      assert s[..m][|a|] == b[0];
    }
  }

  /** Splitting a `d`-free piece followed by `d` peels that piece off. */
  lemma SplitCons(a: string, d: char, b: string)
    requires d !in a
    ensures Split(a + [d] + b, d) == [a] + Split(b, d)
  {
    var s := a + [d] + b;
    assert s == a + ([d] + b);
    IndexOfAfter(a, [d] + b, d);
    assert IndexOf(s, d) == |a|;
    assert s[..|a|] == a;
    assert s[|a| + 1..] == b;
  }

  /** Splitting a `d`-free string gives the string itself. */
  lemma SplitWhole(a: string, d: char)
    requires d !in a
    ensures Split(a, d) == [a]
  {
    IndexOfAfter(a, [], d);
    assert a + [] == a;
  }

  /** Splitting undoes joining, provided no part contains the separator. */
  lemma {:induction false} SplitJoin(xs: seq<string>, d: char)
    requires |xs| >= 1
    requires forall k :: 0 <= k < |xs| ==> d !in xs[k]
    ensures Split(Join(xs, d), d) == xs
    decreases |xs|
  {
    if |xs| == 1 {
      SplitWhole(xs[0], d);
    } else {
      SplitCons(xs[0], d, Join(xs[1..], d));
      SplitJoin(xs[1..], d);
    }
  }

  /** Splitting a terminated serialisation followed by a `d`-free tail gives
      back the fields, with the tail as one extra last piece. */
  lemma {:induction false} SplitTerminated(fields: seq<string>, tail: string, d: char)
    requires forall k :: 0 <= k < |fields| ==> d !in fields[k]
    requires d !in tail
    ensures Split(Terminated(fields, d) + tail, d) == fields + [tail]
    decreases |fields|
  {
    if fields == [] {
      assert Terminated(fields, d) + tail == tail;
      SplitWhole(tail, d);
    } else {
      var rest := Terminated(fields[1..], d) + tail;
      assert Split(Terminated(fields, d) + tail, d) == [fields[0]] + Split(rest, d) by {
        assert Terminated(fields, d) + tail == fields[0] + [d] + rest;
        SplitCons(fields[0], d, rest);
      }
      SplitTerminated(fields[1..], tail, d);
      ConsSnoc(fields, tail);
    }
  }

  /** Concatenation regroups freely. */
  lemma Assoc<T>(a: seq<T>, b: seq<T>, c: seq<T>)
    ensures a + b + c == a + (b + c)
  {
  }

  lemma ConsSnoc<T>(xs: seq<T>, y: T)
    requires xs != []
    ensures [xs[0]] + (xs[1..] + [y]) == xs + [y]
  {
    assert xs == [xs[0]] + xs[1..];
  }

  /** Leading whitespace is skipped, and the first word is the first
      whitespace-free run: `s.split()[0]`. */
  lemma {:induction false} FirstWord(lead: string, w: string, rest: string)
    requires Blank(lead)
    requires w != [] && Spaceless(w)
    requires rest == [] || IsSpace(rest[0])
    ensures Words(lead + w + rest) != []
    ensures Words(lead + w + rest)[0] == w
    decreases |lead|
  {
    var s := lead + w + rest;
    if lead == [] {
      assert s == w + rest;
      assert !IsSpace(s[0]) by { assert w[0] in w; }
      forall i | 0 <= i < |w| ensures !IsSpace(s[i]) {
        assert s[i] == w[i] && w[i] in w;
      }
      forall m | |w| < m <= |s| ensures !Spaceless(s[..m]) {
        assert s[..m][|w|] == rest[0];
      }
      var n := WordEnd(s);
      assert s[..n] == w;
    } else {
      assert IsSpace(s[0]) by { assert lead[0] in lead; }
      assert s[1..] == lead[1..] + w + rest;
      assert Blank(lead[1..]) by {
        forall c | c in lead[1..] ensures IsSpace(c) { assert c in lead; }
      }
      FirstWord(lead[1..], w, rest);
    }
  }
}
