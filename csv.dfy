/** CSV records as RFC 4180 section 2 describes them: fields separated by
    commas, a field either plain (no comma, no double quote) or enclosed in
    double quotes with every inner double quote doubled (rule 7). A reading
    function for one record gives the round trip its meaning. */
module Csv {
  import opened Common

  /** `s.replace(/"/g, '""')`: every double quote doubled. */
  function DoubleQuotes(s: string): (r: string)
    ensures '"' !in s ==> r == s
    ensures |r| >= |s|
  {
    if s == [] then []
    else (if s[0] == '"' then "\"\"" else [s[0]]) + DoubleQuotes(s[1..])
  }

  /** An RFC 4180 quoted field: opened and closed by a double quote, with
      the text inside no shorter than the original. */
  function Quote(s: string): (q: string)
    ensures |q| >= |s| + 2 && q[0] == '"' && q[|q| - 1] == '"'
  {
    "\"" + DoubleQuotes(s) + "\""
  }

  /** Quoting adds only double quotes. */
  lemma {:induction false} QuoteKeepsOut(s: string, c: char)
    requires c !in s && c != '"'
    ensures c !in Quote(s)
  {
    DoubledKeepsOut(s, c);
  }

  lemma {:induction false} DoubledKeepsOut(s: string, c: char)
    requires c !in s && c != '"'
    ensures c !in DoubleQuotes(s)
  {
    if s != [] { DoubledKeepsOut(s[1..], c); }
  }

  /** A field as an exporter writes it. */
  datatype Cell = Quoted(text: string) | Plain(text: string)

  /** Text a plain field may hold without changing how the record reads. */
  predicate PlainSafe(s: string)
  {
    ',' !in s && '"' !in s
  }

  predicate CellOk(c: Cell)
  {
    c.Plain? ==> PlainSafe(c.text)
  }

  function Render(c: Cell): string
  {
    match c
    case Quoted(t) => Quote(t)
    case Plain(t) => t
  }

  function Renders(cells: seq<Cell>): (r: seq<string>)
    ensures |r| == |cells|
    ensures forall i :: 0 <= i < |cells| ==> r[i] == Render(cells[i])
  {
    seq(|cells|, i requires 0 <= i < |cells| => Render(cells[i]))
  }

  function Values(cells: seq<Cell>): (r: seq<string>)
    ensures |r| == |cells|
    ensures forall i :: 0 <= i < |cells| ==> r[i] == cells[i].text
  {
    seq(|cells|, i requires 0 <= i < |cells| => cells[i].text)
  }

  /** A number printer whose output can stand in a plain field of a line. */
  ghost predicate SafeNumbers(show: real -> string)
  {
    forall x :: PlainSafe(show(x)) && '\n' !in show(x)
  }

  /** One record: the rendered fields joined by commas. */
  function RenderRecord(cells: seq<Cell>): string
  {
    Join(Renders(cells), ",")
  }

  // ------------------------------------------------------------------ reading

  /** Reads the inside of a quoted field up to its closing quote: the value
      and what follows the closing quote, or None if it is never closed. */
  function ScanQuoted(s: string): (r: Option<(string, string)>)
    ensures r.Some? ==> |r.value.1| < |s|
  {
    if s == [] then None
    else if s[0] == '"' then
      if |s| >= 2 && s[1] == '"' then
        match ScanQuoted(s[2..])
        case None => None
        case Some((v, rest)) => Some(("\"" + v, rest))
      else Some(([], s[1..]))
    else
      match ScanQuoted(s[1..])
      case None => None
      case Some((v, rest)) => Some(([s[0]] + v, rest))
  }

  /** Reads one field: the value and the text after it. */
  function ParseField(s: string): (r: Option<(string, string)>)
    ensures r.Some? ==> |r.value.1| <= |s|
  {
    if s != [] && s[0] == '"' then ScanQuoted(s[1..])
    else var v := Before(s, ','); Some((v, s[|v|..]))
  }

  /** Reads a record: fields separated by commas up to the end of the text. */
  function ParseRecord(s: string): Option<seq<string>>
    decreases |s|
  {
    match ParseField(s)
    case None => None
    case Some((v, rest)) =>
      if rest == [] then Some([v])
      else if rest[0] == ',' then
        match ParseRecord(rest[1..])
        case None => None
        case Some(vs) => Some([v] + vs)
      else None
  }

  // ---------------------------------------------------------------- round trip

  lemma {:induction false} ScanQuotedDoubled(v: string, rest: string)
    requires rest == [] || rest[0] != '"'
    ensures ScanQuoted(DoubleQuotes(v) + ("\"" + rest)) == Some((v, rest))
  {
    var closing := "\"" + rest;
    if v == [] {
      assert DoubleQuotes(v) + closing == closing;
      ClosingQuote(rest);
    } else {
      DoubledShape(v, closing);
      ScanQuotedDoubled(v[1..], rest);
      var tail := DoubleQuotes(v[1..]) + closing;
      if v[0] == '"' { QuotePair(tail); } else { OrdinaryChar(v[0], tail); }
      assert v == [v[0]] + v[1..];
    }
  }

  /** How a doubled text followed by more text starts. */
  lemma DoubledShape(v: string, after: string)
    requires v != []
    ensures DoubleQuotes(v) + after
         == (if v[0] == '"' then "\"\"" else [v[0]]) + (DoubleQuotes(v[1..]) + after)
  {
    var head: string := if v[0] == '"' then "\"\"" else [v[0]];
    var d := DoubleQuotes(v[1..]);
    assert DoubleQuotes(v) == head + d;
    ConcatAssoc(head, d, after);
  }

  lemma ClosingQuote(rest: string)
    requires rest == [] || rest[0] != '"'
    ensures ScanQuoted("\"" + rest) == Some(([], rest))
  {
    assert ("\"" + rest)[1..] == rest;
  }

  lemma QuotePair(tail: string)
    ensures ScanQuoted("\"\"" + tail)
         == match ScanQuoted(tail)
            case None => None
            case Some((v, rest)) => Some(("\"" + v, rest))
  {
    assert ("\"\"" + tail)[2..] == tail;
  }

  lemma OrdinaryChar(c: char, tail: string)
    requires c != '"'
    ensures ScanQuoted([c] + tail)
         == match ScanQuoted(tail)
            case None => None
            case Some((v, rest)) => Some(([c] + v, rest))
  {
    assert ([c] + tail)[1..] == tail;
  }

  /** A written field is read back as its text, and reading stops where the
      field ends. */
  lemma ParseFieldRender(c: Cell, rest: string)
    requires CellOk(c)
    requires rest == [] || rest[0] == ','
    ensures ParseField(Render(c) + rest) == Some((c.text, rest))
  {
    match c
    case Quoted(t) =>
      var s := Quote(t) + rest;
      assert s == "\"" + (DoubleQuotes(t) + ("\"" + rest));
      assert s[1..] == DoubleQuotes(t) + ("\"" + rest);
      ScanQuotedDoubled(t, rest);
    case Plain(t) =>
      BeforeAppend(t, rest, ',');
      assert (t + rest)[|t|..] == rest;
      if t != [] { assert (t + rest)[0] == t[0]; }
  }

  /** Every record of well-formed fields reads back as the list of their
      texts: quoting with doubled quotes loses nothing. */
  lemma {:induction false} ParseRecordRender(cells: seq<Cell>)
    requires |cells| >= 1
    requires forall i :: 0 <= i < |cells| ==> CellOk(cells[i])
    ensures ParseRecord(RenderRecord(cells)) == Some(Values(cells))
  {
    RecordShape(cells);
    if |cells| == 1 {
      LastField(cells[0]);
    } else {
      ParseRecordRender(cells[1..]);
      NextField(cells[0], RenderRecord(cells[1..]), Values(cells[1..]));
    }
  }

  /** How a record and its values decompose at the first field. */
  lemma RecordShape(cells: seq<Cell>)
    requires |cells| >= 1
    ensures |cells| == 1 ==> RenderRecord(cells) == Render(cells[0]) && Values(cells) == [cells[0].text]
    ensures |cells| > 1 ==> RenderRecord(cells) == Render(cells[0]) + ("," + RenderRecord(cells[1..]))
    ensures Values(cells) == [cells[0].text] + Values(cells[1..])
  {
    ValuesTail(cells);
    if |cells| > 1 {
      RendersTail(cells);
      JoinHead(Renders(cells), ",");
      ConcatAssoc(Render(cells[0]), ",", RenderRecord(cells[1..]));
    }
  }

  lemma ValuesTail(cells: seq<Cell>)
    requires |cells| >= 1
    ensures Values(cells) == [cells[0].text] + Values(cells[1..])
  {
  }

  lemma RendersTail(cells: seq<Cell>)
    requires |cells| >= 1
    ensures Renders(cells[1..]) == Renders(cells)[1..] && Renders(cells)[0] == Render(cells[0])
  {
  }

  lemma JoinHead(parts: seq<string>, sep: string)
    requires |parts| > 1
    ensures Join(parts, sep) == parts[0] + sep + Join(parts[1..], sep)
  {
  }

  lemma LastField(c: Cell)
    requires CellOk(c)
    ensures ParseRecord(Render(c)) == Some([c.text])
  {
    ParseFieldRender(c, []);
    assert Render(c) + [] == Render(c);
  }

  lemma NextField(c: Cell, tail: string, vs: seq<string>)
    requires CellOk(c)
    requires ParseRecord(tail) == Some(vs)
    ensures ParseRecord(Render(c) + ("," + tail)) == Some([c.text] + vs)
  {
    ParseFieldRender(c, "," + tail);
    assert ("," + tail)[1..] == tail;
  }

  /** A record of plain fields reads back as its texts. */
  lemma PlainRecordReadsBack(texts: seq<string>)
    requires |texts| >= 1
    requires forall i :: 0 <= i < |texts| ==> PlainSafe(texts[i])
    ensures ParseRecord(Join(texts, ",")) == Some(texts)
  {
    var cells := seq(|texts|, i requires 0 <= i < |texts| => Plain(texts[i]));
    assert Renders(cells) == texts;
    assert Values(cells) == texts;
    ParseRecordRender(cells);
  }

  /** Without double quotes in the text, quoting with or without doubling
      writes the same field. */
  lemma QuoteWithoutQuotes(s: string)
    requires '"' !in s
    ensures Quote(s) == "\"" + s + "\""
  {
  }
}
