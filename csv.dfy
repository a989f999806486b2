// The CSV import and export of operations (PicsouModelService::csv_load_ops
// and csv_dump_ops). A file is a sequence of characters; the integer and
// amount parsers of the Qt strings and the amount formatter are parameters.
module Csv {
  import opened Ledger

  /** QString::toInt and QString::toDouble as partial functions: None is a
      conversion whose `ok` flag came back false. */
  datatype Parsers = Parsers(toInt: string -> Option<int>, toAmount: string -> Option<Amount>)

  /** What a plain character adds to the field buffer. The code calls
      QString::append with the byte iterator, a `const char*`, which appends
      the rest of the line up to its terminating NUL (RestOfLine); appending
      the one character read (OneChar) is the evident intent. */
  datatype AppendRule = RestOfLine | OneChar

  /** The local variables of csv_load_ops. */
  datatype Scan = Scan(
    buffer: string,
    idx: nat,
    instr: bool,
    y: int, m: int, d: int,
    amount: Amount,
    budget: string,
    recipient: string,
    paymentMethod: string,
    ops: seq<Operation>)

  /** The state before the first line; the C++ leaves y, m, d and amount
      uninitialised, but they are always assigned before they are read. */
  const Start: Scan := Scan([], 0, false, 0, 0, 0, 0, [], [], [], [])

  // ---------------------------------------------------------------------
  // Reading lines: QIODevice::readLine, then QByteArray::trimmed
  // ---------------------------------------------------------------------

  /** The bytes QByteArray::trimmed removes: isspace in the C locale. */
  predicate IsSpace(c: char)
  {
    c == ' ' || c == '\t' || c == '\n' || c == '\r' || c as int == 11 || c as int == 12
  }

  function TrimStart(s: string): (r: string)
    ensures |r| <= |s| && r == s[|s| - |r|..]
    ensures forall i :: 0 <= i < |s| - |r| ==> IsSpace(s[i])
    ensures r != [] ==> !IsSpace(r[0])
  {
    if s != [] && IsSpace(s[0]) then
      var r := TrimStart(s[1..]);
      assert s[1..][|s| - 1 - |r|..] == s[|s| - |r|..];
      assert forall i :: 1 <= i < |s| - |r| ==> s[i] == s[1..][i - 1];
      r
    else s
  }

  function TrimEnd(s: string): (r: string)
    ensures |r| <= |s| && r == s[..|r|]
    ensures forall i :: |r| <= i < |s| ==> IsSpace(s[i])
    ensures r != [] ==> !IsSpace(r[|r| - 1])
  {
    if s != [] && IsSpace(s[|s| - 1]) then TrimEnd(s[..|s| - 1]) else s
  }

  /** QByteArray::trimmed: a line is blank after trimming exactly when it
      is whitespace only. */
  function Trim(s: string): (r: string)
    ensures |r| <= |s|
    ensures r != [] ==> !IsSpace(r[0]) && !IsSpace(r[|r| - 1])
    ensures r == [] <==> forall i :: 0 <= i < |s| ==> IsSpace(s[i])
  {
    var a := TrimStart(s);
    assert a != [] ==> a[0] == s[|s| - |a|];
    assert forall i :: 0 <= i < |a| ==> a[i] == s[|s| - |a| + i];
    TrimEnd(a)
  }

  lemma TrimSubset(s: string)
    ensures forall c :: c in Trim(s) ==> c in s
  {
    var a := TrimStart(s);
    var r := TrimEnd(a);
    var j := |s| - |a|;
    assert r == Trim(s);
    assert r == s[j..j + |r|] by {
      assert a == s[j..] && r == a[..|r|];
    }
    forall c | c in r ensures c in s {
      var i :| 0 <= i < |r| && r[i] == c;
      assert s[j + i] == c;
    }
  }

  /** One past the '\n' that ends the line starting at i, or the end of the
      text when the last line has no '\n'. */
  function LineEnd(text: string, i: nat): (n: nat)
    requires i < |text|
    ensures i < n <= |text|
    ensures n == |text| || text[n - 1] == '\n'
    ensures forall k :: i <= k < n - 1 ==> text[k] != '\n'
    decreases |text| - i
  {
    if text[i] == '\n' || i + 1 == |text| then i + 1 else LineEnd(text, i + 1)
  }

  /** The lines joined back together. */
  function Concat(ls: seq<string>): string
    decreases |ls|
  {
    if ls == [] then [] else ls[0] + Concat(ls[1..])
  }

  /** The lines successive readLine calls return until atEnd. */
  function Lines(text: string): seq<string>
    decreases |text|
  {
    if text == [] then []
    else
      var n := LineEnd(text, 0);
      [text[..n]] + Lines(text[n..])
  }

  /** The lines together are the text, none is empty, only the last may
      lack its '\n', and no line holds a '\n' before its end. */
  lemma LinesShape(text: string)
    ensures Concat(Lines(text)) == text
    ensures forall k :: 0 <= k < |Lines(text)| ==> Lines(text)[k] != []
    ensures forall k :: 0 <= k < |Lines(text)| - 1 ==> Lines(text)[k][|Lines(text)[k]| - 1] == '\n'
    ensures forall k, i :: 0 <= k < |Lines(text)| && 0 <= i < |Lines(text)[k]| - 1 ==> Lines(text)[k][i] != '\n'
  {
    LinesConcat(text);
    LinesEnds(text);
  }

  lemma {:induction false} LinesConcat(text: string)
    ensures Concat(Lines(text)) == text
    decreases |text|
  {
    if text != [] {
      var n := LineEnd(text, 0);
      var r, rest := Lines(text), Lines(text[n..]);
      LinesConcat(text[n..]);
      assert r == [text[..n]] + rest;
      assert r[0] == text[..n] && r[1..] == rest;
      assert Concat(r) == text[..n] + Concat(rest);
      assert text == text[..n] + text[n..];
    }
  }

  lemma {:induction false} LinesEnds(text: string)
    ensures forall k :: 0 <= k < |Lines(text)| ==> Lines(text)[k] != []
    ensures forall k :: 0 <= k < |Lines(text)| - 1 ==> Lines(text)[k][|Lines(text)[k]| - 1] == '\n'
    ensures forall k, i :: 0 <= k < |Lines(text)| && 0 <= i < |Lines(text)[k]| - 1 ==> Lines(text)[k][i] != '\n'
    decreases |text|
  {
    if text != [] {
      var n := LineEnd(text, 0);
      LinesEnds(text[n..]);
      var r, rest := Lines(text), Lines(text[n..]);
      assert r == [text[..n]] + rest;
      if rest != [] {
        assert n < |text|;
        assert r[0][|r[0]| - 1] == text[n - 1];
      }
      forall k | 0 < k < |r| ensures r[k] == rest[k - 1] {
      }
      forall i | 0 <= i < |r[0]| - 1 ensures r[0][i] != '\n' {
        assert r[0][i] == text[i];
      }
    }
  }

  /** Every character of a line is a character of the joined lines. */
  lemma {:induction false} ConcatSubset(ls: seq<string>)
    ensures forall l, c :: l in ls && c in l ==> c in Concat(ls)
    decreases |ls|
  {
    if ls != [] {
      ConcatSubset(ls[1..]);
      forall l, c | l in ls && c in l ensures c in Concat(ls) {
        if l != ls[0] {
          assert l in ls[1..];
        }
      }
    }
  }

  lemma LinesSubset(text: string)
    ensures forall l, c :: l in Lines(text) && c in l ==> c in text
  {
    LinesShape(text);
    ConcatSubset(Lines(text));
  }

  /** A text that begins with a line ending in its only '\n' reads as that
      line followed by the lines of the rest. */
  lemma LinesCons(a: string, b: string)
    requires a != [] && a[|a| - 1] == '\n'
    requires forall k :: 0 <= k < |a| - 1 ==> a[k] != '\n'
    ensures Lines(a + b) == [a] + Lines(b)
  {
    var t := a + b;
    var n := LineEnd(t, 0);
    assert t[|a| - 1] == '\n';
    assert forall k :: 0 <= k < |a| - 1 ==> t[k] != '\n';
    assert n == |a|;
    assert t[..n] == a && t[n..] == b;
  }

  // ---------------------------------------------------------------------
  // The tokenizer
  // ---------------------------------------------------------------------

  /** The characters of a C string: everything before the first NUL. */
  function UpToNul(s: string): (r: string)
    ensures |r| <= |s| && r == s[..|r|]
    ensures |r| < |s| ==> s[|r|] == '\0'
    ensures '\0' !in r
    ensures '\0' !in s ==> r == s
  {
    if s == [] || s[0] == '\0' then [] else [s[0]] + UpToNul(s[1..])
  }

  /** What the plain character at line[j] adds to the buffer: a prefix of
      the rest of the line that holds the character itself unless it is a
      NUL. */
  function Piece(rule: AppendRule, line: string, j: nat): (r: string)
    requires j < |line|
    ensures |r| <= |line| - j && r == line[j..j + |r|]
    ensures line[j] != '\0' ==> |r| >= 1
    ensures rule.OneChar? ==> |r| == 1
  {
    match rule
    case OneChar => [line[j]]
    case RestOfLine => UpToNul(line[j..])
  }

  /** The operation built when the description field is ended: not
      verified, with the buffer as its description. */
  function Record(s: Scan): (o: Operation)
    ensures !o.verified && o.description == s.buffer
    ensures o.date == Date(s.y, s.m, s.d) && o.amount == s.amount
  {
    Operation(false, s.amount, Date(s.y, s.m, s.d), s.budget, s.recipient, s.buffer, s.paymentMethod)
  }

  /** The `switch (idx)` run on an unquoted ','; None is `goto error`. */
  function StoreField(p: Parsers, s: Scan): (r: Option<Scan>)
    ensures r.None? <==> (s.idx <= 2 && p.toInt(s.buffer).None?) || (s.idx == 3 && p.toAmount(s.buffer).None?)
    ensures r.Some? ==> r.value.idx == s.idx && r.value.buffer == s.buffer && r.value.instr == s.instr
    ensures r.Some? ==> r.value.ops == if s.idx == 7 then s.ops + [Record(s)] else s.ops
  {
    if s.idx == 0 then
      match p.toInt(s.buffer) case None => None case Some(v) => Some(s.(y := v))
    else if s.idx == 1 then
      match p.toInt(s.buffer) case None => None case Some(v) => Some(s.(m := v))
    else if s.idx == 2 then
      match p.toInt(s.buffer) case None => None case Some(v) => Some(s.(d := v))
    else if s.idx == 3 then
      match p.toAmount(s.buffer) case None => None case Some(v) => Some(s.(amount := v))
    else if s.idx == 4 then Some(s.(budget := s.buffer))
    else if s.idx == 5 then Some(s.(recipient := s.buffer))
    else if s.idx == 6 then Some(s.(paymentMethod := s.buffer))
    else if s.idx == 7 then Some(s.(ops := s.ops + [Record(s)]))
    else Some(s)
  }

  /** One turn of the character loop. A '"' toggles the quote flag; a ','
      inside quotes does nothing; an unquoted ',' stores the field, clears
      the buffer and moves to the next field; anything else is appended. */
  function Step(rule: AppendRule, p: Parsers, s: Scan, line: string, j: nat): (r: Option<Scan>)
    requires j < |line|
    ensures r.None? ==> line[j] == ',' && !s.instr
    ensures r.Some? ==> r.value.ops == s.ops || (line[j] == ',' && !s.instr && s.idx == 7 && r.value.ops == s.ops + [Record(s)])
    ensures r.Some? ==> r.value.idx == if line[j] == ',' && !s.instr then s.idx + 1 else s.idx
  {
    if line[j] == '"' then Some(s.(instr := !s.instr))
    else if line[j] == ',' then
      if s.instr then Some(s)
      else
        match StoreField(p, s)
        case None => None
        case Some(t) => Some(t.(buffer := [], idx := t.idx + 1))
    else Some(s.(buffer := s.buffer + Piece(rule, line, j)))
  }

  /** The character loop from position j to the end of the line. */
  function ScanFrom(rule: AppendRule, p: Parsers, s: Scan, line: string, j: nat): Option<Scan>
    requires j <= |line|
    decreases |line| - j
  {
    if j == |line| then Some(s)
    else
      match Step(rule, p, s, line, j)
      case None => None
      case Some(t) => ScanFrom(rule, p, t, line, j + 1)
  }

  /** The line loop: each line is trimmed, blank lines are skipped, and a
      line restarts the field index and the quote flag but not the buffer. */
  function ScanLines(rule: AppendRule, p: Parsers, s: Scan, lines: seq<string>): Option<Scan>
    decreases |lines|
  {
    if lines == [] then Some(s)
    else
      var line := Trim(lines[0]);
      if |line| == 0 then ScanLines(rule, p, s, lines[1..])
      else
        match ScanFrom(rule, p, s.(idx := 0, instr := false), line, 0)
        case None => None
        case Some(t) => ScanLines(rule, p, t, lines[1..])
  }

  /** The list csv_load_ops returns: everything parsed, or nothing at all
      once a conversion has failed. */
  function LoadOps(rule: AppendRule, p: Parsers, text: string): seq<Operation>
  {
    match ScanLines(rule, p, Start, Lines(text))
    case None => []
    case Some(s) => s.ops
  }

  /** No operation of the list is marked verified. */
  predicate Unverified(ops: seq<Operation>)
  {
    forall k :: 0 <= k < |ops| ==> !ops[k].verified
  }

  /** The character loop only adds operations built by Record. */
  lemma {:induction false} ScanFromUnverified(rule: AppendRule, p: Parsers, s: Scan, line: string, j: nat)
    requires j <= |line| && Unverified(s.ops)
    ensures ScanFrom(rule, p, s, line, j).Some? ==> Unverified(ScanFrom(rule, p, s, line, j).value.ops)
    decreases |line| - j
  {
    if j < |line| {
      match Step(rule, p, s, line, j)
      case None =>
      case Some(t) => ScanFromUnverified(rule, p, t, line, j + 1);
    }
  }

  lemma {:induction false} ScanLinesUnverified(rule: AppendRule, p: Parsers, s: Scan, lines: seq<string>)
    requires Unverified(s.ops)
    ensures ScanLines(rule, p, s, lines).Some? ==> Unverified(ScanLines(rule, p, s, lines).value.ops)
    decreases |lines|
  {
    if lines != [] {
      var line := Trim(lines[0]);
      if |line| == 0 {
        ScanLinesUnverified(rule, p, s, lines[1..]);
      } else {
        ScanFromUnverified(rule, p, s.(idx := 0, instr := false), line, 0);
        match ScanFrom(rule, p, s.(idx := 0, instr := false), line, 0)
        case None =>
        case Some(t) => ScanLinesUnverified(rule, p, t, lines[1..]);
      }
    }
  }

  /** Every loaded operation is unverified, whichever append rule is read. */
  lemma LoadedUnverified(rule: AppendRule, p: Parsers, text: string)
    ensures Unverified(LoadOps(rule, p, text))
  {
    ScanLinesUnverified(rule, p, Start, Lines(text));
  }

  function Then(rule: AppendRule, p: Parsers, r: Option<Scan>, lines: seq<string>): Option<Scan>
  {
    match r
    case None => None
    case Some(t) => ScanLines(rule, p, t, lines)
  }

  /** One turn of the line loop: a blank line is skipped, any other is
      scanned into r, and a failed scan ends the loop. */
  lemma ScanLinesNext(rule: AppendRule, p: Parsers, s: Scan, lines: seq<string>, i: nat, r: Option<Scan>)
    requires i < |lines|
    requires |Trim(lines[i])| > 0 ==> r == ScanFrom(rule, p, s.(idx := 0, instr := false), Trim(lines[i]), 0)
    ensures |Trim(lines[i])| == 0 ==> ScanLines(rule, p, s, lines[i..]) == ScanLines(rule, p, s, lines[i + 1..])
    ensures |Trim(lines[i])| > 0 ==> ScanLines(rule, p, s, lines[i..]) == Then(rule, p, r, lines[i + 1..])
  {
    assert lines[i..][0] == lines[i] && lines[i..][1..] == lines[i + 1..];
  }

  /** The character loop of csv_load_ops over one trimmed line, with the
      same variables and branches; None is `goto error`. */
  method ScanLine(rule: AppendRule, p: Parsers, s: Scan, line: string) returns (r: Option<Scan>)
    ensures r == ScanFrom(rule, p, s, line, 0)
  {
    var buffer, idx, instr := s.buffer, s.idx, s.instr;
    var y, m, d, amount := s.y, s.m, s.d, s.amount;
    var budget, recipient, paymentMethod, ops := s.budget, s.recipient, s.paymentMethod, s.ops;
    var j := 0;
    while j < |line|
      invariant 0 <= j <= |line|
      invariant ScanFrom(rule, p, s, line, 0)
        == ScanFrom(rule, p, Scan(buffer, idx, instr, y, m, d, amount, budget, recipient, paymentMethod, ops), line, j)
    {
      var c := line[j];
      if c == '"' {
        instr := !instr;
      } else if c == ',' {
        if !instr {
          if idx == 0 {
            var v := p.toInt(buffer);
            if v.None? { return None; }
            y := v.value;
          } else if idx == 1 {
            var v := p.toInt(buffer);
            if v.None? { return None; }
            m := v.value;
          } else if idx == 2 {
            var v := p.toInt(buffer);
            if v.None? { return None; }
            d := v.value;
          } else if idx == 3 {
            var v := p.toAmount(buffer);
            if v.None? { return None; }
            amount := v.value;
          } else if idx == 4 {
            budget := buffer;
          } else if idx == 5 {
            recipient := buffer;
          } else if idx == 6 {
            paymentMethod := buffer;
          } else if idx == 7 {
            ops := ops + [Operation(false, amount, Date(y, m, d), budget, recipient, buffer, paymentMethod)];
          }
          buffer := [];
          idx := idx + 1;
        }
      } else {
        buffer := buffer + Piece(rule, line, j);
      }
      j := j + 1;
    }
    r := Some(Scan(buffer, idx, instr, y, m, d, amount, budget, recipient, paymentMethod, ops));
  }

  /** One turn of the line loop: the line is trimmed, skipped when blank
      and scanned otherwise; None is a failed line. */
  method NextLine(rule: AppendRule, p: Parsers, s: Scan, lines: seq<string>, i: nat) returns (r: Option<Scan>)
    requires i < |lines|
    ensures ScanLines(rule, p, s, lines[i..]) == Then(rule, p, r, lines[i + 1..])
    ensures |Trim(lines[i])| == 0 ==> r == Some(s)
  {
    var line := Trim(lines[i]);
    if |line| > 0 {
      r := ScanLine(rule, p, s.(idx := 0, instr := false), line);
    } else {
      r := Some(s);
    }
    ScanLinesNext(rule, p, s, lines, i, r);
  }

  /** csv_load_ops: the line loop over the file, dropping every operation
      parsed so far when a line fails. */
  method LoadWith(rule: AppendRule, p: Parsers, text: string) returns (ops: seq<Operation>)
    ensures ops == LoadOps(rule, p, text)
  {
    var lines := Lines(text);
    var s := Start;
    var i := 0;
    while i < |lines|
      invariant 0 <= i <= |lines|
      invariant ScanLines(rule, p, Start, lines) == ScanLines(rule, p, s, lines[i..])
    {
      var r := NextLine(rule, p, s, lines, i);
      if r.None? {
        ops := [];
        return;
      }
      s := r.value;
      i := i + 1;
    }
    assert lines[i..] == [];
    ops := s.ops;
  }

  /** csv_load_ops as written. */
  method CsvLoadOps(p: Parsers, text: string) returns (ops: seq<Operation>)
    ensures ops == LoadOps(RestOfLine, p, text)
  {
    ops := LoadWith(RestOfLine, p, text);
  }

  /** csv_load_ops with the one-character append it evidently intends. */
  method CsvLoadOpsCorrected(p: Parsers, text: string) returns (ops: seq<Operation>)
    ensures ops == LoadOps(OneChar, p, text)
  {
    ops := LoadWith(OneChar, p, text);
  }

  // ---------------------------------------------------------------------
  // What one line of input yields, whatever the append rule
  // ---------------------------------------------------------------------

  /** The number of ',' outside quotes in cs, the quote flag starting at q. */
  function CommaCount(cs: string, q: bool): nat
    decreases |cs|
  {
    if cs == [] then 0
    else if cs[0] == '"' then CommaCount(cs[1..], !q)
    else if cs[0] == ',' && !q then 1 + CommaCount(cs[1..], q)
    else CommaCount(cs[1..], q)
  }

  /** The quote flag after reading cs from flag q. */
  function QuoteState(cs: string, q: bool): bool
    decreases |cs|
  {
    if cs == [] then q
    else if cs[0] == '"' then QuoteState(cs[1..], !q)
    else QuoteState(cs[1..], q)
  }

  /** The character loop moves the field index once per unquoted ',', ends
      with the quote flag the quotes leave, and adds exactly one operation
      when it passes the seventh field separator, keeping those before it. */
  lemma {:induction false} ScanCounts(rule: AppendRule, p: Parsers, s: Scan, line: string, j: nat)
    requires j <= |line|
    requires ScanFrom(rule, p, s, line, j).Some?
    ensures var t := ScanFrom(rule, p, s, line, j).value;
      && t.idx == s.idx + CommaCount(line[j..], s.instr)
      && t.instr == QuoteState(line[j..], s.instr)
      && |t.ops| == |s.ops| + (if s.idx <= 7 < t.idx then 1 else 0)
      && t.ops[..|s.ops|] == s.ops
    decreases |line| - j
  {
    if j < |line| {
      var u := Step(rule, p, s, line, j).value;
      ScanCounts(rule, p, u, line, j + 1);
      assert line[j..][1..] == line[j + 1..];
    }
  }

  /** The lines that carry eight or more field separators outside quotes
      once trimmed: those that produce an operation. */
  function RecordLines(lines: seq<string>): nat
    decreases |lines|
  {
    if lines == [] then 0
    else (if CommaCount(Trim(lines[0]), false) >= 8 then 1 else 0) + RecordLines(lines[1..])
  }

  /** One nonblank line adds one operation when it has eight separators. */
  lemma LineOps(rule: AppendRule, p: Parsers, s: Scan, line: string)
    requires ScanFrom(rule, p, s.(idx := 0, instr := false), line, 0).Some?
    ensures var t := ScanFrom(rule, p, s.(idx := 0, instr := false), line, 0).value;
      && |t.ops| == |s.ops| + (if CommaCount(line, false) >= 8 then 1 else 0)
      && t.ops[..|s.ops|] == s.ops
  {
    ScanCounts(rule, p, s.(idx := 0, instr := false), line, 0);
    assert line[0..] == line;
  }

  lemma {:induction false} OpsPerLine(rule: AppendRule, p: Parsers, s: Scan, lines: seq<string>)
    requires ScanLines(rule, p, s, lines).Some?
    ensures |ScanLines(rule, p, s, lines).value.ops| == |s.ops| + RecordLines(lines)
    ensures ScanLines(rule, p, s, lines).value.ops[..|s.ops|] == s.ops
    decreases |lines|
  {
    if lines != [] {
      var line := Trim(lines[0]);
      if |line| == 0 {
        assert RecordLines(lines) == RecordLines(lines[1..]);
        OpsPerLine(rule, p, s, lines[1..]);
      } else {
        var t := ScanFrom(rule, p, s.(idx := 0, instr := false), line, 0).value;
        assert ScanLines(rule, p, s, lines) == ScanLines(rule, p, t, lines[1..]) by {
          ScanLinesNext(rule, p, s, lines, 0, Some(t));
          assert lines[0..] == lines;
        }
        assert RecordLines(lines) == (if CommaCount(line, false) >= 8 then 1 else 0) + RecordLines(lines[1..]);
        LineOps(rule, p, s, line);
        OpsPerLine(rule, p, t, lines[1..]);
        var u := ScanLines(rule, p, t, lines[1..]).value;
        assert u.ops[..|s.ops|] == s.ops by {
          assert u.ops[..|s.ops|] == u.ops[..|t.ops|][..|s.ops|];
        }
      }
    }
  }

  /** A loaded file holds one operation per line that has eight field
      separators, or nothing when a conversion failed. */
  lemma LoadedCount(rule: AppendRule, p: Parsers, text: string)
    ensures LoadOps(rule, p, text) == [] || |LoadOps(rule, p, text)| == RecordLines(Lines(text))
  {
    if ScanLines(rule, p, Start, Lines(text)).Some? {
      OpsPerLine(rule, p, Start, Lines(text));
    }
  }

  /** Reading lines one after another is reading their concatenation. */
  lemma {:induction false} ScanLinesAppend(rule: AppendRule, p: Parsers, s: Scan, a: seq<string>, b: seq<string>)
    ensures ScanLines(rule, p, s, a + b) == Then(rule, p, ScanLines(rule, p, s, a), b)
    decreases |a|
  {
    if a == [] {
      assert a + b == b;
    } else {
      assert (a + b)[0] == a[0] && (a + b)[1..] == a[1..] + b;
      var line := Trim(a[0]);
      if |line| == 0 {
        ScanLinesAppend(rule, p, s, a[1..], b);
      } else {
        match ScanFrom(rule, p, s.(idx := 0, instr := false), line, 0)
        case None =>
        case Some(t) => ScanLinesAppend(rule, p, t, a[1..], b);
      }
    }
  }

  /** A failed conversion on any line throws away the whole file, the
      operations of the lines before it included. */
  lemma FailureDropsEverything(rule: AppendRule, p: Parsers, text: string, k: nat)
    requires k <= |Lines(text)|
    requires ScanLines(rule, p, Start, Lines(text)[..k]).None?
    ensures LoadOps(rule, p, text) == []
  {
    var lines := Lines(text);
    assert lines == lines[..k] + lines[k..];
    ScanLinesAppend(rule, p, Start, lines[..k], lines[k..]);
  }

  // ---------------------------------------------------------------------
  // The one-character reading, character by character
  // ---------------------------------------------------------------------

  /** The character loop on its own sequence of characters. */
  function ScanChars(p: Parsers, s: Scan, cs: string): Option<Scan>
    decreases |cs|
  {
    if cs == [] then Some(s)
    else
      match Step(OneChar, p, s, cs, 0)
      case None => None
      case Some(t) => ScanChars(p, t, cs[1..])
  }

  /** Under the one-character rule a step looks at its own character only. */
  lemma {:induction false} OneCharIsLocal(p: Parsers, s: Scan, line: string, j: nat)
    requires j <= |line|
    ensures ScanFrom(OneChar, p, s, line, j) == ScanChars(p, s, line[j..])
    decreases |line| - j
  {
    if j < |line| {
      assert line[j..][0] == line[j] && line[j..][1..] == line[j + 1..];
      match Step(OneChar, p, s, line, j)
      case None =>
      case Some(t) => OneCharIsLocal(p, t, line, j + 1);
    }
  }

  lemma {:induction false} ScanCharsAppend(p: Parsers, s: Scan, a: string, b: string)
    ensures ScanChars(p, s, a + b)
      == match ScanChars(p, s, a) case None => None case Some(t) => ScanChars(p, t, b)
    decreases |a|
  {
    if a == [] {
      assert a + b == b;
    } else {
      assert (a + b)[0] == a[0] && (a + b)[1..] == a[1..] + b;
      match Step(OneChar, p, s, a, 0)
      case None =>
      case Some(t) => ScanCharsAppend(p, t, a[1..], b);
    }
  }

  /** The characters the loader keeps from a field: all but '"' and ','. */
  function Kept(cs: string): (r: string)
    ensures '"' !in r && ',' !in r
    ensures forall c :: c in r ==> c in cs
    decreases |cs|
  {
    if cs == [] then []
    else if cs[0] == '"' || cs[0] == ',' then Kept(cs[1..])
    else [cs[0]] + Kept(cs[1..])
  }

  lemma {:induction false} KeptAppend(a: string, b: string)
    ensures Kept(a + b) == Kept(a) + Kept(b)
    decreases |a|
  {
    if a == [] {
      assert a + b == b;
    } else {
      assert (a + b)[0] == a[0] && (a + b)[1..] == a[1..] + b;
      KeptAppend(a[1..], b);
    }
  }

  lemma {:induction false} KeptPlain(w: string)
    requires '"' !in w && ',' !in w
    ensures Kept(w) == w
    decreases |w|
  {
    if w != [] {
      assert w == [w[0]] + w[1..];
      KeptPlain(w[1..]);
    }
  }

  /** Characters with no field separator among them go to the buffer,
      quotes and quoted commas left out. */
  lemma {:induction false} FieldChars(p: Parsers, s: Scan, cs: string)
    requires CommaCount(cs, s.instr) == 0
    ensures ScanChars(p, s, cs) == Some(s.(buffer := s.buffer + Kept(cs), instr := QuoteState(cs, s.instr)))
    decreases |cs|
  {
    if cs != [] {
      var t := Step(OneChar, p, s, cs, 0).value;
      assert ScanChars(p, s, cs) == ScanChars(p, t, cs[1..]);
      assert QuoteState(cs, s.instr) == QuoteState(cs[1..], t.instr);
      FieldChars(p, t, cs[1..]);
      if cs[0] == '"' {
        assert t == s.(instr := !s.instr);
      } else if cs[0] == ',' {
        assert t == s;
      } else {
        assert t == s.(buffer := s.buffer + [cs[0]]);
        assert Kept(cs) == [cs[0]] + Kept(cs[1..]);
        assert t.buffer + Kept(cs[1..]) == s.buffer + Kept(cs);
      }
    } else {
      assert s.buffer + Kept(cs) == s.buffer;
    }
  }

  /** A text without ',' has no separator, whatever its quotes. */
  lemma {:induction false} NoCommaCount(w: string, q: bool)
    requires ',' !in w
    ensures CommaCount(w, q) == 0
    decreases |w|
  {
    if w != [] {
      assert w[0] != ',';
      NoCommaCount(w[1..], if w[0] == '"' then !q else q);
    }
  }

  /** A line without a field separator produces no operation: its characters
      stay in the buffer and become the start of the next line's first
      field, because the buffer is cleared only by a ','. */
  lemma CarryOver(p: Parsers, s: Scan, line: string)
    requires Trim(line) != [] && ',' !in line
    ensures ScanLines(OneChar, p, s, [line])
      == Some(s.(buffer := s.buffer + Kept(Trim(line)), idx := 0, instr := QuoteState(Trim(line), false)))
  {
    var t := Trim(line);
    TrimSubset(line);
    NoCommaCount(t, false);
    var s0 := s.(idx := 0, instr := false);
    OneCharIsLocal(p, s0, t, 0);
    assert t[0..] == t;
    FieldChars(p, s0, t);
    assert [line][1..] == [];
  }

  predicate CleanText(w: string)
  {
    '"' !in w && ',' !in w
  }

  predicate CleanOp(o: Operation)
  {
    CleanText(o.budget) && CleanText(o.recipient) && CleanText(o.description) && CleanText(o.paymentMethod)
  }

  predicate CleanScan(s: Scan)
  {
    && CleanText(s.buffer) && CleanText(s.budget) && CleanText(s.recipient) && CleanText(s.paymentMethod)
    && forall i :: 0 <= i < |s.ops| ==> CleanOp(s.ops[i])
  }

  lemma {:induction false} ScanCharsClean(p: Parsers, s: Scan, cs: string)
    requires CleanScan(s)
    ensures ScanChars(p, s, cs).Some? ==> CleanScan(ScanChars(p, s, cs).value)
    decreases |cs|
  {
    if cs != [] {
      match Step(OneChar, p, s, cs, 0)
      case None =>
      case Some(t) =>
        assert CleanScan(t);
        ScanCharsClean(p, t, cs[1..]);
    }
  }

  lemma {:induction false} ScanLinesClean(p: Parsers, s: Scan, lines: seq<string>)
    requires CleanScan(s)
    ensures ScanLines(OneChar, p, s, lines).Some? ==> CleanScan(ScanLines(OneChar, p, s, lines).value)
    decreases |lines|
  {
    if lines != [] {
      var line := Trim(lines[0]);
      if |line| == 0 {
        ScanLinesClean(p, s, lines[1..]);
      } else {
        var s0 := s.(idx := 0, instr := false);
        OneCharIsLocal(p, s0, line, 0);
        assert line[0..] == line;
        ScanCharsClean(p, s0, line);
        match ScanFrom(OneChar, p, s0, line, 0)
        case None =>
        case Some(t) => ScanLinesClean(p, t, lines[1..]);
      }
    }
  }

  /** No text field of a loaded operation holds a '"' or a ',': quotes only
      toggle the quote flag and a quoted ',' is skipped, not copied. */
  lemma LoadedFieldsClean(p: Parsers, text: string)
    ensures forall o :: o in LoadOps(OneChar, p, text) ==> CleanOp(o)
  {
    ScanLinesClean(p, Start, Lines(text));
  }

  // ---------------------------------------------------------------------
  // The as-written loader
  // ---------------------------------------------------------------------

  /** What QString::toInt demands of its argument: it accepts no empty
      string and no ','; the C locale's group separator is ',', and toInt
      does not accept group separators. */
  ghost predicate IntRejectsComma(p: Parsers)
  {
    p.toInt([]).None? && forall w :: ',' in w ==> p.toInt(w).None?
  }

  lemma {:induction false} CountHasComma(w: string, q: bool)
    requires CommaCount(w, q) > 0
    ensures ',' in w
    decreases |w|
  {
    if w[0] != ',' {
      CountHasComma(w[1..], if w[0] == '"' then !q else q);
    }
  }

  /** With a whole-rest-of-line append, a plain character copies the ','
      that ends its field into the buffer. So an integer field (year, month
      or day) reaches its separator with a ',' in the buffer, or with an
      empty buffer when nothing was appended, and the conversion fails. */
  lemma {:induction false} IntFieldFails(p: Parsers, s: Scan, line: string, j: nat)
    requires IntRejectsComma(p) && '\0' !in line && j <= |line|
    requires s.idx <= 2 && CommaCount(line[j..], s.instr) > 0
    requires s.buffer == [] || ',' in s.buffer
    ensures ScanFrom(RestOfLine, p, s, line, j).None?
    decreases |line| - j
  {
    assert line[j..][1..] == line[j + 1..];
    if line[j] == '"' {
      IntFieldFails(p, s.(instr := !s.instr), line, j + 1);
    } else if line[j] == ',' {
      if s.instr {
        IntFieldFails(p, s, line, j + 1);
      }
    } else {
      var rest := line[j..];
      CountHasComma(rest, s.instr);
      assert UpToNul(rest) == rest;
      IntFieldFails(p, s.(buffer := s.buffer + rest), line, j + 1);
    }
  }

  /** Whatever the year buffer holds, the month conversion fails: a line
      with two field separators outside quotes never gets past its second. */
  lemma {:induction false} SecondSeparatorFails(p: Parsers, s: Scan, line: string, j: nat)
    requires IntRejectsComma(p) && '\0' !in line && j <= |line|
    requires s.idx == 0 && CommaCount(line[j..], s.instr) >= 2
    ensures ScanFrom(RestOfLine, p, s, line, j).None?
    decreases |line| - j
  {
    assert line[j..][1..] == line[j + 1..];
    if line[j] == '"' {
      SecondSeparatorFails(p, s.(instr := !s.instr), line, j + 1);
    } else if line[j] == ',' {
      if s.instr {
        SecondSeparatorFails(p, s, line, j + 1);
      } else {
        match StoreField(p, s)
        case None =>
        case Some(t) => IntFieldFails(p, t.(buffer := [], idx := 1), line, j + 1);
      }
    } else {
      var rest := line[j..];
      CountHasComma(rest, s.instr);
      assert UpToNul(rest) == rest;
      IntFieldFails(p, s.(buffer := s.buffer + rest), line, j + 1);
    }
  }

  lemma {:induction false} AsWrittenNoRecords(p: Parsers, s: Scan, lines: seq<string>)
    requires IntRejectsComma(p)
    requires forall k :: 0 <= k < |lines| ==> '\0' !in lines[k]
    requires ScanLines(RestOfLine, p, s, lines).Some?
    ensures RecordLines(lines) == 0
    decreases |lines|
  {
    if lines != [] {
      var line := Trim(lines[0]);
      TrimSubset(lines[0]);
      if |line| == 0 {
        AsWrittenNoRecords(p, s, lines[1..]);
      } else {
        var s0 := s.(idx := 0, instr := false);
        if CommaCount(line, false) >= 2 {
          assert line[0..] == line;
          SecondSeparatorFails(p, s0, line, 0);
        }
        assert RecordLines(lines) == RecordLines(lines[1..]);
        AsWrittenNoRecords(p, ScanFrom(RestOfLine, p, s0, line, 0).value, lines[1..]);
      }
    }
  }

  /** csv_load_ops as written returns an empty list for every file without
      a NUL byte: no line gets past its second field separator. */
  lemma AsWrittenLoadsNothing(p: Parsers, text: string)
    requires IntRejectsComma(p) && '\0' !in text
    ensures LoadOps(RestOfLine, p, text) == []
  {
    var lines := Lines(text);
    LinesSubset(text);
    assert forall k :: 0 <= k < |lines| ==> '\0' !in lines[k] by {
      forall k | 0 <= k < |lines| ensures '\0' !in lines[k] {
        assert lines[k] in lines;
      }
    }
    if ScanLines(RestOfLine, p, Start, lines).Some? {
      AsWrittenNoRecords(p, Start, lines);
      OpsPerLine(RestOfLine, p, Start, lines);
    }
  }

  // ---------------------------------------------------------------------
  // csv_dump_ops
  // ---------------------------------------------------------------------

  function Digit(n: nat): (c: char)
    requires n < 10
    ensures '0' <= c <= '9' && c as int - '0' as int == n
  {
    (n + '0' as int) as char
  }

  predicate IsDigit(c: char)
  {
    '0' <= c <= '9'
  }

  /** QString::number on a non-negative integer: its decimal digits, with
      no leading zero. */
  function NatToString(n: nat): (r: string)
    ensures r != [] && forall i :: 0 <= i < |r| ==> IsDigit(r[i])
    ensures |r| > 1 ==> r[0] != '0'
    decreases n
  {
    if n < 10 then [Digit(n)] else NatToString(n / 10) + [Digit(n % 10)]
  }

  /** The number a string of decimal digits stands for. */
  function DigitsValue(r: string): int
    decreases |r|
  {
    if r == [] then 0 else 10 * DigitsValue(r[..|r| - 1]) + (r[|r| - 1] as int - '0' as int)
  }

  lemma {:induction false} NatToStringValue(n: nat)
    ensures DigitsValue(NatToString(n)) == n
    decreases n
  {
    if n >= 10 {
      var r := NatToString(n);
      assert r[..|r| - 1] == NatToString(n / 10);
      NatToStringValue(n / 10);
    }
  }

  /** QString::number on an int: a '-' before the digits of a negative one. */
  function NumberToString(n: int): (r: string)
    ensures r != [] && (r[0] == '-' || IsDigit(r[0]))
    ensures forall i :: 0 < i < |r| ==> IsDigit(r[i])
    ensures n < 0 <==> r[0] == '-'
  {
    if n < 0 then "-" + NatToString(-n) else NatToString(n)
  }

  /** The digits QString::number writes stand for the number's magnitude. */
  lemma NumberToStringValue(n: int)
    ensures var r := NumberToString(n);
      if n < 0 then DigitsValue(r[1..]) == -n else DigitsValue(r) == n
  {
    if n < 0 {
      assert NumberToString(n)[1..] == NatToString(-n);
      NatToStringValue(-n);
    } else {
      NatToStringValue(n);
    }
  }

  /** QString::replace('"', '\''). */
  function Sanitize(w: string): (r: string)
    ensures |r| == |w|
    ensures forall i :: 0 <= i < |w| ==> r[i] == if w[i] == '"' then '\'' else w[i]
    ensures '"' !in r
  {
    seq(|w|, i requires 0 <= i < |w| => if w[i] == '"' then '\'' else w[i])
  }

  /** A text field as written: the sanitized text between two quotes, with
      no quote inside. */
  function Quoted(w: string): (r: string)
    ensures |r| == |w| + 2 && r[0] == '"' && r[|r| - 1] == '"'
    ensures forall i :: 0 < i < |r| - 1 ==> r[i] != '"'
  {
    "\"" + Sanitize(w) + "\""
  }

  /** The eight arguments of the format string, in the order of its
      placeholders %0 to %7. */
  function Fields(amountStr: Amount -> string, op: Operation): seq<string>
  {
    [ NumberToString(op.date.year), NumberToString(op.date.month), NumberToString(op.date.day),
      amountStr(op.amount),
      Quoted(op.budget), Quoted(op.recipient), Quoted(op.paymentMethod), Quoted(op.description) ]
  }

  /** The fields with a ',' between each two. */
  function Join(fs: seq<string>): string
    decreases |fs|
  {
    if fs == [] then []
    else if |fs| == 1 then fs[0]
    else fs[0] + "," + Join(fs[1..])
  }

  /** The format the code writes (Unterminated: the last field is followed
      by the newline) and the one the loader reads (Terminated: every field,
      the last one included, is followed by a ','). */
  datatype Layout = Unterminated | Terminated

  /** The line of one operation: the joined fields, a ',' when terminated,
      then the newline. */
  function Line(amountStr: Amount -> string, op: Operation, layout: Layout): (r: string)
    ensures r != [] && r[|r| - 1] == '\n'
  {
    var j := Join(Fields(amountStr, op));
    match layout
    case Unterminated => j + "\n"
    case Terminated => j + ",\n"
  }

  /** The whole file: one line per operation, in list order. */
  function DumpText(amountStr: Amount -> string, ops: seq<Operation>, layout: Layout): string
    decreases |ops|
  {
    if ops == [] then [] else Line(amountStr, ops[0], layout) + DumpText(amountStr, ops[1..], layout)
  }

  /** The operations' lines, in list order. */
  function LinesOf(amountStr: Amount -> string, ops: seq<Operation>, layout: Layout): (r: seq<string>)
    ensures |r| == |ops| && forall i :: 0 <= i < |ops| ==> r[i] == Line(amountStr, ops[i], layout)
  {
    seq(|ops|, i requires 0 <= i < |ops| => Line(amountStr, ops[i], layout))
  }

  lemma {:induction false} ConcatSnoc(ls: seq<string>, l: string)
    ensures Concat(ls + [l]) == Concat(ls) + l
    decreases |ls|
  {
    if ls == [] {
      assert ls + [l] == [l] && [l][1..] == [];
    } else {
      assert (ls + [l])[0] == ls[0] && (ls + [l])[1..] == ls[1..] + [l];
      ConcatSnoc(ls[1..], l);
      assert ls[0] + (Concat(ls[1..]) + l) == (ls[0] + Concat(ls[1..])) + l;
    }
  }

  /** The dump is its lines joined. */
  lemma {:induction false} DumpTextConcat(amountStr: Amount -> string, ops: seq<Operation>, layout: Layout)
    ensures DumpText(amountStr, ops, layout) == Concat(LinesOf(amountStr, ops, layout))
    decreases |ops|
  {
    if ops != [] {
      DumpTextConcat(amountStr, ops[1..], layout);
      var ls := LinesOf(amountStr, ops, layout);
      assert ls[0] == Line(amountStr, ops[0], layout);
      assert ls[1..] == LinesOf(amountStr, ops[1..], layout);
    }
  }

  lemma DumpTextSnoc(amountStr: Amount -> string, ops: seq<Operation>, op: Operation, layout: Layout)
    ensures DumpText(amountStr, ops + [op], layout) == DumpText(amountStr, ops, layout) + Line(amountStr, op, layout)
  {
    DumpTextConcat(amountStr, ops + [op], layout);
    DumpTextConcat(amountStr, ops, layout);
    var ls := LinesOf(amountStr, ops, layout);
    assert LinesOf(amountStr, ops + [op], layout) == ls + [Line(amountStr, op, layout)];
    ConcatSnoc(ls, Line(amountStr, op, layout));
  }

  lemma DumpTextPrefix(amountStr: Amount -> string, ops: seq<Operation>, i: nat, layout: Layout)
    requires i < |ops|
    ensures DumpText(amountStr, ops[..i + 1], layout) == DumpText(amountStr, ops[..i], layout) + Line(amountStr, ops[i], layout)
  {
    assert ops[..i + 1] == ops[..i] + [ops[i]];
    DumpTextSnoc(amountStr, ops[..i], ops[i], layout);
  }

  /** The loop of csv_dump_ops; the file is the text written, and the
      success flag is set whatever QFile::write returned. */
  method DumpWith(amountStr: Amount -> string, ops: seq<Operation>, layout: Layout)
    returns (written: string, success: bool)
    ensures written == DumpText(amountStr, ops, layout)
    ensures success
  {
    written := [];
    var i := 0;
    while i < |ops|
      invariant 0 <= i <= |ops|
      invariant written == DumpText(amountStr, ops[..i], layout)
    {
      DumpTextPrefix(amountStr, ops, i, layout);
      written := written + Line(amountStr, ops[i], layout);
      i := i + 1;
    }
    assert ops[..i] == ops;
    success := true;
  }

  /** csv_dump_ops as written. */
  method CsvDumpOps(amountStr: Amount -> string, ops: seq<Operation>) returns (written: string, success: bool)
    ensures written == DumpText(amountStr, ops, Unterminated)
    ensures success
  {
    written, success := DumpWith(amountStr, ops, Unterminated);
  }

  /** csv_dump_ops with a ',' after the last field, as the loader needs. */
  method CsvDumpOpsCorrected(amountStr: Amount -> string, ops: seq<Operation>) returns (written: string, success: bool)
    ensures written == DumpText(amountStr, ops, Terminated)
    ensures success
  {
    written, success := DumpWith(amountStr, ops, Terminated);
  }

  // ---------------------------------------------------------------------
  // The dumped file read back
  // ---------------------------------------------------------------------

  /** Text that is inert inside a CSV line: no quote, no comma, no newline. */
  predicate PlainText(w: string)
  {
    '"' !in w && ',' !in w && '\n' !in w
  }

  /** The assumption the dump-side lemmas make of Amount::to_str: that it
      never writes a quote, a comma or a newline. This holds where the
      locale's decimal point is '.', not where it is ','. */
  ghost predicate PlainAmounts(amountStr: Amount -> string)
  {
    forall a :: PlainText(amountStr(a))
  }

  predicate SingleLine(o: Operation)
  {
    '\n' !in o.budget && '\n' !in o.recipient && '\n' !in o.description && '\n' !in o.paymentMethod
  }

  /** The operations' texts hold no line break. */
  ghost predicate AllSingleLine(ops: seq<Operation>)
  {
    forall i :: 0 <= i < |ops| ==> SingleLine(ops[i])
  }

  /** QDate's year, month and day are ints: a date that a QDate can hold. */
  predicate IntDate(d: Date)
  {
    IsInt32(d.year) && IsInt32(d.month) && IsInt32(d.day)
  }

  /** An operation the dump writes on one line, with a date of ints. */
  predicate Dumpable(o: Operation)
  {
    SingleLine(o) && IntDate(o.date)
  }

  ghost predicate AllDumpable(ops: seq<Operation>)
  {
    forall i :: 0 <= i < |ops| ==> Dumpable(ops[i])
  }

  lemma AllDumpableTail(ops: seq<Operation>)
    requires ops != [] && AllDumpable(ops)
    ensures Dumpable(ops[0]) && AllDumpable(ops[1..])
  {
    assert forall i :: 0 <= i < |ops[1..]| ==> ops[1..][i] == ops[i + 1];
  }

  lemma AllSingleLineTail(ops: seq<Operation>)
    requires ops != [] && AllSingleLine(ops)
    ensures SingleLine(ops[0]) && AllSingleLine(ops[1..])
  {
    assert forall i :: 0 <= i < |ops[1..]| ==> ops[1..][i] == ops[i + 1];
  }

  /** A field that leaves the separator count and the quote flag as found. */
  predicate Neutral(f: string)
  {
    CommaCount(f, false) == 0 && !QuoteState(f, false)
  }

  lemma {:induction false} CountAppend(a: string, b: string, q: bool)
    ensures CommaCount(a + b, q) == CommaCount(a, q) + CommaCount(b, QuoteState(a, q))
    ensures QuoteState(a + b, q) == QuoteState(b, QuoteState(a, q))
    decreases |a|
  {
    if a == [] {
      assert a + b == b;
    } else {
      assert (a + b)[0] == a[0] && (a + b)[1..] == a[1..] + b;
      CountAppend(a[1..], b, if a[0] == '"' then !q else q);
    }
  }

  /** Without a quote, the flag never changes, and inside quotes nothing
      is a separator. */
  lemma {:induction false} NoQuote(w: string, q: bool)
    requires '"' !in w
    ensures QuoteState(w, q) == q
    ensures q ==> CommaCount(w, q) == 0
    decreases |w|
  {
    if w != [] {
      assert w[0] != '"';
      NoQuote(w[1..], q);
    }
  }

  lemma NumberPlain(n: int)
    ensures PlainText(NumberToString(n))
  {
    var r := NumberToString(n);
    forall i | 0 <= i < |r| ensures r[i] != '"' && r[i] != ',' && r[i] != '\n' {
    }
  }

  lemma QuotedNeutral(w: string)
    ensures Neutral(Quoted(w))
    ensures '\n' !in w ==> '\n' !in Quoted(w)
  {
    var z := Sanitize(w);
    CountAppend("\"", z, false);
    NoQuote(z, true);
    CountAppend("\"" + z, "\"", false);
    if '\n' !in w {
      assert forall i :: 0 <= i < |z| ==> z[i] != '\n';
    }
  }

  lemma FieldsNeutral(amountStr: Amount -> string, op: Operation)
    requires PlainAmounts(amountStr)
    ensures forall i :: 0 <= i < 8 ==> Neutral(Fields(amountStr, op)[i])
    ensures SingleLine(op) ==> forall i :: 0 <= i < 8 ==> '\n' !in Fields(amountStr, op)[i]
  {
    var fs := Fields(amountStr, op);
    NumberPlain(op.date.year);
    NumberPlain(op.date.month);
    NumberPlain(op.date.day);
    assert PlainText(amountStr(op.amount));
    NoCommaCount(fs[0], false);
    NoCommaCount(fs[1], false);
    NoCommaCount(fs[2], false);
    NoCommaCount(fs[3], false);
    NoQuote(fs[0], false);
    NoQuote(fs[1], false);
    NoQuote(fs[2], false);
    NoQuote(fs[3], false);
    QuotedNeutral(op.budget);
    QuotedNeutral(op.recipient);
    QuotedNeutral(op.paymentMethod);
    QuotedNeutral(op.description);
  }

  /** Joining neutral fields gives one separator per gap and closes every
      quote. */
  lemma {:induction false} JoinCount(fs: seq<string>)
    requires fs != [] && forall i :: 0 <= i < |fs| ==> Neutral(fs[i])
    ensures CommaCount(Join(fs), false) == |fs| - 1 && !QuoteState(Join(fs), false)
    decreases |fs|
  {
    if |fs| > 1 {
      JoinCount(fs[1..]);
      CountAppend(fs[0], ",", false);
      CountAppend(fs[0] + ",", Join(fs[1..]), false);
    }
  }

  lemma {:induction false} JoinAvoids(fs: seq<string>, c: char)
    requires c != ',' && forall i :: 0 <= i < |fs| ==> c !in fs[i]
    ensures c !in Join(fs)
    decreases |fs|
  {
    if |fs| > 1 {
      JoinAvoids(fs[1..], c);
    }
  }

  lemma JoinFirst(fs: seq<string>)
    requires fs != [] && fs[0] != []
    ensures Join(fs) != [] && Join(fs)[0] == fs[0][0]
  {
  }

  lemma {:induction false} JoinLast(fs: seq<string>)
    requires fs != [] && fs[|fs| - 1] != []
    ensures Join(fs) != [] && Join(fs)[|Join(fs)| - 1] == fs[|fs| - 1][|fs[|fs| - 1]| - 1]
    decreases |fs|
  {
    if |fs| > 1 {
      assert fs[1..][|fs[1..]| - 1] == fs[|fs| - 1];
      JoinLast(fs[1..]);
    }
  }

  /** Trimming a line that starts and ends, before its newline, with a
      visible character leaves it without the newline. */
  lemma TrimNewline(w: string)
    requires w != [] && !IsSpace(w[0]) && !IsSpace(w[|w| - 1])
    ensures Trim(w + "\n") == w
  {
    var s := w + "\n";
    assert TrimStart(s) == s;
    var r := TrimEnd(s);
    assert s[|w| - 1] == w[|w| - 1];
    assert |r| == |w|;
    assert r == s[..|w|] == w;
  }

  /** The line of one operation: a '\n' at its end and nowhere else, and,
      trimmed, the joined fields (followed by a ',' when terminated). */
  lemma LineShape(amountStr: Amount -> string, op: Operation, layout: Layout)
    requires PlainAmounts(amountStr) && SingleLine(op)
    ensures var l := Line(amountStr, op, layout);
      && l != [] && l[|l| - 1] == '\n' && (forall k :: 0 <= k < |l| - 1 ==> l[k] != '\n')
      && Trim(l) == match layout case Unterminated => Join(Fields(amountStr, op)) case Terminated => Join(Fields(amountStr, op)) + ","
  {
    var fs := Fields(amountStr, op);
    var j := Join(fs);
    FieldsNeutral(amountStr, op);
    JoinAvoids(fs, '\n');
    JoinFirst(fs);
    JoinLast(fs);
    assert j[0] == NumberToString(op.date.year)[0];
    assert j[|j| - 1] == '"';
    var l := Line(amountStr, op, layout);
    match layout
    case Unterminated =>
      assert l == j + "\n";
      TrimNewline(j);
    case Terminated =>
      assert l == (j + ",") + "\n";
      TrimNewline(j + ",");
  }

  /** csv_dump_ops writes one line per operation: the text splits into
      exactly the operations' lines, in order. */
  lemma {:induction false} DumpLines(amountStr: Amount -> string, ops: seq<Operation>, layout: Layout)
    requires PlainAmounts(amountStr) && AllSingleLine(ops)
    ensures |Lines(DumpText(amountStr, ops, layout))| == |ops|
    ensures forall i :: 0 <= i < |ops| ==> Lines(DumpText(amountStr, ops, layout))[i] == Line(amountStr, ops[i], layout)
    decreases |ops|
  {
    if ops != [] {
      var rest := Lines(DumpText(amountStr, ops[1..], layout));
      DumpTextLines(amountStr, ops, layout);
      DumpLines(amountStr, ops[1..], layout);
      forall i | 0 <= i < |ops| ensures ([Line(amountStr, ops[0], layout)] + rest)[i] == Line(amountStr, ops[i], layout) {
        if i > 0 {
          assert ops[1..][i - 1] == ops[i];
        }
      }
    }
  }

  lemma {:induction false} NoRecordLines(lines: seq<string>)
    requires forall i :: 0 <= i < |lines| ==> CommaCount(Trim(lines[i]), false) < 8
    ensures RecordLines(lines) == 0
    decreases |lines|
  {
    if lines != [] {
      NoRecordLines(lines[1..]);
    }
  }

  /** What csv_dump_ops writes, csv_load_ops reads back as nothing, under
      either append rule: each line carries seven field separators, while
      the loader stores the description, and builds the operation, only at
      an eighth. */
  lemma DumpedFileLoadsNothing(rule: AppendRule, p: Parsers, amountStr: Amount -> string, ops: seq<Operation>)
    requires PlainAmounts(amountStr) && AllSingleLine(ops)
    ensures LoadOps(rule, p, DumpText(amountStr, ops, Unterminated)) == []
  {
    var text := DumpText(amountStr, ops, Unterminated);
    var lines := Lines(text);
    DumpLines(amountStr, ops, Unterminated);
    forall i | 0 <= i < |lines| ensures CommaCount(Trim(lines[i]), false) == 7 {
      LineShape(amountStr, ops[i], Unterminated);
      FieldsNeutral(amountStr, ops[i]);
      JoinCount(Fields(amountStr, ops[i]));
    }
    NoRecordLines(lines);
    LoadedCount(rule, p, text);
  }

  /** The parsers read back what the formatters wrote: toInt every number
      of the 32-bit range (it fails outside it), toDouble every amount. */
  ghost predicate Inverts(p: Parsers, amountStr: Amount -> string)
  {
    && (forall n :: IsInt32(n) ==> p.toInt(NumberToString(n)) == Some(n))
    && (forall a :: p.toAmount(amountStr(a)) == Some(a))
  }

  /** An operation as the loader rebuilds it from its dumped line: not
      verified, each '"' of a text field turned into '\'' and each ','
      dropped. */
  function Reloaded(op: Operation): Operation
  {
    Operation(false, op.amount, op.date,
      Kept(Sanitize(op.budget)), Kept(Sanitize(op.recipient)),
      Kept(Sanitize(op.description)), Kept(Sanitize(op.paymentMethod)))
  }

  function ReloadedAll(ops: seq<Operation>): seq<Operation>
  {
    seq(|ops|, i requires 0 <= i < |ops| => Reloaded(ops[i]))
  }

  /** The fields stored one after another, each followed by a separator. */
  function StoreAll(p: Parsers, s: Scan, fs: seq<string>): Option<Scan>
    decreases |fs|
  {
    if fs == [] then Some(s)
    else
      match StoreField(p, s.(buffer := s.buffer + Kept(fs[0])))
      case None => None
      case Some(t) => StoreAll(p, t.(buffer := [], idx := t.idx + 1), fs[1..])
  }

  /** Outside quotes, neutral fields each followed by a ',' are stored in
      turn. */
  lemma {:induction false} ScanTerminated(p: Parsers, s: Scan, fs: seq<string>)
    requires fs != [] && !s.instr && forall i :: 0 <= i < |fs| ==> Neutral(fs[i])
    ensures ScanChars(p, s, Join(fs) + ",") == StoreAll(p, s, fs)
    decreases |fs|
  {
    var rest := if |fs| == 1 then [] else Join(fs[1..]) + ",";
    assert Join(fs) + "," == fs[0] + ("," + rest);
    ScanCharsAppend(p, s, fs[0], "," + rest);
    FieldChars(p, s, fs[0]);
    var s1 := s.(buffer := s.buffer + Kept(fs[0]));
    assert ScanChars(p, s, fs[0]) == Some(s1);
    assert ("," + rest)[1..] == rest;
    match StoreField(p, s1)
    case None =>
    case Some(t) =>
      assert ScanChars(p, s1, "," + rest) == ScanChars(p, t.(buffer := [], idx := t.idx + 1), rest);
      if |fs| > 1 {
        ScanTerminated(p, t.(buffer := [], idx := t.idx + 1), fs[1..]);
      }
  }

  lemma KeptQuoted(w: string)
    ensures Kept(Quoted(w)) == Kept(Sanitize(w))
  {
    KeptAppend("\"", Sanitize(w));
    KeptAppend("\"" + Sanitize(w), "\"");
  }

  lemma NumberKept(n: int)
    ensures Kept(NumberToString(n)) == NumberToString(n)
  {
    NumberPlain(n);
    KeptPlain(NumberToString(n));
  }

  /** A field kept whole and converted to v is stored as the year, month
      or day, as idx says. */
  lemma StoreInt(p: Parsers, s: Scan, fs: seq<string>, v: int)
    requires |fs| >= 1 && s.buffer == [] && s.idx <= 2
    requires Kept(fs[0]) == fs[0] && p.toInt(fs[0]) == Some(v)
    ensures StoreAll(p, s, fs) == StoreAll(p,
      (if s.idx == 0 then s.(y := v) else if s.idx == 1 then s.(m := v) else s.(d := v)).(idx := s.idx + 1),
      fs[1..])
  {
    var s0 := s.(buffer := fs[0]);
    assert s.(buffer := s.buffer + Kept(fs[0])) == s0;
    var t := if s.idx == 0 then s0.(y := v) else if s.idx == 1 then s0.(m := v) else s0.(d := v);
    assert StoreField(p, s0) == Some(t);
  }

  /** Three fields that the loader keeps whole and converts to y, m and d
      are stored into those variables. */
  lemma StoreDate(p: Parsers, s: Scan, fs: seq<string>, y: int, m: int, d: int)
    requires |fs| >= 3 && s.buffer == [] && s.idx == 0
    requires Kept(fs[0]) == fs[0] && Kept(fs[1]) == fs[1] && Kept(fs[2]) == fs[2]
    requires p.toInt(fs[0]) == Some(y) && p.toInt(fs[1]) == Some(m) && p.toInt(fs[2]) == Some(d)
    ensures StoreAll(p, s, fs) == StoreAll(p, s.(idx := 3, y := y, m := m, d := d), fs[3..])
  {
    StoreInt(p, s, fs, y);
    var s1 := s.(idx := 1, y := y);
    assert fs[1..][0] == fs[1] && fs[1..][1..] == fs[2..];
    StoreInt(p, s1, fs[1..], m);
    var s2 := s1.(idx := 2, m := m);
    assert fs[2..][0] == fs[2] && fs[2..][1..] == fs[3..];
    StoreInt(p, s2, fs[2..], d);
  }

  /** A field kept whole and converted to an amount is stored as the amount. */
  lemma StoreAmount(p: Parsers, s: Scan, fs: seq<string>, amount: Amount)
    requires |fs| >= 1 && s.buffer == [] && s.idx == 3
    requires Kept(fs[0]) == fs[0] && p.toAmount(fs[0]) == Some(amount)
    ensures StoreAll(p, s, fs) == StoreAll(p, s.(idx := 4, amount := amount), fs[1..])
  {
    var s0 := s.(buffer := fs[0]);
    assert s.(buffer := s.buffer + Kept(fs[0])) == s0;
    assert StoreField(p, s0) == Some(s0.(amount := amount));
  }

  /** A text field is stored as the budget, recipient or payment method,
      as idx says. */
  lemma StoreText(p: Parsers, s: Scan, fs: seq<string>)
    requires |fs| >= 1 && s.buffer == [] && 4 <= s.idx <= 6
    ensures StoreAll(p, s, fs) == StoreAll(p,
      (if s.idx == 4 then s.(budget := Kept(fs[0]))
       else if s.idx == 5 then s.(recipient := Kept(fs[0]))
       else s.(paymentMethod := Kept(fs[0]))).(idx := s.idx + 1),
      fs[1..])
  {
    var s0 := s.(buffer := Kept(fs[0]));
    assert s.(buffer := s.buffer + Kept(fs[0])) == s0;
    var t := if s.idx == 4 then s0.(budget := Kept(fs[0]))
      else if s.idx == 5 then s0.(recipient := Kept(fs[0]))
      else s0.(paymentMethod := Kept(fs[0]));
    assert StoreField(p, s0) == Some(t);
  }

  /** The last field is the description: the operation is recorded. */
  lemma StoreLast(p: Parsers, s: Scan, fs: seq<string>)
    requires |fs| == 1 && s.buffer == [] && s.idx == 7
    ensures StoreAll(p, s, fs) == Some(s.(idx := 8, ops := s.ops + [Record(s.(buffer := Kept(fs[0])))]))
  {
    var s0 := s.(buffer := Kept(fs[0]));
    assert s.(buffer := s.buffer + Kept(fs[0])) == s0;
    var t := s0.(ops := s.ops + [Record(s0)]);
    assert StoreField(p, s0) == Some(t);
    assert fs[1..] == [];
  }

  /** Four text fields are stored as the budget, the recipient, the payment
      method and, with the operation recorded, the description. */
  lemma StoreTextFields(p: Parsers, s: Scan, b: string, r: string, pm: string, d: string)
    requires s.buffer == [] && s.idx == 4
    ensures StoreAll(p, s, [b, r, pm, d])
      == Some(s.(idx := 8, budget := Kept(b), recipient := Kept(r), paymentMethod := Kept(pm),
                 ops := s.ops + [Record(s.(budget := Kept(b), recipient := Kept(r), paymentMethod := Kept(pm), buffer := Kept(d)))]))
  {
    var fs := [b, r, pm, d];
    StoreText(p, s, fs);
    var s5 := s.(idx := 5, budget := Kept(b));
    assert fs[1..] == [r, pm, d];
    StoreText(p, s5, [r, pm, d]);
    var s6 := s5.(idx := 6, recipient := Kept(r));
    assert [r, pm, d][1..] == [pm, d];
    StoreText(p, s6, [pm, d]);
    var s7 := s6.(idx := 7, paymentMethod := Kept(pm));
    assert [pm, d][1..] == [d];
    StoreLast(p, s7, [d]);
  }

  /** The budget, recipient, payment method and description of a dumped
      line are read back, and the operation is built. */
  lemma StoreTexts(p: Parsers, amountStr: Amount -> string, s: Scan, op: Operation)
    requires s.buffer == [] && s.idx == 4
    requires s.y == op.date.year && s.m == op.date.month && s.d == op.date.day && s.amount == op.amount
    ensures StoreAll(p, s, Fields(amountStr, op)[4..])
      == Some(s.(idx := 8, budget := Kept(Sanitize(op.budget)), recipient := Kept(Sanitize(op.recipient)),
                 paymentMethod := Kept(Sanitize(op.paymentMethod)), ops := s.ops + [Reloaded(op)]))
  {
    var b, r, pm, d := Quoted(op.budget), Quoted(op.recipient), Quoted(op.paymentMethod), Quoted(op.description);
    assert Fields(amountStr, op)[4..] == [b, r, pm, d];
    StoreTextFields(p, s, b, r, pm, d);
    KeptQuoted(op.budget);
    KeptQuoted(op.recipient);
    KeptQuoted(op.paymentMethod);
    KeptQuoted(op.description);
  }

  /** The eight fields of a dumped line are stored into the variables they
      came from, and the operation is built from them. */
  lemma StoreFields(p: Parsers, amountStr: Amount -> string, s: Scan, op: Operation)
    requires Inverts(p, amountStr) && PlainAmounts(amountStr) && IntDate(op.date) && s.buffer == []
    ensures var r := StoreAll(p, s.(idx := 0), Fields(amountStr, op));
      r.Some? && r.value.buffer == [] && r.value.instr == s.instr && r.value.ops == s.ops + [Reloaded(op)]
  {
    var fs := Fields(amountStr, op);
    NumberKept(op.date.year);
    NumberKept(op.date.month);
    NumberKept(op.date.day);
    assert PlainText(amountStr(op.amount));
    KeptPlain(fs[3]);
    StoreDate(p, s.(idx := 0), fs, op.date.year, op.date.month, op.date.day);
    var s3 := s.(idx := 3, y := op.date.year, m := op.date.month, d := op.date.day);
    StoreAmount(p, s3, fs[3..], op.amount);
    assert fs[3..][0] == fs[3] && fs[3..][1..] == fs[4..];
    StoreTexts(p, amountStr, s.(idx := 4, y := op.date.year, m := op.date.month, d := op.date.day, amount := op.amount), op);
  }

  /** One terminated dumped line, read by the one-character loader, adds
      its operation and leaves the buffer empty. */
  lemma ReloadLine(p: Parsers, amountStr: Amount -> string, s: Scan, op: Operation) returns (t: Scan)
    requires Inverts(p, amountStr) && PlainAmounts(amountStr) && Dumpable(op) && s.buffer == []
    ensures Trim(Line(amountStr, op, Terminated)) != []
    ensures ScanFrom(OneChar, p, s.(idx := 0, instr := false), Trim(Line(amountStr, op, Terminated)), 0) == Some(t)
    ensures t.buffer == [] && t.ops == s.ops + [Reloaded(op)]
  {
    var fs := Fields(amountStr, op);
    var l := Trim(Line(amountStr, op, Terminated));
    var s0 := s.(idx := 0, instr := false);
    LineShape(amountStr, op, Terminated);
    FieldsNeutral(amountStr, op);
    OneCharIsLocal(p, s0, l, 0);
    assert l[0..] == l;
    ScanTerminated(p, s0, fs);
    StoreFields(p, amountStr, s.(instr := false), op);
    assert s.(instr := false).(idx := 0) == s0;
    t := ScanFrom(OneChar, p, s0, l, 0).value;
  }

  lemma DumpTextLines(amountStr: Amount -> string, ops: seq<Operation>, layout: Layout)
    requires ops != [] && PlainAmounts(amountStr) && SingleLine(ops[0])
    ensures Lines(DumpText(amountStr, ops, layout))
      == [Line(amountStr, ops[0], layout)] + Lines(DumpText(amountStr, ops[1..], layout))
  {
    LineShape(amountStr, ops[0], layout);
    LinesCons(Line(amountStr, ops[0], layout), DumpText(amountStr, ops[1..], layout));
  }

  lemma ScanLinesCons(rule: AppendRule, p: Parsers, s: Scan, l: string, rest: seq<string>)
    requires Trim(l) != [] && ScanFrom(rule, p, s.(idx := 0, instr := false), Trim(l), 0).Some?
    ensures ScanLines(rule, p, s, [l] + rest)
      == ScanLines(rule, p, ScanFrom(rule, p, s.(idx := 0, instr := false), Trim(l), 0).value, rest)
  {
    assert ([l] + rest)[0] == l && ([l] + rest)[1..] == rest;
  }

  /** The first dumped line, read back, adds its operation. */
  lemma ReloadFirst(p: Parsers, amountStr: Amount -> string, s: Scan, ops: seq<Operation>) returns (t: Scan)
    requires Inverts(p, amountStr) && PlainAmounts(amountStr) && s.buffer == []
    requires ops != [] && Dumpable(ops[0])
    ensures ScanLines(OneChar, p, s, Lines(DumpText(amountStr, ops, Terminated)))
      == ScanLines(OneChar, p, t, Lines(DumpText(amountStr, ops[1..], Terminated)))
    ensures t.buffer == [] && t.ops == s.ops + [Reloaded(ops[0])]
  {
    t := ReloadLine(p, amountStr, s, ops[0]);
    DumpTextLines(amountStr, ops, Terminated);
    ScanLinesCons(OneChar, p, s, Line(amountStr, ops[0], Terminated), Lines(DumpText(amountStr, ops[1..], Terminated)));
  }

  lemma ReloadedCons(s: seq<Operation>, ops: seq<Operation>)
    requires ops != []
    ensures s + ReloadedAll(ops) == (s + [Reloaded(ops[0])]) + ReloadedAll(ops[1..])
  {
    assert ReloadedAll(ops) == [Reloaded(ops[0])] + ReloadedAll(ops[1..]);
    assert s + ([Reloaded(ops[0])] + ReloadedAll(ops[1..])) == (s + [Reloaded(ops[0])]) + ReloadedAll(ops[1..]);
  }

  lemma {:induction false} ReloadLines(p: Parsers, amountStr: Amount -> string, s: Scan, ops: seq<Operation>)
    requires Inverts(p, amountStr) && PlainAmounts(amountStr) && s.buffer == [] && AllDumpable(ops)
    ensures var r := ScanLines(OneChar, p, s, Lines(DumpText(amountStr, ops, Terminated)));
      r.Some? && r.value.ops == s.ops + ReloadedAll(ops)
    decreases |ops|
  {
    if ops == [] {
      assert ReloadedAll(ops) == [];
    } else {
      AllDumpableTail(ops);
      var t := ReloadFirst(p, amountStr, s, ops);
      ReloadLines(p, amountStr, t, ops[1..]);
      ReloadedCons(s.ops, ops);
    }
  }

  lemma LoadOpsFrom(rule: AppendRule, p: Parsers, text: string, ops: seq<Operation>)
    requires var r := ScanLines(rule, p, Start, Lines(text)); r.Some? && r.value.ops == Start.ops + ops
    ensures LoadOps(rule, p, text) == ops
  {
    assert Start.ops + ops == ops;
  }

  /** Dumped with a ',' after every field, operations on one line each and
      dated with ints read back in order, each as Reloaded describes. */
  lemma RoundTripTerminated(p: Parsers, amountStr: Amount -> string, ops: seq<Operation>)
    requires Inverts(p, amountStr) && PlainAmounts(amountStr)
    requires AllDumpable(ops)
    ensures LoadOps(OneChar, p, DumpText(amountStr, ops, Terminated)) == ReloadedAll(ops)
  {
    ReloadLines(p, amountStr, Start, ops);
    LoadOpsFrom(OneChar, p, DumpText(amountStr, ops, Terminated), ReloadedAll(ops));
  }

  /** A clean text field is written unchanged and read back whole. */
  lemma CleanReloads(w: string)
    requires CleanText(w)
    ensures Kept(Sanitize(w)) == w
  {
    assert Sanitize(w) == w;
    KeptPlain(w);
  }

  /** For operations that are not verified, are dated with ints and whose
      text fields hold no '"', ',' or newline, the corrected dump and load
      are inverse. */
  lemma RoundTripClean(p: Parsers, amountStr: Amount -> string, ops: seq<Operation>)
    requires Inverts(p, amountStr) && PlainAmounts(amountStr)
    requires forall i :: 0 <= i < |ops| ==> Dumpable(ops[i]) && CleanOp(ops[i]) && !ops[i].verified
    ensures LoadOps(OneChar, p, DumpText(amountStr, ops, Terminated)) == ops
  {
    RoundTripTerminated(p, amountStr, ops);
    forall i | 0 <= i < |ops| ensures Reloaded(ops[i]) == ops[i] {
      var o := ops[i];
      CleanReloads(o.budget);
      CleanReloads(o.recipient);
      CleanReloads(o.description);
      CleanReloads(o.paymentMethod);
    }
  }
}
