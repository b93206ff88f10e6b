/** The text routines of Go's standard library that the programs print and parse their records with:
    strings.Split by one character, strings.TrimSpace, bufio.Scanner over lines, %d and ParseUint. */
module Text {
  import opened Types

  // ----- splitting -----

  function Split(s: string, sep: char): (parts: seq<string>)
    ensures |parts| >= 1
  {
    if s == "" then [""]
    else
      var rest := Split(s[1..], sep);
      if s[0] == sep then [""] + rest else [[s[0]] + rest[0]] + rest[1..]
  }

  function Join(parts: seq<string>, sep: char): string
    requires |parts| >= 1
  {
    if |parts| == 1 then parts[0] else parts[0] + [sep] + Join(parts[1..], sep)
  }

  lemma {:induction false} SplitFirst(a: string, rest: string, sep: char)
    requires sep !in a
    ensures Split(a + [sep] + rest, sep) == [a] + Split(rest, sep)
  {
    var s := a + [sep] + rest;
    if a == "" {
      assert s[1..] == rest;
    } else {
      SplitFirst(a[1..], rest, sep);
      assert s[1..] == a[1..] + [sep] + rest;
      assert [a[0]] + a[1..] == a;
    }
  }

  lemma {:induction false} SplitWhole(a: string, sep: char)
    requires sep !in a
    ensures Split(a, sep) == [a]
  {
    if a != "" {
      SplitWhole(a[1..], sep);
      assert [a[0]] + a[1..] == a;
    }
  }

  lemma {:induction false} SplitJoin(parts: seq<string>, sep: char)
    requires |parts| >= 1 && forall i :: 0 <= i < |parts| ==> sep !in parts[i]
    ensures Split(Join(parts, sep), sep) == parts
  {
    if |parts| == 1 {
      SplitWhole(parts[0], sep);
    } else {
      SplitJoin(parts[1..], sep);
      SplitFirst(parts[0], Join(parts[1..], sep), sep);
    }
  }

  lemma {:induction false} PiecesLackSeparator(s: string, sep: char)
    ensures forall i :: 0 <= i < |Split(s, sep)| ==> sep !in Split(s, sep)[i]
    ensures forall i, c :: 0 <= i < |Split(s, sep)| && c in Split(s, sep)[i] ==> c in s
  {
    if s != "" {
      PiecesLackSeparator(s[1..], sep);
      var rest := Split(s[1..], sep);
      forall i, c | 0 <= i < |Split(s, sep)| && c in Split(s, sep)[i] ensures c in s {
        if s[0] == sep {
          assert i > 0 && c in rest[i - 1];
        } else if i == 0 {
          assert c == s[0] || c in rest[0];
        } else {
          assert c in rest[i];
        }
        assert c == s[0] || c in s[1..];
      }
    }
  }

  /** The last piece of a text does not depend on what stands before its last separator. */
  lemma {:induction false} LastPiece(front: string, rest: string, sep: char)
    ensures var parts, pieces := Split(front + [sep] + rest, sep), Split(rest, sep);
            |parts| >= 2 && parts[|parts| - 1] == pieces[|pieces| - 1]
  {
    var s := front + [sep] + rest;
    if front == "" {
      assert s[1..] == rest;
    } else {
      LastPiece(front[1..], rest, sep);
      assert s[1..] == front[1..] + [sep] + rest;
    }
  }

  lemma {:induction false} SplitLast(front: string, last: string, sep: char)
    requires sep !in last
    ensures var parts := Split(front + [sep] + last, sep); |parts| >= 2 && parts[|parts| - 1] == last
  {
    var s := front + [sep] + last;
    if front == "" {
      SplitFirst("", last, sep);
      SplitWhole(last, sep);
      assert s == "" + [sep] + last;
    } else {
      SplitLast(front[1..], last, sep);
      assert s[1..] == front[1..] + [sep] + last;
    }
  }

  // ----- trimming -----

  predicate IsSpace(c: char) {
    '\t' <= c <= '\r' || c == ' ' || c == '\U{85}' || c == '\U{A0}' || c == '\U{1680}' || '\U{2000}' <= c <= '\U{200A}'
    || c == '\U{2028}' || c == '\U{2029}' || c == '\U{202F}' || c == '\U{205F}' || c == '\U{3000}'
  }

  function TrimLeft(s: string): string {
    if s != "" && IsSpace(s[0]) then TrimLeft(s[1..]) else s
  }

  function TrimRight(s: string): string {
    if s != "" && IsSpace(s[|s| - 1]) then TrimRight(s[..|s| - 1]) else s
  }

  function TrimSpace(s: string): string { TrimRight(TrimLeft(s)) }

  predicate Trimmed(s: string) {
    s == "" || (!IsSpace(s[0]) && !IsSpace(s[|s| - 1]))
  }

  lemma {:induction false} TrimLeftShape(s: string)
    ensures var t := TrimLeft(s); (t != "" ==> !IsSpace(t[0])) && |t| <= |s| && t == s[|s| - |t|..]
  {
    if s != "" && IsSpace(s[0]) { TrimLeftShape(s[1..]); }
  }

  lemma {:induction false} TrimRightShape(s: string)
    ensures var t := TrimRight(s); (t != "" ==> !IsSpace(t[|t| - 1])) && |t| <= |s| && t == s[..|t|]
  {
    if s != "" && IsSpace(s[|s| - 1]) { TrimRightShape(s[..|s| - 1]); }
  }

  lemma TrimGivesTrimmed(s: string)
    ensures Trimmed(TrimSpace(s)) && forall c :: c in TrimSpace(s) ==> c in s
  {
    TrimLeftShape(s);
    TrimRightShape(TrimLeft(s));
  }

  lemma {:induction false} TrimRightConcat(a: string, b: string)
    requires TrimRight(a) == a
    ensures TrimRight(a + b) == a + TrimRight(b)
  {
    if b == "" {
      assert a + b == a;
    } else if IsSpace(b[|b| - 1]) {
      TrimRightConcat(a, b[..|b| - 1]);
      assert (a + b)[..|a + b| - 1] == a + b[..|b| - 1];
    }
  }

  // ----- decimal numbers -----

  function Digit(d: nat): char
    requires d < 10
  { '0' + d as char }

  function Decimal(n: nat): string {
    if n < 10 then [Digit(n)] else Decimal(n / 10) + [Digit(n % 10)]
  }

  predicate Numeral(s: string) { s != "" && forall i :: 0 <= i < |s| ==> '0' <= s[i] <= '9' }

  function Value(s: string): nat
    requires s == "" || Numeral(s)
  {
    if s == "" then 0 else 10 * Value(s[..|s| - 1]) + (s[|s| - 1] - '0') as nat
  }

  /** ParseUint in base 10 with 64 bits, its error ignored: 0 for what is no numeral, the largest value when too
      large. */
  function ParseUint(s: string): nat {
    if !Numeral(s) then 0 else if Value(s) < UINT64 then Value(s) else UINT64 - 1
  }

  lemma {:induction false} DecimalRoundTrip(n: nat)
    ensures Numeral(Decimal(n)) && Value(Decimal(n)) == n
  {
    if n >= 10 {
      DecimalRoundTrip(n / 10);
      assert Decimal(n)[..|Decimal(n)| - 1] == Decimal(n / 10);
    }
  }

  lemma NumeralIsPlain(s: string)
    requires Numeral(s)
    ensures Trimmed(s) && forall c :: c in s ==> !IsSpace(c) && c != ',' && c != ':' && c != '_'
  {}

  // ----- scanning lines -----

  const MAX_LINE := 65536

  function DropCR(s: string): string {
    if s != "" && s[|s| - 1] == '\r' then s[..|s| - 1] else s
  }

  /** The lines bufio.Scanner yields: an unterminated last line counts, and an empty rest does not. */
  function Lines(text: string): seq<string>
    decreases |text|
  {
    if text == "" then []
    else
      var parts := Split(text, '\n');
      if |parts| == 1 then [DropCR(text)]
      else
        HeadShorter(text, '\n');
        [DropCR(parts[0])] + Lines(text[|parts[0]| + 1..])
  }

  lemma {:induction false} HeadShorter(s: string, sep: char)
    requires |Split(s, sep)| > 1
    ensures |Split(s, sep)[0]| < |s| && s == Split(s, sep)[0] + [sep] + s[|Split(s, sep)[0]| + 1..]
  {
    if s[0] != sep { HeadShorter(s[1..], sep); }
  }

  /** A line that does not fit the scanner's buffer ends the scan with an error. */
  predicate Scannable(text: string) {
    forall i :: 0 <= i < |Split(text, '\n')| ==> |Split(text, '\n')[i]| < MAX_LINE
  }

  lemma OnePiece(body: string)
    requires '\n' !in body
    ensures Split(body + "\n", '\n') == [body, ""]
  {
    SplitFirst(body, "", '\n');
    assert body + "\n" == body + ['\n'] + "";
  }

  lemma OneLine(body: string)
    requires '\n' !in body
    ensures Lines(body + "\n") == [DropCR(body)]
    ensures Scannable(body + "\n") <==> |body| < MAX_LINE
  {
    OnePiece(body);
    assert (body + "\n")[|body| + 1..] == "";
  }

  lemma OneLineOnly(body: string)
    requires |Lines(body + "\n")| == 1
    ensures '\n' !in body
  {
    var text := body + "\n";
    var parts := Split(text, '\n');
    assert text[|body|] == '\n';
    if |parts| == 1 {
      Unsplit(text, '\n');
    } else {
      HeadShorter(text, '\n');
      PiecesLackSeparator(text, '\n');
      var rest := text[|parts[0]| + 1..];
      assert Lines(rest) == [];
      assert rest == "";
      assert text == parts[0] + ['\n'] + rest;
      assert |text| == |parts[0]| + 1;
      assert text[..|body|] == body && text[..|body|] == parts[0];
    }
  }

  lemma {:induction false} Unsplit(s: string, sep: char)
    requires |Split(s, sep)| == 1
    ensures sep !in s
  {
    if s != "" { Unsplit(s[1..], sep); }
  }
}
