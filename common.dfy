/** Small building blocks shared by the model: an optional value, the decimal
    text of an integer, the HTML escaping done by a double-brace template
    expression, and a few facts about line sequences. */
module Common {

  datatype Option<+T> = None | Some(value: T)

  /** A field value of a structured response, as a language-model engine may
      send it. */
  datatype Json = JNull | JBool(b: bool) | JNumber(n: int) | JString(s: string)

  /** Why a schema rejects a field. */
  datatype IssueKind = Required | InvalidEnumValue | TooSmall | TooBig

  /** A field a schema rejects, named by its path in the record. */
  datatype Issue = Issue(path: seq<string>, kind: IssueKind)

  /** Text of an optional string in a `{{x}}` expression: absent renders empty. */
  function OrEmpty(v: Option<string>): string {
    match v
    case None => ""
    case Some(s) => s
  }

  // ---------------------------------------------------------------------------
  // Decimal text of an integer (what a template prints for an integral number)
  // ---------------------------------------------------------------------------

  predicate IsDigit(c: char) {
    '0' <= c <= '9'
  }

  function DigitChar(d: int): (c: char)
    requires 0 <= d < 10
    ensures IsDigit(c) && c as int - '0' as int == d
  {
    (d + '0' as int) as char
  }

  /** Decimal digits of a natural number, most significant first, no leading zero. */
  function NatText(n: nat): (r: string)
    decreases n
  {
    if n < 10 then [DigitChar(n)] else NatText(n / 10) + [DigitChar(n % 10)]
  }

  /** Decimal text of an integer, with a leading '-' when negative. */
  function NumText(n: int): string {
    if n < 0 then "-" + NatText(-n) else NatText(n)
  }

  /** Text of an optional number in a `{{x}}` expression: absent renders empty. */
  function OptNumText(v: Option<int>): string {
    match v
    case None => ""
    case Some(n) => NumText(n)
  }

  predicate AllDigits(s: string) {
    forall k :: 0 <= k < |s| ==> IsDigit(s[k])
  }

  /** Value of a run of decimal digits, read most significant first. */
  function DigitsValue(s: string): nat
    requires AllDigits(s)
    decreases |s|
  {
    if s == [] then 0 else DigitsValue(s[..|s| - 1]) * 10 + (s[|s| - 1] as int - '0' as int)
  }

  /** The text is non-empty, made of digits, and has no leading zero unless it is "0". */
  lemma {:induction false} NatTextShape(n: nat)
    ensures |NatText(n)| >= 1 && AllDigits(NatText(n))
    ensures NatText(n)[0] != '0' || NatText(n) == "0"
    ensures n >= 10 ==> |NatText(n)| >= 2
    decreases n
  {
    if n >= 10 {
      NatTextShape(n / 10);
      var r := NatText(n);
      assert r == NatText(n / 10) + [DigitChar(n % 10)];
      assert r[0] == NatText(n / 10)[0];
    }
  }

  /** Reading the decimal text back gives the number. */
  lemma {:induction false} NatTextValue(n: nat)
    ensures AllDigits(NatText(n)) && DigitsValue(NatText(n)) == n
    decreases n
  {
    NatTextShape(n);
    if n >= 10 {
      NatTextValue(n / 10);
      var r := NatText(n);
      assert r[..|r| - 1] == NatText(n / 10);
    }
  }

  lemma NatTextInjective(a: nat, b: nat)
    requires NatText(a) == NatText(b)
    ensures a == b
  {
    NatTextValue(a);
    NatTextValue(b);
  }

  /** Distinct integers have distinct decimal texts. */
  lemma NumTextInjective(a: int, b: int)
    requires NumText(a) == NumText(b)
    ensures a == b
  {
    NatTextShape(if a < 0 then -a else a);
    NatTextShape(if b < 0 then -b else b);
    if a < 0 && b < 0 {
      assert NatText(-a) == NumText(a)[1..];
      NatTextInjective(-a, -b);
    } else if a >= 0 && b >= 0 {
      NatTextInjective(a, b);
    }
  }

  /** An absent number prints nothing, a present one prints its digits, so the
      printed text of an optional number determines it. */
  lemma OptNumTextInjective(a: Option<int>, b: Option<int>)
    requires OptNumText(a) == OptNumText(b)
    ensures a == b
  {
    if a.Some? { NumTextChars(a.value); }
    if b.Some? { NumTextChars(b.value); }
    if a.Some? && b.Some? { NumTextInjective(a.value, b.value); }
  }

  /** Decimal text never holds anything but digits and a leading minus sign. */
  lemma NumTextChars(n: int)
    ensures |NumText(n)| >= 1
    ensures forall k :: 0 <= k < |NumText(n)| ==> IsDigit(NumText(n)[k]) || (k == 0 && NumText(n)[k] == '-')
  {
    NatTextShape(if n < 0 then -n else n);
  }

  // ---------------------------------------------------------------------------
  // HTML escaping of a double-brace template expression
  // ---------------------------------------------------------------------------

  predicate IsHtmlSpecial(c: char) {
    c == '&' || c == '<' || c == '>' || c == '"' || c == '\'' || c == '`' || c == '='
  }

  function EscapeChar(c: char): string {
    match c
    case '&' => "&amp;"
    case '<' => "&lt;"
    case '>' => "&gt;"
    case '"' => "&quot;"
    case '\'' => "&#x27;"
    case '`' => "&#x60;"
    case '=' => "&#x3D;"
    case _ => [c]
  }

  /** Escaping of `{{x}}`: every special character becomes its entity. */
  function HtmlEscape(s: string): (r: string)
    decreases |s|
  {
    if s == [] then [] else EscapeChar(s[0]) + HtmlEscape(s[1..])
  }

  /** Text without special characters is printed verbatim. */
  lemma {:induction false} HtmlEscapePlain(s: string)
    requires forall k :: 0 <= k < |s| ==> !IsHtmlSpecial(s[k])
    ensures HtmlEscape(s) == s
    decreases |s|
  {
    if s != [] {
      HtmlEscapePlain(s[1..]);
    }
  }

  /** Escaped text never holds a raw '<' or '>'. */
  lemma {:induction false} HtmlEscapeNoAngles(s: string)
    ensures forall k :: 0 <= k < |HtmlEscape(s)| ==> HtmlEscape(s)[k] != '<' && HtmlEscape(s)[k] != '>'
    decreases |s|
  {
    if s != [] {
      HtmlEscapeNoAngles(s[1..]);
      var head := EscapeChar(s[0]);
      assert forall k :: 0 <= k < |head| ==> head[k] != '<' && head[k] != '>';
    }
  }

  // ---------------------------------------------------------------------------
  // Lines of a rendered document
  // ---------------------------------------------------------------------------

  /** Index of the first line equal to x, or |lines| when there is none. */
  function IndexOf(lines: seq<string>, x: string): (k: nat)
    ensures k <= |lines|
    ensures k < |lines| ==> lines[k] == x
    ensures forall j :: 0 <= j < k ==> lines[j] != x
    decreases |lines|
  {
    if lines == [] then 0 else if lines[0] == x then 0 else 1 + IndexOf(lines[1..], x)
  }

  /** A line that does not occur in a prefix is found after it. */
  lemma IndexOfAfter(a: seq<string>, b: seq<string>, x: string)
    requires x !in a
    ensures IndexOf(a + b, x) == |a| + IndexOf(b, x)
  {
    var k := IndexOf(a + b, x);
    var m := IndexOf(b, x);
    if m < |b| {
      assert (a + b)[|a| + m] == x;
    }
    assert forall j :: 0 <= j < |a| + m ==> (a + b)[j] != x by {
      forall j | 0 <= j < |a| + m ensures (a + b)[j] != x {
        if j < |a| { assert (a + b)[j] == a[j]; } else { assert (a + b)[j] == b[j - |a|]; }
      }
    }
    if m == |b| {
      assert forall j :: 0 <= j < |a + b| ==> (a + b)[j] != x;
    }
  }

  /** A line is indented when it starts with two spaces. */
  predicate Indented(l: string) {
    |l| >= 2 && l[0] == ' ' && l[1] == ' '
  }

  predicate AllIndented(lines: seq<string>) {
    forall k :: 0 <= k < |lines| ==> Indented(lines[k])
  }

  /** The line `s` indented by n spaces. */
  function Pad(n: nat, s: string): string {
    seq(n, _ => ' ') + s
  }

  lemma PadIndented(n: nat, s: string, t: string)
    requires n >= 2
    ensures Indented(Pad(n, s) + t) && Indented(Pad(n, s))
  {
  }

  lemma AllIndentedAppend(a: seq<string>, b: seq<string>)
    requires AllIndented(a) && AllIndented(b)
    ensures AllIndented(a + b)
  {
    assert forall k :: |a| <= k < |a + b| ==> (a + b)[k] == b[k - |a|];
  }

  /** Equal texts with the same fixed start and end have the same middle. */
  lemma CancelAffixes(prefix: string, x: string, y: string, suffix: string)
    requires prefix + x + suffix == prefix + y + suffix
    ensures x == y
  {
    var t := prefix + x + suffix;
    assert x == t[|prefix|..|prefix| + |x|];
    assert y == (prefix + y + suffix)[|prefix|..|prefix| + |y|];
  }

  /** Equal texts with the same start have the same rest. */
  lemma CancelPrefix(prefix: string, x: string, y: string)
    requires prefix + x == prefix + y
    ensures x == y
  {
    assert x == (prefix + x)[|prefix|..];
    assert y == (prefix + y)[|prefix|..];
  }

  /** Equal concatenations whose first parts have the same length agree part by part. */
  lemma ConcatCancel<T>(a: seq<T>, b: seq<T>, c: seq<T>, d: seq<T>)
    requires |a| == |c| && a + b == c + d
    ensures a == c && b == d
  {
    assert a == (a + b)[..|a|];
    assert c == (c + d)[..|c|];
    assert b == (a + b)[|a|..];
    assert d == (c + d)[|c|..];
  }
}
