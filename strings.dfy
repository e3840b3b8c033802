/** The few JavaScript string operations the server relies on, written over
    `seq<char>`: `includes`, `indexOf`, `replace` with a string pattern,
    `split` on one character, `toLowerCase` (ASCII letters only), the
    relational operators on strings, `parseInt` and number formatting. */
module Strings {
  import opened Wrappers
  import opened Seqs

  /** `pat` occurs in `s` starting at index `i`. */
  predicate OccursAt(s: string, pat: string, i: nat) {
    i + |pat| <= |s| && s[i..i + |pat|] == pat
  }

  /** `s.indexOf(pat, from)`: the first occurrence at or after `from`. */
  function IndexOfFrom(s: string, pat: string, from: nat): (r: Option<nat>)
    ensures r.Some? ==> from <= r.value && OccursAt(s, pat, r.value)
    ensures r.Some? ==> forall j :: from <= j < r.value ==> !OccursAt(s, pat, j)
    ensures r.None? ==> forall j :: from <= j ==> !OccursAt(s, pat, j)
    decreases |s| - from
  {
    if from + |pat| > |s| then None
    else if s[from..from + |pat|] == pat then Some(from)
    else IndexOfFrom(s, pat, from + 1)
  }

  function IndexOf(s: string, pat: string): Option<nat> {
    IndexOfFrom(s, pat, 0)
  }

  /** `s.includes(pat)`. */
  predicate Contains(s: string, pat: string) {
    IndexOf(s, pat).Some?
  }

  lemma ContainsIff(s: string, pat: string)
    ensures Contains(s, pat) <==> exists i :: OccursAt(s, pat, i)
  {
    if Contains(s, pat) {
      assert OccursAt(s, pat, IndexOf(s, pat).value);
    }
  }

  /** An occurrence found anywhere makes `includes` true. */
  lemma ContainsAt(s: string, pat: string, i: nat)
    requires OccursAt(s, pat, i)
    ensures Contains(s, pat)
  {
  }

  /** A string that is a prefix of another, or a suffix of it, is contained in it. */
  lemma ContainsPrefix(a: string, b: string)
    ensures Contains(a + b, a)
  {
    assert (a + b)[0..|a|] == a;
    ContainsAt(a + b, a, 0);
  }

  lemma ContainsSuffix(a: string, b: string)
    ensures Contains(a + b, b)
  {
    assert (a + b)[|a|..|a| + |b|] == b;
    ContainsAt(a + b, b, |a|);
  }

  lemma ContainsMiddle(a: string, b: string, c: string)
    ensures Contains(a + b + c, b)
  {
    assert (a + b + c)[|a|..|a| + |b|] == b;
    ContainsAt(a + b + c, b, |a|);
  }

  /** One of `pats` is included in `s` (a chain of `||`-ed `includes`). */
  predicate ContainsAny(s: string, pats: seq<string>) {
    exists i :: 0 <= i < |pats| && Contains(s, pats[i])
  }

  /** `s.replace(pat, rep)` for a string pattern: only the first occurrence
      is replaced. */
  function ReplaceFirst(s: string, pat: string, rep: string): string {
    match IndexOf(s, pat)
    case None => s
    case Some(i) => s[..i] + rep + s[i + |pat|..]
  }

  lemma ReplaceFirstAbsent(s: string, pat: string, rep: string)
    requires !Contains(s, pat)
    ensures ReplaceFirst(s, pat, rep) == s
  {
  }

  /** The first occurrence of a one-character pattern that `x` lacks, in
      `x + pat + y`, is right after `x`. */
  lemma IndexOfAfterFree(x: string, c: char, y: string)
    requires c !in x
    ensures IndexOf(x + [c] + y, [c]) == Some(|x|)
  {
    var s := x + [c] + y;
    forall j | 0 <= j < |x|
      ensures !OccursAt(s, [c], j)
    {
      assert s[j] == x[j];
      assert s[j..j + 1] == [s[j]];
    }
    assert s[|x|..|x| + 1] == [c];
    assert OccursAt(s, [c], |x|);
    var r := IndexOf(s, [c]);
    assert r.Some?;
  }

  /** A pattern whose first character `x` lacks first occurs, in
      `x + pat + y`, right after `x`; and `x` alone does not contain it. */
  lemma IndexOfHeadFree(x: string, pat: string, y: string)
    requires |pat| > 0 && pat[0] !in x
    ensures IndexOf(x + pat + y, pat) == Some(|x|)
    ensures !Contains(x, pat)
  {
    var s := x + pat + y;
    forall j | 0 <= j < |x|
      ensures !OccursAt(s, pat, j) && !OccursAt(x, pat, j)
    {
      assert s[j] == x[j];
      assert j + |pat| <= |s| ==> s[j..j + |pat|][0] == s[j];
      assert j + |pat| <= |x| ==> x[j..j + |pat|][0] == x[j];
    }
    assert s[|x|..|x| + |pat|] == pat;
    assert OccursAt(s, pat, |x|);
    var r := IndexOf(s, pat);
    assert r.Some?;
    assert forall j :: !OccursAt(x, pat, j);
  }

  lemma ReplaceFirstChar(x: string, c: char, d: char, y: string)
    requires c !in x
    ensures ReplaceFirst(x + [c] + y, [c], [d]) == x + [d] + y
  {
    IndexOfAfterFree(x, c, y);
    var s := x + [c] + y;
    assert s[..|x|] == x;
    assert s[|x| + 1..] == y;
  }

  predicate StartsWith(s: string, p: string) {
    |p| <= |s| && s[..|p|] == p
  }

  predicate EndsWith(s: string, p: string) {
    |p| <= |s| && s[|s| - |p|..] == p
  }

  // ---------------------------------------------------------------------
  // String order: JavaScript's `<=` on strings compares code units
  // lexicographically; a proper prefix is smaller.

  predicate LexLe(a: string, b: string)
    decreases |a|
  {
    if |a| == 0 then true
    else if |b| == 0 then false
    else if a[0] == b[0] then LexLe(a[1..], b[1..])
    else a[0] < b[0]
  }

  predicate LexLt(a: string, b: string) {
    LexLe(a, b) && a != b
  }

  lemma {:induction false} LexLeReflexive(a: string)
    ensures LexLe(a, a)
    decreases |a|
  {
    if |a| > 0 {
      LexLeReflexive(a[1..]);
    }
  }

  lemma {:induction false} LexLeTotal(a: string, b: string)
    ensures LexLe(a, b) || LexLe(b, a)
    decreases |a|
  {
    if |a| > 0 && |b| > 0 && a[0] == b[0] {
      LexLeTotal(a[1..], b[1..]);
    }
  }

  lemma {:induction false} LexLeAntisymmetric(a: string, b: string)
    requires LexLe(a, b) && LexLe(b, a)
    ensures a == b
    decreases |a|
  {
    if |a| > 0 && |b| > 0 {
      LexLeAntisymmetric(a[1..], b[1..]);
      assert a == [a[0]] + a[1..];
      assert b == [b[0]] + b[1..];
    }
  }

  lemma {:induction false} LexLeTransitive(a: string, b: string, c: string)
    requires LexLe(a, b) && LexLe(b, c)
    ensures LexLe(a, c)
    decreases |a|
  {
    if |a| > 0 && |b| > 0 && |c| > 0 && a[0] == b[0] && b[0] == c[0] {
      LexLeTransitive(a[1..], b[1..], c[1..]);
    }
  }

  /** A string is never below one of its proper extensions: `"2024-02-31" <=
      "2024-02"` is false. */
  lemma {:induction false} LexLeNotBelowPrefix(a: string, t: string)
    requires |t| > 0
    ensures !LexLe(a + t, a)
    decreases |a|
  {
    if |a| > 0 {
      assert (a + t)[0] == a[0];
      assert (a + t)[1..] == a[1..] + t;
      LexLeNotBelowPrefix(a[1..], t);
    }
  }

  /** A prefix is below every extension: `"2024-02" <= "2024-02-01"`. */
  lemma {:induction false} LexLePrefix(a: string, t: string)
    ensures LexLe(a, a + t)
    decreases |a|
  {
    if |a| > 0 {
      assert (a + t)[0] == a[0];
      assert (a + t)[1..] == a[1..] + t;
      LexLePrefix(a[1..], t);
    }
  }

  // ---------------------------------------------------------------------
  // toLowerCase, restricted to the ASCII letters.

  function LowerChar(c: char): char {
    if 'A' <= c <= 'Z' then (c as int + 32) as char else c
  }

  function AsciiLower(s: string): (r: string)
    ensures |r| == |s|
    ensures forall i :: 0 <= i < |s| ==> r[i] == LowerChar(s[i])
  {
    seq(|s|, i requires 0 <= i < |s| => LowerChar(s[i]))
  }

  /** Lowercasing twice is lowercasing once. */
  lemma AsciiLowerIdempotent(s: string)
    ensures AsciiLower(AsciiLower(s)) == AsciiLower(s)
  {
  }

  lemma AsciiLowerAppend(a: string, b: string)
    ensures AsciiLower(a + b) == AsciiLower(a) + AsciiLower(b)
  {
    assert forall i :: 0 <= i < |a + b| ==> AsciiLower(a + b)[i] == (AsciiLower(a) + AsciiLower(b))[i];
  }

  // ---------------------------------------------------------------------
  // split on one separator character: `n` separators give `n + 1` pieces,
  // empty pieces included (`"".split(" ")` is `[""]`).

  function Split(s: string, sep: char): (r: seq<string>)
    ensures |r| >= 1
    ensures forall i :: 0 <= i < |r| ==> sep !in r[i]
    decreases |s|
  {
    match IndexOf(s, [sep])
    case None =>
      assert forall j :: 0 <= j < |s| ==> !OccursAt(s, [sep], j) && s[j..j + 1] == [s[j]];
      [s]
    case Some(i) =>
      assert forall j :: 0 <= j < i ==> !OccursAt(s, [sep], j) && s[j..j + 1] == [s[j]];
      assert forall j :: 0 <= j < i ==> s[..i][j] == s[j];
      [s[..i]] + Split(s[i + 1..], sep)
  }

  lemma SplitNoSep(s: string, sep: char)
    requires sep !in s
    ensures Split(s, sep) == [s]
  {
    forall j | 0 <= j < |s|
      ensures !OccursAt(s, [sep], j)
    {
      assert s[j..j + 1] == [s[j]];
    }
    assert IndexOf(s, [sep]).None?;
  }

  lemma SplitFirst(x: string, sep: char, y: string)
    requires sep !in x
    ensures Split(x + [sep] + y, sep) == [x] + Split(y, sep)
  {
    IndexOfAfterFree(x, sep, y);
    var s := x + [sep] + y;
    assert s[..|x|] == x;
    assert s[|x| + 1..] == y;
  }

  /** Each line followed by a newline: what a loop of `result += line + '\n'`
      builds. */
  function Terminated(lines: seq<string>): string
    decreases |lines|
  {
    if |lines| == 0 then "" else lines[0] + "\n" + Terminated(lines[1..])
  }

  lemma {:induction false} TerminatedStep(lines: seq<string>, line: string)
    ensures Terminated(lines + [line]) == Terminated(lines) + line + "\n"
    decreases |lines|
  {
    if |lines| == 0 {
      assert (lines + [line])[1..] == [];
    } else {
      assert (lines + [line])[1..] == lines[1..] + [line];
      TerminatedStep(lines[1..], line);
    }
  }

  /** Splitting terminated lines on the newline gives the lines back, and
      one empty piece after the last newline. */
  lemma {:induction false} SplitTerminated(lines: seq<string>)
    requires forall i :: 0 <= i < |lines| ==> '\n' !in lines[i]
    ensures Split(Terminated(lines), '\n') == lines + [""]
    decreases |lines|
  {
    if |lines| == 0 {
      SplitNoSep("", '\n');
    } else {
      SplitTerminated(lines[1..]);
      SplitFirst(lines[0], '\n', Terminated(lines[1..]));
      HeadTail(lines);
      AppendAssoc([lines[0]], lines[1..], [""]);
    }
  }

  /** `pieces.join(sep)`. */
  function Join(pieces: seq<string>, sep: string): string
    decreases |pieces|
  {
    if |pieces| == 0 then ""
    else if |pieces| == 1 then pieces[0]
    else pieces[0] + sep + Join(pieces[1..], sep)
  }

  // ---------------------------------------------------------------------
  // Digits and numbers. JavaScript's `\d` matches the ASCII digits only.

  predicate IsDigit(c: char) {
    '0' <= c <= '9'
  }

  function DigitValue(c: char): nat
    requires IsDigit(c)
  {
    c as int - '0' as int
  }

  predicate AllDigits(s: string) {
    forall i :: 0 <= i < |s| ==> IsDigit(s[i])
  }

  /** The decimal value of a run of digits. */
  function DigitsValue(s: string): nat
    requires AllDigits(s)
    decreases |s|
  {
    if |s| == 0 then 0 else DigitsValue(s[..|s| - 1]) * 10 + DigitValue(s[|s| - 1])
  }

  /** Decimal digits of `n`, most significant first. */
  function NatToString(n: nat): (r: string)
    ensures |r| > 0 && AllDigits(r)
    decreases n
  {
    var d := ['0' + (n % 10) as char];
    if n < 10 then d else NatToString(n / 10) + d
  }

  lemma {:induction false} NatToStringValue(n: nat)
    ensures DigitsValue(NatToString(n)) == n
    decreases n
  {
    var r := NatToString(n);
    assert r[..|r| - 1] == if n < 10 then "" else NatToString(n / 10);
    if n >= 10 {
      NatToStringValue(n / 10);
    }
  }

  /** The text of an integer. The server writes numbers with the host's
      `toLocaleString`; the model uses plain decimal digits for it. */
  function IntToString(n: int): string {
    if n < 0 then "-" + NatToString(-n) else NatToString(n)
  }

  /** The longest run of digits at the start of `s`. */
  function LeadingDigits(s: string): (r: string)
    ensures AllDigits(r) && |r| <= |s| && r == s[..|r|]
    ensures |r| < |s| ==> !IsDigit(s[|r|])
    decreases |s|
  {
    if |s| > 0 && IsDigit(s[0]) then [s[0]] + LeadingDigits(s[1..]) else ""
  }

  /** ECMAScript's StrWhiteSpaceChar: the white space characters (tab,
      vertical tab, form feed, the byte order mark and every Zs space) and
      the line terminators. */
  predicate IsSpace(c: char) {
    || c == '\t' || c == '\n' || c == '\U{B}' || c == '\U{C}' || c == '\r'
    || c == ' ' || c == '\U{A0}' || c == '\U{1680}' || '\U{2000}' <= c <= '\U{200A}'
    || c == '\U{2028}' || c == '\U{2029}' || c == '\U{202F}' || c == '\U{205F}'
    || c == '\U{3000}' || c == '\U{FEFF}'
  }

  /** The text after its leading white space. */
  function TrimStart(s: string): (r: string)
    ensures |r| <= |s|
    decreases |s|
  {
    if |s| > 0 && IsSpace(s[0]) then TrimStart(s[1..]) else s
  }

  predicate IsHexDigit(c: char) {
    IsDigit(c) || 'a' <= c <= 'f' || 'A' <= c <= 'F'
  }

  function HexDigitValue(c: char): (r: nat)
    requires IsHexDigit(c)
    ensures r < 16
  {
    if IsDigit(c) then DigitValue(c) else if 'a' <= c <= 'f' then c as int - 'a' as int + 10 else c as int - 'A' as int + 10
  }

  predicate AllHex(s: string) {
    forall i :: 0 <= i < |s| ==> IsHexDigit(s[i])
  }

  /** The base-16 value of a run of hex digits. */
  function HexValue(s: string): nat
    requires AllHex(s)
    decreases |s|
  {
    if |s| == 0 then 0 else HexValue(s[..|s| - 1]) * 16 + HexDigitValue(s[|s| - 1])
  }

  /** The longest run of hex digits at the start of `s`. */
  function LeadingHex(s: string): (r: string)
    ensures AllHex(r) && |r| <= |s| && r == s[..|r|]
    ensures |r| < |s| ==> !IsHexDigit(s[|r|])
    decreases |s|
  {
    if |s| > 0 && IsHexDigit(s[0]) then [s[0]] + LeadingHex(s[1..]) else ""
  }

  predicate HasHexPrefix(s: string) {
    |s| >= 2 && s[0] == '0' && (s[1] == 'x' || s[1] == 'X')
  }

  /** The unsigned part of `parseInt` without a radix: after `0x` or `0X`
      the longest run of hex digits, otherwise the longest run of decimal
      digits; `None` when that run is empty. */
  function Magnitude(body: string): Option<nat> {
    if HasHexPrefix(body) then
      var hs := LeadingHex(body[2..]);
      if |hs| == 0 then None else Some(HexValue(hs))
    else
      var ds := LeadingDigits(body);
      if |ds| == 0 then None else Some(DigitsValue(ds))
  }

  /** `parseInt(s)` with no radix: leading white space, an optional sign,
      then the magnitude; `None` (that is, `NaN`) when it has no digit. */
  function ParseInt(s: string): Option<int> {
    Signed(TrimStart(s))
  }

  /** The text after an optional leading sign. */
  function Unsigned(t: string): string {
    if |t| > 0 && (t[0] == '-' || t[0] == '+') then t[1..] else t
  }

  /** The magnitude after the sign, negated under `-`. */
  function Signed(t: string): Option<int> {
    match Magnitude(Unsigned(t))
    case None => None
    case Some(n) => if |t| > 0 && t[0] == '-' then Some(-(n as int)) else Some(n)
  }

  /** A plain run of digits parses to its decimal value. */
  lemma ParseIntDigits(s: string)
    requires AllDigits(s) && |s| > 0
    ensures ParseInt(s) == Some(DigitsValue(s))
  {
    assert !IsSpace(s[0]);
    assert TrimStart(s) == s;
    assert Unsigned(s) == s;
    assert !HasHexPrefix(s) by {
      if |s| >= 2 {
        assert IsDigit(s[1]);
      }
    }
    LeadingDigitsAll(s);
  }

  lemma {:induction false} LeadingDigitsAll(s: string)
    requires AllDigits(s)
    ensures LeadingDigits(s) == s
    decreases |s|
  {
    if |s| > 0 {
      assert AllDigits(s[1..]);
      LeadingDigitsAll(s[1..]);
      assert [s[0]] + s[1..] == s;
    }
  }

  lemma {:induction false} LeadingHexAll(s: string)
    requires AllHex(s)
    ensures LeadingHex(s) == s
    decreases |s|
  {
    if |s| > 0 {
      assert AllHex(s[1..]);
      LeadingHexAll(s[1..]);
      assert [s[0]] + s[1..] == s;
    }
  }

  /** `0x` or `0X` and a run of hex digits parse to the run's base-16
      value. */
  lemma ParseIntHex(x: char, h: string)
    requires x == 'x' || x == 'X'
    requires AllHex(h) && |h| > 0
    ensures ParseInt(['0', x] + h) == Some(HexValue(h))
  {
    var body := ['0', x] + h;
    HexBody(x, h);
    ParseIntPlain(body, HexValue(h));
  }

  /** A text starting with neither white space nor a sign parses to its
      magnitude. */
  lemma ParseIntPlain(t: string, n: nat)
    requires |t| > 0 && !IsSpace(t[0]) && t[0] != '-' && t[0] != '+'
    requires Magnitude(t) == Some(n)
    ensures ParseInt(t) == Some(n)
  {
    assert TrimStart(t) == t;
    assert Unsigned(t) == t;
  }

  /** A leading `+` changes nothing and a leading `-` negates, when the
      sign is followed by neither white space nor another sign. */
  lemma ParseIntSign(s: string)
    requires |s| > 0 && !IsSpace(s[0]) && s[0] != '-' && s[0] != '+'
    ensures ParseInt("+" + s) == ParseInt(s)
    ensures ParseInt("-" + s) == match ParseInt(s) case None => None case Some(n) => Some(-n)
  {
    assert TrimStart(s) == s;
    assert Unsigned(s) == s;
    SignedBody("+", s);
    SignedBody("-", s);
  }

  lemma HexBody(x: char, h: string)
    requires x == 'x' || x == 'X'
    requires AllHex(h) && |h| > 0
    ensures Magnitude(['0', x] + h) == Some(HexValue(h))
  {
    var body := ['0', x] + h;
    assert body[2..] == h;
    LeadingHexAll(h);
  }

  /** An optional sign before a body that starts with neither white space
      nor a sign: nothing is trimmed and exactly the sign is dropped. */
  lemma SignedBody(sign: string, body: string)
    requires sign == "" || sign == "+" || sign == "-"
    requires |body| > 0 && !IsSpace(body[0]) && body[0] != '-' && body[0] != '+'
    ensures TrimStart(sign + body) == sign + body
    ensures Unsigned(sign + body) == body
  {
    var s := sign + body;
    if sign == "" {
      assert s == body;
    } else {
      assert s[1..] == body;
    }
  }

  lemma {:induction false} TrimStartSkips(w: string, s: string)
    requires forall i :: 0 <= i < |w| ==> IsSpace(w[i])
    ensures TrimStart(w + s) == TrimStart(s)
    decreases |w|
  {
    if |w| > 0 {
      assert (w + s)[1..] == w[1..] + s;
      TrimStartSkips(w[1..], s);
    } else {
      assert w + s == s;
    }
  }

  /** Leading white space never changes what `parseInt` reads. */
  lemma ParseIntSkipsSpace(w: string, s: string)
    requires forall i :: 0 <= i < |w| ==> IsSpace(w[i])
    ensures ParseInt(w + s) == ParseInt(s)
  {
    TrimStartSkips(w, s);
  }

  /** `parseInt` yields `NaN` exactly when, after white space and sign, no
      digit of the chosen base follows. */
  lemma ParseIntNaN(s: string)
    ensures var body := Unsigned(TrimStart(s));
      ParseInt(s).None? <==>
        if HasHexPrefix(body) then |body| == 2 || !IsHexDigit(body[2]) else |body| == 0 || !IsDigit(body[0])
  {
  }
}
