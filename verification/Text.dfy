/** Strings as the daemon and the plugin use them: prefixes, first occurrences,
    trimming and decimal numbers. */
module Text {
  datatype Option<+T> = None | Some(value: T)

  /** `s.strip_prefix(p)`. */
  function StripPrefix(s: string, p: string): (r: Option<string>)
    ensures r.Some? <==> p <= s
    ensures r.Some? ==> s == p + r.value
  {
    if p <= s then Some(s[|p|..]) else None
  }

  lemma Assoc(a: string, b: string, c: string)
    ensures a + b + c == a + (b + c)
  {
  }

  lemma DropConcat(a: string, b: string, n: nat)
    requires n <= |a|
    ensures (a + b)[n..] == a[n..] + b
    ensures (a + b)[..n] == a[..n]
  {
  }

  predicate OccursAt(s: string, p: string, i: nat) {
    i + |p| <= |s| && s[i..i + |p|] == p
  }

  ghost predicate Contains(s: string, p: string) {
    exists i: nat :: OccursAt(s, p, i)
  }

  /** `s.find(p)`: the first occurrence. */
  function Find(s: string, p: string): (r: Option<nat>)
    ensures r.Some? ==> OccursAt(s, p, r.value) && forall j: nat :: j < r.value ==> !OccursAt(s, p, j)
    ensures r.None? ==> forall j: nat :: !OccursAt(s, p, j)
  {
    FindFrom(s, p, 0)
  }

  function FindFrom(s: string, p: string, i: nat): (r: Option<nat>)
    requires forall j: nat :: j < i ==> !OccursAt(s, p, j)
    ensures r.Some? ==> OccursAt(s, p, r.value) && forall j: nat :: j < r.value ==> !OccursAt(s, p, j)
    ensures r.None? ==> forall j: nat :: !OccursAt(s, p, j)
    decreases |s| - i
  {
    if i + |p| > |s| then None
    else if OccursAt(s, p, i) then Some(i)
    else FindFrom(s, p, i + 1)
  }

  /** An occurrence with none before it is what `Find` returns. */
  lemma FindIs(s: string, p: string, i: nat)
    requires OccursAt(s, p, i)
    requires forall j: nat :: j < i ==> !OccursAt(s, p, j)
    ensures Find(s, p) == Some(i)
  {
    assert Find(s, p).Some?;
  }

  /** Text appended at the end never moves a first occurrence. */
  lemma FindExtends(s: string, t: string, p: string)
    requires Find(s, p).Some?
    ensures Find(s + t, p) == Find(s, p)
  {
    var i := Find(s, p).value;
    assert (s + t)[i..i + |p|] == s[i..i + |p|];
    forall j: nat | j < i ensures !OccursAt(s + t, p, j) {
      assert !OccursAt(s, p, j);
      assert (s + t)[j..j + |p|] == s[j..j + |p|];
    }
    FindIs(s + t, p, i);
  }

  lemma NoMatchAcrossLines(x: string, y: string, p: string, j: nat)
    requires x == "" || x[|x| - 1] == '\n'
    requires '\n' !in p
    requires j < |x| && !OccursAt(x, p, j)
    ensures !OccursAt(x + y, p, j)
  {
    var s := x + y;
    if j + |p| <= |x| {
      assert s[j..j + |p|] == x[j..j + |p|];
    } else if j + |p| <= |s| {
      assert s[j..j + |p|][|x| - 1 - j] == '\n';
    }
  }

  lemma MatchAfter(x: string, y: string, p: string, j: nat)
    requires j >= |x|
    ensures OccursAt(x + y, p, j) == OccursAt(y, p, j - |x|)
  {
    if j + |p| <= |x + y| {
      assert (x + y)[j..j + |p|] == y[j - |x|..j - |x| + |p|];
    }
  }

  /** A pattern without a newline is never found across the end of a line. */
  lemma FindSkipsLines(x: string, y: string, p: string)
    requires x == "" || x[|x| - 1] == '\n'
    requires '\n' !in p
    requires Find(x, p).None?
    ensures Find(y, p).Some? ==> Find(x + y, p) == Some(|x| + Find(y, p).value)
    ensures Find(y, p).None? ==> Find(x + y, p).None?
  {
    forall j: nat | j < |x| ensures !OccursAt(x + y, p, j) { NoMatchAcrossLines(x, y, p, j); }
    forall j: nat | j >= |x| ensures OccursAt(x + y, p, j) == OccursAt(y, p, j - |x|) { MatchAfter(x, y, p, j); }
    if Find(y, p).Some? {
      FindIs(x + y, p, |x| + Find(y, p).value);
    }
  }

  /** A one-line pattern after lines that do not hold it is found right there. */
  lemma FindAfterLines(x: string, p: string, t: string)
    requires x == "" || x[|x| - 1] == '\n'
    requires '\n' !in p && Find(x, p).None?
    ensures Find(x + (p + t), p) == Some(|x|)
    ensures (x + (p + t))[..|x|] == x && (x + (p + t))[|x| + |p|..] == t
  {
    FindIs(p + t, p, 0);
    FindSkipsLines(x, p + t, p);
  }

  // ---------------------------------------------------------------- trimming

  /** Rust's `char::is_whitespace`: the characters with the Unicode property White_Space. */
  predicate IsSpace(c: char) {
    var n := c as int;
    || 9 <= n <= 13
    || n == 0x20
    || n == 0x85
    || n == 0xA0
    || n == 0x1680
    || 0x2000 <= n <= 0x200A
    || n == 0x2028
    || n == 0x2029
    || n == 0x202F
    || n == 0x205F
    || n == 0x3000
  }

  function TrimStart(s: string): string {
    if s != "" && IsSpace(s[0]) then TrimStart(s[1..]) else s
  }

  function TrimEnd(s: string): string {
    if s != "" && IsSpace(s[|s| - 1]) then TrimEnd(s[..|s| - 1]) else s
  }

  /** `s.trim()`. */
  function Trim(s: string): string {
    TrimEnd(TrimStart(s))
  }

  /** Neither end is blank, so `trim` keeps the string. */
  predicate Tight(s: string) {
    s == "" || (!IsSpace(s[0]) && !IsSpace(s[|s| - 1]))
  }

  predicate Blank(s: string) {
    forall i :: 0 <= i < |s| ==> IsSpace(s[i])
  }

  lemma {:induction false} TrimStartDrops(l: string, s: string)
    requires Blank(l)
    requires s == "" || !IsSpace(s[0])
    ensures TrimStart(l + s) == s
  {
    if l == "" {
      assert l + s == s;
    } else {
      assert (l + s)[1..] == l[1..] + s;
      TrimStartDrops(l[1..], s);
    }
  }

  lemma {:induction false} TrimEndDrops(s: string, r: string)
    requires Blank(r)
    requires s == "" || !IsSpace(s[|s| - 1])
    ensures TrimEnd(s + r) == s
  {
    if r == "" {
      assert s + r == s;
    } else {
      assert (s + r)[..|s + r| - 1] == s + r[..|r| - 1];
      TrimEndDrops(s, r[..|r| - 1]);
    }
  }

  /** Padding is exactly what `trim` removes. */
  lemma TrimPadded(l: string, s: string, r: string)
    requires Blank(l) && Blank(r) && Tight(s)
    ensures Trim(l + s + r) == s
  {
    if s == "" {
      assert Blank(l + s + r) && l + s + r == l + s + r + "";
      TrimStartDrops(l + s + r, "");
    } else {
      assert l + s + r == l + (s + r);
      TrimStartDrops(l, s + r);
      TrimEndDrops(s, r);
    }
  }

  lemma TrimTight(s: string)
    requires Tight(s)
    ensures Trim(s) == s
  {
    assert "" + s + "" == s;
    TrimPadded("", s, "");
  }

  lemma {:induction false} TrimStartIsSuffix(s: string)
    ensures TrimStart(s) == "" || !IsSpace(TrimStart(s)[0])
    ensures |TrimStart(s)| <= |s| && TrimStart(s) == s[|s| - |TrimStart(s)|..]
  {
    if s != "" && IsSpace(s[0]) { TrimStartIsSuffix(s[1..]); }
  }

  lemma {:induction false} TrimEndIsPrefix(s: string)
    ensures TrimEnd(s) == "" || !IsSpace(TrimEnd(s)[|TrimEnd(s)| - 1])
    ensures |TrimEnd(s)| <= |s| && TrimEnd(s) == s[..|TrimEnd(s)|]
  {
    if s != "" && IsSpace(s[|s| - 1]) { TrimEndIsPrefix(s[..|s| - 1]); }
  }

  lemma TrimIsTight(s: string)
    ensures Tight(Trim(s))
  {
    TrimStartIsSuffix(s);
    TrimEndIsPrefix(TrimStart(s));
  }

  // ---------------------------------------------------------------- words and replacement

  /** `s.split_whitespace().next()` of a trimmed, non-empty string. */
  function FirstWord(s: string): string {
    if s == "" || IsSpace(s[0]) then "" else [s[0]] + FirstWord(s[1..])
  }

  /** `s.rsplit('/').next()`. */
  function AfterLastSlash(s: string): string {
    if s == "" || s[|s| - 1] == '/' then "" else AfterLastSlash(s[..|s| - 1]) + [s[|s| - 1]]
  }

  function LowerChar(c: char): char {
    if 'A' <= c <= 'Z' then (c as int + 32) as char else c
  }

  /** `s.to_ascii_lowercase()`. */
  function Lower(s: string): string {
    if s == "" then "" else [LowerChar(s[0])] + Lower(s[1..])
  }

  /** `s.replace(from, to)`. */
  function Replace(s: string, from: string, to: string): string
    requires from != ""
    decreases |s|
  {
    if s == "" then ""
    else if from <= s then to + Replace(s[|from|..], from, to)
    else [s[0]] + Replace(s[1..], from, to)
  }

  // ---------------------------------------------------------------- numbers

  predicate IsDigit(c: char) { '0' <= c <= '9' }

  predicate AllDigits(s: string) {
    forall i :: 0 <= i < |s| ==> IsDigit(s[i])
  }

  function Digit(d: nat): char
    requires d < 10
  {
    ('0' as int + d) as char
  }

  /** `format!("{n}")`. */
  function Decimal(n: nat): (s: string)
    ensures s != "" && AllDigits(s)
  {
    if n < 10 then [Digit(n)] else Decimal(n / 10) + [Digit(n % 10)]
  }

  function Value(s: string): nat
    requires AllDigits(s)
  {
    if s == "" then 0 else 10 * Value(s[..|s| - 1]) + (s[|s| - 1] as int - '0' as int)
  }

  lemma {:induction false} ValueOfDecimal(n: nat)
    ensures Value(Decimal(n)) == n
  {
    if n >= 10 {
      ValueOfDecimal(n / 10);
      var s := Decimal(n);
      assert s[..|s| - 1] == Decimal(n / 10);
    }
  }

  /** `s.parse::<uN>()`: an optional plus sign, at least one digit, and a value below the bound. */
  function ParseUnsigned(s: string, bound: nat): Option<nat> {
    var digits := if s != "" && s[0] == '+' then s[1..] else s;
    if digits == "" || !AllDigits(digits) || Value(digits) >= bound then None else Some(Value(digits))
  }

  lemma ParseOfDecimal(n: nat, bound: nat)
    ensures ParseUnsigned(Decimal(n), bound) == if n < bound then Some(n) else None
  {
    ValueOfDecimal(n);
    assert IsDigit(Decimal(n)[0]);
  }

  /** `format!("{n}")` for a signed number. */
  function SignedDecimal(n: int): string {
    if n < 0 then "-" + Decimal(-n) else Decimal(n)
  }

  /** `s.parse::<i32>()`. */
  function ParseI32(s: string): Option<int> {
    if s != "" && s[0] == '-' then
      match ParseUnsigned(s[1..], 0x8000_0001)
      case Some(n) => if s[1] == '+' then None else Some(-(n as int))
      case None => None
    else
      ParseUnsigned(s, 0x8000_0000)
  }

  lemma ParseOfSignedDecimal(n: int)
    requires -0x8000_0000 <= n < 0x8000_0000
    ensures ParseI32(SignedDecimal(n)) == Some(n)
  {
    var d := Decimal(if n < 0 then -n else n);
    ParseOfDecimal(if n < 0 then -n else n, if n < 0 then 0x8000_0001 else 0x8000_0000);
    assert IsDigit(d[0]);
    if n < 0 {
      var s := SignedDecimal(n);
      assert s[1..] == d && s[1] == d[0];
    }
  }
}
