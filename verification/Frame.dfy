/** The capture text scanners: the repaint detector, the frame normaliser and the
    ANSI stripper, each against a model of what a terminal does with the text. */
module Frame {
  import opened Text

  const ESC: char := 27 as char
  const BEL: char := 7 as char

  // ---------------------------------------------------------------- control sequences

  /** A final byte of a control sequence, section 5.4 of ECMA-48. */
  predicate IsFinal(c: char) { '@' <= c <= '~' }

  /** How many characters after `ESC [` belong to the control sequence: up to and
      including the first final byte, or all that is left. */
  function CsiLength(s: string): (n: nat)
    ensures n <= |s| && (s != "" ==> n > 0)
  {
    if s == "" then 0 else if IsFinal(s[0]) then 1 else 1 + CsiLength(s[1..])
  }

  lemma {:induction false} CsiStopsAtFirstFinal(s: string)
    ensures forall i :: 0 <= i < CsiLength(s) - 1 ==> !IsFinal(s[i])
    ensures CsiLength(s) < |s| ==> CsiClosed(s)
  {
    if s != "" && !IsFinal(s[0]) {
      CsiStopsAtFirstFinal(s[1..]);
      assert forall i :: 0 < i < |s| ==> s[i] == s[1..][i - 1];
    }
  }

  predicate CsiClosed(s: string) {
    CsiLength(s) > 0 && IsFinal(s[CsiLength(s) - 1])
  }

  /** How many characters after `ESC ]` belong to the operating system command:
      up to and including BEL or `ESC \` (section 5.6 of ECMA-48), or all that is left. */
  function OscLength(s: string): (n: nat)
    ensures n <= |s|
  {
    if s == "" then 0
    else if s[0] == BEL then 1
    else if s[0] == ESC && |s| > 1 && s[1] == '\\' then 2
    else 1 + OscLength(s[1..])
  }

  predicate OscClosed(s: string) {
    s != "" && (s[0] == BEL || (s[0] == ESC && |s| > 1 && s[1] == '\\') || OscClosed(s[1..]))
  }

  predicate IsFullFrameReset(sequence: string) {
    sequence == "H" || sequence == "2J" || sequence == "H2J" || sequence == "2JH"
  }

  // ---------------------------------------------------------------- the terminal model

  datatype Token =
    | Char(c: char)
    | Return
    | Reset
    | Control
    | LoneEscape

  predicate StartsCsi(s: string) {
    |s| > 1 && s[0] == ESC && s[1] == '['
  }

  function TokenWidth(s: string): (n: nat)
    requires s != ""
    ensures 1 <= n <= |s|
  {
    if StartsCsi(s) then 2 + CsiLength(s[2..]) else 1
  }

  function FirstToken(s: string): Token
    requires s != ""
  {
    if s[0] == '\r' then Return
    else if s[0] != ESC then Char(s[0])
    else if !StartsCsi(s) then LoneEscape
    else if IsFullFrameReset(s[2..TokenWidth(s)]) then Reset
    else Control
  }

  function Tokens(s: string): seq<Token>
    decreases |s|
  {
    if s == "" then [] else [FirstToken(s)] + Tokens(s[TokenWidth(s)..])
  }

  /** A screen: the finished lines, each ended by its newline, and the line being written. */
  datatype Screen = Screen(done: string, line: string) {
    ghost predicate Valid() {
      (done == "" || done[|done| - 1] == '\n') && '\n' !in line
    }

    function Render(): string { done + line }

    function Apply(t: Token): Screen {
      match t
      case Char(c) => if c == '\n' then Screen(done + line + "\n", "") else Screen(done, line + [c])
      case Return => Screen(done, "")
      case Reset => Screen("", "")
      case Control => this
      case LoneEscape => this
    }
  }

  function Play(screen: Screen, tokens: seq<Token>): Screen
    decreases |tokens|
  {
    if tokens == [] then screen else Play(screen.Apply(tokens[0]), tokens[1..])
  }

  /** What is on a blank terminal after the content has been written to it. */
  function Normalized(content: string): string {
    Play(Screen("", ""), Tokens(content)).Render()
  }

  /** The tokens that take text off the screen. */
  predicate Erases(t: Token) { t.Return? || t.Reset? }

  predicate HasErasure(tokens: seq<Token>) {
    tokens != [] && (Erases(tokens[0]) || HasErasure(tokens[1..]))
  }

  // ---------------------------------------------------------------- the scanners

  /** `output.rfind('\n')` and `truncate`: keep everything up to the last newline. */
  method TruncateLine(output: string) returns (kept: string)
    ensures kept <= output
    ensures kept == "" || kept[|kept| - 1] == '\n'
    ensures '\n' !in output[|kept|..]
  {
    var n := |output|;
    while n > 0 && output[n - 1] != '\n'
      invariant 0 <= n <= |output|
      invariant '\n' !in output[n..]
    {
      n := n - 1;
    }
    kept := output[..n];
  }

  lemma LineSplitIsUnique(screen: Screen, kept: string)
    requires screen.Valid()
    requires kept <= screen.Render() && '\n' !in screen.Render()[|kept|..]
    requires kept == "" || kept[|kept| - 1] == '\n'
    ensures kept == screen.done
  {
    var out := screen.Render();
    assert |kept| > 0 ==> out[|kept| - 1] == '\n';
    assert |screen.done| > 0 ==> out[|screen.done| - 1] == '\n';
    assert forall k :: |screen.done| <= k < |out| ==> out[k] in screen.line;
    assert forall k :: |kept| <= k < |out| ==> out[k] in out[|kept|..];
    assert |kept| == |screen.done|;
  }

  /** Reads the parameters and the final byte that follow `ESC [`. */
  method ReadSequence(chars: string) returns (sequence: string, rest: string)
    ensures sequence == chars[..CsiLength(chars)] && rest == chars[CsiLength(chars)..]
  {
    sequence, rest := "", chars;
    while rest != ""
      invariant chars == sequence + rest
      invariant CsiLength(chars) == |sequence| + CsiLength(rest)
      decreases |rest|
    {
      var next := rest[0];
      sequence, rest := sequence + [next], rest[1..];
      if IsFinal(next) {
        assert chars == sequence + rest;
        break;
      }
    }
  }

  lemma TokensStep(text: string)
    requires text != ""
    ensures Tokens(text) != [] && Tokens(text)[0] == FirstToken(text)
    ensures Tokens(text)[1..] == Tokens(text[TokenWidth(text)..])
    ensures StartsCsi(text) ==>
              var tail := text[1..][1..];
              tail[..CsiLength(tail)] == text[2..TokenWidth(text)]
              && tail[CsiLength(tail)..] == text[TokenWidth(text)..]
  {
    if StartsCsi(text) {
      assert text[1..][1..] == text[2..];
    }
  }

  lemma PlayStep(screen: Screen, text: string)
    requires text != ""
    ensures Play(screen, Tokens(text))
            == Play(screen.Apply(FirstToken(text)), Tokens(text[TokenWidth(text)..]))
    ensures screen.Render() + [text[0]] == screen.done + (screen.line + [text[0]])
  {
    TokensStep(text);
  }

  method NormalizeCurrentFrame(content: string) returns (output: string)
    ensures output == Normalized(content)
  {
    output := "";
    var chars := content;
    ghost var screen := Screen("", "");
    while chars != ""
      invariant screen.Valid() && screen.Render() == output
      invariant Play(screen, Tokens(chars)) == Play(Screen("", ""), Tokens(content))
      decreases |chars|
    {
      ghost var was, text := screen, chars;
      TokensStep(text);
      PlayStep(screen, text);
      screen := screen.Apply(FirstToken(text));
      var ch := chars[0];
      chars := chars[1..];
      if ch == ESC {
        if chars != "" && chars[0] == '[' {
          var sequence;
          sequence, chars := ReadSequence(chars[1..]);
          if IsFullFrameReset(sequence) {
            output := "";
          }
        }
        continue;
      }
      if ch == '\r' {
        output := TruncateLine(output);
        LineSplitIsUnique(was, output);
        continue;
      }
      output := output + [ch];
    }
  }

  method IsRepaintHeavy(content: string) returns (heavy: bool)
    ensures heavy == HasErasure(Tokens(content))
  {
    var chars := content;
    while chars != ""
      invariant HasErasure(Tokens(content)) == HasErasure(Tokens(chars))
      decreases |chars|
    {
      ghost var text := chars;
      TokensStep(text);
      var ch := chars[0];
      chars := chars[1..];
      if ch == '\r' {
        return true;
      }
      if ch == ESC && chars != "" && chars[0] == '[' {
        var sequence;
        sequence, chars := ReadSequence(chars[1..]);
        if IsFullFrameReset(sequence) {
          return true;
        }
      }
    }
    heavy := false;
  }

  // ---------------------------------------------------------------- what the normaliser means

  lemma {:induction false} PlayConcat(screen: Screen, a: seq<Token>, b: seq<Token>)
    ensures Play(screen, a + b) == Play(Play(screen, a), b)
    decreases |a|
  {
    if a == [] {
      assert a + b == b;
    } else {
      assert (a + b)[1..] == a[1..] + b;
      PlayConcat(screen.Apply(a[0]), a[1..], b);
    }
  }

  /** The text ends in the middle of a control sequence. */
  predicate EndsInsideCsi(s: string)
    decreases |s|
  {
    s != "" && ((StartsCsi(s) && !CsiClosed(s[2..])) || EndsInsideCsi(s[TokenWidth(s)..]))
  }

  lemma {:induction false} CsiLengthExtends(a: string, b: string)
    ensures CsiClosed(a) ==> CsiLength(a + b) == CsiLength(a)
    ensures !CsiClosed(a) ==> CsiLength(a + b) == |a| + CsiLength(b) && CsiLength(a) == |a|
  {
    if a == "" {
      assert a + b == b;
    } else if !IsFinal(a[0]) {
      assert (a + b)[1..] == a[1..] + b;
      CsiLengthExtends(a[1..], b);
    }
  }

  lemma FirstTokenExtends(a: string, b: string)
    requires a != "" && !EndsInsideCsi(a)
    requires b == "" || b[0] != '['
    ensures TokenWidth(a + b) == TokenWidth(a) && FirstToken(a + b) == FirstToken(a)
    ensures (a + b)[TokenWidth(a)..] == a[TokenWidth(a)..] + b
  {
    var n := TokenWidth(a);
    DropConcat(a, b, n);
    if StartsCsi(a) {
      DropConcat(a, b, 2);
      CsiLengthExtends(a[2..], b);
      assert (a + b)[2..n] == (a + b)[..n][2..] == a[..n][2..] == a[2..n];
    }
  }

  /** Tokens of a concatenation, when the cut is not inside a control sequence. */
  lemma {:induction false} TokensConcat(a: string, b: string)
    requires !EndsInsideCsi(a)
    requires b == "" || b[0] != '['
    ensures Tokens(a + b) == Tokens(a) + Tokens(b)
    decreases |a|
  {
    if a == "" {
      assert a + b == b;
    } else {
      FirstTokenExtends(a, b);
      TokensConcat(a[TokenWidth(a)..], b);
    }
  }

  lemma ResetToken(sequence: string, b: string)
    requires sequence == "H" || sequence == "2J"
    ensures var r := [ESC, '['] + (sequence + b);
            FirstToken(r) == Reset && r[TokenWidth(r)..] == b
  {
    var r := [ESC, '['] + (sequence + b);
    assert r[2..] == sequence + b;
    assert CsiClosed(sequence) && CsiLength(sequence) == |sequence| by {
      if sequence == "2J" { assert sequence[1..] == "J"; }
    }
    CsiLengthExtends(sequence, b);
    assert r[2..2 + |sequence|] == sequence;
  }

  /** Text before a full reset has no effect on the normalised frame. */
  lemma ResetErases(a: string, sequence: string, b: string)
    requires !EndsInsideCsi(a)
    requires sequence == "H" || sequence == "2J"
    ensures Normalized(a + ([ESC, '['] + (sequence + b))) == Normalized(b)
  {
    var r := [ESC, '['] + (sequence + b);
    ResetToken(sequence, b);
    TokensConcat(a, r);
    PlayConcat(Screen("", ""), Tokens(a), Tokens(r));
    PlayStep(Play(Screen("", ""), Tokens(a)), r);
  }

  /** The tokens the detector looks for are exactly those that can take text off some screen. */
  lemma ErasesExactly(t: Token)
    ensures Erases(t) <==> exists screen: Screen :: screen.Valid() && !(screen.Render() <= screen.Apply(t).Render())
  {
    if Erases(t) {
      var screen := Screen("", "x");
      assert screen.Valid() && screen.Render()[0] == 'x';
    } else {
      forall screen: Screen ensures screen.Render() <= screen.Apply(t).Render() {
        QuietApplyAppends(screen, t);
      }
    }
  }

  predicate Plain(s: string) { ESC !in s && '\r' !in s }

  lemma {:induction false} PlayStaysPlain(screen: Screen, s: string)
    requires Plain(screen.Render())
    ensures Plain(Play(screen, Tokens(s)).Render())
    decreases |s|
  {
    if s != "" {
      var next := screen.Apply(FirstToken(s));
      assert Plain(next.Render()) by {
        assert forall c :: c in next.Render() ==> c in screen.Render() || c == s[0];
      }
      PlayStep(screen, s);
      PlayStaysPlain(next, s[TokenWidth(s)..]);
    }
  }

  lemma {:induction false} PlayOfPlain(screen: Screen, s: string)
    requires Plain(s)
    ensures Play(screen, Tokens(s)).Render() == screen.Render() + s
    decreases |s|
  {
    if s != "" {
      QuietApplyAppends(screen, FirstToken(s));
      PlayStep(screen, s);
      PlayOfPlain(screen.Apply(FirstToken(s)), s[1..]);
      Assoc(screen.Render(), [s[0]], s[1..]);
    }
  }

  /** The normalised frame holds no escape and no carriage return. */
  lemma NormalizedIsPlain(content: string)
    ensures Plain(Normalized(content))
  {
    PlayStaysPlain(Screen("", ""), content);
  }

  lemma NormalizedIsIdempotent(content: string)
    ensures Normalized(Normalized(content)) == Normalized(content)
  {
    NormalizedIsPlain(content);
    PlayOfPlain(Screen("", ""), Normalized(content));
  }

  function CharOf(t: Token): string {
    if t.Char? then [t.c] else ""
  }

  /** The characters that are neither control nor escape, in order. */
  function CharsOf(tokens: seq<Token>): string {
    if tokens == [] then "" else CharOf(tokens[0]) + CharsOf(tokens[1..])
  }

  lemma QuietApplyAppends(screen: Screen, t: Token)
    requires !Erases(t)
    ensures screen.Apply(t).Render() == screen.Render() + CharOf(t)
  {
  }

  /** Without a carriage return or a full reset nothing is ever taken off the screen. */
  lemma {:induction false} QuietPlayKeepsEverything(screen: Screen, tokens: seq<Token>)
    requires !HasErasure(tokens)
    ensures Play(screen, tokens).Render() == screen.Render() + CharsOf(tokens)
    decreases |tokens|
  {
    if tokens != [] {
      QuietApplyAppends(screen, tokens[0]);
      QuietPlayKeepsEverything(screen.Apply(tokens[0]), tokens[1..]);
      Assoc(screen.Render(), CharOf(tokens[0]), CharsOf(tokens[1..]));
    }
  }

  // ---------------------------------------------------------------- stripping escapes

  function EscapeWidth(s: string): (n: nat)
    requires s != ""
    ensures 1 <= n <= |s|
  {
    if s[0] != ESC || |s| == 1 then 1
    else if s[1] == '[' then 2 + CsiLength(s[2..])
    else if s[1] == ']' then 2 + OscLength(s[2..])
    else 2
  }

  /** The content without its escape sequences: CSI, OSC and two-character escapes. */
  function Stripped(s: string): string
    decreases |s|
  {
    if s == "" then ""
    else (if s[0] == ESC then "" else [s[0]]) + Stripped(s[EscapeWidth(s)..])
  }

  method SkipControlSequence(chars: string, from: nat) returns (index: nat)
    requires from <= |chars|
    ensures index == from + CsiLength(chars[from..]) <= |chars|
  {
    index := from;
    while index < |chars|
      invariant from <= index <= |chars|
      invariant from + CsiLength(chars[from..]) == index + CsiLength(chars[index..])
    {
      var next := chars[index];
      assert chars[index..][1..] == chars[index + 1..];
      index := index + 1;
      if IsFinal(next) {
        break;
      }
    }
  }

  method SkipSystemCommand(chars: string, from: nat) returns (index: nat)
    requires from <= |chars|
    ensures index == from + OscLength(chars[from..]) <= |chars|
  {
    index := from;
    while index < |chars|
      invariant from <= index <= |chars|
      invariant from + OscLength(chars[from..]) == index + OscLength(chars[index..])
    {
      assert chars[index..][1..] == chars[index + 1..];
      if chars[index] == BEL {
        index := index + 1;
        break;
      } else if chars[index] == ESC && index + 1 < |chars| && chars[index + 1] == '\\' {
        index := index + 2;
        break;
      } else {
        index := index + 1;
      }
    }
  }

  /** What has been stripped so far, and where to go on. */
  ghost predicate Stripping(content: string, index: nat, output: string) {
    index <= |content| && output + Stripped(content[index..]) == Stripped(content)
  }

  lemma StrippingStep(content: string, index: nat, output: string)
    requires Stripping(content, index, output) && index < |content|
    ensures content[index] != ESC ==> Stripping(content, index + 1, output + [content[index]])
    ensures content[index] == ESC ==> Stripping(content, index + EscapeWidth(content[index..]), output)
  {
    var width := EscapeWidth(content[index..]);
    assert content[index..][width..] == content[index + width..];
    var rest := Stripped(content[index + width..]);
    Assoc(output, if content[index] == ESC then "" else [content[index]], rest);
  }

  lemma StrippingEnds(content: string, output: string)
    requires Stripping(content, |content|, output)
    ensures output == Stripped(content)
  {
    assert content[|content|..] == "";
  }

  /** Moves past the escape sequence at `from`. */
  method SkipEscape(chars: string, from: nat) returns (index: nat)
    requires from < |chars| && chars[from] == ESC
    ensures index == from + EscapeWidth(chars[from..]) <= |chars|
  {
    index := from + 1;
    if index >= |chars| {
      return;
    }
    assert chars[from..][2..] == chars[from + 2..];
    match chars[index] {
      case '[' => index := SkipControlSequence(chars, index + 1);
      case ']' => index := SkipSystemCommand(chars, index + 1);
      case _ => index := index + 1;
    }
  }

  method StripAnsiSequences(content: string) returns (output: string)
    ensures output == Stripped(content)
  {
    output := "";
    var index := 0;
    assert content[0..] == content;
    while index < |content|
      invariant Stripping(content, index, output)
      decreases |content| - index
    {
      StrippingStep(content, index, output);
      var ch := content[index];
      if ch != ESC {
        output := output + [ch];
        index := index + 1;
      } else {
        index := SkipEscape(content, index);
      }
    }
    StrippingEnds(content, output);
  }

  /** The escape sequence at the start of the text, if there is one, ends within the text. */
  predicate EscapeClosed(s: string)
    requires s != ""
  {
    s[0] == ESC ==>
      && |s| > 1
      && (s[1] == '[' ==> CsiClosed(s[2..]))
      && (s[1] == ']' ==> OscClosed(s[2..]))
  }

  /** The text ends outside every escape sequence. */
  predicate EndsOutside(s: string)
    decreases |s|
  {
    s == "" || (EscapeClosed(s) && EndsOutside(s[EscapeWidth(s)..]))
  }

  lemma {:induction false} OscLengthExtends(a: string, b: string)
    requires OscClosed(a) || (b != "" && b[0] != '\\')
    ensures OscClosed(a) ==> OscLength(a + b) == OscLength(a)
    ensures !OscClosed(a) ==> OscLength(a + b) == |a| + OscLength(b) && OscLength(a) == |a|
  {
    if a == "" {
      assert a + b == b;
    } else {
      assert (a + b)[1..] == a[1..] + b;
      if a[0] != BEL && !(a[0] == ESC && |a| > 1 && a[1] == '\\') {
        OscLengthExtends(a[1..], b);
      }
    }
  }

  lemma EscapeWidthExtends(a: string, b: string)
    requires a != ""
    requires EscapeClosed(a) || b == "@"
    ensures (a + b)[0] == a[0]
    ensures EscapeClosed(a) ==> EscapeWidth(a + b) == EscapeWidth(a)
                                && (a + b)[EscapeWidth(a)..] == a[EscapeWidth(a)..] + b
    ensures !EscapeClosed(a) ==> EscapeWidth(a + b) == |a + b| && EscapeWidth(a) == |a|
  {
    assert (a + b)[EscapeWidth(a)..] == a[EscapeWidth(a)..] + b;
    if |a| > 1 {
      assert (a + b)[2..] == a[2..] + b;
      CsiLengthExtends(a[2..], b);
      if b == "@" || OscClosed(a[2..]) {
        OscLengthExtends(a[2..], b);
      }
    }
  }

  lemma {:induction false} StrippedConcat(a: string, b: string)
    requires EndsOutside(a)
    ensures Stripped(a + b) == Stripped(a) + Stripped(b)
    decreases |a|
  {
    if a == "" {
      assert a + b == b;
    } else {
      EscapeWidthExtends(a, b);
      StrippedConcat(a[EscapeWidth(a)..], b);
    }
  }

  lemma {:induction false} UnfinishedSwallows(a: string)
    requires !EndsOutside(a)
    ensures Stripped(a + "@") == Stripped(a)
    decreases |a|
  {
    EscapeWidthExtends(a, "@");
    if EscapeClosed(a) {
      UnfinishedSwallows(a[EscapeWidth(a)..]);
    }
  }

  /** Stripping two pieces apart gives the same text for every second piece exactly when
      the first piece ends outside an escape sequence. */
  lemma StrippedDistributesExactly(a: string)
    ensures EndsOutside(a) <==> forall b :: Stripped(a + b) == Stripped(a) + Stripped(b)
  {
    if EndsOutside(a) {
      forall b ensures Stripped(a + b) == Stripped(a) + Stripped(b) { StrippedConcat(a, b); }
    } else {
      UnfinishedSwallows(a);
      assert Stripped("@") == "@";
      assert Stripped(a + "@") != Stripped(a) + Stripped("@");
    }
  }

  lemma {:induction false} StrippedHasNoEscape(s: string)
    ensures ESC !in Stripped(s)
    decreases |s|
  {
    if s != "" { StrippedHasNoEscape(s[EscapeWidth(s)..]); }
  }

  lemma {:induction false} StrippedOfEscapeFree(s: string)
    requires ESC !in s
    ensures Stripped(s) == s
  {
    if s != "" { StrippedOfEscapeFree(s[1..]); }
  }

  lemma StrippedIsIdempotent(s: string)
    ensures Stripped(Stripped(s)) == Stripped(s)
  {
    StrippedHasNoEscape(s);
    StrippedOfEscapeFree(Stripped(s));
  }

  predicate Subsequence(x: string, y: string) {
    x == "" || (y != "" && ((x[0] == y[0] && Subsequence(x[1..], y[1..])) || Subsequence(x, y[1..])))
  }

  lemma {:induction false} SubsequenceSkips(x: string, y: string, k: nat)
    requires k <= |y| && Subsequence(x, y[k..])
    ensures Subsequence(x, y)
    decreases k
  {
    if k > 0 {
      assert y[1..][k - 1..] == y[k..];
      SubsequenceSkips(x, y[1..], k - 1);
    } else {
      assert y[0..] == y;
    }
  }

  lemma {:induction false} StrippedIsSubsequence(s: string)
    ensures Subsequence(Stripped(s), s)
    decreases |s|
  {
    if s != "" {
      var k := EscapeWidth(s);
      StrippedIsSubsequence(s[k..]);
      if s[0] == ESC {
        assert Stripped(s) == Stripped(s[k..]);
        SubsequenceSkips(Stripped(s), s, k);
      } else {
        assert Stripped(s)[1..] == Stripped(s[1..]);
      }
    }
  }

  lemma {:induction false} StrippedIsCharsOf(s: string)
    requires !HasErasure(Tokens(s))
    requires forall k :: 0 <= k < |Tokens(s)| - 1 ==> !Tokens(s)[k].LoneEscape?
    ensures Stripped(s) == CharsOf(Tokens(s))
    decreases |s|
  {
    if s != "" {
      var rest := s[TokenWidth(s)..];
      assert Tokens(s) == [FirstToken(s)] + Tokens(rest);
      assert forall k :: 0 <= k < |Tokens(rest)| ==> Tokens(rest)[k] == Tokens(s)[k + 1];
      if FirstToken(s).LoneEscape? {
        assert Tokens(s)[0].LoneEscape?;
        assert rest == "";
      }
      StrippedIsCharsOf(rest);
    }
  }

  /** On content that is not repaint heavy, and in which every ESC except possibly a last one
      starts a control sequence, the stripper and the frame normaliser agree. */
  lemma StripperAgreesWithNormalizer(s: string)
    requires !HasErasure(Tokens(s))
    requires forall k :: 0 <= k < |Tokens(s)| - 1 ==> !Tokens(s)[k].LoneEscape?
    ensures Stripped(s) == Normalized(s)
  {
    StrippedIsCharsOf(s);
    QuietPlayKeepsEverything(Screen("", ""), Tokens(s));
  }
}
