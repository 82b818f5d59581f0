/** Remote command lines: the builders that quote every argument, and the token recognition of
    a POSIX shell that takes the line apart again. */
module Quoting {
  import opened Text

  // ---------------------------------------------------------------- the shell's side

  /** A token of the Shell Command Language: a word after quote removal, or one character of
      an operator. */
  datatype Token = Word(text: string) | Operator(c: char)

  predicate IsBlank(c: char) { c == ' ' || c == '\t' }

  predicate IsOperator(c: char) {
    c == ';' || c == '&' || c == '|' || c == '<' || c == '>' || c == '(' || c == ')' || c == '\n'
  }

  /** Characters that start an expansion, a comment, a double-quoted string or a pattern when
      they are not quoted (section 2.2 of POSIX.1-2017 XCU). */
  predicate IsSpecial(c: char) {
    c == '$' || c == '`' || c == '"' || c == '*' || c == '?' || c == '[' || c == '#' || c == '~'
    || c == '=' || c == '%'
  }

  function Flush(pending: Option<string>): seq<Token> {
    if pending.Some? then [Word(pending.value)] else []
  }

  function Extend(pending: Option<string>, text: string): Option<string> {
    Some((if pending.Some? then pending.value else "") + text)
  }

  function Emit(tokens: seq<Token>, rest: Option<seq<Token>>): Option<seq<Token>> {
    if rest.Some? then Some(tokens + rest.value) else None
  }

  /** Splitting with backslashes and single quotes (sections 2.2.1 and 2.2.2). `None` when a
      quote is left open or an unquoted character would be expanded rather than taken as it is. */
  function Lex(s: string, quoted: bool, pending: Option<string>): Option<seq<Token>>
    decreases |s|
  {
    if s == "" then
      if quoted then None else Some(Flush(pending))
    else if quoted then
      if s[0] == '\'' then Lex(s[1..], false, pending)
      else Lex(s[1..], true, Extend(pending, [s[0]]))
    else if s[0] == '\'' then
      Lex(s[1..], true, Extend(pending, ""))
    else if s[0] == '\\' then
      if |s| == 1 then None
      else if s[1] == '\n' then Lex(s[2..], false, pending)
      else Lex(s[2..], false, Extend(pending, [s[1]]))
    else if IsBlank(s[0]) then
      Emit(Flush(pending), Lex(s[1..], false, None))
    else if IsOperator(s[0]) then
      Emit(Flush(pending) + [Operator(s[0])], Lex(s[1..], false, None))
    else if IsSpecial(s[0]) then
      None
    else
      Lex(s[1..], false, Extend(pending, [s[0]]))
  }

  function Split(s: string): Option<seq<Token>> {
    Lex(s, false, None)
  }

  // ---------------------------------------------------------------- the daemon's side

  /** `value.replace('\'', "'\\''")`. */
  function ReplaceQuotes(value: string): string {
    if value == "" then ""
    else (if value[0] == '\'' then "'\\''" else [value[0]]) + ReplaceQuotes(value[1..])
  }

  function QuotePosixSh(value: string): string {
    "'" + ReplaceQuotes(value) + "'"
  }

  /** A piece of a command line: text the daemon writes as it is, a value it quotes,
      an operator character, or the space between words. */
  datatype Piece = Bare(text: string) | Quoted(value: string) | Op(c: char) | Gap

  function PieceText(p: Piece): string {
    match p
    case Bare(text) => text
    case Quoted(value) => QuotePosixSh(value)
    case Op(c) => [c]
    case Gap => " "
  }

  function Render(pieces: seq<Piece>): string {
    if pieces == [] then "" else PieceText(pieces[0]) + Render(pieces[1..])
  }

  predicate PlainChar(c: char) {
    c != '\'' && c != '\\' && !IsBlank(c) && !IsOperator(c) && !IsSpecial(c)
  }

  predicate Safe(p: Piece) {
    match p
    case Bare(text) => text != "" && forall i :: 0 <= i < |text| ==> PlainChar(text[i])
    case Quoted(_) => true
    case Op(c) => IsOperator(c)
    case Gap => true
  }

  ghost predicate AllSafe(pieces: seq<Piece>) {
    forall i :: 0 <= i < |pieces| ==> Safe(pieces[i])
  }

  lemma SafeConcat(a: seq<Piece>, b: seq<Piece>)
    requires AllSafe(a) && AllSafe(b)
    ensures AllSafe(a + b)
  {
  }

  /** The tokens the pieces stand for: pieces that touch make one word. */
  function Meaning(pieces: seq<Piece>, pending: Option<string>): seq<Token>
    decreases |pieces|
  {
    if pieces == [] then Flush(pending)
    else
      match pieces[0]
      case Bare(text) => Meaning(pieces[1..], Extend(pending, text))
      case Quoted(value) => Meaning(pieces[1..], Extend(pending, value))
      case Op(c) => Flush(pending) + [Operator(c)] + Meaning(pieces[1..], None)
      case Gap => Flush(pending) + Meaning(pieces[1..], None)
  }

  // ---------------------------------------------------------------- splitting inverts rendering

  lemma {:induction false} LexBare(text: string, rest: string, pending: Option<string>)
    requires text != "" && forall i :: 0 <= i < |text| ==> PlainChar(text[i])
    ensures Lex(text + rest, false, pending) == Lex(rest, false, Extend(pending, text))
    decreases |text|
  {
    assert (text + rest)[1..] == text[1..] + rest;
    var first := Extend(pending, [text[0]]);
    if |text| == 1 {
      assert text == [text[0]] && text[1..] + rest == rest;
    } else {
      LexBare(text[1..], rest, first);
      assert first.value + text[1..] == Extend(pending, text).value;
    }
  }

  lemma LexEscapedQuote(more: string, word: string)
    ensures Lex("'\\''" + more, true, Some(word)) == Lex(more, true, Some(word + "'"))
  {
    var s := "'\\''" + more;
    var s1, s3 := "\\''" + more, "'" + more;
    assert s[1..] == s1 && s1[2..] == s3 && s3[1..] == more;
    assert Lex(s, true, Some(word)) == Lex(s1, false, Some(word));
    assert Lex(s1, false, Some(word)) == Lex(s3, false, Some(word + "'"));
    assert word + "'" + "" == word + "'";
  }

  lemma LexQuotedChar(c: char, more: string, word: string)
    requires c != '\''
    ensures Lex([c] + more, true, Some(word)) == Lex(more, true, Some(word + [c]))
  {
    assert ([c] + more)[1..] == more;
  }

  lemma {:induction false} LexInsideQuotes(value: string, rest: string, word: string)
    ensures Lex(ReplaceQuotes(value) + ("'" + rest), true, Some(word)) == Lex(rest, false, Some(word + value))
    decreases |value|
  {
    var tail := "'" + rest;
    if value == "" {
      assert ReplaceQuotes(value) + tail == tail;
      assert tail[1..] == rest && word + value == word;
    } else {
      var c, more := value[0], ReplaceQuotes(value[1..]) + tail;
      Assoc(if c == '\'' then "'\\''" else [c], ReplaceQuotes(value[1..]), tail);
      if c == '\'' { LexEscapedQuote(more, word); } else { LexQuotedChar(c, more, word); }
      LexInsideQuotes(value[1..], rest, word + [c]);
      assert word + [c] + value[1..] == word + value;
    }
  }

  lemma LexQuoted(value: string, rest: string, pending: Option<string>)
    ensures Lex(QuotePosixSh(value) + rest, false, pending) == Lex(rest, false, Extend(pending, value))
  {
    var body := ReplaceQuotes(value) + ("'" + rest);
    assert QuotePosixSh(value) + rest == "'" + body;
    assert ("'" + body)[1..] == body;
    var word := Extend(pending, "").value;
    LexInsideQuotes(value, rest, word);
    assert Extend(pending, value).value == word + value;
  }

  lemma {:induction false} LexRender(pieces: seq<Piece>, pending: Option<string>)
    requires AllSafe(pieces)
    ensures Lex(Render(pieces), false, pending) == Some(Meaning(pieces, pending))
    decreases |pieces|
  {
    if pieces != [] {
      var rest := Render(pieces[1..]);
      assert forall i :: 0 <= i < |pieces| - 1 ==> pieces[1..][i] == pieces[i + 1];
      assert Safe(pieces[0]);
      match pieces[0]
      case Bare(text) =>
        LexBare(text, rest, pending);
        LexRender(pieces[1..], Extend(pending, text));
      case Quoted(value) =>
        LexQuoted(value, rest, pending);
        LexRender(pieces[1..], Extend(pending, value));
      case Op(c) =>
        assert ([c] + rest)[1..] == rest;
        LexRender(pieces[1..], None);
      case Gap =>
        assert (" " + rest)[1..] == rest;
        LexRender(pieces[1..], None);
    }
  }

  /** Whatever the quoted values hold, the shell takes the line apart into exactly the words
      and operators it was made from. */
  lemma SplitInvertsRender(pieces: seq<Piece>)
    requires AllSafe(pieces)
    ensures Split(Render(pieces)) == Some(Meaning(pieces, None))
  {
    LexRender(pieces, None);
  }

  // ---------------------------------------------------------------- the command builders

  predicate IsWord(p: Piece) { p.Bare? || p.Quoted? }

  function WordText(p: Piece): string {
    match p
    case Bare(text) => text
    case Quoted(value) => value
    case _ => ""
  }

  function Spaced(words: seq<Piece>): seq<Piece> {
    if words == [] then [] else [Gap, words[0]] + Spaced(words[1..])
  }

  function WordTokens(words: seq<Piece>): seq<Token> {
    if words == [] then [] else [Word(WordText(words[0]))] + WordTokens(words[1..])
  }

  function QuotedAll(values: seq<string>): seq<Piece> {
    if values == [] then [] else [Quoted(values[0])] + QuotedAll(values[1..])
  }

  function Assignments(env: seq<(string, string)>): seq<string> {
    if env == [] then [] else [env[0].0 + "=" + env[0].1] + Assignments(env[1..])
  }

  function Argv(env: seq<(string, string)>, binary: string, args: seq<string>): seq<string> {
    Assignments(env) + [binary] + args
  }

  function Leader(useExec: bool): seq<Piece> {
    if useExec then [Bare("exec")] + Spaced([Bare("env")]) else [Bare("env")]
  }

  function CommandPieces(useExec: bool, argv: seq<string>): seq<Piece> {
    Leader(useExec) + Spaced(QuotedAll(argv))
  }

  lemma {:induction false} RenderConcat(a: seq<Piece>, b: seq<Piece>)
    ensures Render(a + b) == Render(a) + Render(b)
  {
    if a == [] {
      assert a + b == b;
    } else {
      assert (a + b)[1..] == a[1..] + b;
      RenderConcat(a[1..], b);
      Assoc(PieceText(a[0]), Render(a[1..]), Render(b));
    }
  }

  lemma {:induction false} SpacedQuotedAppends(values: seq<string>, value: string)
    ensures Spaced(QuotedAll(values + [value])) == Spaced(QuotedAll(values)) + [Gap, Quoted(value)]
  {
    if values == [] {
      assert QuotedAll([value]) == [Quoted(value)];
    } else {
      assert (values + [value])[1..] == values[1..] + [value];
      SpacedQuotedAppends(values[1..], value);
      assert QuotedAll(values + [value])[1..] == QuotedAll(values[1..] + [value]);
    }
  }

  lemma CommandGrows(useExec: bool, values: seq<string>, value: string)
    ensures Render(CommandPieces(useExec, values + [value]))
            == Render(CommandPieces(useExec, values)) + " " + QuotePosixSh(value)
  {
    SpacedQuotedAppends(values, value);
    var more := [Gap, Quoted(value)];
    assert CommandPieces(useExec, values + [value]) == CommandPieces(useExec, values) + more;
    RenderConcat(CommandPieces(useExec, values), more);
    assert more[1..] == [Quoted(value)] && [Quoted(value)][1..] == [];
    assert Render([Quoted(value)]) == QuotePosixSh(value) + "" == QuotePosixSh(value);
    Assoc(Render(CommandPieces(useExec, values)), " ", QuotePosixSh(value));
  }

  lemma {:induction false} AssignmentsAppend(env: seq<(string, string)>, k: nat)
    requires k < |env|
    ensures Assignments(env[..k + 1]) == Assignments(env[..k]) + [env[k].0 + "=" + env[k].1]
  {
    if k > 0 {
      assert env[..k + 1][1..] == env[1..][..k] && env[..k][1..] == env[1..][..k - 1];
      AssignmentsAppend(env[1..], k - 1);
    }
  }

  /** `build_remote_command` and `build_remote_exec_env_command`. */
  method BuildRemoteCommand(binary: string, env: seq<(string, string)>, args: seq<string>, useExec: bool)
    returns (command: string)
    ensures command == Render(CommandPieces(useExec, Argv(env, binary, args)))
  {
    command := if useExec then "exec env" else "env";
    ghost var argv: seq<string> := [];
    LeaderText(useExec);
    for k := 0 to |env|
      invariant argv == Assignments(env[..k])
      invariant command == Render(CommandPieces(useExec, argv))
    {
      var (key, value) := env[k];
      AssignmentsAppend(env, k);
      CommandGrows(useExec, argv, key + "=" + value);
      command := command + " ";
      command := command + QuotePosixSh(key + "=" + value);
      argv := argv + [key + "=" + value];
    }
    assert env[..|env|] == env;
    CommandGrows(useExec, argv, binary);
    command := command + " ";
    command := command + QuotePosixSh(binary);
    argv := argv + [binary];
    ghost var front := argv;
    for k := 0 to |args|
      invariant argv == front + args[..k]
      invariant command == Render(CommandPieces(useExec, argv))
    {
      CommandGrows(useExec, argv, args[k]);
      command := command + " ";
      command := command + QuotePosixSh(args[k]);
      argv := argv + [args[k]];
    }
    assert args[..|args|] == args;
  }

  lemma RenderOne(p: Piece)
    ensures Render([p]) == PieceText(p)
  {
    assert [p][1..] == [] && PieceText(p) + "" == PieceText(p);
  }

  lemma LeaderText(useExec: bool)
    ensures Render(CommandPieces(useExec, [])) == if useExec then "exec env" else "env"
  {
    RenderOne(Bare("env"));
    assert Leader(useExec) + [] == Leader(useExec);
    if useExec {
      RenderOne(Bare("exec"));
      RenderOne(Gap);
      assert Spaced([Bare("env")]) == [Gap] + [Bare("env")];
      RenderConcat([Gap], [Bare("env")]);
      RenderConcat([Bare("exec")], Spaced([Bare("env")]));
    }
  }

  // ---------------------------------------------------------------- round trips

  predicate AllWords(words: seq<Piece>) {
    words == [] || (IsWord(words[0]) && AllWords(words[1..]))
  }

  lemma MeaningOfSpacedStep(words: seq<Piece>, pending: Option<string>)
    requires words != [] && IsWord(words[0])
    ensures Meaning(Spaced(words), pending)
            == Flush(pending) + Meaning(Spaced(words[1..]), Some(WordText(words[0])))
  {
    var ps := Spaced(words);
    assert ps[1..] == [words[0]] + Spaced(words[1..]) && ps[1..][1..] == Spaced(words[1..]);
    assert Extend(None, WordText(words[0])).value == WordText(words[0]);
  }

  lemma {:induction false} MeaningOfSpaced(words: seq<Piece>, pending: Option<string>)
    requires AllWords(words)
    ensures Meaning(Spaced(words), pending) == Flush(pending) + WordTokens(words)
    decreases |words|
  {
    if words != [] {
      MeaningOfSpacedStep(words, pending);
      MeaningOfSpaced(words[1..], Some(WordText(words[0])));
    }
  }

  lemma {:induction false} MeaningConcat(a: seq<Piece>, b: seq<Piece>, pending: Option<string>)
    requires b == [] || b[0] == Gap
    ensures Meaning(a + b, pending) == Meaning(a, pending) + Meaning(b, None)
    decreases |a|
  {
    if a == [] {
      assert a + b == b;
    } else {
      assert (a + b)[1..] == a[1..] + b;
      match a[0]
      case Bare(text) => MeaningConcat(a[1..], b, Extend(pending, text));
      case Quoted(value) => MeaningConcat(a[1..], b, Extend(pending, value));
      case Op(_) => MeaningConcat(a[1..], b, None);
      case Gap => MeaningConcat(a[1..], b, None);
    }
  }

  lemma {:induction false} QuotedAllAreSafe(values: seq<string>)
    ensures AllWords(QuotedAll(values))
    ensures AllSafe(QuotedAll(values))
  {
    if values != [] {
      QuotedAllAreSafe(values[1..]);
      assert QuotedAll(values)[1..] == QuotedAll(values[1..]);
    }
  }

  lemma {:induction false} SpacedAreSafe(words: seq<Piece>)
    requires AllSafe(words)
    ensures AllSafe(Spaced(words))
  {
    if words != [] {
      assert Safe(words[0]);
      assert forall i :: 0 <= i < |words| - 1 ==> words[1..][i] == words[i + 1];
      SpacedAreSafe(words[1..]);
    }
  }

  function LeaderTokens(useExec: bool): seq<Token> {
    if useExec then [Word("exec"), Word("env")] else [Word("env")]
  }

  lemma MeaningOfBare(text: string)
    ensures Meaning([Bare(text)], None) == [Word(text)]
  {
    assert [Bare(text)][1..] == [] && "" + text == text;
  }

  lemma LeaderMeaning(useExec: bool)
    ensures Meaning(Leader(useExec), None) == LeaderTokens(useExec)
  {
    MeaningOfBare("env");
    if useExec {
      MeaningOfBare("exec");
      var env := [Bare("env")];
      assert env[1..] == [];
      MeaningOfSpaced(env, None);
      assert WordTokens(env) == [Word("env")];
      MeaningConcat([Bare("exec")], Spaced(env), None);
    }
  }

  lemma LeaderIsSafe(useExec: bool)
    ensures AllSafe(Leader(useExec))
  {
    assert Safe(Bare("exec")) && Safe(Bare("env"));
    SpacedAreSafe([Bare("env")]);
  }

  /** A line that ends in words: whatever comes before them, each is taken as one word. */
  lemma LineSplits(front: seq<Piece>, words: seq<Piece>)
    requires AllSafe(front)
    requires AllSafe(words)
    requires AllWords(words)
    ensures Split(Render(front + Spaced(words))) == Some(Meaning(front, None) + WordTokens(words))
  {
    SpacedAreSafe(words);
    SafeConcat(front, Spaced(words));
    SplitInvertsRender(front + Spaced(words));
    MeaningConcat(front, Spaced(words), None);
    MeaningOfSpaced(words, None);
    assert Flush(None) + WordTokens(words) == WordTokens(words);
  }

  /** The shell splits a built command back into exactly `env`, the assignments, the binary and
      the arguments, whatever characters they hold. */
  lemma CommandSplitsBack(useExec: bool, env: seq<(string, string)>, binary: string, args: seq<string>)
    ensures Split(Render(CommandPieces(useExec, Argv(env, binary, args))))
            == Some(LeaderTokens(useExec) + WordTokens(QuotedAll(Argv(env, binary, args))))
  {
    QuotedAllAreSafe(Argv(env, binary, args));
    LeaderMeaning(useExec);
    LeaderIsSafe(useExec);
    LineSplits(Leader(useExec), QuotedAll(Argv(env, binary, args)));
  }

  /** The texts of the words are the values that were quoted: nothing else has the same split. */
  lemma {:induction false} WordTokensAreInjective(a: seq<string>, b: seq<string>)
    requires WordTokens(QuotedAll(a)) == WordTokens(QuotedAll(b))
    ensures a == b
  {
    if a == [] || b == [] {
      assert |WordTokens(QuotedAll(a))| > 0 <==> a != [];
      assert |WordTokens(QuotedAll(b))| > 0 <==> b != [];
    } else {
      var ta, tb := WordTokens(QuotedAll(a)), WordTokens(QuotedAll(b));
      assert ta[0] == Word(a[0]) && tb[0] == Word(b[0]);
      assert ta[1..] == WordTokens(QuotedAll(a[1..])) && tb[1..] == WordTokens(QuotedAll(b[1..]));
      WordTokensAreInjective(a[1..], b[1..]);
    }
  }

  // ---------------------------------------------------------------- the helper client

  /** `if TMUX has-session -t HELPER >/dev/null 2>&1; then exit 0; fi;` */
  function HelperGuard(tmux: string, helper: string): seq<Piece> {
    [Bare("if")] + Spaced([Quoted(tmux), Bare("has-session"), Bare("-t"), Quoted(helper)]) + Silence()
    + Spaced([Bare("then"), Bare("exit"), Bare("0")]) + [Op(';'), Gap, Bare("fi"), Op(';')]
  }

  /** ` >/dev/null 2>&1;` */
  function Silence(): seq<Piece> {
    [Gap, Op('>'), Bare("/dev/null"), Gap, Bare("2"), Op('>'), Op('&'), Bare("1"), Op(';')]
  }

  /** `TMUX new-session -d -x COLS -y ROWS -s HELPER ATTACH` after the guard. */
  function HelperLaunch(tmux: string, helper: string, cols: nat, rows: nat, attach: string): seq<Piece> {
    [Quoted(tmux), Bare("new-session"), Bare("-d"), Bare("-x"), Bare(Decimal(cols)), Bare("-y"), Bare(Decimal(rows)),
     Bare("-s"), Quoted(helper), Quoted(attach)]
  }

  function HelperScript(tmux: string, helper: string, cols: nat, rows: nat, attach: string): seq<Piece> {
    HelperGuard(tmux, helper) + Spaced(HelperLaunch(tmux, helper, cols, rows, attach))
  }

  /** The format string that the script is printed with, and its arguments. */
  function HelperFormat(tmux: string, helper: string, cols: string, rows: string, attach: string): string {
    "if " + (tmux + (" has-session -t " + (helper + (" >/dev/null 2>&1; then exit 0; fi; "
    + (tmux + (" new-session -d -x " + (cols + (" -y " + (rows + (" -s " + (helper + (" " + attach))))))))))))
  }

  lemma RenderStep(p: Piece, rest: seq<Piece>)
    ensures Render([p] + rest) == PieceText(p) + Render(rest)
  {
    assert ([p] + rest)[1..] == rest;
  }

  lemma SpacedStep(word: Piece, rest: seq<Piece>)
    ensures Render(Spaced([word] + rest)) == " " + (PieceText(word) + Render(Spaced(rest)))
  {
    assert ([word] + rest)[1..] == rest;
    assert Spaced([word] + rest) == [Gap] + ([word] + Spaced(rest));
    RenderStep(Gap, [word] + Spaced(rest));
    RenderStep(word, Spaced(rest));
  }

  lemma SpacedLast(word: Piece)
    ensures Render(Spaced([word])) == " " + PieceText(word)
  {
    SpacedStep(word, []);
    assert [word] + [] == [word] && PieceText(word) + "" == PieceText(word);
  }

  lemma Joined(a: string, b: string, rest: string)
    ensures a + (b + rest) == (a + b) + rest
  {
  }

  lemma Joined3(a: string, b: string, c: string, rest: string)
    ensures a + (b + (c + rest)) == ((a + b) + c) + rest
  {
    Joined(b, c, rest);
    Joined(a, b + c, rest);
    Assoc(a, b, c);
  }

  /** A flag between words, with the space on both its sides. */
  lemma SpacedFlag(flag: Piece, text: string, next: Piece, rest: seq<Piece>)
    requires (" " + PieceText(flag)) + " " == text
    ensures Render(Spaced([flag] + ([next] + rest))) == text + (PieceText(next) + Render(Spaced(rest)))
  {
    SpacedStep(flag, [next] + rest);
    SpacedStep(next, rest);
    Joined3(" ", PieceText(flag), " ", PieceText(next) + Render(Spaced(rest)));
  }

  /** Two words that stand before text starting with a space. */
  lemma SpacedBefore(word: Piece, rest: seq<Piece>, text: string, tail: string, whole: string)
    requires Render(Spaced(rest)) == text + tail
    requires (" " + PieceText(word)) + text == whole
    ensures Render(Spaced([word] + rest)) == whole + tail
  {
    SpacedStep(word, rest);
    Joined3(" ", PieceText(word), text, tail);
  }

  lemma FlagTexts()
    ensures (" " + "-s") + " " == " -s " && (" " + "-x") + " " == " -x " && (" " + "-y") + " " == " -y "
  {
  }

  lemma NewTexts()
    ensures (" " + "-d") + " -x " == " -d -x " && (" " + "new-session") + " -d -x " == " new-session -d -x "
  {
  }

  /** The words of a launch, taken apart from the left. */
  function SizedWords(cols: Piece, rows: Piece, rest: seq<Piece>): seq<Piece> {
    [Bare("-x")] + ([cols] + ([Bare("-y")] + ([rows] + rest)))
  }

  lemma SizedText(cols: Piece, rows: Piece, rest: seq<Piece>)
    ensures Render(Spaced(SizedWords(cols, rows, rest)))
            == " -x " + (PieceText(cols) + (" -y " + (PieceText(rows) + Render(Spaced(rest)))))
  {
    FlagTexts();
    SpacedFlag(Bare("-x"), " -x ", cols, [Bare("-y")] + ([rows] + rest));
    SpacedFlag(Bare("-y"), " -y ", rows, rest);
  }

  lemma EndText(helper: Piece, attach: Piece)
    ensures Render(Spaced([Bare("-s")] + ([helper] + [attach])))
            == " -s " + (PieceText(helper) + (" " + PieceText(attach)))
  {
    FlagTexts();
    SpacedFlag(Bare("-s"), " -s ", helper, [attach]);
    SpacedLast(attach);
  }

  lemma NewSessionText(tmux: Piece, rest: seq<Piece>, tail: string)
    requires Render(Spaced(rest)) == " -x " + tail
    ensures Render(Spaced([tmux] + ([Bare("new-session")] + ([Bare("-d")] + rest))))
            == " " + (PieceText(tmux) + (" new-session -d -x " + tail))
  {
    NewTexts();
    SpacedBefore(Bare("-d"), rest, " -x ", tail, " -d -x ");
    SpacedBefore(Bare("new-session"), [Bare("-d")] + rest, " -d -x ", tail, " new-session -d -x ");
    SpacedStep(tmux, [Bare("new-session")] + ([Bare("-d")] + rest));
  }

  lemma TenInOrder(w: seq<Piece>)
    requires |w| == 10
    ensures w == [w[0]] + ([w[1]] + ([w[2]] + ([w[3]] + ([w[4]] + ([w[5]] + ([w[6]] + ([w[7]] + ([w[8]] + [w[9]]))))))))
  {
  }

  lemma LaunchText(tmux: string, helper: string, cols: nat, rows: nat, attach: string)
    ensures Render(Spaced(HelperLaunch(tmux, helper, cols, rows, attach)))
            == " " + (QuotePosixSh(tmux) + (" new-session -d -x " + (Decimal(cols) + (" -y " + (Decimal(rows)
               + (" -s " + (QuotePosixSh(helper) + (" " + QuotePosixSh(attach)))))))))
  {
    var last := [Bare("-s")] + ([Quoted(helper)] + [Quoted(attach)]);
    TenInOrder(HelperLaunch(tmux, helper, cols, rows, attach));
    EndText(Quoted(helper), Quoted(attach));
    SizedText(Bare(Decimal(cols)), Bare(Decimal(rows)), last);
    NewSessionText(Quoted(tmux), SizedWords(Bare(Decimal(cols)), Bare(Decimal(rows)), last),
                   Decimal(cols) + (" -y " + (Decimal(rows) + Render(Spaced(last)))));
  }

  lemma RenderAs(p: Piece, rest: seq<Piece>, tail: string, whole: string)
    requires Render(rest) == tail && PieceText(p) + tail == whole
    ensures Render([p] + rest) == whole
  {
    RenderStep(p, rest);
  }

  lemma HasSessionTexts()
    ensures (" " + "-t") + " " == " -t " && (" " + "has-session") + " -t " == " has-session -t "
  {
  }

  lemma HasSessionText(tmux: Piece, helper: Piece)
    ensures Render(Spaced([tmux] + ([Bare("has-session")] + ([Bare("-t")] + [helper]))))
            == " " + (PieceText(tmux) + (" has-session -t " + PieceText(helper)))
  {
    HasSessionTexts();
    SpacedLast(helper);
    SpacedBefore(Bare("-t"), [helper], " ", PieceText(helper), " -t ");
    SpacedBefore(Bare("has-session"), [Bare("-t")] + [helper], " -t ", PieceText(helper), " has-session -t ");
    SpacedStep(tmux, [Bare("has-session")] + ([Bare("-t")] + [helper]));
  }

  /** The guard up to its redirection, and from there on. */
  function GuardHead(tmux: string, helper: string): seq<Piece> {
    [Bare("if")] + Spaced([Quoted(tmux), Bare("has-session"), Bare("-t"), Quoted(helper)])
  }

  function GuardTail(): seq<Piece> {
    Silence() + (Spaced([Bare("then"), Bare("exit"), Bare("0")]) + [Op(';'), Gap, Bare("fi"), Op(';')])
  }

  lemma GuardHeadText(tmux: string, helper: string)
    ensures Render(GuardHead(tmux, helper))
            == "if " + (QuotePosixSh(tmux) + (" has-session -t " + QuotePosixSh(helper)))
  {
    var words := [Quoted(tmux)] + ([Bare("has-session")] + ([Bare("-t")] + [Quoted(helper)]));
    assert words == [Quoted(tmux), Bare("has-session"), Bare("-t"), Quoted(helper)];
    HasSessionText(Quoted(tmux), Quoted(helper));
    RenderStep(Bare("if"), Spaced(words));
    Joined("if", " ", QuotePosixSh(tmux) + (" has-session -t " + QuotePosixSh(helper)));
    assert "if" + " " == "if ";
  }

  lemma NineInOrder(w: seq<Piece>)
    requires |w| == 9
    ensures w == [w[0]] + ([w[1]] + ([w[2]] + ([w[3]] + ([w[4]] + ([w[5]] + ([w[6]] + ([w[7]] + [w[8]])))))))
  {
  }

  lemma RedirectTexts()
    ensures "1" + ";" == "1;" && "&" + "1;" == "&1;" && ">" + "&1;" == ">&1;" && "2" + ">&1;" == "2>&1;"
    ensures " " + "2>&1;" == " 2>&1;" && "/dev/null" + " 2>&1;" == "/dev/null 2>&1;"
  {
  }

  lemma NullTexts()
    ensures ">" + "/dev/null 2>&1;" == ">/dev/null 2>&1;" && " " + ">/dev/null 2>&1;" == " >/dev/null 2>&1;"
  {
  }

  function ErrorToOutput(): seq<Piece> {
    [Bare("2")] + ([Op('>')] + ([Op('&')] + ([Bare("1")] + [Op(';')])))
  }

  lemma ErrorToOutputText()
    ensures Render(ErrorToOutput()) == "2>&1;"
  {
    RedirectTexts();
    RenderOne(Op(';'));
    RenderAs(Bare("1"), [Op(';')], ";", "1;");
    RenderAs(Op('&'), [Bare("1")] + [Op(';')], "1;", "&1;");
    RenderAs(Op('>'), [Op('&')] + ([Bare("1")] + [Op(';')]), "&1;", ">&1;");
    RenderAs(Bare("2"), [Op('>')] + ([Op('&')] + ([Bare("1")] + [Op(';')])), ">&1;", "2>&1;");
  }

  lemma SilenceText()
    ensures Render(Silence()) == " >/dev/null 2>&1;"
  {
    NineInOrder(Silence());
    RedirectTexts();
    NullTexts();
    ErrorToOutputText();
    var rest := ErrorToOutput();
    RenderAs(Gap, rest, "2>&1;", " 2>&1;");
    RenderAs(Bare("/dev/null"), [Gap] + rest, " 2>&1;", "/dev/null 2>&1;");
    RenderAs(Op('>'), [Bare("/dev/null")] + ([Gap] + rest), "/dev/null 2>&1;", ">/dev/null 2>&1;");
    RenderAs(Gap, [Op('>')] + ([Bare("/dev/null")] + ([Gap] + rest)), ">/dev/null 2>&1;", " >/dev/null 2>&1;");
  }

  lemma ExitTexts()
    ensures " " + "0" == " 0" && " " + ("exit" + " 0") == " exit 0" && " " + ("then" + " exit 0") == " then exit 0"
  {
  }

  lemma ThenExitText()
    ensures Render(Spaced([Bare("then"), Bare("exit"), Bare("0")])) == " then exit 0"
  {
    ExitTexts();
    assert [Bare("then"), Bare("exit"), Bare("0")] == [Bare("then")] + ([Bare("exit")] + [Bare("0")]);
    SpacedLast(Bare("0"));
    SpacedStep(Bare("exit"), [Bare("0")]);
    SpacedStep(Bare("then"), [Bare("exit")] + [Bare("0")]);
  }

  lemma FiTexts()
    ensures "fi" + ";" == "fi;" && " " + "fi;" == " fi;" && ";" + " fi;" == "; fi;"
  {
  }

  lemma FiText()
    ensures Render([Op(';'), Gap, Bare("fi"), Op(';')]) == "; fi;"
  {
    FiTexts();
    assert [Op(';'), Gap, Bare("fi"), Op(';')] == [Op(';')] + ([Gap] + ([Bare("fi")] + [Op(';')]));
    RenderOne(Op(';'));
    RenderAs(Bare("fi"), [Op(';')], ";", "fi;");
    RenderAs(Gap, [Bare("fi")] + [Op(';')], "fi;", " fi;");
    RenderAs(Op(';'), [Gap] + ([Bare("fi")] + [Op(';')]), " fi;", "; fi;");
  }

  lemma TailTexts()
    ensures " then exit 0" + "; fi;" == " then exit 0; fi;"
    ensures " >/dev/null 2>&1;" + " then exit 0; fi;" == " >/dev/null 2>&1; then exit 0; fi;"
    ensures " >/dev/null 2>&1; then exit 0; fi;" + " " == " >/dev/null 2>&1; then exit 0; fi; "
  {
  }

  lemma GuardTailText()
    ensures Render(GuardTail()) == " >/dev/null 2>&1; then exit 0; fi;"
  {
    TailTexts();
    SilenceText();
    ThenExitText();
    FiText();
    var exit, fi := Spaced([Bare("then"), Bare("exit"), Bare("0")]), [Op(';'), Gap, Bare("fi"), Op(';')];
    RenderConcat(exit, fi);
    RenderConcat(Silence(), exit + fi);
  }

  lemma Assembled(head: string, tmux: string, has: string, helper: string, tail: string, gap: string, rest: string)
    ensures ((head + (tmux + (has + helper))) + tail) + (gap + rest)
            == head + (tmux + (has + (helper + ((tail + gap) + rest))))
  {
  }

  lemma ScriptInParts(tmux: string, helper: string, cols: nat, rows: nat, attach: string)
    ensures Render(HelperScript(tmux, helper, cols, rows, attach))
            == (Render(GuardHead(tmux, helper)) + Render(GuardTail()))
               + Render(Spaced(HelperLaunch(tmux, helper, cols, rows, attach)))
  {
    var head, tail, launch := GuardHead(tmux, helper), GuardTail(), Spaced(HelperLaunch(tmux, helper, cols, rows, attach));
    var exit, fi := Spaced([Bare("then"), Bare("exit"), Bare("0")]), [Op(';'), Gap, Bare("fi"), Op(';')];
    assert ((head + Silence()) + exit) + fi == head + (Silence() + (exit + fi));
    RenderConcat(head, tail);
    RenderConcat(head + tail, launch);
  }

  /** The pieces print exactly what the daemon's format string prints with its quoted arguments. */
  lemma ScriptIsFormat(tmux: string, helper: string, cols: nat, rows: nat, attach: string)
    ensures Render(HelperScript(tmux, helper, cols, rows, attach))
            == HelperFormat(QuotePosixSh(tmux), QuotePosixSh(helper), Decimal(cols), Decimal(rows), QuotePosixSh(attach))
  {
    ScriptInParts(tmux, helper, cols, rows, attach);
    GuardHeadText(tmux, helper);
    GuardTailText();
    LaunchText(tmux, helper, cols, rows, attach);
    TailTexts();
    var t, h := QuotePosixSh(tmux), QuotePosixSh(helper);
    var launch := t + (" new-session -d -x " + (Decimal(cols) + (" -y " + (Decimal(rows)
                  + (" -s " + (h + (" " + QuotePosixSh(attach))))))));
    Assembled("if ", t, " has-session -t ", h, " >/dev/null 2>&1; then exit 0; fi;", " ", launch);
  }

  lemma DecimalIsSafe(n: nat)
    ensures Safe(Bare(Decimal(n)))
  {
    var d := Decimal(n);
    forall i | 0 <= i < |d| ensures PlainChar(d[i]) { assert IsDigit(d[i]); }
  }

  lemma SilenceIsSafe()
    ensures AllSafe(Silence())
  {
    assert Safe(Bare("/dev/null"));
  }

  lemma HasSessionIsSafe()
    ensures Safe(Bare("has-session"))
  {
  }

  lemma TestIsSafe()
    ensures Safe(Bare("-t")) && Safe(Bare("if"))
  {
  }

  lemma ThenExitIsSafe()
    ensures Safe(Bare("then")) && Safe(Bare("exit")) && Safe(Bare("0")) && Safe(Bare("fi"))
  {
  }

  lemma NewSessionIsSafe()
    ensures Safe(Bare("new-session"))
  {
  }

  lemma SizeFlagsAreSafe()
    ensures Safe(Bare("-d")) && Safe(Bare("-x")) && Safe(Bare("-y")) && Safe(Bare("-s"))
  {
  }

  lemma GuardIsSafe(tmux: string, helper: string)
    ensures AllSafe(HelperGuard(tmux, helper))
  {
    SilenceIsSafe();
    HasSessionIsSafe();
    TestIsSafe();
    ThenExitIsSafe();
    SpacedAreSafe([Quoted(tmux), Bare("has-session"), Bare("-t"), Quoted(helper)]);
    SpacedAreSafe([Bare("then"), Bare("exit"), Bare("0")]);
  }

  lemma LaunchIsSafe(tmux: string, helper: string, cols: nat, rows: nat, attach: string)
    ensures var words := HelperLaunch(tmux, helper, cols, rows, attach);
            AllWords(words) && AllSafe(words)
  {
    DecimalIsSafe(cols);
    DecimalIsSafe(rows);
    NewSessionIsSafe();
    SizeFlagsAreSafe();
    AllWordsIff(HelperLaunch(tmux, helper, cols, rows, attach));
  }

  lemma {:induction false} AllWordsIff(words: seq<Piece>)
    requires forall i :: 0 <= i < |words| ==> IsWord(words[i])
    ensures AllWords(words)
  {
    if words != [] {
      assert forall i :: 0 <= i < |words| - 1 ==> words[1..][i] == words[i + 1];
      AllWordsIff(words[1..]);
    }
  }

  lemma {:induction false} LastWordToken(words: seq<Piece>)
    requires words != []
    ensures |WordTokens(words)| == |words|
    ensures WordTokens(words)[|words| - 1] == Word(WordText(words[|words| - 1]))
  {
    if |words| > 1 { LastWordToken(words[1..]); }
  }

  /** The helper script runs `tmux new-session` with the attach command as one argument, and the
      shell tmux starts takes that argument apart into the attach argv: two rounds of splitting
      undo the two rounds of quoting. */
  lemma HelperRecoversArgv(tmux: string, helper: string, cols: nat, rows: nat,
                           env: seq<(string, string)>, zellij: string, session: string)
    ensures var attach := Render(CommandPieces(true, Argv(env, zellij, ["attach", session])));
            var launch := WordTokens(HelperLaunch(tmux, helper, cols, rows, attach));
            && Split(Render(HelperScript(tmux, helper, cols, rows, attach)))
               == Some(Meaning(HelperGuard(tmux, helper), None) + launch)
            && |launch| == 10 && launch[9] == Word(attach)
            && Split(attach)
               == Some([Word("exec"), Word("env")] + WordTokens(QuotedAll(Argv(env, zellij, ["attach", session]))))
  {
    var attach := Render(CommandPieces(true, Argv(env, zellij, ["attach", session])));
    var words := HelperLaunch(tmux, helper, cols, rows, attach);
    CommandSplitsBack(true, env, zellij, ["attach", session]);
    GuardIsSafe(tmux, helper);
    LaunchIsSafe(tmux, helper, cols, rows, attach);
    LineSplits(HelperGuard(tmux, helper), words);
    LastWordToken(words);
  }
}
