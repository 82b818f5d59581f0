/** The pane selector grammar shared by the daemon and the plugin. */
module Selector {
  import opened Text
  import opened Targets
  import opened Plugin

  datatype PaneType = TerminalPane | PluginPane
  datatype StringPattern = Substring(value: string) | Regex(pattern: string)

  datatype PaneSelector =
    | Id(paneType: PaneType, id: u32)
    | Focused
    | Title(pattern: StringPattern)
    | Command(pattern: StringPattern)
    | TabIndex(tab: nat, index: nat)

  datatype SelectorError = InvalidFormat | InvalidPaneType | InvalidPaneId | InvalidRegex

  const USIZE_LIMIT := 0x1_0000_0000_0000_0000
  const U32_LIMIT := 0x1_0000_0000

  /** `s.split(':')`. */
  function SplitColons(s: string): (parts: seq<string>)
    ensures parts != []
  {
    if s == "" then [""]
    else
      var rest := SplitColons(s[1..]);
      if s[0] == ':' then [""] + rest else [[s[0]] + rest[0]] + rest[1..]
  }

  /** The first colon, for `s.splitn(2, ':')`. */
  function BeforeColon(s: string): (n: nat)
    ensures n <= |s|
  {
    if s == "" || s[0] == ':' then 0 else 1 + BeforeColon(s[1..])
  }

  function ParsePaneType(s: string): Result<PaneType, SelectorError> {
    if Lower(s) == "terminal" then Ok(TerminalPane)
    else if Lower(s) == "plugin" then Ok(PluginPane)
    else Err(InvalidPaneType)
  }

  function ParseId(paneType: PaneType, digits: string): Result<PaneSelector, SelectorError> {
    match ParseUnsigned(digits, U32_LIMIT)
    case Some(n) => Ok(Id(paneType, n))
    case None => Err(InvalidPaneId)
  }

  /** `terminal:N` and `plugin:N`: here only digits are accepted. */
  function ParseShorthand(paneType: PaneType, digits: string): Result<PaneSelector, SelectorError> {
    if !AllDigits(digits) then Err(InvalidPaneId) else ParseId(paneType, digits)
  }

  function ParseIdForm(rest: string): Result<PaneSelector, SelectorError> {
    var n := BeforeColon(rest);
    if n == |rest| then Err(InvalidFormat)
    else
      match ParsePaneType(rest[..n])
      case Err(e) => Err(e)
      case Ok(paneType) => ParseId(paneType, rest[n + 1..])
  }

  function ParsePattern(s: string, validRegex: string -> bool): Result<StringPattern, SelectorError> {
    if |s| > 2 && s[0] == '/' && s[|s| - 1] == '/' then
      if validRegex(s[1..|s| - 1]) then Ok(Regex(s[1..|s| - 1])) else Err(InvalidRegex)
    else Ok(Substring(s))
  }

  function ParseTabForm(rest: string): Result<PaneSelector, SelectorError> {
    var parts := SplitColons(rest);
    if |parts| == 3 && parts[1] == "index" then
      match (ParseUnsigned(parts[0], USIZE_LIMIT), ParseUnsigned(parts[2], USIZE_LIMIT))
      case (Some(tab), Some(index)) => Ok(TabIndex(tab, index))
      case _ => Err(InvalidFormat)
    else Err(InvalidFormat)
  }

  /** `PaneSelector::from_str`; `validRegex` stands for the regex library. */
  function ParseSelector(text: string, validRegex: string -> bool): Result<PaneSelector, SelectorError> {
    var s := Trim(text);
    if s == "focused" then Ok(Focused)
    else if "terminal:" <= s then ParseShorthand(TerminalPane, s[9..])
    else if "plugin:" <= s then ParseShorthand(PluginPane, s[7..])
    else if "id:" <= s then ParseIdForm(s[3..])
    else if "title:" <= s then
      (match ParsePattern(s[6..], validRegex) case Ok(p) => Ok(Title(p)) case Err(e) => Err(e))
    else if "cmd:" <= s then
      (match ParsePattern(s[4..], validRegex) case Ok(p) => Ok(Command(p)) case Err(e) => Err(e))
    else if "tab:" <= s then ParseTabForm(s[4..])
    else Err(InvalidFormat)
  }

  function PaneTypeOf(p: PaneEntry): PaneType {
    if p.isPlugin then PluginPane else TerminalPane
  }

  // ---------------------------------------------------------------- printing and parsing

  lemma ShorthandIsChosen(word: string, digits: string, validRegex: string -> bool)
    requires word == "terminal" || word == "plugin"
    requires digits != "" && AllDigits(digits)
    ensures ParseSelector(word + (":" + digits), validRegex)
            == ParseShorthand(if word == "plugin" then PluginPane else TerminalPane, digits)
  {
    var s := word + (":" + digits);
    assert IsDigit(digits[|digits| - 1]) && s[|s| - 1] == digits[|digits| - 1];
    TrimTight(s);
    assert s[0] == if word == "plugin" then 'p' else 't';
    assert s[|word| + 1..] == digits;
  }

  /** The bare id string of a pane parses to that pane's id. */
  lemma ShorthandParses(p: PaneEntry, validRegex: string -> bool)
    ensures ParseSelector(p.IdString(), validRegex) == Ok(Id(PaneTypeOf(p), p.numericId))
  {
    ShorthandIsChosen(if p.isPlugin then "plugin" else "terminal", Decimal(p.numericId), validRegex);
    ParseOfDecimal(p.numericId, U32_LIMIT);
  }

  lemma TypeNamesParse()
    ensures ParsePaneType("terminal") == Ok(TerminalPane) && ParsePaneType("plugin") == Ok(PluginPane)
  {
    LowerKeeps("terminal");
    LowerKeeps("plugin");
  }

  lemma {:induction false} LowerKeeps(s: string)
    requires forall i :: 0 <= i < |s| ==> !('A' <= s[i] <= 'Z')
    ensures Lower(s) == s
  {
    if s != "" { LowerKeeps(s[1..]); }
  }

  lemma {:induction false} ColonAfter(word: string, rest: string)
    requires ':' !in word
    ensures BeforeColon(word + (":" + rest)) == |word|
  {
    var s := word + (":" + rest);
    if word != "" {
      assert s[0] == word[0] && s[1..] == word[1..] + (":" + rest);
      ColonAfter(word[1..], rest);
    }
  }

  lemma IdFormIsChosen(rest: string, validRegex: string -> bool)
    requires EndsTight(rest)
    ensures ParseSelector("id:" + rest, validRegex) == ParseIdForm(rest)
  {
    IdSelectorIsTight(rest);
    assert ("id:" + rest)[3..] == rest && ("id:" + rest)[0] == 'i';
  }

  lemma IdFormOf(word: string, n: u32)
    requires word == "terminal" || word == "plugin"
    ensures ParseIdForm(word + (":" + Decimal(n))) == Ok(Id(if word == "plugin" then PluginPane else TerminalPane, n))
  {
    var d := Decimal(n);
    var rest := word + (":" + d);
    ColonAfter(word, d);
    assert rest[..|word|] == word && rest[|word| + 1..] == d;
    TypeNamesParse();
    ParseOfDecimal(n, U32_LIMIT);
  }

  /** So does the selector the daemon stores, which puts `id:` in front. */
  lemma IdFormParses(p: PaneEntry, validRegex: string -> bool)
    ensures ParseSelector("id:" + p.IdString(), validRegex) == Ok(Id(PaneTypeOf(p), p.numericId))
  {
    var word := if p.isPlugin then "plugin" else "terminal";
    IdStringEndsTight(p);
    IdFormIsChosen(p.IdString(), validRegex);
    IdFormOf(word, p.numericId);
  }

  lemma {:induction false} SplitAtColon(word: string, rest: string)
    requires ':' !in word
    ensures SplitColons(word + (":" + rest)) == [word] + SplitColons(rest)
  {
    var s := word + (":" + rest);
    if word == "" {
      assert s[1..] == rest;
    } else {
      assert s[0] == word[0] && s[1..] == word[1..] + (":" + rest);
      SplitAtColon(word[1..], rest);
      assert [word[0]] + word[1..] == word;
    }
  }

  lemma {:induction false} SplitWhole(word: string)
    requires ':' !in word
    ensures SplitColons(word) == [word]
  {
    if word != "" {
      SplitWhole(word[1..]);
      assert [word[0]] + word[1..] == word;
    }
  }

  function TabSelector(tab: nat, index: nat): string {
    "tab:" + (Decimal(tab) + (":" + ("index" + (":" + Decimal(index)))))
  }

  lemma DecimalHasNoColon(n: nat)
    ensures ':' !in Decimal(n)
  {
    var d := Decimal(n);
    assert forall i :: 0 <= i < |d| ==> IsDigit(d[i]);
  }

  lemma TabFormParses(tab: nat, index: nat)
    requires tab < USIZE_LIMIT && index < USIZE_LIMIT
    ensures ParseTabForm(TabSelector(tab, index)[4..]) == Ok(TabIndex(tab, index))
  {
    var rest := "index" + (":" + Decimal(index));
    assert TabSelector(tab, index)[4..] == Decimal(tab) + (":" + rest);
    DecimalHasNoColon(tab);
    DecimalHasNoColon(index);
    SplitAtColon(Decimal(tab), rest);
    SplitAtColon("index", Decimal(index));
    SplitWhole(Decimal(index));
    ParseOfDecimal(tab, USIZE_LIMIT);
    ParseOfDecimal(index, USIZE_LIMIT);
  }

  lemma DecimalEndsTight(n: nat)
    ensures Decimal(n) != "" && EndsTight(Decimal(n))
  {
    var d := Decimal(n);
    assert IsDigit(d[|d| - 1]);
  }

  lemma TabFormIsChosen(rest: string, validRegex: string -> bool)
    requires rest != "" && EndsTight(rest)
    ensures ParseSelector("tab:" + rest, validRegex) == ParseTabForm(rest)
  {
    var s := "tab:" + rest;
    assert s[|s| - 1] == rest[|rest| - 1] && s[0] == 't' && s[1] == 'a' && s[4..] == rest;
    TrimTight(s);
  }

  lemma TabSelectorEndsTight(tab: nat, index: nat)
    ensures var rest := TabSelector(tab, index)[4..];
            rest != "" && EndsTight(rest) && TabSelector(tab, index) == "tab:" + rest
  {
    DecimalEndsTight(index);
    var d := Decimal(index);
    var s := TabSelector(tab, index);
    assert s[|s| - 1] == d[|d| - 1];
  }

  /** A printed tab selector parses back to its tab and index. */
  lemma TabSelectorParses(tab: nat, index: nat, validRegex: string -> bool)
    requires tab < USIZE_LIMIT && index < USIZE_LIMIT
    ensures ParseSelector(TabSelector(tab, index), validRegex) == Ok(TabIndex(tab, index))
  {
    TabSelectorEndsTight(tab, index);
    TabFormIsChosen(TabSelector(tab, index)[4..], validRegex);
    TabFormParses(tab, index);
  }
}
