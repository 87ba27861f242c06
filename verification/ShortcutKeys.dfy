/**
 Key names of shortcuts: the codes a binding may use, their aliases, and the normal form of one
 token of a shortcut text.
 */
module ShortcutKeys {
  import opened Basics

  predicate IsModifier(s: string) {
    s == "Meta" || s == "Ctrl" || s == "Alt" || s == "Shift"
  }

  predicate IsArrowOrBracket(s: string) {
    || s == "ArrowUp" || s == "ArrowDown" || s == "ArrowLeft" || s == "ArrowRight"
    || s == "BracketLeft" || s == "BracketRight"
  }

  predicate IsEditing(s: string) {
    s == "Enter" || s == "Escape" || s == "Space" || s == "Tab" || s == "Delete" || s == "Home" || s == "End"
  }

  predicate IsSign(s: string) {
    s == "Comma" || s == "Period" || s == "Slash" || s == "Minus" || s == "Equal" || s == "Quote"
  }

  predicate IsLongName(s: string) {
    s == "Backspace" || s == "PageUp" || s == "PageDown" || s == "Backquote" || s == "Semicolon"
  }

  predicate IsNamed(s: string) {
    IsArrowOrBracket(s) || IsEditing(s) || IsSign(s) || IsLongName(s)
  }

  predicate IsKey(s: string) {
    |s| == 4 && s[0] == 'K' && s[1] == 'e' && s[2] == 'y' && 'A' <= s[3] <= 'Z'
  }

  predicate IsDigit(s: string) {
    |s| == 6 && s[0] == 'D' && s[1] == 'i' && s[2] == 'g' && s[3] == 'i' && s[4] == 't' && '0' <= s[5] <= '9'
  }

  predicate IsFunctionKey(s: string) {
    && 2 <= |s| <= 3 && s[0] == 'F'
    && (if |s| == 2 then '1' <= s[1] <= '9' else s[1] == '1' && '0' <= s[2] <= '2')
  }

  predicate IsSupported(s: string) {
    IsKey(s) || IsDigit(s) || IsFunctionKey(s) || IsNamed(s)
  }

  // ---------------------------------------------------------------- characters

  predicate IsLetter(c: char) {
    'a' <= c <= 'z' || 'A' <= c <= 'Z'
  }

  /**
   Lower case, as far as an alias can see it: the Kelvin sign is the only other character whose lower
   case is within ASCII; the lower case of everything else stays outside.
   */
  function LowerChar(c: char): char {
    if 'A' <= c <= 'Z' then (c as int + 32) as char else if c == '\U{212A}' then 'k' else c
  }

  function UpperChar(c: char): char {
    if 'a' <= c <= 'z' then (c as int - 32) as char else c
  }

  function Lower(s: string): string {
    seq(|s|, i requires 0 <= i < |s| => LowerChar(s[i]))
  }

  /** White space and line ends, as `trim` removes them. */
  predicate IsSpace(c: char) {
    || '\U{09}' <= c <= '\U{0D}' || c == ' ' || c == '\U{A0}' || c == '\U{1680}' || '\U{2000}' <= c <= '\U{200A}'
    || c == '\U{2028}' || c == '\U{2029}' || c == '\U{202F}' || c == '\U{205F}' || c == '\U{3000}' || c == '\U{FEFF}'
  }

  function TrimStart(s: string): string {
    if s != [] && IsSpace(s[0]) then TrimStart(s[1..]) else s
  }

  function TrimEnd(s: string): string {
    if s != [] && IsSpace(s[|s| - 1]) then TrimEnd(s[..|s| - 1]) else s
  }

  function Trim(s: string): string {
    TrimEnd(TrimStart(s))
  }

  // ---------------------------------------------------------------- the normal form of a token

  /** The table of aliases, grouped by length. */
  function Alias(s: string): Option<string> {
    if |s| <= 3 then ShortAlias(s)
    else if |s| == 4 then AliasOfFour(s)
    else if |s| == 5 then AliasOfFive(s)
    else if |s| == 6 then AliasOfSix(s)
    else LongAlias(s)
  }

  function ShortAlias(s: string): Option<string> {
    if s == "up" then Some("ArrowUp")
    else if s == "cmd" then Some("Meta")
    else if s == "alt" then Some("Alt")
    else if s == "esc" then Some("Escape")
    else if s == "end" then Some("End")
    else if s == "tab" then Some("Tab")
    else if s == "del" then Some("Delete")
    else None
  }

  function AliasOfFour(s: string): Option<string> {
    if s == "meta" then Some("Meta")
    else if s == "ctrl" then Some("Ctrl")
    else if s == "down" then Some("ArrowDown")
    else if s == "left" then Some("ArrowLeft")
    else if s == "home" then Some("Home")
    else None
  }

  function AliasOfFive(s: string): Option<string> {
    if s == "shift" then Some("Shift")
    else if s == "right" then Some("ArrowRight")
    else if s == "space" then Some("Space")
    else if s == "enter" then Some("Enter")
    else if s == "comma" then Some("Comma")
    else if s == "slash" then Some("Slash")
    else if s == "minus" then Some("Minus")
    else if s == "equal" then Some("Equal")
    else if s == "quote" then Some("Quote")
    else None
  }

  function AliasOfSix(s: string): Option<string> {
    if s == "option" then Some("Alt")
    else if s == "escape" then Some("Escape")
    else if s == "delete" then Some("Delete")
    else if s == "pageup" then Some("PageUp")
    else if s == "period" then Some("Period")
    else if s == "return" then Some("Enter")
    else None
  }

  function LongAlias(s: string): Option<string> {
    if s == "command" then Some("Meta")
    else if s == "control" then Some("Ctrl")
    else if s == "pagedown" then Some("PageDown")
    else if s == "backspace" then Some("Backspace")
    else if s == "backquote" then Some("Backquote")
    else if s == "semicolon" then Some("Semicolon")
    else None
  }

  predicate KeyPattern(s: string) {
    |s| == 4 && (s[0] == 'k' || s[0] == 'K') && (s[1] == 'e' || s[1] == 'E') && (s[2] == 'y' || s[2] == 'Y')
      && IsLetter(s[3])
  }

  predicate DigitPattern(s: string) {
    && |s| == 6 && (s[0] == 'd' || s[0] == 'D') && (s[1] == 'i' || s[1] == 'I') && (s[2] == 'g' || s[2] == 'G')
    && (s[3] == 'i' || s[3] == 'I') && (s[4] == 't' || s[4] == 'T') && '0' <= s[5] <= '9'
  }

  predicate FunctionKeyPattern(s: string) {
    && 2 <= |s| <= 3 && (s[0] == 'f' || s[0] == 'F')
    && (if |s| == 2 then '1' <= s[1] <= '9' else s[1] == '1' && '0' <= s[2] <= '2')
  }

  /** What a token stands for that is no alias. */
  function Spelled(s: string): string {
    if |s| == 1 && IsLetter(s[0]) then "Key" + [UpperChar(s[0])]
    else if |s| == 1 && '0' <= s[0] <= '9' then "Digit" + s
    else if KeyPattern(s) then "Key" + [UpperChar(s[3])]
    else if DigitPattern(s) then "Digit" + [s[5]]
    else if FunctionKeyPattern(s) then "F" + s[1..]
    else s
  }

  function Normalize(token: string): string {
    var trimmed := Trim(token);
    var alias := Alias(Lower(trimmed));
    if alias.Some? then alias.value else Spelled(trimmed)
  }

  // ---------------------------------------------------------------- codes are their own normal form

  /** Letters and digits only. */
  predicate Plain(s: string) {
    s != [] && forall i | 0 <= i < |s| :: IsLetter(s[i]) || '0' <= s[i] <= '9'
  }

  lemma PlainStays(s: string)
    requires Plain(s)
    ensures Trim(s) == s && '+' !in s
  {
    assert !IsSpace(s[0]) && !IsSpace(s[|s| - 1]);
  }

  /** Plain, short, and its own normal form. */
  predicate Canonical(s: string) {
    && Plain(s) && |s| <= 12
    && var alias := Alias(Lower(s));
       if alias.Some? then alias.value == s else Spelled(s) == s
  }

  lemma CanonicalStays(s: string)
    requires Canonical(s)
    ensures Normalize(s) == s && Trim(s) == s && '+' !in s
  {
    PlainStays(s);
  }

  lemma KeyStays(s: string)
    requires IsKey(s)
    ensures Canonical(s)
  {
    var l := Lower(s);
    assert l[0] == 'k' && l[1] == 'e' && l[2] == 'y';
  }

  lemma DigitStays(s: string)
    requires IsDigit(s)
    ensures Canonical(s)
  {
    var l := Lower(s);
    assert l[0] == 'd' && l[1] == 'i' && l[2] == 'g';
  }

  lemma FunctionKeyStays(s: string)
    requires IsFunctionKey(s)
    ensures Canonical(s)
  {
    var l := Lower(s);
    assert l[0] == 'f' && l[1] == s[1];
  }

  lemma ModifierStays(s: string)
    requires IsModifier(s)
    ensures Canonical(s)
  {
    var l := Lower(s);
    if s == "Meta" {
      assert l == "meta";
    } else if s == "Ctrl" {
      assert l == "ctrl";
    } else if s == "Alt" {
      assert l == "alt";
    } else if s == "Shift" {
      assert l == "shift";
    }
  }

  lemma EditingIsAliased(s: string)
    requires IsEditing(s)
    ensures Alias(Lower(s)) == Some(s)
  {
    var l := Lower(s);
    if s == "Enter" {
      assert l == "enter";
    } else if s == "Escape" {
      assert l == "escape";
    } else if s == "Space" {
      assert l == "space";
    } else if s == "Tab" {
      assert l == "tab";
    } else if s == "Delete" {
      assert l == "delete";
    } else if s == "Home" {
      assert l == "home";
    } else {
      assert l == "end";
    }
  }

  lemma SignIsAliased(s: string)
    requires IsSign(s)
    ensures Alias(Lower(s)) == Some(s)
  {
    var l := Lower(s);
    if s == "Comma" {
      assert l == "comma";
    } else if s == "Period" {
      assert l == "period";
    } else if s == "Slash" {
      assert l == "slash";
    } else if s == "Minus" {
      assert l == "minus";
    } else if s == "Equal" {
      assert l == "equal";
    } else {
      assert l == "quote";
    }
  }

  lemma LongNameIsAliased(s: string)
    requires IsLongName(s)
    ensures Alias(Lower(s)) == Some(s)
  {
    var l := Lower(s);
    if s == "Backspace" {
      assert l == "backspace";
    } else if s == "PageUp" {
      assert l == "pageup";
    } else if s == "PageDown" {
      assert l == "pagedown";
    } else if s == "Backquote" {
      assert l == "backquote";
    } else {
      assert l == "semicolon";
    }
  }

  /** Arrows and brackets have no alias of their own name. */
  lemma NotAliased(s: string)
    requires |s| >= 7 && (s[0] == 'A' || s[0] == 'B') && s[1] == 'r'
    ensures Alias(Lower(s)).None? && Spelled(s) == s
  {
    var l := Lower(s);
    assert (l[0] == 'a' || l[0] == 'b') && l[1] == 'r';
  }

  lemma ShortNameIsPlain(s: string)
    requires IsEditing(s) || IsSign(s)
    ensures Plain(s) && |s| <= 12
  {
  }

  lemma LongNameIsPlain(s: string)
    requires IsLongName(s) || IsArrowOrBracket(s)
    ensures Plain(s) && |s| <= 12
  {
  }

  lemma NamedStays(s: string)
    requires IsNamed(s)
    ensures Canonical(s)
  {
    if IsEditing(s) {
      ShortNameIsPlain(s);
      EditingIsAliased(s);
    } else if IsSign(s) {
      ShortNameIsPlain(s);
      SignIsAliased(s);
    } else {
      LongNameIsPlain(s);
      if IsLongName(s) {
        LongNameIsAliased(s);
      } else {
        NotAliased(s);
      }
    }
  }

  lemma SupportedStays(s: string)
    requires IsSupported(s)
    ensures Canonical(s)
  {
    if IsKey(s) {
      KeyStays(s);
    } else if IsDigit(s) {
      DigitStays(s);
    } else if IsFunctionKey(s) {
      FunctionKeyStays(s);
    } else {
      NamedStays(s);
    }
  }
}
