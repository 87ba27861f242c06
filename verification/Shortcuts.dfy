/**
 Shortcut texts and their canonical bindings. A text is a list of key names joined by `+`; the
 binding of an accepted text names the modifiers in a fixed order and then the key code. Bindings
 are compared as texts, so everything rests on the binding being a normal form.
 */
module Shortcuts {
  import opened Basics
  import opened ShortcutKeys

  // ---------------------------------------------------------------- splitting and joining

  function SplitPlus(s: string): (r: seq<string>)
    ensures r != []
  {
    if s == "" then [""]
    else if s[0] == '+' then [""] + SplitPlus(s[1..])
    else
      var r := SplitPlus(s[1..]);
      [[s[0]] + r[0]] + r[1..]
  }

  function Trimmed(tokens: seq<string>): seq<string> {
    if tokens == [] then []
    else (if Trim(tokens[0]) == "" then [] else [Trim(tokens[0])]) + Trimmed(tokens[1..])
  }

  function Tokens(value: string): seq<string> {
    Trimmed(SplitPlus(value))
  }

  function Join(tokens: seq<string>): string {
    if tokens == [] then ""
    else if |tokens| == 1 then tokens[0]
    else tokens[0] + "+" + Join(tokens[1..])
  }

  lemma {:induction false} SplitAlone(a: string)
    requires '+' !in a
    ensures SplitPlus(a) == [a]
  {
    if a != "" {
      SplitAlone(a[1..]);
      assert a == [a[0]] + a[1..];
    }
  }

  lemma {:induction false} SplitFirst(a: string, rest: string)
    requires '+' !in a
    ensures SplitPlus(a + "+" + rest) == [a] + SplitPlus(rest)
  {
    var s := a + "+" + rest;
    if a == "" {
      assert s[1..] == rest;
    } else {
      assert s[1..] == a[1..] + "+" + rest;
      SplitFirst(a[1..], rest);
      assert a == [a[0]] + a[1..];
      assert SplitPlus(s[1..])[0] == a[1..] && SplitPlus(s[1..])[1..] == SplitPlus(rest);
    }
  }

  /** Joining key names and reading them back gives the same names. */
  lemma {:induction false} TokensOfJoin(tokens: seq<string>)
    requires tokens != [] && forall i | 0 <= i < |tokens| :: Canonical(tokens[i])
    ensures Tokens(Join(tokens)) == tokens
  {
    CanonicalStays(tokens[0]);
    if |tokens| == 1 {
      SplitAlone(tokens[0]);
      assert Trimmed([tokens[0]]) == [tokens[0]] + Trimmed([tokens[0]][1..]);
    } else {
      SplitFirst(tokens[0], Join(tokens[1..]));
      TokensOfJoin(tokens[1..]);
      assert SplitPlus(Join(tokens))[1..] == SplitPlus(Join(tokens[1..]));
    }
  }

  // ---------------------------------------------------------------- reading a text

  datatype Parts = Parts(modifiers: set<string>, code: string)

  datatype Scanned = Scanned(modifiers: set<string>, code: Option<string>)

  function Take(sc: Scanned, name: string): Option<Scanned> {
    if IsModifier(name) then
      if name in sc.modifiers then None else Some(sc.(modifiers := sc.modifiers + {name}))
    else if sc.code.Some? || !IsSupported(name) then None
    else Some(sc.(code := Some(name)))
  }

  function Scan(names: seq<string>): Option<Scanned> {
    if names == [] then Some(Scanned({}, None))
    else
      var before := Scan(names[..|names| - 1]);
      if before.None? then None else Take(before.value, names[|names| - 1])
  }

  function Names(tokens: seq<string>): seq<string> {
    seq(|tokens|, i requires 0 <= i < |tokens| => Normalize(tokens[i]))
  }

  function ParseParts(value: string): Option<Parts> {
    var tokens := Tokens(value);
    if tokens == [] || |tokens| > 5 then None
    else
      var sc := Scan(Names(tokens));
      if sc.None? || sc.value.code.None? || sc.value.modifiers == {} then None
      else Some(Parts(sc.value.modifiers, sc.value.code.value))
  }

  /** The loop of the source: one set of modifiers, one code. */
  method ParseShortcutParts(value: string) returns (r: Option<Parts>)
    ensures r == ParseParts(value)
  {
    var tokens := Tokens(value);
    if tokens == [] || |tokens| > 5 {
      return None;
    }
    var modifiers: set<string> := {};
    var code: Option<string> := None;
    ghost var names := Names(tokens);
    var k := 0;
    while k < |tokens|
      invariant 0 <= k <= |tokens|
      invariant Scan(names[..k]) == Some(Scanned(modifiers, code))
    {
      var name := Normalize(tokens[k]);
      assert names[..k + 1][..k] == names[..k];
      assert Scan(names[..k + 1]) == Take(Scanned(modifiers, code), name);
      if IsModifier(name) {
        if name in modifiers {
          ScanStuck(names, k + 1);
          return None;
        }
        modifiers := modifiers + {name};
      } else {
        if code.Some? || !IsSupported(name) {
          ScanStuck(names, k + 1);
          return None;
        }
        code := Some(name);
      }
      k := k + 1;
    }
    assert names[..k] == names;
    if code.None? || modifiers == {} {
      return None;
    }
    r := Some(Parts(modifiers, code.value));
  }

  lemma {:induction false} ScanStuck(names: seq<string>, k: nat)
    requires k <= |names| && Scan(names[..k]).None?
    ensures Scan(names).None?
    decreases |names|
  {
    if k == |names| {
      assert names[..k] == names;
    } else {
      assert names[..|names| - 1][..k] == names[..k];
      ScanStuck(names[..|names| - 1], k);
    }
  }

  // ---------------------------------------------------------------- what reading means

  predicate Modifiers(ms: set<string>) {
    forall m | m in ms :: IsModifier(m)
  }

  function CodeOf(code: Option<string>): set<string> {
    if code.Some? then {code.value} else {}
  }

  ghost predicate Plausible(sc: Scanned) {
    Modifiers(sc.modifiers) && (sc.code.Some? ==> IsSupported(sc.code.value))
  }

  lemma SupportedIsNoModifier(s: string)
    requires IsSupported(s)
    ensures !IsModifier(s)
  {
  }

  /** Each modifier and the code occurs once, and nothing else does. */
  ghost predicate Consists(names: seq<string>, sc: Scanned) {
    Plausible(sc) && multiset(names) == multiset(sc.modifiers) + multiset(CodeOf(sc.code))
  }

  /**
   Reading looks only at which names occur: a text is read as these modifiers and this code exactly
   when it consists of them, in any order.
   */
  lemma ScanMeans(names: seq<string>, sc: Scanned)
    ensures Scan(names) == Some(sc) <==> Consists(names, sc)
  {
    if Scan(names).Some? {
      ScanForward(names, Scan(names).value);
    }
    if Consists(names, sc) {
      ScanBackward(names, sc);
    }
  }

  lemma {:induction false} ScanForward(names: seq<string>, sc: Scanned)
    requires Scan(names) == Some(sc)
    ensures Consists(names, sc)
  {
    if names == [] {
      NothingConsists();
    } else {
      var init, name := names[..|names| - 1], names[|names| - 1];
      ScanForward(init, Scan(init).value);
      LastTaken(names, init, name, Scan(init).value, sc);
    }
  }

  lemma LastTaken(names: seq<string>, init: seq<string>, name: string, before: Scanned, sc: Scanned)
    requires names != [] && init == names[..|names| - 1] && name == names[|names| - 1]
    requires Consists(init, before) && Take(before, name) == Some(sc)
    ensures Consists(names, sc)
  {
    TakeAdds(init, name, before, sc);
    assert names == init + [name];
  }

  lemma NothingConsists()
    ensures Consists([], Scanned({}, None))
  {
  }

  lemma TakeAdds(init: seq<string>, name: string, before: Scanned, sc: Scanned)
    requires Consists(init, before) && Take(before, name) == Some(sc)
    ensures Consists(init + [name], sc)
  {
    AddOne(init, name, before.modifiers, CodeOf(before.code));
  }

  lemma AddOne(init: seq<string>, name: string, a: set<string>, b: set<string>)
    requires multiset(init) == multiset(a) + multiset(b)
    ensures name !in a ==> multiset(init + [name]) == multiset(a + {name}) + multiset(b)
    ensures b == {} ==> multiset(init + [name]) == multiset(a) + multiset({name})
  {
    assert multiset(init + [name]) == multiset(init) + multiset{name};
    if name !in a {
      assert multiset(a + {name}) == multiset(a) + multiset{name};
    }
    if b == {} {
      assert multiset(init) == multiset(a);
    }
  }

  lemma TakeOne(init: seq<string>, name: string, a: set<string>, b: set<string>)
    requires a !! b && multiset(init + [name]) == multiset(a) + multiset(b)
    ensures name in a + b
    ensures multiset(init) == multiset(a - {name}) + multiset(b - {name})
  {
    assert multiset(init + [name]) == multiset(init) + multiset{name};
    assert (multiset(init) + multiset{name})[name] > 0;
    forall x
      ensures multiset(init)[x] == multiset(a - {name})[x] + multiset(b - {name})[x]
    {
      assert (multiset(init) + multiset{name})[x] == multiset(a)[x] + multiset(b)[x];
    }
  }

  /** The state before the last name was taken. */
  function Without(sc: Scanned, name: string): Scanned {
    if IsModifier(name) then sc.(modifiers := sc.modifiers - {name}) else sc.(code := None)
  }

  lemma TakeBack(sc: Scanned, name: string)
    requires Plausible(sc) && name in sc.modifiers + CodeOf(sc.code)
    ensures Take(Without(sc, name), name) == Some(sc) && Plausible(Without(sc, name))
    ensures sc.modifiers - {name} == Without(sc, name).modifiers
            && CodeOf(sc.code) - {name} == CodeOf(Without(sc, name).code)
  {
    if sc.code.Some? {
      SupportedIsNoModifier(sc.code.value);
    }
    if IsModifier(name) {
      assert sc.modifiers - {name} + {name} == sc.modifiers;
    }
  }

  lemma EmptyScan(sc: Scanned)
    requires multiset{} == multiset(sc.modifiers) + multiset(CodeOf(sc.code))
    ensures sc == Scanned({}, None)
  {
    forall m
      ensures m !in sc.modifiers && m !in CodeOf(sc.code)
    {
      assert (multiset(sc.modifiers) + multiset(CodeOf(sc.code)))[m] == 0;
    }
  }

  lemma {:induction false} ScanBackward(names: seq<string>, sc: Scanned)
    requires Consists(names, sc)
    ensures Scan(names) == Some(sc)
  {
    if names == [] {
      EmptyScan(sc);
    } else {
      var init, name := names[..|names| - 1], names[|names| - 1];
      assert names == init + [name];
      if sc.code.Some? {
        SupportedIsNoModifier(sc.code.value);
      }
      TakeOne(init, name, sc.modifiers, CodeOf(sc.code));
      TakeBack(sc, name);
      ScanBackward(init, Without(sc, name));
    }
  }

  // ---------------------------------------------------------------- the canonical binding

  const ModifierOrder: seq<string> := ["Meta", "Ctrl", "Alt", "Shift"]

  function Keep(order: seq<string>, ms: set<string>): seq<string> {
    if order == [] then [] else (if order[0] in ms then [order[0]] else []) + Keep(order[1..], ms)
  }

  /** The modifiers in their fixed order. */
  function Listed(modifiers: set<string>): seq<string> {
    Keep(ModifierOrder, modifiers)
  }

  function BuildBinding(modifiers: set<string>, code: string): string {
    Join(Listed(modifiers) + [code])
  }

  /** Filtering an order without repetitions keeps each chosen name once. */
  lemma {:induction false} KeepMeans(order: seq<string>, ms: set<string>)
    requires forall i, j | 0 <= i < j < |order| :: order[i] != order[j]
    ensures multiset(Keep(order, ms)) == multiset(Both(order, ms))
  {
    if order != [] {
      var rest := order[1..];
      assert order == [order[0]] + rest && order[0] !in rest;
      KeepMeans(rest, ms);
      if order[0] in ms {
        assert Both(order, ms) == Both(rest, ms) + {order[0]};
        PutFirst(order[0], Keep(rest, ms), Both(rest, ms));
      } else {
        assert Both(order, ms) == Both(rest, ms);
        assert Keep(order, ms) == Keep(rest, ms);
      }
    }
  }

  function Both(order: seq<string>, ms: set<string>): set<string> {
    set m | m in ms && m in order
  }

  lemma PutFirst(name: string, l: seq<string>, a: set<string>)
    requires multiset(l) == multiset(a) && name !in a
    ensures multiset([name] + l) == multiset(a + {name})
  {
    assert multiset([name] + l) == multiset{name} + multiset(l);
  }

  lemma {:induction false} KeepIsShort(order: seq<string>, ms: set<string>)
    ensures |Keep(order, ms)| <= |order| && Lengths(Keep(order, ms)) <= Lengths(order)
  {
    if order != [] {
      KeepIsShort(order[1..], ms);
      if order[0] in ms {
        LengthsJoin([order[0]], Keep(order[1..], ms));
      } else {
        assert Keep(order, ms) == Keep(order[1..], ms);
      }
    }
  }

  lemma ListedMeans(modifiers: set<string>)
    requires Modifiers(modifiers)
    ensures multiset(Listed(modifiers)) == multiset(modifiers) && |Listed(modifiers)| <= 4
    ensures forall i | 0 <= i < |Listed(modifiers)| :: IsModifier(Listed(modifiers)[i])
  {
    var l := Listed(modifiers);
    KeepMeans(ModifierOrder, modifiers);
    KeepIsShort(ModifierOrder, modifiers);
    assert Both(ModifierOrder, modifiers) == modifiers;
    forall i | 0 <= i < |l|
      ensures IsModifier(l[i])
    {
      assert l[i] in multiset(l);
    }
  }

  lemma {:induction false} CanonicalNames(tokens: seq<string>)
    requires forall i | 0 <= i < |tokens| :: Canonical(tokens[i])
    ensures Names(tokens) == tokens
  {
    forall i | 0 <= i < |tokens|
      ensures Normalize(tokens[i]) == tokens[i]
    {
      CanonicalStays(tokens[i]);
    }
  }

  /** Reading a canonical binding gives back its modifiers and its code. */
  lemma BindingRoundTrip(modifiers: set<string>, code: string)
    requires Modifiers(modifiers) && modifiers != {} && IsSupported(code)
    ensures ParseParts(BuildBinding(modifiers, code)) == Some(Parts(modifiers, code))
  {
    var tokens := Listed(modifiers) + [code];
    ListedMeans(modifiers);
    forall i | 0 <= i < |tokens|
      ensures Canonical(tokens[i])
    {
      if i < |Listed(modifiers)| {
        ModifierStays(tokens[i]);
      } else {
        SupportedStays(code);
      }
    }
    TokensOfJoin(tokens);
    CanonicalNames(tokens);
    assert multiset(tokens) == multiset(modifiers) + multiset{code};
    ScanMeans(tokens, Scanned(modifiers, Some(code)));
  }

  lemma ParsedIsPlausible(value: string)
    requires ParseParts(value).Some?
    ensures var p := ParseParts(value).value;
            Modifiers(p.modifiers) && p.modifiers != {} && IsSupported(p.code)
  {
    var names := Names(Tokens(value));
    ScanMeans(names, Scan(names).value);
  }

  // ---------------------------------------------------------------- validation

  datatype Platform = Macos | Windows

  datatype Scope = App | Terminal

  datatype BindingError = Invalid | MissingModifier | PlatformModifier | SystemReserved

  predicate ReservedOnWindows(p: Parts) {
    || "Meta" in p.modifiers
    || ("Ctrl" in p.modifiers && "Alt" !in p.modifiers && "Shift" !in p.modifiers
        && p.code in ["KeyC", "KeyV", "KeyX", "KeyZ", "KeyA", "KeyY", "KeyM"])
    || ("Alt" in p.modifiers && p.code in ["F4", "Tab", "Escape"])
    || ("Ctrl" in p.modifiers && "Alt" in p.modifiers && p.code == "Delete")
    || ("Ctrl" in p.modifiers && "Shift" in p.modifiers && p.code == "Escape")
  }

  predicate ReservedOnMacos(p: Parts) {
    var meta, ctrl, alt, shift := "Meta" in p.modifiers, "Ctrl" in p.modifiers, "Alt" in p.modifiers,
      "Shift" in p.modifiers;
    || (meta && !ctrl && !alt && !shift
        && p.code in ["KeyQ", "KeyH", "KeyM", "KeyC", "KeyV", "KeyX", "KeyZ", "KeyA", "Tab", "Space"])
    || (meta && shift && !alt && !ctrl && p.code == "KeyZ")
    || (meta && alt && p.code == "Escape")
    || (ctrl && meta && p.code in ["KeyQ", "KeyF"])
    || (meta && alt && !ctrl && !shift && p.code == "KeyH")
  }

  predicate Reserved(p: Parts, platform: Platform) {
    if platform.Windows? then ReservedOnWindows(p) else ReservedOnMacos(p)
  }

  predicate IsSystemReserved(binding: string, platform: Platform) {
    var parsed := ParseParts(binding);
    parsed.None? || Reserved(parsed.value, platform)
  }

  function ValidateText(value: string, platform: Platform, scope: Scope): Result<string, BindingError> {
    if Utf16Length(value) > 96 then Failure(Invalid)
    else
      var parsed := ParseParts(value);
      if parsed.None? then Failure(MissingModifier)
      else if platform.Windows? && "Meta" in parsed.value.modifiers then Failure(PlatformModifier)
      else if scope.App? && (if platform.Macos? then "Meta" else "Ctrl") !in parsed.value.modifiers
      then Failure(MissingModifier)
      else
        var binding := BuildBinding(parsed.value.modifiers, parsed.value.code);
        if IsSystemReserved(binding, platform) then Failure(SystemReserved) else Success(binding)
  }

  /** A command may be left without a shortcut. */
  function Validate(value: Option<string>, platform: Platform, scope: Scope): Result<Option<string>, BindingError> {
    if value.None? then Success(None)
    else
      var r := ValidateText(value.value, platform, scope);
      if r.Failure? then Failure(r.error) else Success(Some(r.value))
  }

  lemma BindingIsShort(modifiers: set<string>, code: string)
    requires Modifiers(modifiers) && IsSupported(code)
    ensures Utf16Length(BuildBinding(modifiers, code)) <= 96
  {
    SupportedStays(code);
    ModifierLengths(modifiers, code);
    Utf16LengthBound(BuildBinding(modifiers, code));
  }

  /** The longest binding has four modifiers and a code of twelve letters. */
  lemma ModifierLengths(modifiers: set<string>, code: string)
    requires |code| <= 12
    ensures |BuildBinding(modifiers, code)| <= 48
  {
    var l := Listed(modifiers);
    ShortJoin(l, code);
    ListedIsShort(modifiers);
  }

  function Lengths(tokens: seq<string>): nat {
    if tokens == [] then 0 else |tokens[0]| + 1 + Lengths(tokens[1..])
  }

  lemma {:induction false} ShortJoin(tokens: seq<string>, code: string)
    ensures |Join(tokens + [code])| == Lengths(tokens) + |code|
  {
    if tokens != [] {
      assert (tokens + [code])[1..] == tokens[1..] + [code];
      ShortJoin(tokens[1..], code);
    }
  }

  lemma {:induction false} LengthsJoin(a: seq<string>, b: seq<string>)
    ensures Lengths(a + b) == Lengths(a) + Lengths(b)
  {
    if a == [] {
      assert a + b == b;
    } else {
      assert (a + b)[1..] == a[1..] + b;
      LengthsJoin(a[1..], b);
    }
  }

  lemma ListedIsShort(modifiers: set<string>)
    ensures Lengths(Listed(modifiers)) <= 20
  {
    KeepIsShort(ModifierOrder, modifiers);
    assert ModifierOrder == ["Meta"] + (["Ctrl"] + (["Alt"] + ["Shift"]));
    LengthsJoin(["Meta"], ["Ctrl"] + (["Alt"] + ["Shift"]));
    LengthsJoin(["Ctrl"], ["Alt"] + ["Shift"]);
    LengthsJoin(["Alt"], ["Shift"]);
  }

  /** The accepted texts are exactly those whose parts suit the platform and are not reserved. */
  lemma AcceptedExactly(value: string, platform: Platform, scope: Scope)
    ensures ValidateText(value, platform, scope).Success? <==>
              && Utf16Length(value) <= 96
              && ParseParts(value).Some?
              && var p := ParseParts(value).value;
                 && !(platform.Windows? && "Meta" in p.modifiers)
                 && (scope.App? ==> (if platform.Macos? then "Meta" else "Ctrl") in p.modifiers)
                 && !Reserved(p, platform)
    ensures ValidateText(value, platform, scope).Success? ==>
              ParseParts(ValidateText(value, platform, scope).value) == ParseParts(value)
  {
    if ParseParts(value).Some? {
      ParsedIsPlausible(value);
      BindingRoundTrip(ParseParts(value).value.modifiers, ParseParts(value).value.code);
    }
  }

  /** Validation is a projection: a binding it returns is accepted and stays what it is. */
  lemma ValidateIsProjection(value: Option<string>, platform: Platform, scope: Scope)
    requires Validate(value, platform, scope).Success?
    ensures var binding := Validate(value, platform, scope).value;
            Validate(binding, platform, scope) == Success(binding)
  {
    if value.Some? {
      AcceptedExactly(value.value, platform, scope);
      ParsedIsPlausible(value.value);
      var p := ParseParts(value.value).value;
      BindingIsShort(p.modifiers, p.code);
      AcceptedExactly(ValidateText(value.value, platform, scope).value, platform, scope);
    }
  }

  /** Two accepted texts have the same binding exactly when they have the same modifiers and code. */
  lemma SameBindingExactly(v: string, w: string, platform: Platform, scope: Scope, scope': Scope)
    ensures var b, c := ValidateText(v, platform, scope), ValidateText(w, platform, scope');
            b.Success? && c.Success? ==> (b.value == c.value <==> ParseParts(v) == ParseParts(w))
  {
    AcceptedExactly(v, platform, scope);
    AcceptedExactly(w, platform, scope');
  }

  // ---------------------------------------------------------------- keyboard events

  datatype KeyEvent = KeyEvent(
    code: string, key: string, meta: bool, ctrl: bool, alt: bool, shift: bool, composing: bool, repeated: bool)

  function EventCode(e: KeyEvent): string {
    if IsSupported(e.code) then e.code
    else if |e.key| == 1 && IsLetter(e.key[0]) then "Key" + [UpperChar(e.key[0])]
    else if |e.key| == 1 && '0' <= e.key[0] <= '9' then "Digit" + e.key
    else Normalize(e.key)
  }

  function EventModifiers(e: KeyEvent): set<string> {
    (if e.meta then {"Meta"} else {}) + (if e.ctrl then {"Ctrl"} else {})
    + (if e.alt then {"Alt"} else {}) + (if e.shift then {"Shift"} else {})
  }

  function FromEvent(e: KeyEvent, platform: Platform, scope: Scope): Result<string, BindingError> {
    if e.composing || e.repeated then Failure(Invalid)
    else if !IsSupported(EventCode(e)) then Failure(Invalid)
    else ValidateText(BuildBinding(EventModifiers(e), EventCode(e)), platform, scope)
  }

  predicate Matches(e: KeyEvent, binding: Option<string>) {
    && binding.Some? && binding.value != "" && !e.composing
    && var parsed := ParseParts(binding.value);
       && parsed.Some? && EventCode(e) == parsed.value.code
       && e.meta == ("Meta" in parsed.value.modifiers) && e.ctrl == ("Ctrl" in parsed.value.modifiers)
       && e.alt == ("Alt" in parsed.value.modifiers) && e.shift == ("Shift" in parsed.value.modifiers)
  }

  lemma EventModifiersMean(e: KeyEvent, modifiers: set<string>)
    requires Modifiers(modifiers)
    ensures modifiers == EventModifiers(e) <==>
              e.meta == ("Meta" in modifiers) && e.ctrl == ("Ctrl" in modifiers)
              && e.alt == ("Alt" in modifiers) && e.shift == ("Shift" in modifiers)
    ensures Modifiers(EventModifiers(e))
  {
    assert "Meta" != "Ctrl" && "Meta" != "Alt" && "Meta" != "Shift" && "Ctrl" != "Alt" && "Ctrl" != "Shift"
           && "Alt" != "Shift";
    assert forall m | m in EventModifiers(e) :: m == "Meta" || m == "Ctrl" || m == "Alt" || m == "Shift";
  }

  /** An event matches a binding exactly when the binding is read as the event's modifiers and code. */
  lemma MatchesExactly(e: KeyEvent, binding: string)
    ensures Matches(e, Some(binding)) <==>
              !e.composing && ParseParts(binding) == Some(Parts(EventModifiers(e), EventCode(e)))
  {
    if ParseParts(binding).Some? {
      ParsedIsPlausible(binding);
      EventModifiersMean(e, ParseParts(binding).value.modifiers);
    }
  }

  /** A binding recorded from an event matches that event. */
  lemma RecordedMatches(e: KeyEvent, platform: Platform, scope: Scope)
    ensures var recorded := FromEvent(e, platform, scope);
            recorded.Success? ==>
              Matches(e, Some(recorded.value)) && recorded.value == BuildBinding(EventModifiers(e), EventCode(e))
  {
    if FromEvent(e, platform, scope).Success? {
      var text := BuildBinding(EventModifiers(e), EventCode(e));
      EventModifiersMean(e, {});
      AcceptedExactly(text, platform, scope);
      RecordedHasModifier(e, text);
      BindingRoundTrip(EventModifiers(e), EventCode(e));
      MatchesExactly(e, ValidateText(text, platform, scope).value);
    }
  }

  /** A key without modifiers is never accepted. */
  lemma RecordedHasModifier(e: KeyEvent, text: string)
    requires text == BuildBinding(EventModifiers(e), EventCode(e)) && IsSupported(EventCode(e))
             && ParseParts(text).Some?
    ensures EventModifiers(e) != {}
  {
    if EventModifiers(e) == {} {
      BareCodeIsUnreadable(EventCode(e));
    }
  }

  lemma BareBinding(code: string)
    ensures BuildBinding({}, code) == Join([code])
  {
    ListedMeans({});
    assert Listed({}) + [code] == [code];
  }

  lemma BareTokens(code: string)
    requires IsSupported(code)
    ensures Tokens(Join([code])) == [code] && Names([code]) == [code]
  {
    SupportedStays(code);
    TokensOfJoin([code]);
    CanonicalNames([code]);
  }

  lemma BareCodeIsUnreadable(code: string)
    requires IsSupported(code)
    ensures ParseParts(BuildBinding({}, code)).None?
  {
    BareBinding(code);
    BareTokens(code);
    BareScan(code);
  }

  lemma BareScan(code: string)
    requires IsSupported(code)
    ensures Scan([code]) == Some(Scanned({}, Some(code)))
  {
    SupportedIsNoModifier(code);
    assert [code][..0] == [];
  }

  // ---------------------------------------------------------------- binding sets

  datatype Command = Command(id: string, scope: Scope)

  predicate DistinctIds(commands: seq<Command>) {
    forall i, j | 0 <= i < j < |commands| :: commands[i].id != commands[j].id
  }

  /** Every command has a valid binding or none, and no binding is used twice. */
  ghost predicate ValidSet(platform: Platform, commands: seq<Command>, bindings: map<string, Option<string>>) {
    && (forall i | 0 <= i < |commands| ::
          commands[i].id in bindings
          && Validate(bindings[commands[i].id], platform, commands[i].scope) == Success(bindings[commands[i].id]))
    && (forall i, j | 0 <= i < j < |commands| ::
          bindings[commands[i].id].Some? ==> bindings[commands[i].id] != bindings[commands[j].id])
  }

  /** In a validated set at most one command matches an event. */
  lemma AtMostOneMatches(e: KeyEvent, platform: Platform, commands: seq<Command>,
                         bindings: map<string, Option<string>>, i: nat, j: nat)
    requires ValidSet(platform, commands, bindings)
    requires i < |commands| && j < |commands|
    requires Matches(e, bindings[commands[i].id]) && Matches(e, bindings[commands[j].id])
    ensures i == j
  {
    var b, c := bindings[commands[i].id].value, bindings[commands[j].id].value;
    MatchesExactly(e, b);
    MatchesExactly(e, c);
    SameBindingExactly(b, c, platform, commands[i].scope, commands[j].scope);
  }

  /** What a saved profile is checked against, whatever texts it holds. */
  ghost predicate Acceptable(platform: Platform, commands: seq<Command>, value: map<string, Option<string>>) {
    && |value| == |commands|
    && (forall i | 0 <= i < |commands| ::
          commands[i].id in value && Validate(value[commands[i].id], platform, commands[i].scope).Success?)
    && (forall i, j | 0 <= i < j < |commands| ::
          var b := Validate(value[commands[i].id], platform, commands[i].scope);
          b.value.Some? ==> b != Validate(value[commands[j].id], platform, commands[j].scope))
  }

  method NormalizeAll(platform: Platform, commands: seq<Command>, value: map<string, Option<string>>)
    returns (r: Option<seq<Option<string>>>)
    ensures r.Some? <==> forall i | 0 <= i < |commands| ::
              commands[i].id in value && Validate(value[commands[i].id], platform, commands[i].scope).Success?
    ensures r.Some? ==> |r.value| == |commands| && forall i | 0 <= i < |commands| ::
              commands[i].id in value
              && Validate(value[commands[i].id], platform, commands[i].scope) == Success(r.value[i])
  {
    var bindings: seq<Option<string>> := [];
    for k := 0 to |commands|
      invariant |bindings| == k
      invariant forall i | 0 <= i < k ::
                  commands[i].id in value
                  && Validate(value[commands[i].id], platform, commands[i].scope) == Success(bindings[i])
    {
      if commands[k].id !in value {
        return None;
      }
      var result := Validate(value[commands[k].id], platform, commands[k].scope);
      if result.Failure? {
        return None;
      }
      bindings := bindings + [result.value];
    }
    r := Some(bindings);
  }

  method HasRepeat(bindings: seq<Option<string>>) returns (r: bool)
    ensures r <==> exists i, j :: 0 <= i < j < |bindings| && bindings[i].Some? && bindings[i] == bindings[j]
  {
    var seen: set<string> := {};
    for k := 0 to |bindings|
      invariant forall b :: b in seen <==> Some(b) in bindings[..k]
      invariant forall i, j | 0 <= i < j < k :: bindings[i].Some? ==> bindings[i] != bindings[j]
    {
      if bindings[k].Some? {
        if bindings[k].value in seen {
          return true;
        }
        seen := seen + {bindings[k].value};
      }
      assert bindings[..k + 1] == bindings[..k] + [bindings[k]];
    }
    r := false;
  }

  function Assign(commands: seq<Command>, bindings: seq<Option<string>>): map<string, Option<string>>
    requires |commands| == |bindings|
  {
    if commands == [] then map[]
    else
      var n := |commands| - 1;
      Assign(commands[..n], bindings[..n])[commands[n].id := bindings[n]]
  }

  lemma {:induction false} AssignMeans(commands: seq<Command>, bindings: seq<Option<string>>, i: nat)
    requires |commands| == |bindings| && DistinctIds(commands) && i < |commands|
    ensures commands[i].id in Assign(commands, bindings) && Assign(commands, bindings)[commands[i].id] == bindings[i]
  {
    if i < |commands| - 1 {
      AssignMeans(commands[..|commands| - 1], bindings[..|commands| - 1], i);
    }
  }

  /** An accepted profile becomes a valid set; nothing that could become one is refused. */
  method ValidateBindingSet(platform: Platform, commands: seq<Command>, value: map<string, Option<string>>)
    returns (r: Option<map<string, Option<string>>>)
    requires DistinctIds(commands)
    ensures r.Some? <==> Acceptable(platform, commands, value)
    ensures r.Some? ==> ValidSet(platform, commands, r.value)
    ensures r.Some? ==> forall i | 0 <= i < |commands| ::
              commands[i].id in value && commands[i].id in r.value
              && Validate(value[commands[i].id], platform, commands[i].scope) == Success(r.value[commands[i].id])
  {
    if |value| != |commands| {
      return None;
    }
    var bindings := NormalizeAll(platform, commands, value);
    if bindings.None? {
      return None;
    }
    var repeated := HasRepeat(bindings.value);
    if repeated {
      return None;
    }
    forall i | 0 <= i < |commands|
      ensures commands[i].id in Assign(commands, bindings.value)
              && Assign(commands, bindings.value)[commands[i].id] == bindings.value[i]
      ensures Validate(bindings.value[i], platform, commands[i].scope) == Success(bindings.value[i])
    {
      AssignMeans(commands, bindings.value, i);
      ValidateIsProjection(value[commands[i].id], platform, commands[i].scope);
    }
    r := Some(Assign(commands, bindings.value));
  }

  /** No binding that is valid on Windows uses Meta. */
  lemma MetaMatchesNothing(e: KeyEvent, commands: seq<Command>, bindings: map<string, Option<string>>)
    requires ValidSet(Windows, commands, bindings) && e.meta
    ensures forall i | 0 <= i < |commands| :: !Matches(e, bindings[commands[i].id])
  {
    forall i | 0 <= i < |commands|
      ensures !Matches(e, bindings[commands[i].id])
    {
      var binding := bindings[commands[i].id];
      if binding.Some? {
        MatchesExactly(e, binding.value);
        AcceptedExactly(binding.value, Windows, commands[i].scope);
      }
    }
  }

  lemma OnlyThisMatches(e: KeyEvent, platform: Platform, commands: seq<Command>,
                        bindings: map<string, Option<string>>, k: nat)
    requires ValidSet(platform, commands, bindings) && k < |commands| && Matches(e, bindings[commands[k].id])
    ensures forall i | 0 <= i < |commands| :: Matches(e, bindings[commands[i].id]) <==> commands[i] == commands[k]
  {
    forall i | 0 <= i < |commands| && Matches(e, bindings[commands[i].id])
      ensures i == k
    {
      AtMostOneMatches(e, platform, commands, bindings, i, k);
    }
  }

  /** The command an event triggers in a valid set: the one that matches, if any. */
  method MatchShortcut(e: KeyEvent, platform: Platform, commands: seq<Command>, bindings: map<string, Option<string>>)
    returns (r: Option<Command>)
    requires ValidSet(platform, commands, bindings)
    ensures forall i | 0 <= i < |commands| :: Matches(e, bindings[commands[i].id]) <==> r == Some(commands[i])
    ensures r.Some? ==> r.value in commands
  {
    if platform.Windows? && e.meta {
      MetaMatchesNothing(e, commands, bindings);
      return None;
    }
    for k := 0 to |commands|
      invariant forall i | 0 <= i < k :: !Matches(e, bindings[commands[i].id])
    {
      if Matches(e, bindings[commands[k].id]) {
        OnlyThisMatches(e, platform, commands, bindings, k);
        return Some(commands[k]);
      }
    }
    r := None;
  }
}
