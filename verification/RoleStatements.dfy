/** CREATE ROLE and ALTER ROLE: the printer, a reader, and what the statement does to the role. */
module RoleStatements {
  import opened Machines
  import opened Strings
  import opened SqlText

  /** `validUntil` is "" when unset. */
  datatype Attributes = Attributes(
    login: bool, superuser: bool, createDb: bool, createRole: bool, inherit: bool,
    connectionLimit: Option<int>, validUntil: string, password: Option<string>)

  datatype Flag = Login | Superuser | CreateDb | CreateRoles | Inherit

  /** One item of the attribute list. */
  datatype Setting =
    | Switch(flag: Flag, on: bool)
    | ConnectionLimit(limit: int)
    | ValidUntil(time: string)
    | Password(value: string)

  datatype Statement = Statement(create: bool, name: string, settings: seq<Setting>)

  function FlagWord(flag: Flag): string
  {
    match flag
    case Login => "LOGIN"
    case Superuser => "SUPERUSER"
    case CreateDb => "CREATEDB"
    case CreateRoles => "CREATEROLE"
    case Inherit => "INHERIT"
  }

  function SwitchWord(word: string, on: bool): string
  {
    if on then word else "NO" + word
  }

  function SettingTokens(s: Setting): seq<Token>
  {
    match s
    case Switch(flag, on) => [Word(SwitchWord(FlagWord(flag), on))]
    case ConnectionLimit(limit) => [Word("CONNECTION"), Word("LIMIT")] + IntegerTokens(limit)
    case ValidUntil(time) => [Word("VALID"), Word("UNTIL"), Literal(time)]
    case Password(value) => [Word("PASSWORD"), Literal(value)]
  }

  function SettingsTokens(settings: seq<Setting>): seq<Token>
  {
    if settings == [] then []
    else SettingsTokens(settings[..|settings| - 1]) + SettingTokens(settings[|settings| - 1])
  }

  // The reader.

  function ReadFlag(word: string): Option<Setting>
  {
    var negated := |word| > 2 && word[0] == 'N' && word[1] == 'O';
    var flag := if negated then word[2..] else word;
    if flag == "LOGIN" then Some(Switch(Login, !negated))
    else if flag == "SUPERUSER" then Some(Switch(Superuser, !negated))
    else if flag == "CREATEDB" then Some(Switch(CreateDb, !negated))
    else if flag == "CREATEROLE" then Some(Switch(CreateRoles, !negated))
    else if flag == "INHERIT" then Some(Switch(Inherit, !negated))
    else None
  }

  function ReadSetting(tokens: seq<Token>): (r: Option<(Setting, seq<Token>)>)
    requires tokens != []
    ensures r.Some? ==> |r.value.1| < |tokens|
  {
    if !tokens[0].Word? then None
    else if tokens[0].text == "CONNECTION" then
      if !([Word("LIMIT")] <= tokens[1..]) then None
      else if |tokens| > 2 && tokens[2].Number? then Some((ConnectionLimit(tokens[2].value), tokens[3..]))
      else if |tokens| > 3 && tokens[2] == Mark('-') && tokens[3].Number?
      then Some((ConnectionLimit(0 - tokens[3].value), tokens[4..]))
      else None
    else if tokens[0].text == "VALID" then
      if [Word("UNTIL")] <= tokens[1..] && |tokens| > 2 && tokens[2].Literal?
      then Some((ValidUntil(tokens[2].text), tokens[3..])) else None
    else if tokens[0].text == "PASSWORD" then
      if |tokens| > 1 && tokens[1].Literal? then Some((Password(tokens[1].text), tokens[2..])) else None
    else
      match ReadFlag(tokens[0].text)
      case None => None
      case Some(setting) => Some((setting, tokens[1..]))
  }

  function ReadSettings(tokens: seq<Token>): Option<seq<Setting>>
    decreases |tokens|
  {
    if tokens == [] then Some([])
    else
      match ReadSetting(tokens)
      case None => None
      case Some((setting, rest)) =>
        Continued([setting], ReadSettings(rest))
  }

  function ReadStatement(tokens: seq<Token>): Option<Statement>
  {
    if |tokens| < 3 || !tokens[0].Word? || tokens[1] != Word("ROLE") || !tokens[2].Delimited? then None
    else if tokens[0].text != "CREATE" && tokens[0].text != "ALTER" then None
    else
      match ReadSettings(tokens[3..])
      case None => None
      case Some(settings) => Some(Statement(tokens[0].text == "CREATE", tokens[2].text, settings))
  }

  function Read(text: string): Option<Statement>
  {
    match Lex(text)
    case None => None
    case Some(tokens) => ReadStatement(tokens)
  }

  /** What the server makes of one item. */
  function Set(a: Attributes, s: Setting): Attributes
  {
    match s
    case Switch(Login, on) => a.(login := on)
    case Switch(Superuser, on) => a.(superuser := on)
    case Switch(CreateDb, on) => a.(createDb := on)
    case Switch(CreateRoles, on) => a.(createRole := on)
    case Switch(Inherit, on) => a.(inherit := on)
    case ConnectionLimit(limit) => a.(connectionLimit := Some(limit))
    case ValidUntil(time) => a.(validUntil := time)
    case Password(value) => a.(password := Some(value))
  }

  function SetAll(a: Attributes, settings: seq<Setting>): Attributes
  {
    if settings == [] then a
    else Set(SetAll(a, settings[..|settings| - 1]), settings[|settings| - 1])
  }

  /** The role after running the statement in `text`, if it is one about the role `name`. */
  function Executed(text: string, create: bool, name: string, role: Attributes): Option<Attributes>
  {
    match Read(text)
    case None => None
    case Some(s) => if s.create == create && s.name == name then Some(SetAll(role, s.settings)) else None
  }

  // The printer.

  /** `parts` are the printed `settings`. */
  ghost predicate Prints(parts: seq<string>, settings: seq<Setting>)
  {
    parts != [] && Lexes(Join(parts, " "), SettingsTokens(settings))
  }

  lemma PrintsNext(parts: seq<string>, settings: seq<Setting>, part: string, setting: Setting)
    requires Prints(parts, settings) && Lexes(part, SettingTokens(setting))
    ensures Prints(parts + [part], settings + [setting])
  {
    assert (parts + [part])[..|parts|] == parts && (settings + [setting])[..|settings|] == settings;
    LexesSpaced(Join(parts, " "), SettingsTokens(settings), part, SettingTokens(setting));
  }

  lemma SwitchLexes(flag: Flag, on: bool)
    ensures Lexes(SwitchWord(FlagWord(flag), on), SettingTokens(Switch(flag, on)))
  {
    FlagIsWord(flag);
    if !on {
      NegatedIsWord(FlagWord(flag));
    }
    LexesWord(SwitchWord(FlagWord(flag), on));
  }

  lemma FlagIsWord(flag: Flag)
    ensures IsWord(FlagWord(flag))
  {
  }

  lemma NegatedIsWord(word: string)
    requires IsWord(word)
    ensures IsWord("NO" + word)
  {
  }

  function Continued(settings: seq<Setting>, rest: Option<seq<Setting>>): Option<seq<Setting>>
  {
    if rest.None? then None else Some(settings + rest.value)
  }

  lemma ContinuedTwice(settings: seq<Setting>, setting: Setting, rest: Option<seq<Setting>>)
    ensures Continued(settings, Continued([setting], rest)) == Continued(settings + [setting], rest)
  {
    assert rest.Some? ==> settings + ([setting] + rest.value) == settings + [setting] + rest.value;
  }

  /** The tokens of a list of items are read as that list, whatever follows. */
  lemma {:induction false} SettingsRead(settings: seq<Setting>, rest: seq<Token>)
    ensures ReadSettings(SettingsTokens(settings) + rest) == Continued(settings, ReadSettings(rest))
  {
    if settings == [] {
      NothingRead(rest);
    } else {
      var front, last := settings[..|settings| - 1], settings[|settings| - 1];
      SettingsRead(front, SettingTokens(last) + rest);
      OneRead(last, rest);
      ContinuedTwice(front, last, ReadSettings(rest));
      LastTokens(settings, rest);
    }
  }

  lemma LastTokens(settings: seq<Setting>, rest: seq<Token>)
    requires settings != []
    ensures var front, last := settings[..|settings| - 1], settings[|settings| - 1];
            && settings == front + [last]
            && SettingsTokens(settings) + rest == SettingsTokens(front) + (SettingTokens(last) + rest)
  {
  }

  lemma NothingRead(rest: seq<Token>)
    ensures ReadSettings([] + rest) == Continued([], ReadSettings(rest))
  {
    assert [] + rest == rest;
    assert ReadSettings(rest).Some? ==> [] + ReadSettings(rest).value == ReadSettings(rest).value;
  }

  lemma OneRead(s: Setting, rest: seq<Token>)
    ensures ReadSettings(SettingTokens(s) + rest) == Continued([s], ReadSettings(rest))
  {
    SettingRead(s, rest);
  }

  lemma SettingRead(s: Setting, rest: seq<Token>)
    ensures SettingTokens(s) + rest != [] && ReadSetting(SettingTokens(s) + rest) == Some((s, rest))
  {
    var tokens := SettingTokens(s) + rest;
    match s {
      case Switch(flag, on) =>
        SwitchRead(flag, on);
        assert tokens[1..] == rest;
      case ConnectionLimit(limit) =>
        assert tokens[1..] == [Word("LIMIT")] + IntegerTokens(limit) + rest;
        assert tokens[2..] == IntegerTokens(limit) + rest;
        assert tokens[2] == (IntegerTokens(limit) + rest)[0];
        if limit < 0 {
          assert tokens[4..] == rest;
        } else {
          assert tokens[3..] == rest;
        }
      case ValidUntil(time) => assert tokens[3..] == rest && tokens[1..] == [Word("UNTIL"), Literal(time)] + rest;
      case Password(value) => assert tokens[2..] == rest;
    }
  }

  lemma SwitchRead(flag: Flag, on: bool)
    ensures var word := SwitchWord(FlagWord(flag), on);
            && ReadFlag(word) == Some(Switch(flag, on))
            && word != "CONNECTION" && word != "VALID" && word != "PASSWORD"
  {
    var word := SwitchWord(FlagWord(flag), on);
    assert !on ==> word[2..] == FlagWord(flag);
    match flag {
      case Login =>
      case Superuser =>
      case CreateDb =>
      case CreateRoles =>
      case Inherit =>
    }
  }

  /** A role `before` with the attributes `a`, where an absent limit, time or password leaves what was there. */
  function Overlaid(before: Attributes, a: Attributes): Attributes
  {
    a.(connectionLimit := if a.connectionLimit.Some? then a.connectionLimit else before.connectionLimit,
       validUntil := if a.validUntil != "" then a.validUntil else before.validUntil,
       password := if a.password.Some? then a.password else before.password)
  }

  predicate Unprintable(a: Attributes)
  {
    HasNul(a.validUntil) || (a.password.Some? && HasNul(a.password.value))
  }

  function Switches(a: Attributes): seq<Setting>
  {
    [Switch(Login, a.login), Switch(Superuser, a.superuser), Switch(CreateDb, a.createDb),
     Switch(CreateRoles, a.createRole), Switch(Inherit, a.inherit)]
  }

  lemma PrintsOne(part: string, setting: Setting)
    requires Lexes(part, SettingTokens(setting))
    ensures Prints([part], [setting])
  {
    assert SettingsTokens([setting][..0]) == [];
    assert SettingsTokens([setting]) == SettingTokens(setting);
  }

  lemma SetNext(settings: seq<Setting>, s: Setting, role: Attributes)
    ensures SetAll(role, settings + [s]) == Set(SetAll(role, settings), s)
  {
    assert (settings + [s])[..|settings|] == settings;
  }

  lemma TwoMorePrint(parts: seq<string>, settings: seq<Setting>, p: string, s: Setting, q: string, t: Setting)
    requires Prints(parts, settings) && Lexes(p, SettingTokens(s)) && Lexes(q, SettingTokens(t))
    ensures Prints(parts + [p, q], settings + [s, t])
  {
    PrintsNext(parts, settings, p, s);
    PrintsNext(parts + [p], settings + [s], q, t);
    assert parts + [p, q] == parts + [p] + [q] && settings + [s, t] == settings + [s] + [t];
  }

  method SwitchParts(a: Attributes) returns (parts: seq<string>)
    ensures Prints(parts, Switches(a))
  {
    parts := [
      SwitchWord("LOGIN", a.login),
      SwitchWord("SUPERUSER", a.superuser),
      SwitchWord("CREATEDB", a.createDb),
      SwitchWord("CREATEROLE", a.createRole),
      SwitchWord("INHERIT", a.inherit)
    ];
    ghost var s := Switches(a);
    forall i | 0 <= i < 5 ensures Lexes(parts[i], SettingTokens(s[i])) {
      SwitchLexes(s[i].flag, s[i].on);
    }
    FivePrint(parts, s);
  }

  lemma FivePrint(p: seq<string>, s: seq<Setting>)
    requires |p| == |s| == 5 && forall i | 0 <= i < 5 :: Lexes(p[i], SettingTokens(s[i]))
    ensures Prints(p, s)
  {
    PrintsOne(p[0], s[0]);
    TwoMorePrint([p[0]], [s[0]], p[1], s[1], p[2], s[2]);
    TwoMorePrint([p[0]] + [p[1], p[2]], [s[0]] + [s[1], s[2]], p[3], s[3], p[4], s[4]);
    assert p == [p[0]] + [p[1], p[2]] + [p[3], p[4]];
    assert s == [s[0]] + [s[1], s[2]] + [s[3], s[4]];
  }

  /** The items as the server reads them back turn any role into the wished one. */
  method Render(a: Attributes) returns (r: Option<string>, ghost settings: seq<Setting>)
    ensures r.None? <==> Unprintable(a)
    ensures r.Some? ==> Lexes(r.value, SettingsTokens(settings))
    ensures r.Some? ==> forall role :: SetAll(role, settings) == Overlaid(role, a)
  {
    var parts := SwitchParts(a);
    var limited := AppendLimit(a, parts, Switches(a));
    var dated := AppendUntil(a, limited, Switches(a) + Limits(a));
    settings := Switches(a) + Limits(a) + Untils(a) + Passwords(a);
    if dated.None? {
      return None, settings;
    }
    var all := AppendPassword(a, dated.value, Switches(a) + Limits(a) + Untils(a));
    if all.None? {
      return None, settings;
    }
    SettingsOverlay(a, settings);
    r := Some(Join(all.value, " "));
  }

  method AppendLimit(a: Attributes, parts: seq<string>, ghost settings: seq<Setting>) returns (longer: seq<string>)
    requires Prints(parts, settings)
    ensures Prints(longer, settings + Limits(a))
  {
    longer := parts;
    if a.connectionLimit.Some? {
      LimitLexes(a.connectionLimit.value);
      PrintsNext(parts, settings, "CONNECTION LIMIT " + Integer(a.connectionLimit.value),
          ConnectionLimit(a.connectionLimit.value));
      longer := parts + ["CONNECTION LIMIT " + Integer(a.connectionLimit.value)];
    } else {
      assert settings + Limits(a) == settings;
    }
  }

  method AppendUntil(a: Attributes, parts: seq<string>, ghost settings: seq<Setting>)
    returns (longer: Option<seq<string>>)
    requires Prints(parts, settings)
    ensures longer.None? <==> HasNul(a.validUntil)
    ensures longer.Some? ==> Prints(longer.value, settings + Untils(a))
  {
    if a.validUntil == "" {
      assert settings + Untils(a) == settings;
      return Some(parts);
    }
    var literal := LiteralOf(a.validUntil);
    if literal.None? {
      return None;
    }
    UntilLexes(a.validUntil);
    PrintsNext(parts, settings, "VALID UNTIL " + literal.value, ValidUntil(a.validUntil));
    longer := Some(parts + ["VALID UNTIL " + literal.value]);
  }

  method AppendPassword(a: Attributes, parts: seq<string>, ghost settings: seq<Setting>)
    returns (longer: Option<seq<string>>)
    requires Prints(parts, settings)
    ensures longer.None? <==> a.password.Some? && HasNul(a.password.value)
    ensures longer.Some? ==> Prints(longer.value, settings + Passwords(a))
  {
    if a.password.None? {
      assert settings + Passwords(a) == settings;
      return Some(parts);
    }
    var literal := LiteralOf(a.password.value);
    if literal.None? {
      return None;
    }
    PasswordLexes(a.password.value);
    PrintsNext(parts, settings, "PASSWORD " + literal.value, Password(a.password.value));
    longer := Some(parts + ["PASSWORD " + literal.value]);
  }

  function Limits(a: Attributes): seq<Setting>
  {
    if a.connectionLimit.Some? then [ConnectionLimit(a.connectionLimit.value)] else []
  }

  function Untils(a: Attributes): seq<Setting>
  {
    if a.validUntil != "" then [ValidUntil(a.validUntil)] else []
  }

  function Passwords(a: Attributes): seq<Setting>
  {
    if a.password.Some? then [Password(a.password.value)] else []
  }

  lemma SettingsOverlay(a: Attributes, settings: seq<Setting>)
    requires settings == Switches(a) + Limits(a) + Untils(a) + Passwords(a)
    ensures forall role :: SetAll(role, settings) == Overlaid(role, a)
  {
    forall role ensures SetAll(role, settings) == Overlaid(role, a) {
      SwitchesOverlay(role, a);
      LimitOverlay(Switches(a), a, role);
      UntilOverlay(Switches(a) + Limits(a), a, role);
      PasswordOverlay(Switches(a) + Limits(a) + Untils(a), a, role);
    }
  }

  lemma LimitOverlay(settings: seq<Setting>, a: Attributes, role: Attributes)
    ensures var before := SetAll(role, settings);
            SetAll(role, settings + Limits(a))
            == before.(connectionLimit := if a.connectionLimit.Some? then a.connectionLimit else before.connectionLimit)
  {
    SetAtMost(settings, Limits(a), role);
  }

  lemma UntilOverlay(settings: seq<Setting>, a: Attributes, role: Attributes)
    ensures var before := SetAll(role, settings);
            SetAll(role, settings + Untils(a))
            == before.(validUntil := if a.validUntil != "" then a.validUntil else before.validUntil)
  {
    SetAtMost(settings, Untils(a), role);
  }

  lemma PasswordOverlay(settings: seq<Setting>, a: Attributes, role: Attributes)
    ensures var before := SetAll(role, settings);
            SetAll(role, settings + Passwords(a))
            == before.(password := if a.password.Some? then a.password else before.password)
  {
    SetAtMost(settings, Passwords(a), role);
  }

  lemma SetAtMost(settings: seq<Setting>, more: seq<Setting>, role: Attributes)
    requires |more| <= 1
    ensures SetAll(role, settings + more)
            == if more == [] then SetAll(role, settings) else Set(SetAll(role, settings), more[0])
  {
    if more == [] {
      assert settings + more == settings;
    } else {
      SetNext(settings, more[0], role);
      assert more == [more[0]];
    }
  }

  lemma SwitchesOverlay(role: Attributes, a: Attributes)
    ensures SetAll(role, Switches(a))
            == a.(connectionLimit := role.connectionLimit, validUntil := role.validUntil, password := role.password)
  {
    var s := Switches(a);
    assert s == [] + [s[0]] + [s[1]] + [s[2]] + [s[3]] + [s[4]];
    SetNext([], s[0], role);
    SetNext([] + [s[0]], s[1], role);
    SetNext([] + [s[0]] + [s[1]], s[2], role);
    SetNext([] + [s[0]] + [s[1]] + [s[2]], s[3], role);
    SetNext([] + [s[0]] + [s[1]] + [s[2]] + [s[3]], s[4], role);
  }

  lemma LimitLexes(limit: int)
    ensures Lexes("CONNECTION LIMIT " + Integer(limit), SettingTokens(ConnectionLimit(limit)))
  {
    LexesTwoWords("CONNECTION", "LIMIT", "CONNECTION LIMIT");
    LexesInteger(limit);
    LexesBoth("CONNECTION LIMIT", [Word("CONNECTION"), Word("LIMIT")], Integer(limit), IntegerTokens(limit),
              "CONNECTION LIMIT " + Integer(limit), SettingTokens(ConnectionLimit(limit)));
  }

  lemma UntilLexes(time: string)
    ensures Lexes("VALID UNTIL " + Quoted(time, '\''), SettingTokens(ValidUntil(time)))
  {
    LexesTwoWords("VALID", "UNTIL", "VALID UNTIL");
    LexesQuoted(time, '\'');
    LexesBoth("VALID UNTIL", [Word("VALID"), Word("UNTIL")], Quoted(time, '\''), [Literal(time)],
              "VALID UNTIL " + Quoted(time, '\''), SettingTokens(ValidUntil(time)));
  }

  lemma PasswordLexes(value: string)
    ensures Lexes("PASSWORD " + Quoted(value, '\''), SettingTokens(Password(value)))
  {
    LexesWord("PASSWORD");
    LexesQuoted(value, '\'');
    LexesBoth("PASSWORD", [Word("PASSWORD")], Quoted(value, '\''), [Literal(value)],
              "PASSWORD " + Quoted(value, '\''), SettingTokens(Password(value)));
  }

  function Opening(create: bool): string
  {
    if create then "CREATE ROLE" else "ALTER ROLE"
  }

  function OpeningTokens(create: bool): seq<Token>
  {
    [Word(if create then "CREATE" else "ALTER"), Word("ROLE")]
  }

  lemma OpeningLexes(create: bool)
    ensures Lexes(Opening(create), OpeningTokens(create))
  {
    if create {
      LexesTwoWords("CREATE", "ROLE", "CREATE ROLE");
    } else {
      LexesTwoWords("ALTER", "ROLE", "ALTER ROLE");
    }
  }

  lemma StatementReads(create: bool, name: string, rendered: string, settings: seq<Setting>, text: string)
    requires Lexes(rendered, SettingsTokens(settings))
    requires text == Opening(create) + " " + Identifier(name) + " " + rendered
    ensures Read(text) == Some(Statement(create, name, settings))
  {
    var head, tokens := Opening(create) + " " + Identifier(name), OpeningTokens(create) + [Delimited(name)];
    OpeningLexes(create);
    LexesQuoted(name, '"');
    LexesSpaced(Opening(create), OpeningTokens(create), Identifier(name), [Delimited(name)]);
    LexesBoth(head, tokens, rendered, SettingsTokens(settings), text, tokens + SettingsTokens(settings));
    LexesWhole(text, tokens + SettingsTokens(settings));
    TokensRead(create, name, settings);
  }

  lemma TokensRead(create: bool, name: string, settings: seq<Setting>)
    ensures ReadStatement(OpeningTokens(create) + [Delimited(name)] + SettingsTokens(settings))
            == Some(Statement(create, name, settings))
  {
    var tokens := OpeningTokens(create) + [Delimited(name)] + SettingsTokens(settings);
    SettingsRead(settings, []);
    assert tokens[3..] == SettingsTokens(settings) + [];
    assert settings + [] == settings;
    assert tokens[0] == OpeningTokens(create)[0] && tokens[1] == OpeningTokens(create)[1];
  }

  const UNSET := Attributes(false, false, false, false, false, None, "", None)

  /** The text creates a role of exactly this name with exactly these attributes. */
  method CreateRole(name: string, a: Attributes) returns (r: Option<string>)
    requires !HasNul(name)
    ensures r.None? <==> '\0' in a.validUntil || (a.password.Some? && '\0' in a.password.value)
    ensures r.Some? ==> Executed(r.value, true, name, UNSET) == Some(a)
  {
    var rendered;
    ghost var settings;
    rendered, settings := Render(a);
    if rendered.None? {
      return None;
    }
    r := Some("CREATE ROLE " + Identifier(name) + " " + rendered.value);
    StatementReads(true, name, rendered.value, settings, r.value);
  }

  /** Whatever the role was before, the five switches converge; an absent limit, time or password is left as it was. */
  method AlterRole(name: string, a: Attributes) returns (r: Option<string>)
    requires !HasNul(name)
    ensures r.None? <==> '\0' in a.validUntil || (a.password.Some? && '\0' in a.password.value)
    ensures r.Some? ==> forall role :: Executed(r.value, false, name, role) == Some(Overlaid(role, a))
  {
    var rendered;
    ghost var settings;
    rendered, settings := Render(a);
    if rendered.None? {
      return None;
    }
    r := Some("ALTER ROLE " + Identifier(name) + " " + rendered.value);
    StatementReads(false, name, rendered.value, settings, r.value);
  }
}
