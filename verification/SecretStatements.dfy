/** CREATE SECRET with options from a map, and the reading of its text. */
module SecretStatements {
  import opened Machines
  import opened Strings
  import opened Sorting
  import opened SqlText

  datatype Entry = Entry(name: string, value: string)

  /** `entries` are what follows the type in parentheses. */
  datatype Statement = Statement(name: string, kind: string, entries: seq<Entry>)

  datatype Error = InvalidOption(key: string) | ContainsNul
  datatype Rendered = Text(text: string) | Failure(error: Error)

  function Upper(s: string): (u: string)
    ensures |u| == |s|
  {
    seq(|s|, i requires 0 <= i < |s| => if 'a' <= s[i] <= 'z' then s[i] - 'a' + 'A' else s[i])
  }

  const LOWER_CASE := "abcdefghijklmnopqrstuvwxyz"
  const UPPER_CASE := "ABCDEFGHIJKLMNOPQRSTUVWXYZ"

  /** Every letter of the English alphabet becomes its capital, everything else stays. */
  lemma UpperLetters(s: string, i: nat)
    requires i < |s|
    ensures forall j | 0 <= j < 26 :: s[i] == LOWER_CASE[j] ==> Upper(s)[i] == UPPER_CASE[j]
    ensures s[i] !in LOWER_CASE ==> Upper(s)[i] == s[i]
  {
    Alphabet();
  }

  lemma Alphabet()
    ensures |LOWER_CASE| == |UPPER_CASE| == 26
    ensures forall j | 0 <= j < 26 :: LOWER_CASE[j] as int == 'a' as int + j && UPPER_CASE[j] as int == 'A' as int + j
    ensures forall c: char | 'a' <= c <= 'z' :: c in LOWER_CASE
    ensures forall c: char | 'A' <= c <= 'Z' :: c in UPPER_CASE
  {
    forall c: char | 'a' <= c <= 'z' ensures c in LOWER_CASE {
      assert LOWER_CASE[c as int - 'a' as int] == c;
    }
    forall c: char | 'A' <= c <= 'Z' ensures c in UPPER_CASE {
      assert UPPER_CASE[c as int - 'A' as int] == c;
    }
  }

  /** An option name: letters, digits and underscores, no digit in front. */
  lemma OptionNames(k: string)
    ensures IsWord(k) <==>
              && k != "" && k[0] !in "0123456789"
              && forall c | c in k :: c in LOWER_CASE || c in UPPER_CASE || c in "0123456789" || c == '_'
  {
    Alphabet();
    Digits();
  }

  lemma Digits()
    ensures forall c: char :: c in "0123456789" <==> '0' <= c <= '9'
  {
    forall c: char | '0' <= c <= '9' ensures c in "0123456789" {
      assert "0123456789"[c as int - '0' as int] == c;
    }
  }

  lemma UpperIsWord(s: string)
    requires IsWord(s)
    ensures IsWord(Upper(s))
  {
    assert Letter(s[0]);
    forall i | 0 <= i < |s| ensures WordChar(Upper(s)[i]) {
      assert s[i] in s;
    }
  }

  function OptionEntries(options: map<string, string>, keys: seq<string>): seq<Entry>
    requires Elements(keys) <= options.Keys
  {
    seq(|keys|, i requires 0 <= i < |keys| => KeyIn(options, keys, i); Entry(Upper(keys[i]), options[keys[i]]))
  }

  lemma KeyIn(options: map<string, string>, keys: seq<string>, i: nat)
    requires Elements(keys) <= options.Keys && i < |keys|
    ensures keys[i] in options
  {
    assert keys[i] in Elements(keys);
  }

  function ScopeEntries(scope: string): seq<Entry>
  {
    if scope == "" then [] else [Entry("SCOPE", scope)]
  }

  // The text of a statement.

  function EntryText(e: Entry): string
  {
    e.name + " " + Quoted(e.value, '\'')
  }

  function ListText(kind: string, entries: seq<Entry>): string
  {
    if entries == [] then "TYPE " + kind
    else ListText(kind, entries[..|entries| - 1]) + ", " + EntryText(entries[|entries| - 1])
  }

  function StatementText(s: Statement): string
  {
    "CREATE OR REPLACE PERSISTENT SECRET " + Identifier(s.name) + " (" + ListText(s.kind, s.entries) + ")"
  }

  // The reader.

  function ReadEntries(tokens: seq<Token>): Option<seq<Entry>>
  {
    if tokens == [Mark(')')] then Some([])
    else if |tokens| < 3 || tokens[0] != Mark(',') || !tokens[1].Word? || !tokens[2].Literal? then None
    else
      match ReadEntries(tokens[3..])
      case None => None
      case Some(entries) => Some([Entry(tokens[1].text, tokens[2].text)] + entries)
  }

  function OpeningTokens(): seq<Token>
  {
    [Word("CREATE"), Word("OR"), Word("REPLACE"), Word("PERSISTENT"), Word("SECRET")]
  }

  function Read(text: string): Option<Statement>
  {
    match Lex(text)
    case None => None
    case Some(tokens) => ReadStatement(tokens)
  }

  function ReadStatement(tokens: seq<Token>): Option<Statement>
  {
    if |tokens| < 9 || tokens[..5] != OpeningTokens() || !tokens[5].Delimited? then None
    else if tokens[6] != Mark('(') || tokens[7] != Word("TYPE") || !tokens[8].Word? then None
    else
      match ReadEntries(tokens[9..])
      case None => None
      case Some(entries) => Some(Statement(tokens[5].text, tokens[8].text, entries))
  }

  // Reading undoes printing.

  function EntriesTokens(entries: seq<Entry>): seq<Token>
  {
    if entries == [] then [] else EntryTokens(entries[0]) + EntriesTokens(entries[1..])
  }

  function EntryTokens(e: Entry): seq<Token>
  {
    [Mark(','), Word(e.name), Literal(e.value)]
  }

  predicate WordsOnly(entries: seq<Entry>)
  {
    forall e | e in entries :: IsWord(e.name)
  }

  lemma {:induction false} EntriesRead(entries: seq<Entry>)
    ensures ReadEntries(EntriesTokens(entries) + [Mark(')')]) == Some(entries)
  {
    var tokens := EntriesTokens(entries) + [Mark(')')];
    if entries == [] {
      assert tokens == [Mark(')')];
    } else {
      EntriesRead(entries[1..]);
      assert tokens[3..] == EntriesTokens(entries[1..]) + [Mark(')')];
      assert tokens[0] == Mark(',') && tokens[1] == Word(entries[0].name) && tokens[2] == Literal(entries[0].value);
      assert entries == [entries[0]] + entries[1..];
    }
  }

  lemma {:induction false} EntriesTokensNext(front: seq<Entry>, last: Entry)
    ensures EntriesTokens(front + [last]) == EntriesTokens(front) + EntryTokens(last)
  {
    if front == [] {
      assert EntriesTokens([]) == [];
    } else {
      assert (front + [last])[1..] == front[1..] + [last];
      EntriesTokensNext(front[1..], last);
    }
  }

  lemma {:induction false} ListLexes(kind: string, entries: seq<Entry>)
    requires IsWord(kind) && WordsOnly(entries)
    ensures Lexes(ListText(kind, entries), [Word("TYPE"), Word(kind)] + EntriesTokens(entries))
  {
    var head := [Word("TYPE"), Word(kind)];
    if entries == [] {
      LexesTwoWords("TYPE", kind, "TYPE " + kind);
      assert head + EntriesTokens(entries) == head;
    } else {
      var front, last := entries[..|entries| - 1], entries[|entries| - 1];
      ListLexes(kind, front);
      LexesWord(last.name);
      LexesQuoted(last.value, '\'');
      LexesSpaced(last.name, [Word(last.name)], Quoted(last.value, '\''), [Literal(last.value)]);
      LexesListed(ListText(kind, front), head + EntriesTokens(front), EntryText(last),
          [Word(last.name)] + [Literal(last.value)]);
      EntriesTokensNext(front, last);
      assert entries == front + [last];
      assert head + EntriesTokens(front) + [Mark(',')] + ([Word(last.name)] + [Literal(last.value)])
          == head + EntriesTokens(entries);
    }
  }

  lemma OpeningLexes()
    ensures Lexes("CREATE OR REPLACE PERSISTENT SECRET", OpeningTokens())
  {
    VerbLexes();
    LexesTwoWords("PERSISTENT", "SECRET", "PERSISTENT SECRET");
    LexesSpaced("CREATE OR REPLACE", VerbTokens(), "PERSISTENT SECRET", [Word("PERSISTENT"), Word("SECRET")]);
    OpeningIsVerbAndObject();
  }

  lemma OpeningIsVerbAndObject()
    ensures "CREATE OR REPLACE" + " " + "PERSISTENT SECRET" == "CREATE OR REPLACE PERSISTENT SECRET"
    ensures VerbTokens() + [Word("PERSISTENT"), Word("SECRET")] == OpeningTokens()
  {
  }

  function VerbTokens(): seq<Token>
  {
    [Word("CREATE"), Word("OR"), Word("REPLACE")]
  }

  lemma VerbLexes()
    ensures Lexes("CREATE OR REPLACE", VerbTokens())
  {
    LexesTwoWords("CREATE", "OR", "CREATE OR");
    LexesWord("REPLACE");
    LexesBoth("CREATE OR", [Word("CREATE"), Word("OR")], "REPLACE", [Word("REPLACE")], "CREATE OR REPLACE",
        VerbTokens());
  }

  /** Whatever quotes, commas and parentheses the name and the values contain. */
  lemma StatementReads(s: Statement)
    requires IsWord(s.kind) && WordsOnly(s.entries)
    ensures Read(StatementText(s)) == Some(s)
  {
    var list, tokens := ListText(s.kind, s.entries), [Word("TYPE"), Word(s.kind)] + EntriesTokens(s.entries);
    var head := "CREATE OR REPLACE PERSISTENT SECRET " + Identifier(s.name);
    var headTokens := OpeningTokens() + [Delimited(s.name)];
    OpeningLexes();
    LexesQuoted(s.name, '"');
    LexesBoth("CREATE OR REPLACE PERSISTENT SECRET", OpeningTokens(), Identifier(s.name), [Delimited(s.name)], head,
        headTokens);
    ListLexes(s.kind, s.entries);
    LexesMarked('(', list, tokens);
    LexesThenMark(['('] + list, [Mark('(')] + tokens, ')');
    var body, bodyTokens := ['('] + list + [')'], [Mark('(')] + tokens + [Mark(')')];
    LexesBoth(head, headTokens, body, bodyTokens, StatementText(s), headTokens + bodyTokens);
    LexesWhole(StatementText(s), headTokens + bodyTokens);
    TokensRead(s);
  }

  lemma TokensRead(s: Statement)
    ensures ReadStatement(OpeningTokens() + [Delimited(s.name)]
                          + ([Mark('(')] + ([Word("TYPE"), Word(s.kind)] + EntriesTokens(s.entries)) + [Mark(')')]))
            == Some(s)
  {
    var tokens := OpeningTokens() + [Delimited(s.name)]
                  + ([Mark('(')] + ([Word("TYPE"), Word(s.kind)] + EntriesTokens(s.entries)) + [Mark(')')]);
    assert tokens[..5] == OpeningTokens();
    assert tokens[5..9] == [Delimited(s.name), Mark('('), Word("TYPE"), Word(s.kind)];
    assert tokens[9..] == EntriesTokens(s.entries) + [Mark(')')];
    EntriesRead(s.entries);
  }

  // Rendering from a map.

  predicate Unrenderable(scope: string, options: map<string, string>)
  {
    HasNul(scope) || exists k | k in options :: !IsWord(k) || HasNul(options[k])
  }

  function Entries(scope: string, options: map<string, string>, keys: seq<string>): seq<Entry>
    requires Elements(keys) <= options.Keys
  {
    ScopeEntries(scope) + OptionEntries(options, keys)
  }

  /** The same text whatever order the keys come in: that of the entries in ascending order of the keys. It fails
      exactly on a key that is no option name or on a NUL, the key being reported first. */
  method CreateSecret(name: string, kind: string, scope: string, options: map<string, string>) returns (r: Rendered)
    requires !HasNul(name)
    ensures r.Failure? <==> '\0' in scope || exists k | k in options :: !IsWord(k) || '\0' in options[k]
    ensures r.Failure? && r.error.InvalidOption? ==> r.error.key in options && !IsWord(r.error.key)
    ensures r == Failure(ContainsNul) ==> forall k | k in options :: IsWord(k)
    ensures r.Text? ==> forall keys | Sorted(keys, Less) && Elements(keys) == options.Keys ::
                          r.text == StatementText(Statement(name, kind, Entries(scope, options, keys)))
    ensures r.Text? && IsWord(kind) ==> forall keys | Sorted(keys, Less) && Elements(keys) == options.Keys ::
                          Read(r.text) == Some(Statement(name, kind, Entries(scope, options, keys)))
  {
    var keys, bad := Keys(options);
    if bad.Some? {
      return Failure(InvalidOption(bad.value));
    }
    LessIsStrictTotal();
    SortSorts(keys, Less);
    keys := Sort(keys, Less);
    var parts;
    ghost var entries;
    r, parts, entries := Parts(kind, scope, options, keys);
    if r.Failure? {
      return;
    }
    r := Text("CREATE OR REPLACE PERSISTENT SECRET " + Identifier(name) + " (" + Join(parts, ", ") + ")");
    forall other | Sorted(other, Less) && Elements(other) == options.Keys
      ensures other == keys
    {
      SortedUnique(other, keys, Less);
    }
    if IsWord(kind) {
      EntriesAreWords(scope, options, keys);
      StatementReads(Statement(name, kind, entries));
    }
  }

  lemma EntriesAreWords(scope: string, options: map<string, string>, keys: seq<string>)
    requires Elements(keys) <= options.Keys && forall k | k in options :: IsWord(k)
    ensures WordsOnly(Entries(scope, options, keys))
  {
    forall i | 0 <= i < |keys| ensures IsWord(OptionEntries(options, keys)[i].name) {
      KeyIn(options, keys, i);
      UpperIsWord(keys[i]);
    }
    forall e | e in Entries(scope, options, keys) ensures IsWord(e.name) {
      assert e in ScopeEntries(scope) || e in OptionEntries(options, keys);
    }
  }

  method Keys(options: map<string, string>) returns (keys: seq<string>, bad: Option<string>)
    ensures bad.Some? ==> bad.value in options && !IsWord(bad.value)
    ensures bad.None? ==> Distinct(keys) && Elements(keys) == options.Keys && forall k | k in options :: IsWord(k)
  {
    keys := [];
    var rest := options.Keys;
    while rest != {}
      invariant rest <= options.Keys && Distinct(keys)
      invariant forall k :: k in keys <==> k in options && k !in rest
      invariant forall k | k in keys :: IsWord(k)
    {
      var k :| k in rest;
      if !IsWord(k) {
        return keys, Some(k);
      }
      keys := keys + [k];
      rest := rest - {k};
    }
    bad := None;
    assert Elements(keys) == options.Keys;
  }

  method Parts(kind: string, scope: string, options: map<string, string>, keys: seq<string>)
    returns (r: Rendered, parts: seq<string>, ghost entries: seq<Entry>)
    requires Elements(keys) == options.Keys && forall k | k in options :: IsWord(k)
    ensures r.Failure? <==> Unrenderable(scope, options)
    ensures r.Failure? ==> r.error == ContainsNul
    ensures r.Text? ==> entries == Entries(scope, options, keys) && Join(parts, ", ") == ListText(kind, entries)
  {
    parts, entries := ["TYPE " + kind], [];
    if scope != "" {
      var literal := LiteralOf(scope);
      if literal.None? {
        return Failure(ContainsNul), parts, entries;
      }
      JoinNext(kind, parts, entries, Entry("SCOPE", scope));
      parts := parts + ["SCOPE " + literal.value];
      entries := entries + [Entry("SCOPE", scope)];
    }
    ValuesAre(options, keys);
    var ok;
    ok, parts := OptionParts(kind, options, keys, parts, entries, OptionEntries(options, keys));
    entries := entries + OptionEntries(options, keys);
    r := if ok then Text("") else Failure(ContainsNul);
  }

  method OptionParts(kind: string, options: map<string, string>, keys: seq<string>,
                     before: seq<string>, ghost entries: seq<Entry>, ghost own: seq<Entry>)
    returns (ok: bool, parts: seq<string>)
    requires before != [] && Join(before, ", ") == ListText(kind, entries) && |own| == |keys|
    requires forall i | 0 <= i < |keys| :: keys[i] in options && own[i] == Entry(Upper(keys[i]), options[keys[i]])
    ensures ok <==> forall i | 0 <= i < |keys| :: !HasNul(own[i].value)
    ensures ok ==> Join(parts, ", ") == ListText(kind, entries + own)
  {
    var more;
    ok, more := OptionTexts(options, keys, own);
    parts := before + more;
    if ok {
      JoinAll(kind, before, entries, own);
    }
  }

  method OptionTexts(options: map<string, string>, keys: seq<string>, ghost own: seq<Entry>)
    returns (ok: bool, parts: seq<string>)
    requires |own| == |keys|
    requires forall i | 0 <= i < |keys| :: keys[i] in options && own[i] == Entry(Upper(keys[i]), options[keys[i]])
    ensures ok <==> forall i | 0 <= i < |keys| :: !HasNul(own[i].value)
    ensures ok ==> parts == Texts(own)
  {
    parts := [];
    for i := 0 to |keys|
      invariant forall j | 0 <= j < i :: !HasNul(own[j].value)
      invariant |parts| == i && forall j | 0 <= j < i :: parts[j] == EntryText(own[j])
    {
      var part := OptionText(keys[i], options[keys[i]]);
      if part.None? {
        return false, parts;
      }
      parts := parts + [part.value];
    }
    ok := true;
  }

  method OptionText(key: string, value: string) returns (part: Option<string>)
    ensures part == if HasNul(value) then None else Some(EntryText(Entry(Upper(key), value)))
  {
    var literal := LiteralOf(value);
    if literal.None? {
      return None;
    }
    part := Some(Upper(key) + " " + literal.value);
  }

  function Texts(entries: seq<Entry>): seq<string>
  {
    seq(|entries|, i requires 0 <= i < |entries| => EntryText(entries[i]))
  }

  lemma {:induction false} JoinAll(kind: string, parts: seq<string>, entries: seq<Entry>, own: seq<Entry>)
    requires parts != [] && Join(parts, ", ") == ListText(kind, entries)
    ensures Join(parts + Texts(own), ", ") == ListText(kind, entries + own)
  {
    if own == [] {
      assert parts + Texts(own) == parts && entries + own == entries;
    } else {
      var front, last := own[..|own| - 1], own[|own| - 1];
      JoinAll(kind, parts, entries, front);
      TextsNext(parts, entries, own);
      JoinNext(kind, parts + Texts(front), entries + front, last);
    }
  }

  lemma TextsNext(parts: seq<string>, entries: seq<Entry>, own: seq<Entry>)
    requires own != []
    ensures var front, last := own[..|own| - 1], own[|own| - 1];
            && parts + Texts(own) == parts + Texts(front) + [EntryText(last)]
            && entries + own == entries + front + [last]
  {
  }

  lemma ValuesAre(options: map<string, string>, keys: seq<string>)
    requires Elements(keys) == options.Keys
    ensures forall i | 0 <= i < |keys| ::
              keys[i] in options && OptionEntries(options, keys)[i] == Entry(Upper(keys[i]), options[keys[i]])
    ensures (forall k | k in options :: !HasNul(options[k]))
            <==> (forall i | 0 <= i < |keys| :: !HasNul(OptionEntries(options, keys)[i].value))
  {
    forall i | 0 <= i < |keys| ensures keys[i] in options {
      KeyIn(options, keys, i);
    }
    forall k | k in options ensures exists i :: 0 <= i < |keys| && keys[i] == k {
      assert k in Elements(keys);
    }
  }

  lemma JoinNext(kind: string, parts: seq<string>, entries: seq<Entry>, e: Entry)
    requires parts != [] && Join(parts, ", ") == ListText(kind, entries)
    ensures Join(parts + [EntryText(e)], ", ") == ListText(kind, entries + [e])
  {
    assert (parts + [EntryText(e)])[..|parts|] == parts && (entries + [e])[..|entries|] == entries;
  }

  // Recovering scope and options.

  /** The first entry is the scope if it is named so. */
  function ReadScope(entries: seq<Entry>): (string, seq<Entry>)
  {
    if entries != [] && entries[0].name == "SCOPE" then (entries[0].value, entries[1..]) else ("", entries)
  }

  /** A missing scope is told from an option called scope, in any case, exactly when that option does not come first. */
  lemma ScopeReadsExactlyWhen(scope: string, options: map<string, string>, keys: seq<string>)
    requires Elements(keys) == options.Keys
    ensures ReadScope(Entries(scope, options, keys)) == (scope, OptionEntries(options, keys))
            <==> scope != "" || keys == [] || Upper(keys[0]) != "SCOPE"
  {
    var all, own := Entries(scope, options, keys), OptionEntries(options, keys);
    if scope != "" {
      assert all[1..] == own;
    } else {
      assert all == own;
    }
  }

  /** Later entries override. */
  function Collected(entries: seq<Entry>): map<string, string>
  {
    if entries == [] then map[]
    else Collected(entries[..|entries| - 1])[entries[|entries| - 1].name := entries[|entries| - 1].value]
  }

  predicate Found(entries: map<string, string>, options: map<string, string>)
  {
    forall k | k in options :: Upper(k) in entries && entries[Upper(k)] == options[k]
  }

  predicate CasesAgree(options: map<string, string>)
  {
    forall a, b | a in options && b in options && Upper(a) == Upper(b) :: options[a] == options[b]
  }

  /** Every option is found under its upper-cased name, and nothing else, exactly when keys that differ only in case
      have the same value. */
  lemma OptionsReadExactlyWhen(options: map<string, string>, keys: seq<string>)
    requires Elements(keys) == options.Keys
    ensures Collected(OptionEntries(options, keys)).Keys == set k | k in options :: Upper(k)
    ensures Found(Collected(OptionEntries(options, keys)), options) <==> CasesAgree(options)
  {
    var m := Collected(OptionEntries(options, keys));
    CollectedKeys(options, keys);
    forall k | k in options ensures Upper(k) in m && (CasesAgree(options) ==> m[Upper(k)] == options[k]) {
      assert k in Elements(keys);
      var i :| 0 <= i < |keys| && keys[i] == k;
      CollectedAt(options, keys, i);
    }
    assert Found(m, options) ==> forall a, b | a in options && b in options && Upper(a) == Upper(b) ::
      options[a] == m[Upper(a)] && m[Upper(b)] == options[b];
  }

  lemma {:induction false} CollectedAt(options: map<string, string>, keys: seq<string>, i: nat)
    requires Elements(keys) <= options.Keys && i < |keys|
    ensures var m, name := Collected(OptionEntries(options, keys)), Upper(keys[i]);
            name in m && exists a :: a in options && Upper(a) == name && m[name] == options[a]
  {
    var n := |keys| - 1;
    KeyIn(options, keys, n);
    assert OptionEntries(options, keys)[..n] == OptionEntries(options, keys[..n]);
    if i < n {
      CollectedAt(options, keys[..n], i);
    }
  }

  lemma {:induction false} CollectedKeys(options: map<string, string>, keys: seq<string>)
    requires Elements(keys) <= options.Keys
    ensures Collected(OptionEntries(options, keys)).Keys <= set k | k in options :: Upper(k)
  {
    if keys != [] {
      var n := |keys| - 1;
      KeyIn(options, keys, n);
      assert OptionEntries(options, keys)[..n] == OptionEntries(options, keys[..n]);
      CollectedKeys(options, keys[..n]);
    }
  }

  // The options of a ServerSecret.

  /** A Kubernetes Secret with its resource version. */
  datatype Values = Values(data: map<string, string>, version: string)

  datatype Merged = Merged(options: map<string, string>, version: string) | ValuesMissing

  /** The inline options overlaid by every key of the referenced Secret, if one is referenced. */
  method Options(inline: map<string, string>, referenced: bool, found: Option<Values>) returns (r: Merged)
    ensures r.ValuesMissing? <==> referenced && found.None?
    ensures r.Merged? && !referenced ==> r == Merged(inline, "")
    ensures r.Merged? && referenced ==>
              && r.version == found.value.version && r.options.Keys == inline.Keys + found.value.data.Keys
              && (forall k | k in found.value.data :: r.options[k] == found.value.data[k])
              && (forall k | k in inline && k !in found.value.data :: r.options[k] == inline[k])
  {
    if !referenced {
      return Merged(inline, "");
    }
    if found.None? {
      return ValuesMissing;
    }
    var data, options := found.value.data, inline;
    var rest := data.Keys;
    while rest != {}
      invariant rest <= data.Keys && options.Keys == inline.Keys + (data.Keys - rest)
      invariant forall k | k in data && k !in rest :: options[k] == data[k]
      invariant forall k | k in inline && (k !in data || k in rest) :: options[k] == inline[k]
    {
      var k :| k in rest;
      options := options[k := data[k]];
      rest := rest - {k};
    }
    r := Merged(options, found.value.version);
  }

  /** Of the option keys with this upper-cased name the one that the statement lists last. */
  ghost predicate IsLastNamed(options: map<string, string>, name: string, last: string)
  {
    && last in options && Upper(last) == name
    && forall k | k in options && Upper(k) == name && k != last :: Less(k, last)
  }

  /** What is found under a name is the value of the last key with that name. */
  lemma {:induction false} CollectedIsLast(options: map<string, string>, keys: seq<string>, name: string)
    requires Elements(keys) <= options.Keys
    ensures var m := Collected(OptionEntries(options, keys));
            if exists i :: 0 <= i < |keys| && Upper(keys[i]) == name
            then name in m && exists i :: IsLastIndex(options, keys, name, i) && m[name] == options[keys[i]]
            else name !in m
  {
    if keys != [] {
      var n := |keys| - 1;
      KeyIn(options, keys, n);
      assert OptionEntries(options, keys)[..n] == OptionEntries(options, keys[..n]);
      CollectedIsLast(options, keys[..n], name);
      if Upper(keys[n]) == name {
        assert IsLastIndex(options, keys, name, n);
      } else {
        forall i | IsLastIndex(options, keys[..n], name, i) ensures IsLastIndex(options, keys, name, i) {}
      }
    }
  }

  ghost predicate IsLastIndex(options: map<string, string>, keys: seq<string>, name: string, i: int)
  {
    && 0 <= i < |keys| && keys[i] in options && Upper(keys[i]) == name
    && forall j | i < j < |keys| :: Upper(keys[j]) != name
  }

  lemma LastIndexIsLastNamed(options: map<string, string>, keys: seq<string>, name: string, i: int)
    requires Sorted(keys, Less) && Elements(keys) == options.Keys && IsLastIndex(options, keys, name, i)
    ensures IsLastNamed(options, name, keys[i])
  {
    forall j | j in options && Upper(j) == name && j != keys[i] ensures Less(j, keys[i]) {
      assert j in Elements(keys);
      var b :| 0 <= b < |keys| && keys[b] == j;
    }
  }

  lemma LastNamedExists(options: map<string, string>, keys: seq<string>, k: string) returns (last: string)
    requires Sorted(keys, Less) && Elements(keys) == options.Keys && k in options
    ensures IsLastNamed(options, Upper(k), last)
    ensures var m := Collected(OptionEntries(options, keys)); Upper(k) in m && m[Upper(k)] == options[last]
  {
    assert k in Elements(keys);
    var at :| 0 <= at < |keys| && keys[at] == k;
    CollectedIsLast(options, keys, Upper(k));
    var i :| IsLastIndex(options, keys, Upper(k), i)
             && Collected(OptionEntries(options, keys))[Upper(k)] == options[keys[i]];
    last := keys[i];
    LastIndexIsLastNamed(options, keys, Upper(k), i);
  }

  /** Whether the Secret wins, for all inline options and all Secrets: every key of the Secret is found with the
      Secret's value under its upper-cased name if and only if that is the value of the last merged key with that
      name. */
  lemma SecretWinsExactlyWhen(inline: map<string, string>, secret: map<string, string>, keys: seq<string>)
    requires Sorted(keys, Less) && Elements(keys) == (inline + secret).Keys
    ensures Found(Collected(OptionEntries(inline + secret, keys)), secret) <==> LastHaveValues(inline + secret, secret)
  {
    var options, m := inline + secret, Collected(OptionEntries(inline + secret, keys));
    forall k | k in secret
      ensures Upper(k) in m
      ensures forall last | IsLastNamed(options, Upper(k), last) :: m[Upper(k)] == options[last]
      ensures exists last :: IsLastNamed(options, Upper(k), last)
    {
      var found := LastNamedExists(options, keys, k);
      forall last | IsLastNamed(options, Upper(k), last) ensures last == found {
        LastNamedUnique(options, Upper(k), last, found);
      }
    }
  }

  ghost predicate LastHaveValues(options: map<string, string>, secret: map<string, string>)
  {
    forall k, last | k in secret && IsLastNamed(options, Upper(k), last) :: options[last] == secret[k]
  }

  lemma LastNamedUnique(options: map<string, string>, name: string, a: string, b: string)
    requires IsLastNamed(options, name, a) && IsLastNamed(options, name, b)
    ensures a == b
  {
    LessIsStrictTotal();
  }

  /** The Secret wins by exact key only: under the upper-cased name of the statement an inline key in lower case comes
      after the Secret's in upper case. */
  lemma LowerCaseKeyComesLast(inline: string, secret: string) returns (options: map<string, string>, keys: seq<string>)
    ensures options == map["key_id" := inline] + map["KEY_ID" := secret]
    ensures Sorted(keys, Less) && Elements(keys) == options.Keys
    ensures Collected(OptionEntries(options, keys)) == map["KEY_ID" := inline]
  {
    options, keys := map["key_id" := inline] + map["KEY_ID" := secret], ["KEY_ID", "key_id"];
    assert Less("KEY_ID", "key_id");
    assert Upper("key_id") == "KEY_ID" && Upper("KEY_ID") == "KEY_ID";
    var entries := OptionEntries(options, keys);
    assert entries == [Entry("KEY_ID", secret), Entry("KEY_ID", inline)];
    assert entries[..1] == [entries[0]] && entries[..1][..0] == [];
    assert Collected(entries[..1]) == map["KEY_ID" := secret];
  }
}
