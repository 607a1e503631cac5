/** The party fields of an MT103, printed line by line and read back by line position. */
module Mt103Party {
  import opened Wrappers
  import opened Text
  import opened FinScan
  import opened Mt103

  // ---------- lines of a text ----------

  lemma {:induction false} TrimmedLinesConcat(a: seq<string>, b: seq<string>)
    ensures TrimmedLines(a + b) == TrimmedLines(a) + TrimmedLines(b)
  {
    if a == [] {
      assert a + b == b;
    } else {
      assert (a + b)[1..] == a[1..] + b;
      TrimmedLinesConcat(a[1..], b);
    }
  }

  lemma BlankLine(line: string)
    ensures TrimmedLines([line]) == if AllSpace(line) then [] else [Trim(line)]
  {
    TrimIsEmpty(line);
    assert TrimmedLines([line][1..]) == [];
  }

  /** White space at the end of a text does not change its lines. */
  lemma LinesDropLast(s: string, c: char)
    requires IsSpace(c)
    ensures LinesIn(s + [c]) == LinesIn(s)
  {
    var parts := Split(s, '\n');
    var n := |parts| - 1;
    SplitSnoc(s, c, '\n');
    if c == '\n' {
      TrimmedLinesConcat(parts, [""]);
      BlankLine("");
    } else {
      assert parts == parts[..n] + [parts[n]];
      TrimmedLinesConcat(parts[..n], [parts[n]]);
      TrimmedLinesConcat(parts[..n], [parts[n] + [c]]);
      SameLine(parts[n], parts[n] + [c]);
    }
  }

  lemma SameLine(a: string, b: string)
    requires b == a || (|b| == |a| + 1 && a == b[..|a|] && IsSpace(b[|a|]))
    ensures TrimmedLines([a]) == TrimmedLines([b]) && Trim(a) == Trim(b)
  {
    if b != a {
      assert b == a + [b[|a|]];
      TrimDropsEnd(a, [b[|a|]]);
    }
    TrimIsEmpty(a);
    TrimIsEmpty(b);
    BlankLine(a);
    BlankLine(b);
  }

  lemma {:induction false} LinesOfTrimEnd(s: string)
    ensures LinesIn(TrimEnd(s)) == LinesIn(s)
  {
    if s != "" && IsSpace(s[|s| - 1]) {
      assert s == s[..|s| - 1] + [s[|s| - 1]];
      LinesDropLast(s[..|s| - 1], s[|s| - 1]);
      LinesOfTrimEnd(s[..|s| - 1]);
    }
  }

  lemma LinesDropFirst(s: string)
    requires s != "" && IsSpace(s[0])
    ensures LinesIn(s[1..]) == LinesIn(s)
  {
    var rest := Split(s[1..], '\n');
    if s[0] == '\n' {
      assert ([""] + rest)[1..] == rest;
    } else {
      var first := [s[0]] + rest[0];
      assert first[1..] == rest[0] && TrimStart(first) == TrimStart(rest[0]);
      assert ([first] + rest[1..])[1..] == rest[1..];
    }
  }

  lemma {:induction false} LinesOfTrimStart(s: string)
    ensures LinesIn(TrimStart(s)) == LinesIn(s)
  {
    if s != "" && IsSpace(s[0]) {
      LinesDropFirst(s);
      LinesOfTrimStart(s[1..]);
    }
  }

  /** Trimming a text does not change its lines. */
  lemma LinesOfTrim(s: string)
    ensures LinesIn(Trim(s)) == LinesIn(s)
  {
    LinesOfTrimStart(s);
    LinesOfTrimEnd(TrimStart(s));
  }

  /** A multi-line field as the scan returns it has the lines that were printed. */
  lemma FieldLines(lines: seq<string>)
    ensures var text := Trim(TrimEnd(EndLines(lines)));
      (if text == "" then [] else LinesIn(text)) == ReadLines(lines)
  {
    var printed := EndLines(lines);
    TrimOfTrimEnd(printed);
    LinesOfTrim(printed);
    BlankLine("");
    assert Split("", '\n') == [""];
  }

  // ---------- lines of a party ----------

  lemma {:induction false} SplitEnded(a: string, b: string)
    ensures Split(a + "\n" + b, '\n') == Split(a, '\n') + Split(b, '\n')
  {
    var s := a + "\n" + b;
    if a == "" {
      assert s[1..] == b;
    } else {
      assert s[1..] == a[1..] + "\n" + b;
      SplitEnded(a[1..], b);
    }
  }

  lemma {:induction false} ReadConcat(a: seq<string>, b: seq<string>)
    ensures ReadLines(a + b) == ReadLines(a) + ReadLines(b)
  {
    if a == [] {
      assert a + b == b;
      BlankLine("");
      assert Split("", '\n') == [""];
    } else {
      assert (a + b)[1..] == a[1..] + b;
      ReadConcat(a[1..], b);
      ReadCons(a[0], a[1..] + b);
      ReadCons(a[0], a[1..]);
    }
  }

  lemma ReadCons(line: string, rest: seq<string>)
    ensures ReadLines([line] + rest) == LinesIn(line) + ReadLines(rest)
  {
    assert ([line] + rest)[1..] == rest;
    SplitEnded(line, EndLines(rest));
    TrimmedLinesConcat(Split(line, '\n'), Split(EndLines(rest), '\n'));
  }

  lemma OneLine(line: string)
    requires Without(line, '\n')
    ensures LinesIn(line) == if AllSpace(line) then [] else [Trim(line)]
  {
    SplitOfWhole(line, '\n');
    BlankLine(line);
  }

  /** A line as the parser returns it. */
  predicate IsLine(t: string) {
    t != "" && Trimmed(t) && Without(t, '\n')
  }

  predicate AreLines(lines: seq<string>) {
    forall i :: 0 <= i < |lines| ==> IsLine(lines[i])
  }

  lemma {:induction false} TrimmedLinesAre(parts: seq<string>)
    requires forall i :: 0 <= i < |parts| ==> Without(parts[i], '\n')
    ensures AreLines(TrimmedLines(parts))
  {
    if parts != [] {
      TrimmedLinesAre(parts[1..]);
      TrimIsTrimmed(parts[0]);
      TrimWithout(parts[0], '\n');
    }
  }

  lemma {:induction false} TrimStartWithout(s: string, c: char)
    requires Without(s, c)
    ensures Without(TrimStart(s), c)
  {
    if s != "" {
      TrimStartWithout(s[1..], c);
    }
  }

  lemma TrimWithout(s: string, c: char)
    requires Without(s, c)
    ensures Without(Trim(s), c)
  {
    TrimStartWithout(s, c);
    TrimEndIsShorter(TrimStart(s));
  }

  lemma ReadAreLines(lines: seq<string>)
    ensures AreLines(ReadLines(lines))
  {
    SplitParts(EndLines(lines), '\n');
    TrimmedLinesAre(Split(EndLines(lines), '\n'));
  }

  // ---------- an IBAN and a name ----------

  lemma {:induction false} LineBreak(s: string)
    requires !Without(s, '\n')
    ensures s == FirstLine(s) + "\n" + AfterLine(s) && Without(FirstLine(s), '\n')
  {
    assert s == [s[0]] + s[1..];
    if s[0] != '\n' {
      LineBreak(s[1..]);
    }
  }

  lemma {:induction false} FirstOfTrimEnd(s: string)
    ensures Trim(FirstLine(TrimEnd(s))) == Trim(FirstLine(s))
  {
    if s != "" && IsSpace(s[|s| - 1]) {
      var front, c := s[..|s| - 1], s[|s| - 1];
      assert s == front + [c];
      SplitSnoc(front, c, '\n');
      SameLine(FirstLine(front), FirstLine(s));
      FirstOfTrimEnd(front);
    }
  }

  lemma FirstPart(head: char, s: string)
    requires head != '\n'
    ensures Split([head] + s, '\n') == [[head] + FirstLine(s)] + Split(s, '\n')[1..]
  {
    assert ([head] + s)[1..] == s;
  }

  lemma SecondOf(first: string, rest: string)
    requires Without(first, '\n')
    ensures TrimOption(At(Split(TrimEnd(first + "\n" + rest), '\n'), 1))
         == if AllSpace(rest) then None else Some(Trim(FirstLine(rest)))
  {
    if AllSpace(rest) {
      TrimEndDropsSpace(first, "\n" + rest);
      assert first + ("\n" + rest) == first + "\n" + rest;
      TrimEndIsShorter(first);
      SplitOfWhole(TrimEnd(first), '\n');
    } else {
      TrimEndPrefix(first + "\n", rest);
      SplitOfPrefix(first, '\n', TrimEnd(rest));
      FirstOfTrimEnd(rest);
    }
  }

  /** The second line of a text whose end has been trimmed. */
  lemma SecondLine(text: string)
    requires !Without(text, '\n')
    ensures TrimOption(At(Split(TrimEnd(text), '\n'), 1))
         == if AllSpace(AfterLine(text)) then None else Some(Trim(FirstLine(AfterLine(text))))
  {
    LineBreak(text);
    SecondOf(FirstLine(text), AfterLine(text));
  }

  lemma {:induction false} TrimEndPrefix(a: string, b: string)
    requires !AllSpace(b)
    ensures TrimEnd(a + b) == a + TrimEnd(b)
  {
    var n := |b| - 1;
    assert (a + b)[|a + b| - 1] == b[n];
    if IsSpace(b[n]) {
      assert (a + b)[..|a + b| - 1] == a + b[..n];
      assert b == b[..n] + [b[n]];
      TrimEndPrefix(a, b[..n]);
    }
  }

  /** Field 59A as the scan returns it gives IBAN and name back. */
  lemma IbanBack(iban: string, name: string)
    ensures var text := Trim(TrimEnd("/" + iban + "\n" + name));
      text != "" && BeneficiaryOf59A(text) == ReadIban(iban, name)
  {
    var body := iban + "\n" + name;
    var printed := "/" + iban + "\n" + name;
    assert body[|iban|] == '\n' && printed == "/" + body;
    var text := "/" + TrimEnd(body);
    TrimEndAfter("/", body);
    TrimEndNonBlank(printed);
    TrimStays(text);
    FirstPart('/', TrimEnd(body));
    var parts := Split(text, '\n');
    assert parts[0][1..] == FirstLine(TrimEnd(body));
    FirstOfTrimEnd(body);
    SecondLine(body);
    assert At(parts, 1) == At(Split(TrimEnd(body), '\n'), 1);
  }

  // ---------- which parties come back ----------

  /** A party as it is carried by a field: an absent and an empty address read the same. */
  datatype Party = Party(account: Option<string>, name: Option<string>, address: seq<string>)

  function AddressOf(address: Option<seq<string>>): seq<string> {
    if address.Some? then address.value else []
  }

  /** A text that is one line of the field, as it is. */
  predicate FitsLine(t: string) {
    IsLine(t) && |t| <= LINE_WIDTH
  }

  /** Every text is a line of its own, and no line is missing before one that is present. */
  predicate PartyFits(p: Party, maxAddress: nat) {
    match p.account
    case None => p.name.None? && p.address == []
    case Some(a) =>
      && a != "" && !IsSpace(a[|a| - 1]) && Without(a, '\n')
      && (if p.name.Some? then FitsLine(p.name.value) else p.address == [])
      && |p.address| <= maxAddress && forall i :: 0 <= i < |p.address| ==> FitsLine(p.address[i])
  }

  function PartyOfLines(lines: seq<string>): Party {
    var c := CustomerOfLines(lines);
    Party(c.account, c.name, AddressOf(c.address))
  }

  /** Texts that a parsed party can have at all. */
  predicate CanBeRead(p: Party) {
    && (p.account.Some? ==> Without(p.account.value, '\n')
                            && (p.account.value != "" ==> !IsSpace(p.account.value[|p.account.value| - 1])))
    && (p.name.Some? ==> IsLine(p.name.value)) && AreLines(p.address)
  }

  lemma ReadCanBeRead(lines: seq<string>)
    requires AreLines(lines)
    ensures CanBeRead(PartyOfLines(lines))
  {
    if lines != [] { assert IsLine(lines[0]); }
  }

  lemma CutLine(t: string)
    requires IsLine(t)
    ensures LinesIn(Take(t, LINE_WIDTH)) == [Trim(Take(t, LINE_WIDTH))]
    ensures Trim(Take(t, LINE_WIDTH)) == t <==> FitsLine(t)
  {
    var cut := Take(t, LINE_WIDTH);
    assert cut[0] == t[0];
    OneLine(cut);
    TakeBack(t, LINE_WIDTH);
  }

  lemma {:induction false} AddressBack(lines: seq<string>, n: nat)
    requires AreLines(lines)
    ensures |ReadLines(TakeLines(lines, n))| == if n < |lines| then n else |lines|
    ensures ReadLines(TakeLines(lines, n)) == lines
       <==> |lines| <= n && forall i :: 0 <= i < |lines| ==> FitsLine(lines[i])
  {
    if lines == [] || n == 0 {
      ReadConcat([], []);
    } else {
      var first, rest := lines[0], lines[1..];
      AddressBack(rest, n - 1);
      CutLine(first);
      ReadCons(Take(first, LINE_WIDTH), TakeLines(rest, n - 1));
      assert lines == [first] + rest;
      assert forall i :: 1 <= i < |lines| ==> lines[i] == rest[i - 1];
      assert forall i :: 0 <= i < |rest| ==> rest[i] == lines[i + 1];
    }
  }

  lemma AccountBack(a: string)
    requires Without(a, '\n')
    ensures LinesIn("/" + a) == [Trim("/" + a)] && Trim("/" + a) == "/" + TrimEnd(a)
  {
    OneLine("/" + a);
    TrimEndAfter("/", a);
    TrimKeepsHead("/" + a);
  }

  lemma ReadOne(line: string)
    ensures ReadLines([line]) == LinesIn(line)
  {
    ReadCons(line, []);
    assert [line] + [] == [line];
    ReadConcat([], []);
  }

  /** The lines of a party are those of its account, its name and its address. */
  lemma PartyRead(account: Option<string>, name: Option<string>, address: Option<seq<string>>, n: nat)
    ensures ReadLines(PartyLines(account, name, address, n))
         == (if Truthy(account) then LinesIn("/" + account.value) else [])
            + (if Truthy(name) then LinesIn(Take(name.value, LINE_WIDTH)) else [])
            + ReadLines(TakeLines(AddressOf(address), n))
  {
    var a := if Truthy(account) then ["/" + account.value] else [];
    var l := if Truthy(name) then [Take(name.value, LINE_WIDTH)] else [];
    var d := TakeLines(AddressOf(address), n);
    assert PartyLines(account, name, address, n) == a + l + d;
    ReadConcat(a + l, d);
    ReadConcat(a, l);
    ReadConcat([], []);
    if Truthy(account) { ReadOne("/" + account.value); }
    if Truthy(name) { ReadOne(Take(name.value, LINE_WIDTH)); }
  }

  lemma WithAccountAndName(a: string, name: string, d: seq<string>)
    ensures PartyOfLines(["/" + a] + [name] + d) == Party(Some(a), Some(name), d)
  {
    assert Rest(["/" + a] + [name] + d) == d;
  }

  lemma WithAccount(a: string, address: seq<string>, d: seq<string>)
    requires |d| <= |address|
    ensures PartyOfLines(["/" + a] + [] + d) == Party(Some(a), None, address) <==> address == []
  {
  }

  /** An account that is printed as no line at all cannot come back: the lines are too few. */
  lemma WithBlankAccount(name: Option<string>, first: seq<string>, address: seq<string>, d: seq<string>)
    requires |d| <= |address| && |first| == if name.Some? then 1 else 0
    ensures PartyOfLines([] + first + d) != Party(Some(""), name, address)
  {
  }

  lemma WithoutAccount(name: Option<string>, first: seq<string>, address: seq<string>, d: seq<string>)
    requires |d| <= |address| && |first| == if name.Some? then 1 else 0
    ensures PartyOfLines([] + first + d) == Party(None, name, address) <==> name.None? && address == []
  {
  }

  lemma ReadablePartyExact(account: Option<string>, name: Option<string>, address: Option<seq<string>>, n: nat)
    requires CanBeRead(Party(account, name, AddressOf(address)))
    ensures var p := Party(account, name, AddressOf(address));
            PartyOfLines(ReadLines(PartyLines(account, name, address, n))) == p <==> PartyFits(p, n)
  {
    var address1 := AddressOf(address);
    var d := ReadLines(TakeLines(address1, n));
    var first := if Truthy(name) then LinesIn(Take(name.value, LINE_WIDTH)) else [];
    PartyRead(account, name, address, n);
    AddressBack(address1, n);
    if name.Some? { CutLine(name.value); }
    if account.None? {
      WithoutAccount(name, first, address1, d);
    } else if account.value == "" {
      WithBlankAccount(name, first, address1, d);
    } else {
      AccountBack(account.value);
      TrimEndNonBlankLast(account.value);
      if name.Some? {
        WithAccountAndName(account.value, Trim(Take(name.value, LINE_WIDTH)), d);
      } else {
        WithAccount(account.value, address1, d);
      }
    }
  }

  lemma TrimEndNonBlankLast(s: string)
    requires s != "" && !IsSpace(s[|s| - 1])
    ensures TrimEnd(s) == s
  {
  }

  /** A party read by line position is the printed party exactly when the party fits. */
  lemma PartyExact(account: Option<string>, name: Option<string>, address: Option<seq<string>>, n: nat)
    ensures var p := Party(account, name, AddressOf(address));
            PartyOfLines(ReadLines(PartyLines(account, name, address, n))) == p <==> PartyFits(p, n)
  {
    var lines := PartyLines(account, name, address, n);
    ReadAreLines(lines);
    ReadCanBeRead(ReadLines(lines));
    if CanBeRead(Party(account, name, AddressOf(address))) {
      ReadablePartyExact(account, name, address, n);
    }
  }

  /** With an IBAN only the name can come back beside it, without one no IBAN can. */
  predicate BeneficiaryFits(b: Beneficiary) {
    if Truthy(b.iban) then
      && Trimmed(b.iban.value) && Without(b.iban.value, '\n') && b.account.None? && AddressOf(b.address) == []
      && (b.name.Some? ==> FitsLine(b.name.value))
    else b.iban.None? && PartyFits(Party(b.account, b.name, AddressOf(b.address)), 2)
  }

  lemma FirstOfLine(line: string, rest: string)
    requires Without(line, '\n')
    ensures FirstLine(line + "\n" + rest) == line && AfterLine(line + "\n" + rest) == rest
  {
    SplitOfPrefix(line, '\n', rest);
    AfterOfLine(line, rest);
  }

  lemma {:induction false} AfterOfLine(line: string, rest: string)
    requires Without(line, '\n')
    ensures AfterLine(line + "\n" + rest) == rest
  {
    var s := line + "\n" + rest;
    if line != "" {
      assert s[1..] == line[1..] + "\n" + rest && s[0] == line[0];
      AfterOfLine(line[1..], rest);
    } else {
      assert s[0] == '\n' && s[1..] == rest;
    }
  }

  lemma FirstWithout(s: string)
    ensures Without(Trim(FirstLine(s)), '\n')
  {
    SplitParts(s, '\n');
    TrimWithout(FirstLine(s), '\n');
  }

  lemma NameExact(name: Option<string>)
    ensures (if AllSpace(Take(OrEmpty(name), LINE_WIDTH)) then None
             else Some(Trim(FirstLine(Take(OrEmpty(name), LINE_WIDTH))))) == name
            <==> (name.Some? ==> FitsLine(name.value))
  {
    var cut := Take(OrEmpty(name), LINE_WIDTH);
    FirstWithout(cut);
    if name.Some? {
      TakeBack(name.value, LINE_WIDTH);
      TrimIsTrimmed(FirstLine(cut));
      if Without(name.value, '\n') { SplitOfWhole(cut, '\n'); }
      if IsLine(name.value) { assert cut[0] == name.value[0]; }
    }
  }

  lemma BeneficiaryExact(b: Beneficiary)
    ensures var r := RecoveredBeneficiary(b);
            r.iban == b.iban
              && Party(r.account, r.name, AddressOf(r.address)) == Party(b.account, b.name, AddressOf(b.address))
            <==> BeneficiaryFits(b)
  {
    if Truthy(b.iban) {
      var iban, cut := b.iban.value, Take(OrEmpty(b.name), LINE_WIDTH);
      FirstWithout(iban + "\n" + cut);
      TrimIsTrimmed(FirstLine(iban + "\n" + cut));
      NameExact(b.name);
      if Without(iban, '\n') {
        FirstOfLine(iban, cut);
        TakeBack(iban, |iban|);
      }
    } else {
      PartyExact(b.account, b.name, b.address, 2);
    }
  }
}
