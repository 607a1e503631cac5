/** Which names and addresses come back from the party fields of an MT103, told by the canonical
    parties they were made of. */
module SwiftParties {
  import opened Wrappers
  import opened Text
  import opened FinScan
  import opened Mt103
  import opened Mt103Exact
  import opened Mt103Party
  import opened SwiftTranslation
  import C = Canonical

  // ---------- lines that are there ----------

  lemma {:induction false} BlankParts(parts: seq<string>)
    ensures TrimmedLines(parts) == [] <==> forall i :: 0 <= i < |parts| ==> AllSpace(parts[i])
  {
    if parts != [] {
      BlankParts(parts[1..]);
      TrimIsEmpty(parts[0]);
      assert parts == [parts[0]] + parts[1..];
      assert forall i :: 1 <= i < |parts| ==> parts[i] == parts[1..][i - 1];
    }
  }

  lemma {:induction false} JoinBlank(parts: seq<string>)
    requires forall i :: 0 <= i < |parts| ==> AllSpace(parts[i])
    ensures AllSpace(Join(parts, "\n"))
  {
    if |parts| > 1 {
      JoinBlank(parts[1..]);
    }
  }

  /** A text has no lines exactly if it is blank. */
  lemma NoLines(t: string)
    ensures LinesIn(t) == [] <==> AllSpace(t)
  {
    BlankParts(Split(t, '\n'));
    if LinesIn(t) == [] {
      JoinBlank(Split(t, '\n'));
      JoinOfSplit(t, '\n');
    }
    if AllSpace(t) {
      LinesOfTrim(t);
      TrimIsEmpty(t);
      BlankLine("");
      assert Split("", '\n') == [""];
    }
  }

  /** No address line among the first `n` says anything. */
  predicate AllBlank(lines: seq<string>, n: nat) {
    forall i :: 0 <= i < |lines| && i < n ==> AllSpace(Take(lines[i], LINE_WIDTH))
  }

  lemma {:induction false} NoAddressRead(lines: seq<string>, n: nat)
    ensures ReadLines(TakeLines(lines, n)) == [] <==> AllBlank(lines, n)
  {
    if lines == [] || n == 0 {
      ReadConcat([], []);
    } else {
      NoAddressRead(lines[1..], n - 1);
      NoLines(Take(lines[0], LINE_WIDTH));
      ReadCons(Take(lines[0], LINE_WIDTH), TakeLines(lines[1..], n - 1));
      assert forall i :: 1 <= i < |lines| ==> lines[i] == lines[1..][i - 1];
    }
  }

  /** An address comes back as it was exactly if it has at most `n` lines and each fits. */
  predicate AllFit(lines: seq<string>, n: nat) {
    |lines| <= n && forall i :: 0 <= i < |lines| ==> FitsLine(lines[i])
  }

  lemma AddressExact(lines: seq<string>, n: nat)
    requires n <= 3
    ensures FirstLines(Some(ReadLines(TakeLines(lines, n))), 4) == Some(lines) <==> AllFit(lines, n)
  {
    var read := ReadLines(TakeLines(lines, n));
    ReadAreLines(TakeLines(lines, n));
    if AreLines(lines) {
      AddressBack(lines, n);
    }
    assert FirstLines(Some(read), 4) == Some(lines) ==> AreLines(lines);
  }

  /** The translation's cut to three lines takes nothing from the lines that are printed. */
  lemma {:induction false} CutTwice(lines: seq<string>, m: nat, n: nat)
    requires n <= m
    ensures TakeLines(if |lines| > m then lines[..m] else lines, n) == TakeLines(lines, n)
  {
    if lines != [] && n > 0 {
      CutTwice(lines[1..], m - 1, n - 1);
      assert |lines| > m ==> lines[..m][1..] == lines[1..][..m - 1];
    }
  }

  // ---------- short lines ----------

  lemma LinesInShort(t: string)
    ensures forall i :: 0 <= i < |LinesIn(t)| ==> |LinesIn(t)[i]| <= |t|
  {
    SplitBounded(t);
    TrimmedLinesShort(Split(t, '\n'), |t|);
  }

  lemma {:induction false} TrimmedLinesShort(parts: seq<string>, width: nat)
    requires forall i :: 0 <= i < |parts| ==> |parts[i]| <= width
    ensures forall i :: 0 <= i < |TrimmedLines(parts)| ==> |TrimmedLines(parts)[i]| <= width
  {
    if parts != [] {
      TrimmedLinesShort(parts[1..], width);
      TrimIsTrimmed(parts[0]);
    }
  }

  lemma {:induction false} AddressShort(lines: seq<string>, n: nat)
    ensures forall i :: 0 <= i < |ReadLines(TakeLines(lines, n))| ==> |ReadLines(TakeLines(lines, n))[i]| <= LINE_WIDTH
  {
    if lines == [] || n == 0 {
      ReadConcat([], []);
    } else {
      AddressShort(lines[1..], n - 1);
      LinesInShort(Take(lines[0], LINE_WIDTH));
      ReadCons(Take(lines[0], LINE_WIDTH), TakeLines(lines[1..], n - 1));
    }
  }

  // ---------- names ----------

  /** The lines of an account, of a name and of an address. */
  lemma PartyInLines(account: string, name: Option<string>, address: seq<string>, n: nat)
    requires account != "" && Without(account, '\n')
    ensures var l := if Truthy(name) then LinesIn(Take(name.value, LINE_WIDTH)) else [];
      ReadLines(PartyLines(Some(account), TakeIf(name, 35), Some(address), n))
      == ["/" + TrimEnd(account)] + l + ReadLines(TakeLines(address, n))
  {
    PartyRead(Some(account), TakeIf(name, 35), Some(address), n);
    AccountBack(account);
    assert Truthy(name) <==> Truthy(TakeIf(name, 35));
  }

  /** The first line of a text is the whole text exactly if that fits a line. */
  lemma NameLine(t: string)
    ensures LinesIn(Take(t, LINE_WIDTH)) != [] ==>
      (LinesIn(Take(t, LINE_WIDTH))[0] == t <==> FitsLine(t))
    ensures FitsLine(t) ==> LinesIn(Take(t, LINE_WIDTH)) == [t]
  {
    SplitParts(Take(t, LINE_WIDTH), '\n');
    TrimmedLinesAre(Split(Take(t, LINE_WIDTH), '\n'));
    if IsLine(t) { CutLine(t); }
  }

  /** Behind an account of one line a name comes back as the second line exactly if it fits, and a missing
      one exactly if no address line is there to be taken for it. */
  lemma NameReturns(account: string, name: Option<string>, address: seq<string>, n: nat)
    requires account != "" && Without(account, '\n')
    ensures var read := ReadLines(PartyLines(Some(account), TakeIf(name, 35), Some(address), n));
      && (At(read, 1) == name <==> if name.Some? then FitsLine(name.value) else AllBlank(address, n))
      && (name.Some? && FitsLine(name.value) ==> Rest(read) == ReadLines(TakeLines(address, n)))
  {
    PartyInLines(account, name, address, n);
    NoAddressRead(address, n);
    var d := ReadLines(TakeLines(address, n));
    ReadAreLines(TakeLines(address, n));
    if name.Some? {
      NameLine(name.value);
      NoLines(Take(name.value, LINE_WIDTH));
      if LinesIn(Take(name.value, LINE_WIDTH)) == [] && d != [] { BlankIsNoLine(name.value, d[0]); }
    }
  }

  lemma BlankIsNoLine(name: string, line: string)
    requires AllSpace(Take(name, LINE_WIDTH)) && IsLine(line)
    ensures name != line && !FitsLine(name)
  {
    assert !IsSpace(line[0]);
    assert name != "" ==> Take(name, LINE_WIDTH)[0] == name[0];
  }

  // ---------- canonical parties ----------

  /** The address as it is printed always has a line, unless it is given and blank. */
  predicate NameFits(p: C.Party, n: nat) {
    if p.name.Some? then FitsLine(p.name.value) else p.address.Some? && AllBlank(p.address.value, n)
  }

  predicate AddressFits(p: C.Party, n: nat) {
    p.address.Some? && AllFit(p.address.value, n)
  }

  lemma MadeUpLine(p: C.Party)
    requires p.address.None?
    ensures |AddressLines(p)| == 1 && !AllSpace(Take(AddressLines(p)[0], LINE_WIDTH))
  {
    var line := AddressLines(p)[0];
    assert !IsSpace(line[0]) && Take(line, LINE_WIDTH)[0] == line[0];
  }

  lemma PrintedAddress(p: C.Party, n: nat)
    requires 1 <= n <= 3
    ensures p.address.Some? ==> TakeLines(AddressLines(p), n) == TakeLines(p.address.value, n)
    ensures p.address.Some? ==> (AllBlank(AddressLines(p), n) <==> AllBlank(p.address.value, n))
    ensures p.address.None? ==> !AllBlank(AddressLines(p), n)
  {
    if p.address.Some? {
      CutTwice(p.address.value, 3, n);
      NoAddressRead(AddressLines(p), n);
      NoAddressRead(p.address.value, n);
    } else {
      MadeUpLine(p);
    }
  }

  /** What is read as a party's name and address, cut as the way back cuts them. */
  predicate NameAndAddressBack(p: C.Party, n: nat, name: Option<string>, address: Option<seq<string>>) {
    && (name == p.name <==> NameFits(p, n))
    && (p.name.Some? && FitsLine(p.name.value) ==> (address == p.address <==> AddressFits(p, n)))
  }

  lemma SecondLineShort(account: string, name: Option<string>, address: seq<string>, n: nat)
    requires account != "" && Without(account, '\n')
    ensures var read := ReadLines(PartyLines(Some(account), TakeIf(name, 35), Some(address), n));
      |read| > 1 ==> |read[1]| <= LINE_WIDTH
  {
    PartyInLines(account, name, address, n);
    AddressShort(address, n);
    if name.Some? { LinesInShort(Take(name.value, LINE_WIDTH)); }
  }

  /** Behind an account of one line, name and address come back exactly under these conditions. */
  lemma PartyReturns(account: string, p: C.Party, n: nat)
    requires account != "" && Without(account, '\n') && 1 <= n <= 3
    ensures var read := ReadLines(PartyLines(Some(account), TakeIf(p.name, 35), Some(AddressLines(p)), n));
      NameAndAddressBack(p, n, TakeIf(At(read, 1), 140), FirstLines(Some(Rest(read)), 4))
  {
    NameReturns(account, p.name, AddressLines(p), n);
    SecondLineShort(account, p.name, AddressLines(p), n);
    PrintedAddress(p, n);
    if p.address.Some? { AddressExact(p.address.value, n); }
  }
}
