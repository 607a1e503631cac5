/** MT103 messages from elsewhere: fields that the printer never prints, fields in another order, and
    fields that are missing. */
module Mt103Foreign {
  import opened Wrappers
  import opened Text
  import opened Numerals
  import opened FinScan
  import opened Mt103
  import opened Mt103Party
  import opened Mt103RoundTrip

  /** What the parser finds under a tag: the first such field, trimmed. */
  lemma Finds(fields: seq<Field>, tag: string)
    requires AllSafe(fields) && IsTagName(tag)
    ensures GetField(Body(BlockOf(fields)), tag) == TrimOption(Lookup(fields, tag))
  {
    GetFieldOf(fields, tag);
    if Lookup(fields, tag).Some? { TrimDropsEnd(Lookup(fields, tag).value, "\n"); }
  }

  /** The fields that stand for themselves, and what stands in for those that are missing: a fresh
      reference, a credit; without a legible `:32A:` nothing at all of today's date in dollars. Of a
      message from elsewhere neither the ordering institution nor field 72 is read. */
  lemma PlainFields(fields: seq<Field>, freshRef: string, today: string)
    requires AllSafe(fields)
    ensures var m := Parsed(BlockOf(fields), freshRef, today);
      && m.transactionRef == OrElse(TrimOption(Lookup(fields, "20")), freshRef)
      && m.bankOperationCode == OrElse(TrimOption(Lookup(fields, "23B")), "CRED")
      && m.remittanceInfo == TrimOption(Lookup(fields, "70")) && m.detailsOfCharges == TrimOption(Lookup(fields, "71A"))
      && (Lookup(fields, "32A").None? || !Is32A(Trim(Lookup(fields, "32A").value)) ==>
            m.currency == "USD" && m.amount == Finite(0.0) && m.valueDate == DateOf(today))
      && m.orderingInstitutionBic == None && m.senderToReceiverInfo == None && m.rawMessage == Some(BlockOf(fields))
  {
    Finds(fields, "20");
    Finds(fields, "23B");
    Finds(fields, "32A");
    Finds(fields, "70");
    Finds(fields, "71A");
    NothingIsZero();
  }

  lemma NothingIsZero()
    ensures ParseFloat("0") == Finite(0.0) && !Is32A("")
  {
  }

  /** Lines of a two-line field. */
  lemma TwoParts(first: string, second: string)
    requires IsLine(first) && IsLine(second)
    ensures Trim(first + "\n" + second) == first + "\n" + second
    ensures Split(first + "\n" + second, '\n') == [first, second]
  {
    var s := first + "\n" + second;
    assert s[0] == first[0] && s[|s| - 1] == second[|second| - 1];
    TrimStays(s);
    SplitOfPrefix(first, '\n', second);
    SplitOfWhole(second, '\n');
  }

  lemma OnePart(line: string)
    requires IsLine(line)
    ensures Trim(line) == line && Split(line, '\n') == [line]
  {
    TrimStays(line);
    SplitOfWhole(line, '\n');
  }

  /** The field text as the parser splits it. */
  lemma Customer50A(first: string, second: string)
    requires IsLine(first) && IsLine(second)
    ensures var account := Customer(Some(TrimStart(first[1..])), None, None, None);
      && CustomerOf50A(first) == (if first[0] == '/' then account else Customer(None, None, None, Some(first)))
      && CustomerOf50A(first + "\n" + second)
         == if first[0] == '/' then account else Customer(Some(second), None, None, Some(first))
  {
    OnePart(first);
    OnePart(second);
    TwoParts(first, second);
    BehindSlash(first);
  }

  lemma Wins50A(fields: seq<Field>, text: string)
    requires AllSafe(fields) && Lookup(fields, "50A") == Some(text) && Trim(text) == text && text != ""
    ensures OrderingOf(Body(BlockOf(fields))) == CustomerOf50A(text)
  {
    Finds(fields, "50A");
  }

  /** `:50A:` decides over `:50K:`, whatever the rest of the message: a bank code alone, or with an account
      below it; or an account behind a slash, and then a bank code below it is lost. */
  lemma OrderingFrom50A(fields: seq<Field>, first: string, second: string)
    requires AllSafe(fields) && IsLine(first) && IsLine(second)
    ensures var o, text := OrderingOf(Body(BlockOf(fields))), Lookup(fields, "50A");
            var account := Customer(Some(TrimStart(first[1..])), None, None, None);
      && (text == Some(first) ==>
            o == if first[0] == '/' then account else Customer(None, None, None, Some(first)))
      && (text == Some(first + "\n" + second) ==>
            o == if first[0] == '/' then account else Customer(Some(second), None, None, Some(first)))
  {
    var text := Lookup(fields, "50A");
    OnePart(first);
    TwoParts(first, second);
    Customer50A(first, second);
    if text == Some(first) { Wins50A(fields, first); }
    if text == Some(first + "\n" + second) { Wins50A(fields, first + "\n" + second); }
  }

  /** Behind a slash only the start is left to be trimmed. */
  lemma BehindSlash(line: string)
    requires IsLine(line)
    ensures line[0] == '/' ==> Trim(line[1..]) == TrimStart(line[1..])
  {
    if line[0] == '/' { TrimStartKeepsEnd(line[1..]); }
  }

  lemma {:induction false} TrimStartKeepsEnd(s: string)
    requires s != "" ==> !IsSpace(s[|s| - 1])
    ensures Trim(s) == TrimStart(s)
  {
    if s != "" && IsSpace(s[0]) {
      TrimStartKeepsEnd(s[1..]);
    }
  }

  lemma Beneficiary59A(first: string, second: string)
    requires IsLine(first) && IsLine(second)
    ensures var iban := if first[0] == '/' then Some(TrimStart(first[1..])) else None;
      && BeneficiaryOf59A(first) == Beneficiary(None, iban, None, None)
      && BeneficiaryOf59A(first + "\n" + second) == Beneficiary(None, iban, Some(second), None)
  {
    OnePart(first);
    OnePart(second);
    TwoParts(first, second);
    BehindSlash(first);
  }

  lemma Wins59A(fields: seq<Field>, text: string)
    requires AllSafe(fields) && Lookup(fields, "59A") == Some(text) && Trim(text) == text && text != ""
    ensures BeneficiaryOf(Body(BlockOf(fields))) == BeneficiaryOf59A(text)
  {
    Finds(fields, "59A");
  }

  /** `:59A:` decides over `:59:`: an IBAN behind a slash, and the name below it; a first line without a
      slash is lost. */
  lemma BeneficiaryFrom59A(fields: seq<Field>, first: string, second: string)
    requires AllSafe(fields) && IsLine(first) && IsLine(second)
    ensures var b, text := BeneficiaryOf(Body(BlockOf(fields))), Lookup(fields, "59A");
            var iban := if first[0] == '/' then Some(TrimStart(first[1..])) else None;
      && (text == Some(first) ==> b == Beneficiary(None, iban, None, None))
      && (text == Some(first + "\n" + second) ==> b == Beneficiary(None, iban, Some(second), None))
  {
    var text := Lookup(fields, "59A");
    OnePart(first);
    TwoParts(first, second);
    Beneficiary59A(first, second);
    if text == Some(first) { Wins59A(fields, first); }
    if text == Some(first + "\n" + second) { Wins59A(fields, first + "\n" + second); }
  }

  /** A party as its lines say, one after the other. */
  predicate ByPosition(lines: seq<string>, account: Option<string>, name: Option<string>,
                       address: Option<seq<string>>) {
    if lines == [] then account == None && name == None && address == None
    else
      && account == Some(if lines[0] != "" && lines[0][0] == '/' then lines[0][1..] else lines[0])
      && name == (if |lines| == 1 then None else Some(lines[1]))
      && address == Some(if |lines| <= 2 then [] else lines[2..])
  }

  /** Without `:50A:` the customer is read off `:50K:` by line position; without that there is none. */
  lemma OrderingFrom50K(fields: seq<Field>)
    requires AllSafe(fields) && Lookup(fields, "50A").None?
    ensures var o, lines := OrderingOf(Body(BlockOf(fields))), LinesIn(OrEmpty(Lookup(fields, "50K")));
      o.bic == None && ByPosition(lines, o.account, o.name, o.address)
  {
    Finds(fields, "50A");
    LinesFound(fields, "50K");
  }

  /** And without `:59A:` the beneficiary off `:59:`. */
  lemma BeneficiaryFrom59(fields: seq<Field>)
    requires AllSafe(fields) && Lookup(fields, "59A").None?
    ensures var b, lines := BeneficiaryOf(Body(BlockOf(fields))), LinesIn(OrEmpty(Lookup(fields, "59")));
      b.iban == None && ByPosition(lines, b.account, b.name, b.address)
  {
    Finds(fields, "59A");
    LinesFound(fields, "59");
  }

  lemma LinesFound(fields: seq<Field>, tag: string)
    requires AllSafe(fields) && IsTagName(tag)
    ensures GetLines(Body(BlockOf(fields)), tag) == LinesIn(OrEmpty(Lookup(fields, tag)))
  {
    Finds(fields, tag);
    BlankLine("");
    assert Split("", '\n') == [""];
    if Lookup(fields, tag).Some? { LinesOfTrim(Lookup(fields, tag).value); }
  }

  // ---------- texts that are no block, and tags in small letters ----------

  /** Nowhere in the text does a text block begin. */
  ghost predicate NoBlock(s: string) {
    forall i :: 0 <= i <= |s| ==> !OpenAt(s[i..])
  }

  lemma {:induction false} NothingOpens(s: string)
    requires NoBlock(s)
    ensures AfterOpen(s) == None
  {
    assert s[0..] == s;
    if s != "" {
      forall i | 0 <= i <= |s| - 1 ensures !OpenAt(s[1..][i..]) {
        assert s[1..][i..] == s[i + 1..];
      }
      NothingOpens(s[1..]);
    }
  }

  /** Fields without a block around them are read like those of a block. */
  lemma BareFields(fields: seq<Field>, tag: string)
    requires AllSafe(fields) && IsTagName(tag) && NoBlock(Render(fields))
    ensures GetField(Body(Render(fields)), tag) == TrimOption(Lookup(fields, tag))
  {
    NothingOpens(Render(fields));
    GetFieldOfRender(fields, tag);
    if Lookup(fields, tag).Some? { TrimDropsEnd(Lookup(fields, tag).value, "\n"); }
  }

  /** A tag is found whether its letter is a capital or a small one. */
  lemma SmallTag(tag: string, small: char, content: string)
    requires IsTagName(tag) && |tag| == 3 && small as int == tag[2] as int + 32
    ensures var s := [':', tag[0], tag[1], small, ':'] + content;
      GetField(s, tag) == Some(Trim(UntilTag(content)))
  {
    var s := [':', tag[0], tag[1], small, ':'] + content;
    assert s[5..] == content && TagIs(s, tag);
  }
}
