/** What comes back of a canonical payment that went over SWIFT as MT103 text. */
module SwiftReturn {
  import opened Wrappers
  import opened Text
  import opened Numerals
  import opened FinScan
  import opened Mt103
  import opened Mt103Party
  import opened Mt103RoundTrip
  import opened Mt103Exact
  import opened SwiftParties
  import opened SwiftTranslation
  import C = Canonical

  // ---------- the parsed parties ----------

  /** The account that the parser reads off a party's lines: the first line that is not blank. */
  function ReadAccount(lines: seq<string>): string {
    if ReadLines(lines) == [] then "UNKNOWN" else Unslash(ReadLines(lines)[0])
  }

  /** The lines after the second are short enough for the schema's address lines. */
  predicate ShortLines(lines: seq<string>) {
    var read := ReadLines(lines);
    forall i :: 2 <= i < |read| && i < 6 ==> |read[i]| <= 70
  }

  function DebtorLines(m: Message): seq<string> {
    PartyLines(m.orderingCustomer.account, m.orderingCustomer.name, m.orderingCustomer.address, 3)
  }

  function CreditorLines(m: Message): seq<string> {
    PartyLines(m.beneficiaryCustomer.account, m.beneficiaryCustomer.name, m.beneficiaryCustomer.address, 2)
  }

  /** A printed account is read back up to its first line break and without blanks at its end. */
  lemma AccountReads(account: string, name: Option<string>, address: Option<seq<string>>, n: nat)
    requires account != ""
    ensures var back := ReadAccount(PartyLines(Some(account), name, address, n));
      && back == TrimEnd(FirstLine(account))
      && (back == account <==> Without(account, '\n') && !IsSpace(account[|account| - 1]))
  {
    PartyRead(Some(account), name, address, n);
    FirstPart('/', account);
    var first := "/" + FirstLine(account);
    TrimEndAfter("/", FirstLine(account));
    TrimKeepsHead(first);
    assert LinesIn("/" + account)[0] == "/" + TrimEnd(FirstLine(account));
    AccountFits(account);
  }

  lemma AccountFits(account: string)
    requires account != ""
    ensures TrimEnd(FirstLine(account)) == account <==> Without(account, '\n') && !IsSpace(account[|account| - 1])
  {
    SplitParts(account, '\n');
    TrimEndIsShorter(FirstLine(account));
    var _ := TrimEndSplits(FirstLine(account));
    if Without(account, '\n') { SplitOfWhole(account, '\n'); }
  }

  lemma ShortAfterFirst(a: seq<string>, l: seq<string>, d: seq<string>)
    requires |a| <= 1 && forall i :: 0 <= i < |l| ==> |l[i]| <= LINE_WIDTH
    requires forall i :: 0 <= i < |d| ==> |d[i]| <= LINE_WIDTH
    ensures forall i :: 1 <= i < |a + l + d| ==> |(a + l + d)[i]| <= 70
  {
    forall i | 1 <= i < |a + l + d| ensures |(a + l + d)[i]| <= 70 {
      if i < |a| + |l| { assert (a + l + d)[i] == l[i - |a|]; } else { assert (a + l + d)[i] == d[i - |a| - |l|]; }
    }
  }

  /** Only the account can lead to long lines, and only if it has line breaks. */
  lemma OneLineAccountIsShort(account: Option<string>, name: Option<string>, address: Option<seq<string>>, n: nat)
    requires account.Some? ==> Without(account.value, '\n')
    ensures ShortLines(PartyLines(account, name, address, n))
  {
    var a := if Truthy(account) then LinesIn("/" + account.value) else [];
    var l := if Truthy(name) then LinesIn(Take(name.value, LINE_WIDTH)) else [];
    var d := ReadLines(TakeLines(AddressOf(address), n));
    PartyRead(account, name, address, n);
    if Truthy(account) { AccountBack(account.value); }
    if Truthy(name) { LinesInShort(Take(name.value, LINE_WIDTH)); }
    AddressShort(AddressOf(address), n);
    ShortAfterFirst(a, l, d);
  }

  lemma StripOneLine(account: string)
    requires Without(account, '\n')
    ensures Without(StripPrefix(account), '\n')
  {
  }

  /** The schema's constraints on a party's address. */
  predicate AddressOk(address: Option<seq<string>>) {
    address.Some? ==> |address.value| <= 4 && forall i :: 0 <= i < |address.value| ==> |address.value[i]| <= 70
  }

  lemma AddressOfLines(read: seq<string>)
    requires |read| > 0
    ensures AddressOk(FirstLines(Some(Rest(read)), 4)) <==> forall i :: 2 <= i < |read| && i < 6 ==> |read[i]| <= 70
  {
    var address := FirstLines(Some(Rest(read)), 4).value;
    assert forall i :: 0 <= i < |address| ==> address[i] == read[i + 2];
    if forall i :: 0 <= i < |address| ==> |address[i]| <= 70 {
      forall i | 2 <= i < |read| && i < 6 ensures |read[i]| <= 70 {
        assert read[i] == address[i - 2];
      }
    }
  }

  lemma CustomerReads(lines: seq<string>)
    ensures var r := CustomerOfLines(ReadLines(lines));
      && OrElse(FirstOf(r.account, r.name), "UNKNOWN") == ReadAccount(lines) && r.bic == None
      && (AddressOk(FirstLines(r.address, 4)) <==> ShortLines(lines))
  {
    if ReadLines(lines) != [] { AddressOfLines(ReadLines(lines)); }
  }

  lemma BeneficiaryReads(lines: seq<string>)
    ensures var r := BeneficiaryOfLines(ReadLines(lines));
      && OrElse(FirstOf(r.account, r.name), "UNKNOWN") == ReadAccount(lines) && r.iban == None
      && (AddressOk(FirstLines(r.address, 4)) <==> ShortLines(lines))
  {
    if ReadLines(lines) != [] { AddressOfLines(ReadLines(lines)); }
  }

  lemma IbanReads(iban: string, name: string)
    requires IsIban(iban)
    ensures ReadIban(iban, name).iban == Some(iban)
    ensures ReadIban(iban, name).name == if AllSpace(name) then None else Some(Trim(FirstLine(name)))
  {
    FirstOfLine(iban, name);
    TrimStays(iban);
  }

  /** The parsed message of a sent payment. */
  function Received(c: C.Pacs008, freshRef: string, today: string): Message {
    Parsed(Printed(CanonicalToSwift(c)), freshRef, today)
  }

  lemma ReceivedIsRecovered(c: C.Pacs008, freshRef: string, today: string)
    requires Sendable(c)
    ensures Received(c, freshRef, today) == Recovered(CanonicalToSwift(c), Printed(CanonicalToSwift(c)), today)
  {
    TranslatedIsPrintable(c);
    RoundTrip(CanonicalToSwift(c), freshRef, today);
  }

  lemma {:induction false} UpperKeeps(s: string)
    requires forall i :: 0 <= i < |s| ==> IsUpper(s[i])
    ensures Upper(s) == s
  {
    if s != "" {
      UpperKeeps(s[1..]);
    }
  }

  lemma NoAmount()
    ensures ParseFloat("0") == Finite(0.0) && Upper("USD") == "USD"
  {
    CentsOfNothing();
    UpperKeeps("USD");
  }

  lemma CentsOfNothing()
    ensures ParseFloat("0") == Finite(0.0)
  {
  }

  lemma PlainRefBack(t: string)
    requires AllPlain(t) && |t| <= 16
    ensures Trim(Take(t, 16)) == t
  {
    TrimStays(t);
  }

  /** Joining with line breaks makes a text no longer than one break a chunk. */
  lemma {:induction false} ChunkedLength(s: string, lines: nat)
    requires |s| <= lines * LINE_WIDTH
    ensures |Join(Chunks(s), "\n")| <= |s| + lines
    decreases |s|
  {
    if |s| > LINE_WIDTH {
      ChunksCons(s);
      ChunkedLength(s[LINE_WIDTH..], lines - 1);
    } else if s != "" {
      assert Chunks(s) == [s] + Chunks("") == [s];
    }
  }

  /** The remittance text comes back, its ends trimmed and with line breaks in it. */
  lemma RemittanceReturns(text: string)
    requires |text| <= 127
    ensures var back := TakeIf(if text != "" then Some(Trim(RemittanceText(text))) else None, 140);
      RemoveAll(OrEmpty(back), '\n') == Trim(RemoveAll(text, '\n'))
  {
    ChunkedLength(text, 4);
    TrimIsTrimmed(RemittanceText(text));
    RemittanceContent(text);
  }

  /** What matters of a printed and parsed debtor, `r`. */
  predicate CustomerReturned(o: Customer, r: Customer) {
    var lines := PartyLines(o.account, o.name, o.address, 3);
    && OrElse(FirstOf(r.account, r.name), "UNKNOWN") == ReadAccount(lines) && r.bic == None
    && (AddressOk(FirstLines(r.address, 4)) <==> ShortLines(lines)) && NameReturned(lines, r.name, r.address)
  }

  /** Name and address are read by line position. */
  predicate NameReturned(lines: seq<string>, name: Option<string>, address: Option<seq<string>>) {
    name == At(ReadLines(lines), 1) && (ReadLines(lines) != [] ==> address == Some(Rest(ReadLines(lines))))
  }

  /** The name behind an IBAN: the first line of what is printed of it. */
  function NameBehindIban(name: Option<string>): Option<string> {
    var cut := Take(OrEmpty(name), LINE_WIDTH);
    if AllSpace(cut) then None else Some(Trim(FirstLine(cut)))
  }

  lemma RecoveredCustomerReturned(o: Customer)
    ensures CustomerReturned(o, RecoveredCustomer(o))
  {
    CustomerReads(PartyLines(o.account, o.name, o.address, 3));
  }

  /** And of a creditor. */
  predicate BeneficiaryReturned(b: Beneficiary, r: Beneficiary) {
    if Truthy(b.iban) then r.iban == b.iban && r.address == None && r.name == NameBehindIban(b.name)
    else
      var lines := PartyLines(b.account, b.name, b.address, 2);
      && r.iban == None && OrElse(FirstOf(r.account, r.name), "UNKNOWN") == ReadAccount(lines)
      && (AddressOk(FirstLines(r.address, 4)) <==> ShortLines(lines)) && NameReturned(lines, r.name, r.address)
  }

  lemma RecoveredBeneficiaryReturned(b: Beneficiary)
    requires Truthy(b.iban) ==> IsIban(b.iban.value)
    ensures BeneficiaryReturned(b, RecoveredBeneficiary(b))
  {
    if Truthy(b.iban) {
      IbanReads(b.iban.value, Take(OrEmpty(b.name), LINE_WIDTH));
    } else {
      BeneficiaryReads(PartyLines(b.account, b.name, b.address, 2));
    }
  }

  /** What matters of a printed and parsed message with this remittance text. */
  predicate Returned(m: Message, text: string, r: Message)
    requires m.amount.Finite?
  {
    && r.transactionRef == m.transactionRef && r.orderingInstitutionBic == None
    && (if IsCurrencyCode(m.currency) then
          Upper(r.currency) == m.currency && r.amount == Finite(RoundCents(m.amount.value) as real / 100.0)
        else Upper(r.currency) == "USD" && r.amount == Finite(0.0))
    && CustomerReturned(m.orderingCustomer, r.orderingCustomer)
    && BeneficiaryReturned(m.beneficiaryCustomer, r.beneficiaryCustomer)
    && r.accountWithInstitutionBic == RecoveredBic(m.accountWithInstitutionBic)
    && RemoveAll(OrEmpty(TakeIf(r.remittanceInfo, 140)), '\n') == Trim(RemoveAll(text, '\n'))
  }

  /** A message as the translation makes it. */
  predicate Translated(m: Message, text: string) {
    && AllPlain(m.transactionRef) && |m.transactionRef| <= 16 && m.amount.Finite?
    && |m.currency| == 3
    && (m.beneficiaryCustomer.iban.Some? ==> IsIban(m.beneficiaryCustomer.iban.value))
    && C.LengthAtMost(m.accountWithInstitutionBic, 11) && m.remittanceInfo == Some(text) && |text| <= 127
  }

  lemma RecoveredReturns(m: Message, text: string, raw: string, today: string)
    requires Translated(m, text)
    ensures Returned(m, text, Recovered(m, raw, today))
  {
    PlainRefBack(m.transactionRef);
    if IsCurrencyCode(m.currency) { UpperKeeps(m.currency); } else { NoAmount(); }
    RecoveredCustomerReturned(m.orderingCustomer);
    RecoveredBeneficiaryReturned(m.beneficiaryCustomer);
    RemittanceReturns(text);
  }

  lemma PaymentTranslated(c: C.Pacs008)
    requires C.SchemaOk(c)
    ensures Translated(CanonicalToSwift(c), RemittanceOf(c))
  {
    RemittanceNeverCut(c);
  }

  /** The accounts and the address lines that the way back takes from a message satisfy the schema. */
  predicate Readable(m: Message) {
    ShortLines(DebtorLines(m)) && (Truthy(m.beneficiaryCustomer.iban) || ShortLines(CreditorLines(m)))
  }

  /** What the way back takes over. */
  predicate TakenOver(m: Message, text: string, r: Message, back: C.Pacs008) {
    && back.currency == Upper(r.currency) && back.amount == r.amount
    && back.debtor.account_id == ReadAccount(DebtorLines(m))
    && back.creditor.account_id == back.alias
       == (if Truthy(m.beneficiaryCustomer.iban) then m.beneficiaryCustomer.iban.value
           else ReadAccount(CreditorLines(m)))
    && (back.aliasType == C.IBAN <==> Truthy(m.beneficiaryCustomer.iban))
    && back.destination.bic == RecoveredBic(m.accountWithInstitutionBic) && back.origin.bic == None
    && back.endToEndId == back.reference == m.transactionRef
    && RemoveAll(OrEmpty(back.remittanceInfo), '\n') == Trim(RemoveAll(text, '\n'))
    && NameTaken(DebtorLines(m), back.debtor)
    && (if Truthy(m.beneficiaryCustomer.iban) then
          && back.creditor.name == TakeIf(NameBehindIban(m.beneficiaryCustomer.name), 140)
          && back.creditor.address == None
        else NameTaken(CreditorLines(m), back.creditor))
  }

  predicate NameTaken(lines: seq<string>, p: C.Party) {
    && p.name == TakeIf(At(ReadLines(lines), 1), 140)
    && (ReadLines(lines) != [] ==> p.address == FirstLines(Some(Rest(ReadLines(lines))), 4))
  }

  /** Of a draft only amount and addresses can fail the schema. */
  lemma DraftOk(r: Message, paymentId: string, now: string)
    requires C.IsPaymentId(paymentId) && |r.transactionRef| <= 16 && |Upper(r.currency)| == 3 && r.amount.Finite?
    requires r.orderingInstitutionBic == None && r.orderingCustomer.bic == None
    requires C.LengthAtMost(r.accountWithInstitutionBic, 11)
    ensures C.SchemaOk(Draft(r, paymentId, now))
       <==> && r.amount.value > 0.0 && AddressOk(FirstLines(r.orderingCustomer.address, 4))
            && AddressOk(FirstLines(r.beneficiaryCustomer.address, 4))
  {
  }

  lemma DraftTakesOver(m: Message, text: string, r: Message, paymentId: string, now: string)
    requires Translated(m, text) && Returned(m, text, r)
    ensures TakenOver(m, text, r, Draft(r, paymentId, now))
  {
  }

  lemma ReturnedReadable(m: Message, text: string, r: Message)
    requires Translated(m, text) && Returned(m, text, r)
    ensures (&& AddressOk(FirstLines(r.orderingCustomer.address, 4))
             && AddressOk(FirstLines(r.beneficiaryCustomer.address, 4)))
            <==> Readable(m)
  {
  }

  lemma BackOk(m: Message, text: string, r: Message, paymentId: string, now: string)
    requires Translated(m, text) && Returned(m, text, r) && C.IsPaymentId(paymentId)
    requires C.LengthAtMost(RecoveredBic(m.accountWithInstitutionBic), 11)
    ensures C.SchemaOk(Draft(r, paymentId, now)) <==> r.amount.value > 0.0 && Readable(m)
    ensures TakenOver(m, text, r, Draft(r, paymentId, now))
  {
    DraftOk(r, paymentId, now);
    ReturnedReadable(m, text, r);
    DraftTakesOver(m, text, r, paymentId, now);
  }

  lemma BicShort(bic: Option<string>)
    requires C.LengthAtMost(bic, 11)
    ensures C.LengthAtMost(RecoveredBic(bic), 11)
  {
    if bic.Some? { TrimIsTrimmed(bic.value); }
  }

  /** The way back succeeds for these payments. */
  predicate Succeeds(c: C.Pacs008)
    requires c.amount.Finite?
  {
    IsCurrencyCode(c.currency) && RoundCents(c.amount.value) >= 1 && Readable(CanonicalToSwift(c))
  }

  predicate CameBack(c: C.Pacs008, back: C.Pacs008)
    requires c.amount.Finite?
  {
    var m, iban := CanonicalToSwift(c), IsIban(c.creditor.account_id);
    && back.currency == c.currency && (back.amount == c.amount <==> WholeCents(c.amount.value))
    && back.debtor.account_id == ReadAccount(DebtorLines(m))
    && back.creditor.account_id == back.alias == (if iban then c.creditor.account_id else ReadAccount(CreditorLines(m)))
    && (back.aliasType == C.IBAN <==> iban)
    && (back.destination.bic == c.destination.bic <==> BicFits(c.destination.bic)) && back.origin.bic == None
    && back.endToEndId == back.reference == PlainOrX(Take(c.endToEndId, 16))
    && RemoveAll(OrEmpty(back.remittanceInfo), '\n') == Trim(RemoveAll(RemittanceOf(c), '\n'))
    && PartiesCameBack(c, back)
  }

  /** An account of one line, rail prefix aside, that is printed in front of the name. */
  predicate OneLineAccount(accountId: string) {
    StripPrefix(accountId) != "" && Without(StripPrefix(accountId), '\n')
  }

  /** Which names and addresses came back: behind an account of one line those that fit, three address
      lines for the debtor and two for the creditor; behind an IBAN the name that fits and no address. */
  predicate PartiesCameBack(c: C.Pacs008, back: C.Pacs008) {
    && (OneLineAccount(c.debtor.account_id) ==>
          NameAndAddressBack(c.debtor, 3, back.debtor.name, back.debtor.address))
    && (if IsIban(c.creditor.account_id) then
          && (back.creditor.name == c.creditor.name <==> (c.creditor.name.Some? ==> FitsLine(c.creditor.name.value)))
          && back.creditor.address == None
        else OneLineAccount(c.creditor.account_id) ==>
          NameAndAddressBack(c.creditor, 2, back.creditor.name, back.creditor.address))
  }

  /** A cut name behind an IBAN comes back exactly if it fits a line. */
  lemma NameBehindIbanExact(name: Option<string>)
    ensures TakeIf(NameBehindIban(TakeIf(name, 35)), 140) == name <==> (name.Some? ==> FitsLine(name.value))
  {
    NameExact(name);
    assert Take(OrEmpty(TakeIf(name, 35)), LINE_WIDTH) == Take(OrEmpty(name), LINE_WIDTH);
    FirstLineShorter(Take(OrEmpty(name), LINE_WIDTH));
  }

  lemma FirstLineShorter(s: string)
    ensures |Trim(FirstLine(s))| <= |s|
  {
    SplitBounded(s);
    TrimIsTrimmed(FirstLine(s));
  }

  lemma NamesCameBack(c: C.Pacs008, back: C.Pacs008)
    requires var m := CanonicalToSwift(c);
      && NameTaken(DebtorLines(m), back.debtor)
      && (if IsIban(c.creditor.account_id) then
            && back.creditor.name == TakeIf(NameBehindIban(m.beneficiaryCustomer.name), 140)
            && back.creditor.address == None
          else NameTaken(CreditorLines(m), back.creditor))
    ensures PartiesCameBack(c, back)
  {
    var debtor, creditor := StripPrefix(c.debtor.account_id), StripPrefix(c.creditor.account_id);
    if OneLineAccount(c.debtor.account_id) {
      PartyReturns(debtor, c.debtor, 3);
      HasLines(debtor, c.debtor, 3);
    }
    if IsIban(c.creditor.account_id) {
      NameBehindIbanExact(c.creditor.name);
    } else if OneLineAccount(c.creditor.account_id) {
      PartyReturns(creditor, c.creditor, 2);
      HasLines(creditor, c.creditor, 2);
    }
  }

  lemma HasLines(account: string, p: C.Party, n: nat)
    requires account != "" && Without(account, '\n')
    ensures ReadLines(PartyLines(Some(account), TakeIf(p.name, 35), Some(AddressLines(p)), n)) != []
  {
    PartyInLines(account, p.name, AddressLines(p), n);
  }

  lemma TakenOverCameBack(c: C.Pacs008, r: Message, back: C.Pacs008)
    requires C.SchemaOk(c) && TakenOver(CanonicalToSwift(c), RemittanceOf(c), r, back)
    requires Upper(r.currency) == c.currency && (r.amount == c.amount <==> WholeCents(c.amount.value))
    requires RecoveredBic(c.destination.bic) == c.destination.bic <==> BicFits(c.destination.bic)
    ensures CameBack(c, back)
  {
    NamesCameBack(c, back);
  }

  lemma ReturnedCameBack(c: C.Pacs008, r: Message, now: string)
    requires C.SchemaOk(c) && Returned(CanonicalToSwift(c), RemittanceOf(c), r)
    ensures var back := SwiftToCanonical(r, c.payment_id, now);
      && (back.Ok? <==> Succeeds(c))
      && (back.Ok? ==> CameBack(c, back.result))
  {
    var m := CanonicalToSwift(c);
    PaymentTranslated(c);
    PositiveCents(RoundCents(c.amount.value));
    AmountExact(c.amount.value);
    BicExact(c.destination.bic);
    BicShort(m.accountWithInstitutionBic);
    BackOk(m, RemittanceOf(c), r, c.payment_id, now);
    if IsCurrencyCode(c.currency) { TakenOverCameBack(c, r, Draft(r, c.payment_id, now)); }
  }

  /** canonical -> MT103 text -> canonical, for every sendable payment: the way back succeeds exactly
      when the currency is in capitals, the amount rounds to at least a cent and no line of an account is
      too long for an address line, which accounts without line breaks never have. Then the currency
      comes back, the accounts as `AccountReads` says, without the rail prefixes they may have had, and
      an IBAN as one; the creditor's bank if it is trimmed; the amount rounded to cents; names and
      addresses as `PartiesCameBack` says; the debtor's bank is lost. */
  lemma SwiftRoundTrip(c: C.Pacs008, freshRef: string, today: string, now: string)
    requires Sendable(c)
    ensures var back := SwiftToCanonical(Received(c, freshRef, today), c.payment_id, now);
      && (back.Ok? <==> Succeeds(c))
      && (Without(c.debtor.account_id, '\n') && Without(c.creditor.account_id, '\n') ==>
            (back.Ok? <==> IsCurrencyCode(c.currency) && RoundCents(c.amount.value) >= 1))
      && (back.Ok? ==> CameBack(c, back.result))
  {
    ReceivedIsRecovered(c, freshRef, today);
    PaymentTranslated(c);
    RecoveredReturns(CanonicalToSwift(c), RemittanceOf(c), Printed(CanonicalToSwift(c)), today);
    ReturnedCameBack(c, Received(c, freshRef, today), now);
    if Without(c.debtor.account_id, '\n') && Without(c.creditor.account_id, '\n') {
      OneLineSucceeds(c);
    }
  }

  lemma OneLineSucceeds(c: C.Pacs008)
    requires c.amount.Finite? && Without(c.debtor.account_id, '\n') && Without(c.creditor.account_id, '\n')
    ensures Succeeds(c) <==> IsCurrencyCode(c.currency) && RoundCents(c.amount.value) >= 1
  {
    var m := CanonicalToSwift(c);
    var o, b := m.orderingCustomer, m.beneficiaryCustomer;
    StripOneLine(c.debtor.account_id);
    StripOneLine(c.creditor.account_id);
    OneLineAccountIsShort(o.account, o.name, o.address, 3);
    OneLineAccountIsShort(b.account, b.name, b.address, 2);
  }

  // ---------- the debtor's country ----------

  lemma CountryLine(country: string)
    requires |country| == 2 && IsUpper(country[0]) && IsUpper(country[1])
    ensures FitsLine("Country: " + country) && CountryOf("Country: " + country) == Some(country)
  {
    var line := "Country: " + country;
    TrimStays(line);
    TrimKeepsHead(line);
    assert TrimEnd(line) == line && |line| == 11 && line[8] == ' ' && line[9] == country[0] && line[10] == country[1];
    assert line[9..] == country;
    assert Without("Country: ", '\n');
  }

  /** The lines that account and name are read back as. */
  function HeadLines(account: Option<string>, name: Option<string>): seq<string> {
    ReadLines(PartyLines(account, name, None, 0))
  }

  lemma OneLineHead(account: Option<string>, name: Option<string>)
    requires account.Some? && Without(account.value, '\n') && (name.Some? ==> Without(name.value, '\n'))
    ensures |HeadLines(account, name)| >= 2
       <==> account.value != "" && name.Some? && !AllSpace(Take(name.value, LINE_WIDTH))
  {
    PartyRead(account, name, None, 0);
    ReadConcat([], []);
    AccountBack(account.value);
    if name.Some? { OneLine(Take(name.value, LINE_WIDTH)); }
  }

  /** A last line is part of the address exactly when two lines come before it. */
  lemma LastLine(head: seq<string>, line: string)
    ensures CountryOfAddress(Some(Rest(head + [line]))) == if |head| >= 2 then CountryOf(line) else None
  {
    var lines := head + [line];
    if |head| >= 2 { assert Rest(lines)[|lines| - 3] == line; }
  }

  lemma LinesWithAddress(account: Option<string>, name: Option<string>, line: string, n: nat)
    requires FitsLine(line) && n >= 1
    ensures ReadLines(PartyLines(account, name, Some([line]), n)) == HeadLines(account, name) + [line]
  {
    var a := if Truthy(account) then LinesIn("/" + account.value) else [];
    var l := if Truthy(name) then LinesIn(Take(name.value, LINE_WIDTH)) else [];
    PartyRead(account, name, Some([line]), n);
    OnlyLine(line, n);
    assert ReadLines(PartyLines(account, name, Some([line]), n)) == a + l + [line];
    HeadIs(account, name, a, l);
  }

  lemma OnlyLine(line: string, n: nat)
    requires FitsLine(line) && n >= 1
    ensures ReadLines(TakeLines([line], n)) == [line]
  {
    AddressBack([line], n);
  }

  lemma HeadIs(account: Option<string>, name: Option<string>, a: seq<string>, l: seq<string>)
    requires a == if Truthy(account) then LinesIn("/" + account.value) else []
    requires l == if Truthy(name) then LinesIn(Take(name.value, LINE_WIDTH)) else []
    ensures HeadLines(account, name) == a + l
  {
    PartyRead(account, name, None, 0);
    ReadConcat([], []);
    assert a + l + [] == a + l;
  }

  predicate IsCapitals(country: string) {
    |country| == 2 && IsUpper(country[0]) && IsUpper(country[1])
  }

  /** A country that travels as the only address line is read back exactly when it is in capitals and two
      lines come before it. */
  lemma CountryBack(account: Option<string>, name: Option<string>, country: string, n: nat)
    requires |country| == 2 && n >= 1
    ensures CountryOfAddress(Some(Rest(ReadLines(PartyLines(account, name, Some(["Country: " + country]), n)))))
         == Some(country)
       <==> |HeadLines(account, name)| >= 2 && IsCapitals(country)
  {
    if IsCapitals(country) {
      CountryLine(country);
      LinesWithAddress(account, name, "Country: " + country, n);
      LastLine(HeadLines(account, name), "Country: " + country);
    }
  }

  /** Of texts of one line account and name make two lines if the account is not only a rail prefix and
      there is a name. */
  predicate TwoLines(accountId: string, name: Option<string>) {
    StripPrefix(accountId) != "" && name.Some? && !AllSpace(Take(name.value, LINE_WIDTH))
  }

  /** The condition under which a party's country comes back: capitals, and two lines before it. */
  predicate CountryKept(p: C.Party)
    requires p.country.Some?
  {
    |HeadLines(Some(StripPrefix(p.account_id)), TakeIf(p.name, 35))| >= 2 && IsCapitals(p.country.value)
  }

  lemma KeptIfTwoLines(p: C.Party)
    requires p.country.Some? && Without(p.account_id, '\n') && (p.name.Some? ==> Without(p.name.value, '\n'))
    ensures CountryKept(p) <==> TwoLines(p.account_id, p.name) && IsCapitals(p.country.value)
  {
    StripOneLine(p.account_id);
    OneLineHead(Some(StripPrefix(p.account_id)), TakeIf(p.name, 35));
    if p.name.Some? { assert Take(Take(p.name.value, 35), LINE_WIDTH) == Take(p.name.value, LINE_WIDTH); }
  }

  /** Without an address a party's country travels as an address line, and is read back exactly
      when it is in capitals and two lines come before it: lines are told apart by their position.
      With an account and a name of one line each that means an account that is not only a rail
      prefix, and a name (`KeptIfTwoLines`). A creditor with an IBAN loses it. */
  lemma CountryReturns(c: C.Pacs008, freshRef: string, today: string, now: string)
    requires Sendable(c)
    ensures var back := Draft(Received(c, freshRef, today), c.payment_id, now);
      && (c.debtor.address.None? && c.debtor.country.Some? ==>
            (back.debtor.country == c.debtor.country <==> CountryKept(c.debtor)))
      && (c.creditor.address.None? && c.creditor.country.Some? ==>
            (back.creditor.country == c.creditor.country
             <==> !IsIban(c.creditor.account_id) && CountryKept(c.creditor)))
  {
    ReceivedIsRecovered(c, freshRef, today);
    if c.debtor.address.None? && c.debtor.country.Some? {
      DebtorCountry(c);
    }
    if c.creditor.address.None? && c.creditor.country.Some? {
      CreditorCountry(c);
    }
  }

  lemma AddressRead(lines: seq<string>)
    ensures CountryOfAddress(CustomerOfLines(ReadLines(lines)).address)
         == CountryOfAddress(BeneficiaryOfLines(ReadLines(lines)).address)
         == CountryOfAddress(Some(Rest(ReadLines(lines))))
  {
  }

  lemma DebtorCountry(c: C.Pacs008)
    requires C.SchemaOk(c) && c.debtor.address.None? && c.debtor.country.Some?
    ensures CountryOfAddress(RecoveredCustomer(CanonicalToSwift(c).orderingCustomer).address) == c.debtor.country
       <==> CountryKept(c.debtor)
  {
    AddressRead(DebtorLines(CanonicalToSwift(c)));
    CountryBack(Some(StripPrefix(c.debtor.account_id)), TakeIf(c.debtor.name, 35), c.debtor.country.value, 3);
  }

  lemma CreditorCountry(c: C.Pacs008)
    requires C.SchemaOk(c) && c.creditor.address.None? && c.creditor.country.Some?
    ensures CountryOfAddress(RecoveredBeneficiary(CanonicalToSwift(c).beneficiaryCustomer).address)
         == c.creditor.country
       <==> !IsIban(c.creditor.account_id) && CountryKept(c.creditor)
  {
    AddressRead(CreditorLines(CanonicalToSwift(c)));
    CountryBack(Some(StripPrefix(c.creditor.account_id)), TakeIf(c.creditor.name, 35), c.creditor.country.value, 2);
  }
}
