/** The canonical payment as an MT103 object and back, with no text in between; and what the text says
    of a payment beside its parties. */
module SwiftObjects {
  import opened Wrappers
  import opened Text
  import opened Numerals
  import opened FinScan
  import opened Mt103
  import opened Mt103Exact
  import opened Mt103RoundTrip
  import opened SwiftTranslation
  import opened SwiftReturn
  import C = Canonical

  // ---------- single texts ----------

  predicate IsLowerLetter(c: char) {
    'a' <= c <= 'z'
  }

  lemma {:induction false} UpperExact(s: string)
    ensures |Upper(s)| == |s|
    ensures Upper(s) == s <==> forall i :: 0 <= i < |s| ==> !IsLowerLetter(s[i])
  {
    if s != "" {
      UpperExact(s[1..]);
      assert s == [s[0]] + s[1..] && Upper(s)[1..] == Upper(s[1..]);
    }
  }

  predicate HasSwiftPrefix(s: string) {
    "PIX-" <= s || "SPEI-" <= s || "SWIFT-" <= s
  }

  lemma StripExact(s: string)
    ensures StripPrefix(s) == s <==> !HasSwiftPrefix(s)
  {
  }

  lemma PrefixHasNoDigit(s: string)
    requires HasSwiftPrefix(s)
    ensures |s| >= 3 && !IsDigit(s[2])
  {
    if "PIX-" <= s { assert s[2] == 'X'; } else if "SPEI-" <= s { assert s[2] == 'E'; } else { assert s[2] == 'I'; }
  }

  lemma ReferenceIs(endToEndId: string)
    ensures PlainOrX(Take(endToEndId, 16)) == endToEndId <==> |endToEndId| <= 16 && AllPlain(endToEndId)
  {
  }

  /** Every other character of a reference is replaced by an X. */
  lemma {:induction false} ReferenceAt(s: string, i: nat)
    requires i < |s|
    ensures PlainOrX(s)[i] == if Plain(s[i]) then s[i] else 'X'
  {
    if i > 0 {
      ReferenceAt(s[1..], i - 1);
    }
  }

  /** An address line ends in a country exactly if its last two characters are capitals and no word runs into them. */
  lemma CountryAtEnd(head: string, code: string)
    requires |code| == 2 && !IsSpace(code[1])
    ensures CountryOf(head + code)
         == if IsCapitals(code) && (head == "" || !IsWord(head[|head| - 1])) then Some(code) else None
  {
    var line := head + code;
    assert line[|line| - 1] == code[1] && line[|line| - 2] == code[0] && line[|line| - 2..] == code;
    assert TrimEnd(line) == line;
  }

  // ---------- the object ----------

  /** A country is read off the last address line exactly if that line was made of it, in capitals. */
  lemma CountryOfMadeUp(p: C.Party)
    requires p.address.None? && C.LengthIs(p.country, 2)
    ensures CountryOfAddress(Some(AddressLines(p))) == p.country <==> (p.country.Some? ==> IsCapitals(p.country.value))
  {
    if p.country.None? {
      UnknownIsNoCountry();
    } else if IsCapitals(p.country.value) {
      CountryLine(p.country.value);
    }
  }

  lemma UnknownIsNoCountry()
    ensures CountryOf("Unknown") == None
  {
    assert TrimEnd("Unknown") == "Unknown";
  }

  /** What comes back of a party. */
  predicate PartyBack(p: C.Party, back: C.Party) {
    && (back.name == p.name <==> (p.name.Some? ==> |p.name.value| <= 35))
    && (back.address == p.address <==> p.address.Some? && |p.address.value| <= 3)
    && (p.address.None? ==>
          back.address == Some([if p.country.Some? then "Country: " + p.country.value else "Unknown"]))
    && (p.address.None? ==> (back.country == p.country <==> (p.country.Some? ==> IsCapitals(p.country.value))))
    && back.taxId == None
  }

  /** What comes back of a payment. */
  predicate PaymentBack(c: C.Pacs008, back: C.Pacs008) {
    && PartyBack(c.debtor, back.debtor) && PartyBack(c.creditor, back.creditor)
    && (back.debtor.account_id == c.debtor.account_id <==> !HasSwiftPrefix(c.debtor.account_id))
    && (back.creditor.account_id == c.creditor.account_id <==> !HasSwiftPrefix(c.creditor.account_id))
    && back.alias == back.creditor.account_id && (back.aliasType == C.IBAN <==> IsIban(c.creditor.account_id))
    && back.amount == c.amount
    && (back.currency == c.currency <==> forall i :: 0 <= i < |c.currency| ==> !IsLowerLetter(c.currency[i]))
    && back.origin.bic == c.origin.bic && (back.destination.bic == c.destination.bic <==> c.destination.bic != Some(""))
    && back.endToEndId == back.reference
    && (back.endToEndId == c.endToEndId <==> |c.endToEndId| <= 16 && AllPlain(c.endToEndId))
    && back.remittanceInfo == Some(RemittanceOf(c)) && back.purpose == "P2P"
  }

  /** The party that is read off the object. */
  predicate IsRead(p: C.Party, back: C.Party) {
    && back.name == TakeIf(TakeIf(p.name, 35), 140) && back.address == FirstLines(Some(AddressLines(p)), 4)
    && back.country == CountryOfAddress(Some(AddressLines(p))) && back.taxId == None
  }

  lemma PartyOfObject(p: C.Party, back: C.Party)
    requires C.PartyOk(p) && IsRead(p, back)
    ensures PartyBack(p, back) && C.PartyOk(back)
  {
    if p.address.None? { CountryOfMadeUp(p); }
  }

  lemma DraftOfObject(c: C.Pacs008, now: string)
    requires C.SchemaOk(c)
    ensures var back := Draft(CanonicalToSwift(c), c.payment_id, now);
      C.SchemaOk(back) && PartyBack(c.debtor, back.debtor) && PartyBack(c.creditor, back.creditor)
  {
    var back := Draft(CanonicalToSwift(c), c.payment_id, now);
    RemittanceNeverCut(c);
    UpperExact(c.currency);
    PartyOfObject(c.debtor, back.debtor);
    PartyOfObject(c.creditor, back.creditor);
  }

  lemma RestOfObject(c: C.Pacs008, now: string)
    requires C.SchemaOk(c) && PartyBack(c.debtor, Draft(CanonicalToSwift(c), c.payment_id, now).debtor)
    requires PartyBack(c.creditor, Draft(CanonicalToSwift(c), c.payment_id, now).creditor)
    ensures PaymentBack(c, Draft(CanonicalToSwift(c), c.payment_id, now))
  {
    RemittanceNeverCut(c);
    UpperExact(c.currency);
    StripExact(c.debtor.account_id);
    StripExact(c.creditor.account_id);
    if HasSwiftPrefix(c.creditor.account_id) { PrefixHasNoDigit(c.creditor.account_id); }
    ReferenceIs(c.endToEndId);
  }

  /** canonical -> MT103 object -> canonical: for every payment that the schema admits the way back
      succeeds, with each field as `PaymentBack` says. Beside what the text keeps, the debtor's bank, names
      of several lines, three address lines of any width for both parties, and the exact amount come back. */
  lemma ObjectRoundTrip(c: C.Pacs008, now: string)
    requires C.SchemaOk(c)
    ensures var back := SwiftToCanonical(CanonicalToSwift(c), c.payment_id, now);
      back.Ok? && PaymentBack(c, back.result) && back.result.payment_id == c.payment_id && back.result.created_at == now
  {
    DraftOfObject(c, now);
    RestOfObject(c, now);
  }

  // ---------- codes in the text ----------

  lemma CodesReturn(m: Message, raw: string, today: string)
    requires m.amount.Finite? && m.bankOperationCode == "CRED" && m.detailsOfCharges == Some("SHA")
    ensures Recovered(m, raw, today).bankOperationCode == "CRED"
    ensures Recovered(m, raw, today).detailsOfCharges == Some("SHA")
  {
    TrimStays("CRED");
    TrimStays("SHA");
  }

  lemma SenderReturns(m: Message, id: string)
    requires Printable(m) && C.IsPaymentId(id) && m.senderToReceiverInfo == Some("/MIPIT/" + id)
    ensures GetField(Body(Printed(m)), "72") == Some(Take("/MIPIT/" + id, 35))
  {
    GetSlot(m, 8);
    SenderIsPlain(id);
    TrimStays(Take("/MIPIT/" + id, 35));
  }

  /** The text of a sent payment is a credit with shared charges, of the day the payment was made exactly if
      that is in the years 1970 to 2069; its field 72 carries the payment's id, up to 35 characters. */
  lemma SentCodes(c: C.Pacs008, freshRef: string, today: string)
    requires Sendable(c)
    ensures var r, date := Received(c, freshRef, today), Take(c.created_at, 10);
      && r.bankOperationCode == "CRED" && r.detailsOfCharges == Some("SHA")
      && (IsCurrencyCode(c.currency) ==> (r.valueDate == date <==> 1970 <= Year(date) <= 2069))
    ensures GetField(Body(Printed(CanonicalToSwift(c))), "72") == Some(Take("/MIPIT/" + c.payment_id, 35))
  {
    ReceivedIsRecovered(c, freshRef, today);
    TranslatedIsPrintable(c);
    CodesReturn(CanonicalToSwift(c), Printed(CanonicalToSwift(c)), today);
    DateExact(Take(c.created_at, 10));
    SenderReturns(CanonicalToSwift(c), c.payment_id);
  }
}
