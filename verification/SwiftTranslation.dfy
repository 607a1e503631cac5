/** The canonical payment as an MT103 message and back, and when the message can be printed. */
module SwiftTranslation {
  import opened Wrappers
  import opened Text
  import opened Numerals
  import opened FinScan
  import opened Mt103
  import opened Mt103Safe
  import C = Canonical

  // ---------- canonical to MT103 ----------

  /** `/[A-Z0-9/-]/i` */
  predicate Plain(c: char) {
    IsLetter(c) || IsDigit(c) || c == '/' || c == '-'
  }

  predicate AllPlain(s: string) {
    forall i :: 0 <= i < |s| ==> Plain(s[i])
  }

  function PlainOrX(s: string): (r: string)
    ensures |r| == |s| && AllPlain(r) && (AllPlain(s) ==> r == s)
  {
    if s == "" then "" else [if Plain(s[0]) then s[0] else 'X'] + PlainOrX(s[1..])
  }

  predicate IsUpper(c: char) {
    'A' <= c <= 'Z'
  }

  /** `/^[A-Z]{2}\d{2}[A-Z0-9]{11,30}$/` */
  predicate IsIban(s: string) {
    && 15 <= |s| <= 34 && IsUpper(s[0]) && IsUpper(s[1]) && IsDigit(s[2]) && IsDigit(s[3])
    && forall i :: 4 <= i < |s| ==> IsUpper(s[i]) || IsDigit(s[i])
  }

  function StripPrefix(s: string): string {
    if "PIX-" <= s then s[4..] else if "SPEI-" <= s then s[5..] else if "SWIFT-" <= s then s[6..] else s
  }

  function AddressLines(p: C.Party): seq<string> {
    if p.address.Some? then (if |p.address.value| > 3 then p.address.value[..3] else p.address.value)
    else if Truthy(p.country) then ["Country: " + p.country.value]
    else ["Unknown"]
  }

  /** What the parts of field 70 are, joined by blanks and cut to 140 characters. */
  function RemittanceOf(c: C.Pacs008): string {
    var reference := if c.reference != "" && c.reference != "MIPIT-POC" then ["/REF/" + Take(c.reference, 16)] else [];
    var info := if Truthy(c.remittanceInfo) then [Take(c.remittanceInfo.value, 105)]
                else if c.purpose != "" then [Take(c.purpose, 35)] else [];
    Take(Join(reference + info, " "), REMITTANCE_WIDTH)
  }

  /** The payment has a reference of its own. */
  predicate HasReference(c: C.Pacs008) {
    c.reference != "" && c.reference != "MIPIT-POC"
  }

  /** What the text says after the reference. */
  function Subject(c: C.Pacs008): string {
    if Truthy(c.remittanceInfo) then Take(c.remittanceInfo.value, 105) else Take(c.purpose, 35)
  }

  /** What the text says before that, with the blank in between. */
  function ReferencePart(c: C.Pacs008): string {
    if HasReference(c) then "/REF/" + Take(c.reference, 16) + (if Subject(c) == "" then "" else " ") else ""
  }

  /** The text is the reference part and the subject, of at most 127 characters: the closing cut to
      140 never takes anything away. So a remittance text follows the reference part in full if and
      only if it has at most 105 characters. */
  lemma RemittanceNeverCut(c: C.Pacs008)
    ensures RemittanceOf(c) == ReferencePart(c) + Subject(c) && |RemittanceOf(c)| <= 127
    ensures HasReference(c) <==> ReferencePart(c) != ""
    ensures Truthy(c.remittanceInfo) ==>
      (RemittanceOf(c) == ReferencePart(c) + c.remittanceInfo.value <==> |c.remittanceInfo.value| <= 105)
  {
    var reference, subject := "/REF/" + Take(c.reference, 16), Subject(c);
    var parts := (if HasReference(c) then [reference] else []) + (if subject != "" then [subject] else []);
    assert RemittanceOf(c) == Take(Join(parts, " "), REMITTANCE_WIDTH);
    if HasReference(c) && subject != "" {
      assert parts == [reference, subject] && parts[1..] == [subject];
      assert Join(parts, " ") == reference + " " + subject;
    } else if HasReference(c) {
      assert parts == [reference];
    } else if subject != "" {
      assert parts == [subject];
    }
    assert |ReferencePart(c)| <= 22 && |subject| <= 105;
  }

  method BuildRemittanceInfo(c: C.Pacs008) returns (text: string)
    ensures text == RemittanceOf(c) == ReferencePart(c) + Subject(c) && |text| <= 127
  {
    var parts: seq<string> := [];
    if c.reference != "" && c.reference != "MIPIT-POC" {
      parts := parts + ["/REF/" + Take(c.reference, 16)];
    }
    if Truthy(c.remittanceInfo) {
      parts := parts + [Take(c.remittanceInfo.value, 105)];
    } else if c.purpose != "" {
      parts := parts + [Take(c.purpose, 35)];
    }
    RemittanceNeverCut(c);
    text := Take(Join(parts, " "), REMITTANCE_WIDTH);
  }

  function CanonicalToSwift(c: C.Pacs008): Message {
    var iban := IsIban(c.creditor.account_id);
    Message(
      PlainOrX(Take(c.endToEndId, 16)), "CRED", Take(c.created_at, 10), c.currency, c.amount,
      Customer(Some(StripPrefix(c.debtor.account_id)), TakeIf(c.debtor.name, 35), Some(AddressLines(c.debtor)),
               c.origin.bic),
      if Truthy(c.origin.bic) then c.origin.bic else None,
      if Truthy(c.destination.bic) then c.destination.bic else None,
      Beneficiary(if iban then None else Some(StripPrefix(c.creditor.account_id)),
                  if iban then Some(c.creditor.account_id) else None,
                  TakeIf(c.creditor.name, 35), Some(AddressLines(c.creditor))),
      Some(RemittanceOf(c)), Some("SHA"), Some("/MIPIT/" + c.payment_id), None)
  }

  // ---------- MT103 to canonical ----------

  function Upper(s: string): string {
    if s == "" then "" else [UpperChar(s[0])] + Upper(s[1..])
  }

  predicate IsWord(c: char) {
    IsLetter(c) || IsDigit(c) || c == '_'
  }

  /** `/\b([A-Z]{2})\s*$/` on the last address line. */
  function CountryOf(line: string): (r: Option<string>)
    ensures r.Some? ==> |r.value| == 2 && IsUpper(r.value[0]) && IsUpper(r.value[1])
  {
    var t := TrimEnd(line);
    var n := |t|;
    if n >= 2 && IsUpper(t[n - 2]) && IsUpper(t[n - 1]) && (n == 2 || !IsWord(t[n - 3])) then Some(t[n - 2..]) else None
  }

  function CountryOfAddress(address: Option<seq<string>>): Option<string> {
    if address.Some? && address.value != [] then CountryOf(address.value[|address.value| - 1]) else None
  }

  /** The canonical payment read off a message, before the schema check. */
  function Draft(m: Message, paymentId: string, now: string): C.Pacs008 {
    var o, b := m.orderingCustomer, m.beneficiaryCustomer;
    var debtorAccount := OrElse(FirstOf(o.account, o.name), "UNKNOWN");
    var creditorAccount := OrElse(FirstOf(b.iban, FirstOf(b.account, b.name)), "UNKNOWN");
    C.Pacs008(
      paymentId, now, Take(m.transactionRef, 35), m.amount, Upper(m.currency), None, None,
      C.Agent(None, None, FirstOf(m.orderingInstitutionBic, o.bic)), C.Agent(None, None, m.accountWithInstitutionBic),
      C.Party(TakeIf(o.name, 140), CountryOfAddress(o.address), debtorAccount, None, FirstLines(o.address, 4)),
      C.Party(TakeIf(b.name, 140), CountryOfAddress(b.address), creditorAccount, None, FirstLines(b.address, 4)),
      if Truthy(b.iban) then C.IBAN else C.ACCOUNT,
      creditorAccount, "P2P", m.transactionRef, TakeIf(m.remittanceInfo, 140))
  }

  function SwiftToCanonical(m: Message, paymentId: string, now: string): Result<C.Pacs008, C.TranslationError> {
    C.Checked(Draft(m, paymentId, now))
  }

  // ---------- the translated message is printable ----------

  lemma PlainIsSafe(t: string)
    requires AllPlain(t)
    ensures SafeContent(t)
  {
    ColonFreeIsSafe(t);
  }

  /** The fields with the free texts that the translation copies from the payment. */
  ghost predicate FreeTextsSafe(m: Message) {
    && SafeContent(Field32A(m))
    && SafeContent(Field50K(m.orderingCustomer).content) && SafeSlot(OptionalField("57A", m.accountWithInstitutionBic))
    && SafeContent(Field59(m.beneficiaryCustomer).content) && SafeSlot(RemittanceField(m.remittanceInfo))
  }

  /** A payment with an ISO date and an amount that prints without exponent. */
  predicate PlainPayment(c: C.Pacs008) {
    && C.SchemaOk(c) && IsIsoDate(Take(c.created_at, 10)) && c.amount.value < 1000000000000000000000.0
  }

  /** A payment that can go over SWIFT: what is printed of its texts reads as no tag and closes no block. */
  ghost predicate Sendable(c: C.Pacs008) {
    PlainPayment(c) && FreeTextsSafe(CanonicalToSwift(c))
  }

  lemma SenderIsPlain(id: string)
    requires C.IsPaymentId(id)
    ensures AllPlain("/MIPIT/" + id)
  {
    assert id[..4] == "PMT-";
    var t := "/MIPIT/" + id;
    forall i | 0 <= i < |t| ensures Plain(t[i]) {
      if i >= 11 { assert t[i] == id[i - 7]; }
      else if i >= 7 { assert t[i] == id[..4][i - 7]; }
    }
  }

  lemma SenderIsSafe(id: string)
    requires C.IsPaymentId(id)
    ensures SafeSlot(SenderField(Some("/MIPIT/" + id)))
  {
    SenderIsPlain(id);
    PlainIsSafe(Take("/MIPIT/" + id, LINE_WIDTH));
  }

  /** Everything the translation adds or rewrites itself is printable. */
  lemma OwnTextsSafe(c: C.Pacs008)
    requires PlainPayment(c)
    ensures var m := CanonicalToSwift(c);
      && PlainParts(m) && SafeContent(Take(m.transactionRef, 16)) && SafeContent(m.bankOperationCode)
      && SafeContent(Charges(m)) && SafeSlot(SenderField(m.senderToReceiverInfo))
  {
    PlainIsSafe(PlainOrX(Take(c.endToEndId, 16)));
    PlainIsSafe("CRED");
    PlainIsSafe("SHA");
    SenderIsSafe(c.payment_id);
  }

  /** So a translated payment is printable as soon as its own free texts are. */
  lemma TranslatedIsPrintable(c: C.Pacs008)
    requires Sendable(c)
    ensures Printable(CanonicalToSwift(c))
  {
    OwnTextsSafe(c);
    PrintableBySlots(CanonicalToSwift(c));
  }

  /** Texts that are safe one by one are enough, wherever the translation cuts them. */
  lemma SafeTextsAreSendable(c: C.Pacs008)
    requires PlainPayment(c) && IsCurrencyCode(c.currency) && SafeContent(RemittanceOf(c))
    requires SafeOption(c.destination.bic)
    requires SafeParty(Some(StripPrefix(c.debtor.account_id)), c.debtor.name, Some(AddressLines(c.debtor)))
    requires SafeParty(Some(StripPrefix(c.creditor.account_id)), c.creditor.name, Some(AddressLines(c.creditor)))
    requires SafeContent(c.creditor.account_id)
    ensures Sendable(c)
  {
    var m := CanonicalToSwift(c);
    var o, b := m.orderingCustomer, m.beneficiaryCustomer;
    if c.debtor.name.Some? { SafeTake(c.debtor.name.value, 35); }
    if c.creditor.name.Some? { SafeTake(c.creditor.name.value, 35); }
    CodeIsSafe(m);
    PartySafe(o.account, o.name, o.address, 3);
    BeneficiarySafe(b);
    if RemittanceOf(c) != "" { RemittanceSafe(RemittanceOf(c)); }
  }
}
