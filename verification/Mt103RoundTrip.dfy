/** `parseMt103` after `serializeMt103`: what comes back, for every printable message. */
module Mt103RoundTrip {
  import opened Wrappers
  import opened Text
  import opened Numerals
  import opened FinScan
  import opened Mt103
  import opened Mt103Party

  // ---------- field 32A ----------

  lemma NoColonSafe(s: string)
    requires Without(s, ':') && Without(s, '-')
    ensures SafeContent(s)
  {
    var w := ":" + s;
    forall i | 0 <= i <= |w| ensures !TagAt(w[i..]) {
      assert forall k :: 1 <= k < |w| ==> w[k] == s[k - 1];
    }
  }

  lemma {:induction false} RemoveAllNone(a: string, c: char)
    requires Without(a, c)
    ensures RemoveAll(a, c) == a
  {
    if a != "" {
      RemoveAllNone(a[1..], c);
      assert a[0] != c;
    }
  }

  lemma {:induction false} RemoveAllAt(a: string, c: char, b: string)
    requires Without(a, c)
    ensures RemoveAll(a + [c] + b, c) == a + RemoveAll(b, c)
  {
    var s := a + [c] + b;
    if a == "" {
      assert s[1..] == b;
    } else {
      assert s[1..] == a[1..] + [c] + b;
      RemoveAllAt(a[1..], c, b);
      assert s[0] == a[0] != c;
    }
  }

  /** `YYYY-MM-DD` is printed as `YYMMDD`. */
  lemma DatePrinted(date: string)
    requires IsIsoDate(date)
    ensures Drop(RemoveAll(date, '-'), 2) == date[2..4] + date[5..7] + date[8..10]
  {
    var y, mo, d := date[..4], date[5..7], date[8..10];
    var rest := mo + ['-'] + d;
    assert date == y + ['-'] + rest;
    RemoveAllAt(y, '-', rest);
    RemoveAllAt(mo, '-', d);
    RemoveAllNone(d, '-');
    assert RemoveAll(date, '-') == y + (mo + d);
  }

  lemma {:induction false} ReplaceFirstAt(a: string, c: char, d: char, b: string)
    requires Without(a, c)
    ensures ReplaceFirst(a + [c] + b, c, d) == a + [d] + b
  {
    var s := a + [c] + b;
    if a == "" {
      assert s[1..] == b;
    } else {
      assert s[1..] == a[1..] + [c] + b;
      ReplaceFirstAt(a[1..], c, d, b);
      assert s[0] == a[0] != c;
    }
  }

  /** A comma amount read back gives the amount rounded to cents. */
  lemma AmountReadBack(cents: nat)
    ensures var amount := ReplaceFirst(CentsString(cents), '.', ',');
            && |amount| >= 1
            && (forall i :: 0 <= i < |amount| ==> IsDigit(amount[i]) || amount[i] == ',')
            && ParseFloat(ReplaceFirst(amount, ',', '.')) == Finite(cents as real / 100.0)
  {
    var whole, fraction := Dec(cents / 100), [DigitChar(cents % 100 / 10), DigitChar(cents % 10)];
    assert CentsString(cents) == whole + ['.'] + fraction;
    PointAndComma(whole, fraction);
    ParseOfCents(cents);
  }

  lemma PointAndComma(whole: string, fraction: string)
    requires AllDigits(whole) && AllDigits(fraction)
    ensures var amount := ReplaceFirst(whole + ['.'] + fraction, '.', ',');
            && |amount| >= 1
            && (forall i :: 0 <= i < |amount| ==> IsDigit(amount[i]) || amount[i] == ',')
            && ReplaceFirst(amount, ',', '.') == whole + ['.'] + fraction
  {
    ReplaceFirstAt(whole, '.', ',', fraction);
    ReplaceFirstAt(whole, ',', '.', fraction);
  }

  lemma Is32AOfParts(date: string, currency: string, amount: string)
    requires |date| == 6 && AllDigits(date) && |currency| == 3 && |amount| >= 1
    requires forall i :: 0 <= i < |amount| ==> IsDigit(amount[i]) || amount[i] == ','
    ensures var text := date + currency + amount;
            && (Is32A(text) <==> IsCurrencyCode(currency)) && Trimmed(text)
            && text[..6] == date && text[6..9] == currency && text[9..] == amount
            && (IsCurrencyCode(currency) ==> SafeContent(text))
  {
    var text := date + currency + amount;
    assert text[..6] == date && text[6..9] == currency && text[9..] == amount;
    assert forall i :: 0 <= i < 6 ==> text[i] == date[i];
    assert forall i :: 6 <= i < 9 ==> text[i] == currency[i - 6];
    assert forall i :: 0 <= i < 3 ==> currency[i] == text[i + 6];
    assert forall i :: 9 <= i < |text| ==> text[i] == amount[i - 9];
    if IsCurrencyCode(currency) { NoColonSafe(text); }
  }

  lemma AmountPrinted(amount: JsNumber)
    requires amount.Finite? && 0.0 <= amount.value
    ensures RoundCents(amount.value) >= 0 && ToFixed2(amount) == CentsString(RoundCents(amount.value))
  {
  }

  lemma DateDigits(date: string)
    requires IsIsoDate(date)
    ensures |Drop(RemoveAll(date, '-'), 2)| == 6 && AllDigits(Drop(RemoveAll(date, '-'), 2))
  {
    DatePrinted(date);
  }

  lemma Field32AParts(m: Message)
    requires IsIsoDate(m.valueDate) && |m.currency| == 3 && m.amount.Finite? && 0.0 <= m.amount.value
    ensures (Is32A(Field32A(m)) <==> IsCurrencyCode(m.currency)) && Trimmed(Field32A(m))
    ensures IsCurrencyCode(m.currency) ==> SafeContent(Field32A(m))
    ensures |Field32A(m)| >= 9
    ensures Field32A(m)[..6] == Drop(RemoveAll(m.valueDate, '-'), 2) && Field32A(m)[6..9] == m.currency
    ensures ParseFloat(ReplaceFirst(Field32A(m)[9..], ',', '.')) == Finite(RoundCents(m.amount.value) as real / 100.0)
  {
    DateDigits(m.valueDate);
    AmountPrinted(m.amount);
    AmountReadBack(RoundCents(m.amount.value));
    Is32AOfParts(Drop(RemoveAll(m.valueDate, '-'), 2), m.currency, ReplaceFirst(ToFixed2(m.amount), '.', ','));
  }

  // ---------- the printed block ----------

  function SlotTags(m: Message): seq<string> {
    ["20", "23B", "32A", "50K", "57A", Field59(m.beneficiaryCustomer).tag, "70", "71A", "72"]
  }

  predicate SlotsTagged(slots: seq<seq<Field>>, tags: seq<string>) {
    && |slots| == |tags|
    && forall i :: 0 <= i < |slots| ==> |slots[i]| <= 1 && (|slots[i]| == 1 ==> slots[i][0].tag == tags[i])
  }

  lemma {:induction false} LookupAbsent(slots: seq<seq<Field>>, tags: seq<string>, tag: string)
    requires SlotsTagged(slots, tags) && tag !in tags
    ensures Lookup(Flatten(slots), tag) == None
  {
    if slots != [] {
      assert tags[0] in tags;
      LookupAbsent(slots[1..], tags[1..], tag);
      LookupHead(slots[0], Flatten(slots[1..]), tag);
    }
  }

  lemma LookupHead(slot: seq<Field>, rest: seq<Field>, tag: string)
    requires |slot| <= 1
    ensures Lookup(slot + rest, tag)
         == if |slot| == 1 && slot[0].tag == tag then Some(slot[0].content) else Lookup(rest, tag)
  {
    if slot == [] {
      assert slot + rest == rest;
    } else {
      assert (slot + rest)[1..] == rest;
    }
  }

  lemma {:induction false} LookupSlot(slots: seq<seq<Field>>, tags: seq<string>, i: nat)
    requires SlotsTagged(slots, tags) && i < |slots|
    requires forall j, k :: 0 <= j < k < |tags| ==> tags[j] != tags[k]
    ensures Lookup(Flatten(slots), tags[i]) == if slots[i] == [] then None else Some(slots[i][0].content)
  {
    LookupHead(slots[0], Flatten(slots[1..]), tags[i]);
    if i == 0 {
      LookupAbsent(slots[1..], tags[1..], tags[0]);
    } else {
      LookupSlot(slots[1..], tags[1..], i - 1);
    }
  }

  lemma TagsDistinct(m: Message)
    ensures forall j, k :: 0 <= j < k < |SlotTags(m)| ==> SlotTags(m)[j] != SlotTags(m)[k]
    ensures forall i :: 0 <= i < |SlotTags(m)| ==> IsTagName(SlotTags(m)[i])
  {
  }

  lemma TagsAbsent(m: Message)
    ensures "50A" !in SlotTags(m) && IsTagName("50A") && IsTagName("59A")
    ensures !Truthy(m.beneficiaryCustomer.iban) ==> "59A" !in SlotTags(m)
  {
  }

  lemma SlotsAreTagged(m: Message)
    ensures SlotsTagged(Slots(m), SlotTags(m))
  {
    var slots: seq<seq<Field>>, tags := Slots(m), SlotTags(m);
    forall i | 0 <= i < 9 ensures |slots[i]| <= 1 && (|slots[i]| == 1 ==> slots[i][0].tag == tags[i]) {
      assert i == 0 || i == 1 || i == 2 || i == 3 || i == 4 || i == 5 || i == 6 || i == 7 || i == 8;
    }
  }

  lemma {:induction false} FlattenTags(slots: seq<seq<Field>>, tags: seq<string>)
    requires SlotsTagged(slots, tags) && forall i :: 0 <= i < |tags| ==> IsTagName(tags[i])
    ensures forall f :: f in Flatten(slots) ==> IsTagName(f.tag)
  {
    if slots != [] {
      FlattenTags(slots[1..], tags[1..]);
    }
  }

  lemma FieldsSafe(m: Message)
    requires Printable(m)
    ensures forall i :: 0 <= i < |Fields(m)| ==> SafeField(Fields(m)[i])
  {
    SlotsAreTagged(m);
    TagsDistinct(m);
    FlattenTags(Slots(m), SlotTags(m));
    BothSafe(Fields(m));
  }

  lemma BothSafe(fields: seq<Field>)
    requires SafeTexts(fields) && forall f :: f in fields ==> IsTagName(f.tag)
    ensures forall i :: 0 <= i < |fields| ==> SafeField(fields[i])
  {
    forall i | 0 <= i < |fields| ensures SafeField(fields[i]) {
      assert fields[i] in fields;
    }
  }

  lemma BasicHeaderSkips(r: string)
    ensures AfterOpen(BASIC_HEADER + r) == AfterOpen(r)
  {
    AfterOpenSkips(BASIC_HEADER, r);
  }

  lemma ApplicationHeaderSkips(r: string)
    ensures AfterOpen(APPLICATION_HEADER + r) == AfterOpen(r)
  {
    AfterOpenSkips(APPLICATION_HEADER, r);
  }

  lemma AfterHeader(r: string)
    ensures AfterOpen(HEADER + "{4:" + r) == Some(r)
  {
    var block := "{4:" + r;
    BasicHeaderSkips(APPLICATION_HEADER + block);
    ApplicationHeaderSkips(block);
    Assoc3(BASIC_HEADER, APPLICATION_HEADER, "{4:", r);
    assert block[3..] == r;
  }

  lemma Assoc3(a: string, b: string, c: string, d: string)
    ensures (a + b) + c + d == a + (b + (c + d))
  {
  }

  lemma BodyOfBlock(inner: string)
    requires NoClose(inner) && (inner != "" ==> inner[|inner| - 1] != '-')
    ensures Body(HEADER + "{4:" + (inner + "-}")) == inner
  {
    AfterHeader(inner + "-}");
    BeforeFirstClose(inner, "");
    assert inner + "-}" + "" == inner + "-}";
  }

  /** A message of any fields in any order. */
  function BlockOf(fields: seq<Field>): string {
    HEADER + "{4:" + "\n" + Render(fields) + "-}"
  }

  ghost predicate AllSafe(fields: seq<Field>) {
    forall i :: 0 <= i < |fields| ==> SafeField(fields[i])
  }

  /** Lines that close no block. */
  ghost predicate OpenLines(body: string) {
    NoClose(body) && (body != "" ==> body[|body| - 1] == '\n')
  }

  lemma RenderIsOpen(fields: seq<Field>)
    requires AllSafe(fields)
    ensures OpenLines(Render(fields))
  {
    NoCloseRender(fields);
    RenderEndsLine(fields);
  }

  /** The parser sees exactly the fields of the block. */
  lemma BodyOfFields(fields: seq<Field>)
    requires AllSafe(fields)
    ensures Body(BlockOf(fields)) == "\n" + Render(fields)
  {
    RenderIsOpen(fields);
    BodyInBlock(Render(fields));
  }

  lemma BodyInBlock(body: string)
    requires OpenLines(body)
    ensures Body(HEADER + "{4:" + "\n" + body + "-}") == "\n" + body
  {
    var inner := "\n" + body;
    assert forall i :: 1 <= i < |inner| ==> inner[i] == body[i - 1];
    BodyOfBlock(inner);
    Regroup(HEADER, body);
  }

  lemma Regroup(head: string, body: string)
    ensures head + "{4:" + (("\n" + body) + "-}") == head + "{4:" + "\n" + body + "-}"
  {
  }

  lemma {:induction false} RenderEndsLine(fields: seq<Field>)
    ensures fields != [] ==> Render(fields) != "" && Render(fields)[|Render(fields)| - 1] == '\n'
  {
    if fields != [] {
      RenderEndsLine(fields[1..]);
    }
  }

  /** The scan on the printed message is lookup among its fields. */
  lemma GetPrinted(m: Message, tag: string)
    requires Printable(m) && IsTagName(tag)
    ensures GetField(Body(Printed(m)), tag)
         == match Lookup(Fields(m), tag) { case None => None case Some(c) => Some(Trim(c + "\n")) }
  {
    FieldsSafe(m);
    GetFieldOf(Fields(m), tag);
  }

  lemma GetFieldOf(fields: seq<Field>, tag: string)
    requires IsTagName(tag) && AllSafe(fields)
    ensures GetField(Body(BlockOf(fields)), tag)
         == match Lookup(fields, tag) { case None => None case Some(c) => Some(Trim(c + "\n")) }
  {
    BodyOfFields(fields);
    FindTagThrough("", Render(fields), tag);
    assert "" + "\n" + Render(fields) == "\n" + Render(fields);
    GetFieldOfRender(fields, tag);
  }

  lemma GetSlot(m: Message, i: nat)
    requires Printable(m) && i < 9
    ensures GetField(Body(Printed(m)), SlotTags(m)[i])
         == if Slots(m)[i] == [] then None else Some(Trim(Slots(m)[i][0].content))
  {
    SlotsAreTagged(m);
    TagsDistinct(m);
    GetPrinted(m, SlotTags(m)[i]);
    LookupSlot(Slots(m), SlotTags(m), i);
    if Slots(m)[i] != [] { TrimDropsEnd(Slots(m)[i][0].content, "\n"); }
  }

  lemma GetAbsent(m: Message, tag: string)
    requires Printable(m) && IsTagName(tag) && tag !in SlotTags(m)
    ensures GetField(Body(Printed(m)), tag) == None
  {
    SlotsAreTagged(m);
    GetPrinted(m, tag);
    LookupAbsent(Slots(m), SlotTags(m), tag);
  }

  // ---------- the parsed parts ----------

  /** `getField` on the printed message, as a function of the tag. */
  function Got(m: Message, tag: string): Option<string> {
    GetField(Body(Printed(m)), tag)
  }

  lemma GotReference(m: Message)
    requires Printable(m)
    ensures Got(m, "20") == Some(Trim(Take(m.transactionRef, 16)))
  {
    GetSlot(m, 0);
  }

  lemma GotCode(m: Message)
    requires Printable(m)
    ensures Got(m, "23B") == Some(Trim(m.bankOperationCode))
  {
    GetSlot(m, 1);
  }

  lemma GotCharges(m: Message)
    requires Printable(m)
    ensures Got(m, "71A") == Some(Trim(Charges(m)))
  {
    GetSlot(m, 7);
  }

  lemma Trim32A(m: Message)
    requires Printable(m)
    ensures Trim(Field32A(m)) == Field32A(m)
  {
    Field32AParts(m);
    TrimStays(Field32A(m));
  }

  lemma Got32A(m: Message)
    requires Printable(m)
    ensures Got(m, "32A") == Some(Field32A(m))
  {
    GetSlot(m, 2);
    Trim32A(m);
  }

  lemma GotOptional(m: Message)
    requires Printable(m)
    ensures Got(m, "57A")
         == TrimOption(if Truthy(m.accountWithInstitutionBic) then m.accountWithInstitutionBic else None)
    ensures Got(m, "70")
         == if Truthy(m.remittanceInfo) then Some(Trim(RemittanceText(m.remittanceInfo.value))) else None
  {
    GetSlot(m, 4);
    GetSlot(m, 6);
  }

  lemma BicBack(bic: Option<string>)
    ensures BicOf(TrimOption(if Truthy(bic) then bic else None)) == RecoveredBic(bic)
  {
    if Truthy(bic) {
      TrimIsTrimmed(bic.value);
      TrimStays(Trim(bic.value));
    }
  }

  lemma GotOrdering(m: Message)
    requires Printable(m)
    ensures var o := m.orderingCustomer;
            Got(m, "50K") == Some(Trim(TrimEnd(EndLines(PartyLines(o.account, o.name, o.address, 3)))))
  {
    GetSlot(m, 3);
  }

  lemma GotNo50A(m: Message)
    requires Printable(m)
    ensures Got(m, "50A") == None
  {
    TagsAbsent(m);
    GetAbsent(m, "50A");
  }

  lemma GotNo59A(m: Message)
    requires Printable(m) && !Truthy(m.beneficiaryCustomer.iban)
    ensures Got(m, "59A") == None
  {
    TagsAbsent(m);
    GetAbsent(m, "59A");
  }

  lemma GotBeneficiary(m: Message)
    requires Printable(m)
    ensures var f := Field59(m.beneficiaryCustomer);
            Got(m, f.tag) == Some(Trim(f.content))
  {
    GetSlot(m, 5);
  }

  lemma CustomerFrom(body: string, lines: seq<string>)
    requires GetField(body, "50A") == None && GetField(body, "50K") == Some(Trim(TrimEnd(EndLines(lines))))
    ensures OrderingOf(body) == CustomerOfLines(ReadLines(lines))
  {
    FieldLines(lines);
  }

  lemma BeneficiaryFrom59(body: string, lines: seq<string>)
    requires GetField(body, "59A") == None && GetField(body, "59") == Some(Trim(TrimEnd(EndLines(lines))))
    ensures BeneficiaryOf(body) == BeneficiaryOfLines(ReadLines(lines))
  {
    FieldLines(lines);
  }

  lemma BeneficiaryFrom59A(body: string, iban: string, name: string)
    requires GetField(body, "59A") == Some(Trim(TrimEnd("/" + iban + "\n" + name)))
    ensures BeneficiaryOf(body) == ReadIban(iban, name)
  {
    IbanBack(iban, name);
  }

  lemma OrderingBack(m: Message)
    requires Printable(m)
    ensures OrderingOf(Body(Printed(m))) == RecoveredCustomer(m.orderingCustomer)
  {
    var o := m.orderingCustomer;
    GotOrdering(m);
    GotNo50A(m);
    CustomerFrom(Body(Printed(m)), PartyLines(o.account, o.name, o.address, 3));
  }

  lemma BeneficiaryBack(m: Message)
    requires Printable(m)
    ensures BeneficiaryOf(Body(Printed(m))) == RecoveredBeneficiary(m.beneficiaryCustomer)
  {
    var b := m.beneficiaryCustomer;
    GotBeneficiary(m);
    if Truthy(b.iban) {
      BeneficiaryFrom59A(Body(Printed(m)), b.iban.value, Take(OrEmpty(b.name), LINE_WIDTH));
    } else {
      GotNo59A(m);
      BeneficiaryFrom59(Body(Printed(m)), PartyLines(b.account, b.name, b.address, 2));
    }
  }

  /** The record put together from what the scan returned. */
  lemma Assemble(m: Message, raw: string, freshRef: string, today: string, field32A: string)
    requires m.amount.Finite? && |field32A| >= 9 && (Is32A(field32A) <==> IsCurrencyCode(m.currency))
    requires field32A[..6] == Drop(RemoveAll(m.valueDate, '-'), 2) && field32A[6..9] == m.currency
    requires ParseFloat(ReplaceFirst(field32A[9..], ',', '.')) == Finite(RoundCents(m.amount.value) as real / 100.0)
    ensures var r := Recovered(m, raw, today);
            Build(Some(r.transactionRef), Some(r.bankOperationCode), field32A, r.orderingCustomer,
                  r.accountWithInstitutionBic, r.beneficiaryCustomer, r.remittanceInfo, r.detailsOfCharges,
                  raw, freshRef, today) == r
  {
  }

  lemma AssemblePrinted(m: Message, raw: string, freshRef: string, today: string)
    requires Printable(m)
    ensures var r := Recovered(m, raw, today);
            Build(Some(r.transactionRef), Some(r.bankOperationCode), Field32A(m), r.orderingCustomer,
                  r.accountWithInstitutionBic, r.beneficiaryCustomer, r.remittanceInfo, r.detailsOfCharges,
                  raw, freshRef, today) == r
  {
    Field32AParts(m);
    Assemble(m, raw, freshRef, today, Field32A(m));
  }

  /** `parseMt103(serializeMt103(m))`, field by field, for every printable message. The ordering
      institution, the customer's own BIC and field 72 are printed or dropped and never read back. */
  lemma RoundTrip(m: Message, freshRef: string, today: string)
    requires Printable(m)
    ensures Parsed(Printed(m), freshRef, today) == Recovered(m, Printed(m), today)
    ensures var r := Parsed(Printed(m), freshRef, today);
      r.orderingInstitutionBic == None && r.orderingCustomer.bic == None && r.senderToReceiverInfo == None
  {
    GotReference(m);
    GotCode(m);
    GotCharges(m);
    Got32A(m);
    GotOptional(m);
    BicBack(m.accountWithInstitutionBic);
    OrderingBack(m);
    BeneficiaryBack(m);
    AssemblePrinted(m, Printed(m), freshRef, today);
  }

  /** Charges that are not given are printed as shared. */
  lemma DefaultCharges(m: Message)
    requires Printable(m) && (m.detailsOfCharges == None || m.detailsOfCharges == Some(""))
    ensures GetField(Body(Printed(m)), "71A") == Some("SHA")
  {
    GotCharges(m);
    TrimStays("SHA");
  }
}
