/** SWIFT MT103 (SWIFT Standards MT, Category 1): the message record, the FIN text printer and
    the independently written parser. */
module Mt103 {
  import opened Wrappers
  import opened Text
  import opened Numerals
  import opened FinScan

  datatype Customer = Customer(account: Option<string>, name: Option<string>,
                               address: Option<seq<string>>, bic: Option<string>)

  datatype Beneficiary = Beneficiary(account: Option<string>, iban: Option<string>,
                                     name: Option<string>, address: Option<seq<string>>)

  datatype Message = Message(
    transactionRef: string,
    bankOperationCode: string,
    valueDate: string,
    currency: string,
    amount: JsNumber,
    orderingCustomer: Customer,
    orderingInstitutionBic: Option<string>,
    accountWithInstitutionBic: Option<string>,
    beneficiaryCustomer: Beneficiary,
    remittanceInfo: Option<string>,
    detailsOfCharges: Option<string>,
    senderToReceiverInfo: Option<string>,
    rawMessage: Option<string>)

  const BASIC_HEADER := "{1:F01MIPITSIMMXXX0000000000}"
  const APPLICATION_HEADER := "{2:I103MIPITSIMMXXXN}"
  const HEADER := BASIC_HEADER + APPLICATION_HEADER
  const LINE_WIDTH := 35
  const REMITTANCE_WIDTH := 140

  // ---------- printing ----------

  function RemoveAll(s: string, c: char): string {
    if s == "" then "" else (if s[0] == c then "" else [s[0]]) + RemoveAll(s[1..], c)
  }

  function Drop(s: string, n: nat): (r: string)
    ensures |r| == if |s| <= n then 0 else |s| - n
  {
    if |s| <= n then "" else s[n..]
  }

  function ReplaceFirst(s: string, c: char, d: char): string {
    if s == "" then "" else if s[0] == c then [d] + s[1..] else [s[0]] + ReplaceFirst(s[1..], c, d)
  }

  function EndLines(lines: seq<string>): string {
    if lines == [] then "" else lines[0] + "\n" + EndLines(lines[1..])
  }

  function TakeLines(lines: seq<string>, n: nat): seq<string> {
    if lines == [] || n == 0 then [] else [Take(lines[0], LINE_WIDTH)] + TakeLines(lines[1..], n - 1)
  }

  /** The lines of a `:50K:` or `:59:` party field before the field is trimmed. */
  function PartyLines(account: Option<string>, name: Option<string>, address: Option<seq<string>>,
                      maxAddress: nat): seq<string> {
    (if Truthy(account) then ["/" + account.value] else [])
    + (if Truthy(name) then [Take(name.value, LINE_WIDTH)] else [])
    + (if address.Some? then TakeLines(address.value, maxAddress) else [])
  }

  function Chunks(s: string): seq<string>
    decreases |s|
  {
    if s == "" then [] else [Take(s, LINE_WIDTH)] + Chunks(Drop(s, LINE_WIDTH))
  }

  lemma ChunksCons(s: string)
    requires |s| > LINE_WIDTH
    ensures Join(Chunks(s), "\n") == s[..LINE_WIDTH] + "\n" + Join(Chunks(s[LINE_WIDTH..]), "\n")
  {
    assert Chunks(s)[1..] == Chunks(s[LINE_WIDTH..]) != [];
  }

  /** Field 70: the first 140 characters in lines of 35. */
  function RemittanceText(info: string): string {
    Join(Chunks(Take(info, REMITTANCE_WIDTH)), "\n")
  }

  function OrEmpty(o: Option<string>): string {
    if o.Some? then o.value else ""
  }

  function Field32A(m: Message): string {
    Drop(RemoveAll(m.valueDate, '-'), 2) + m.currency + ReplaceFirst(ToFixed2(m.amount), '.', ',')
  }

  function Field59(b: Beneficiary): Field {
    if Truthy(b.iban) then
      Field("59A", TrimEnd("/" + b.iban.value + "\n" + Take(OrEmpty(b.name), LINE_WIDTH)))
    else
      Field("59", TrimEnd(EndLines(PartyLines(b.account, b.name, b.address, 2))))
  }

  function OptionalField(tag: string, o: Option<string>): seq<Field> {
    if Truthy(o) then [Field(tag, o.value)] else []
  }

  function Field50K(c: Customer): Field {
    Field("50K", TrimEnd(EndLines(PartyLines(c.account, c.name, c.address, 3))))
  }

  function RemittanceField(info: Option<string>): seq<Field> {
    if Truthy(info) then [Field("70", RemittanceText(info.value))] else []
  }

  function SenderField(info: Option<string>): seq<Field> {
    if Truthy(info) then [Field("72", Take(info.value, LINE_WIDTH))] else []
  }

  /** The slots of the text block in their order; an optional slot may be empty. */
  function Slots(m: Message): seq<seq<Field>> {
    [ [Field("20", Take(m.transactionRef, 16))], [Field("23B", m.bankOperationCode)], [Field("32A", Field32A(m))],
      [Field50K(m.orderingCustomer)], OptionalField("57A", m.accountWithInstitutionBic),
      [Field59(m.beneficiaryCustomer)],
      RemittanceField(m.remittanceInfo), [Field("71A", Charges(m))], SenderField(m.senderToReceiverInfo) ]
  }

  function Flatten(slots: seq<seq<Field>>): seq<Field> {
    if slots == [] then [] else slots[0] + Flatten(slots[1..])
  }

  function Fields(m: Message): seq<Field> {
    Flatten(Slots(m))
  }

  function Charges(m: Message): string {
    if Truthy(m.detailsOfCharges) then m.detailsOfCharges.value else "SHA"
  }

  /** The FIN text of a message. */
  function Printed(m: Message): string {
    HEADER + "{4:" + "\n" + Render(Fields(m)) + "-}"
  }

  // ---------- parsing ----------

  function At(lines: seq<string>, i: nat): Option<string> {
    if i < |lines| then Some(lines[i]) else None
  }

  function Unslash(line: string): string {
    if "/" <= line then line[1..] else line
  }

  /** A party read off its lines by position. */
  function CustomerOfLines(lines: seq<string>): Customer {
    if lines == [] then Customer(None, None, None, None)
    else Customer(Some(Unslash(lines[0])), At(lines, 1), Some(Rest(lines)), None)
  }

  function BeneficiaryOfLines(lines: seq<string>): Beneficiary {
    if lines == [] then Beneficiary(None, None, None, None)
    else Beneficiary(Some(Unslash(lines[0])), None, At(lines, 1), Some(Rest(lines)))
  }

  function Rest(lines: seq<string>): seq<string> {
    if |lines| <= 2 then [] else lines[2..]
  }

  /** `:50A:`: an account line and a BIC line, in either order of presence. */
  function CustomerOf50A(text: string): Customer {
    var parts := Split(text, '\n');
    if "/" <= parts[0] then Customer(Some(Trim(parts[0][1..])), None, None, None)
    else Customer(TrimOption(At(parts, 1)), None, None, Some(Trim(parts[0])))
  }

  function BeneficiaryOf59A(text: string): Beneficiary {
    var parts := Split(Trim(text), '\n');
    Beneficiary(None, if "/" <= parts[0] then Some(Trim(parts[0][1..])) else None, TrimOption(At(parts, 1)), None)
  }

  function TrimOption(o: Option<string>): Option<string> {
    if o.Some? then Some(Trim(o.value)) else None
  }

  /** `/^(\d{6})([A-Z]{3})([\d,]+)$/` */
  predicate Is32A(s: string) {
    && |s| >= 10
    && AllDigits(s[..6])
    && (forall i :: 6 <= i < 9 ==> 'A' <= s[i] <= 'Z')
    && (forall i :: 9 <= i < |s| ==> IsDigit(s[i]) || s[i] == ',')
  }

  function Century(yy: string): string {
    if AllDigits(yy) && Value(yy) >= 70 then "19" else "20"
  }

  function DateOf(yymmdd: string): string {
    Century(Take(yymmdd, 2)) + Take(yymmdd, 2) + "-" + Take(Drop(yymmdd, 2), 2) + "-" + Take(Drop(yymmdd, 4), 2)
  }

  function BicOf(field57A: Option<string>): Option<string> {
    if Truthy(field57A) then TrimOption(field57A) else None
  }

  /** The record built from the field texts. */
  function Build(field20: Option<string>, field23B: Option<string>, field32: string, ordering: Customer,
                 bic: Option<string>,
                 beneficiary: Beneficiary, field70: Option<string>, field71A: Option<string>,
                 raw: string, freshRef: string, today: string): Message
  {
    var ok := Is32A(field32);
    Message(
      if field20.Some? then field20.value else freshRef,
      if field23B.Some? then field23B.value else "CRED",
      DateOf(if ok then field32[..6] else today),
      if ok then field32[6..9] else "USD",
      ParseFloat(if ok then ReplaceFirst(field32[9..], ',', '.') else "0"),
      ordering, None, bic, beneficiary, field70, field71A, None, Some(raw))
  }

  /** `parseMt103`. The fresh reference and today's date (YYMMDD), used when `:20:` or `:32A:` is
      missing, are parameters. */
  function Parsed(raw: string, freshRef: string, today: string): Message {
    var body := Body(raw);
    Build(GetField(body, "20"), GetField(body, "23B"), OrEmpty(GetField(body, "32A")), OrderingOf(body),
          BicOf(GetField(body, "57A")), BeneficiaryOf(body), GetField(body, "70"), GetField(body, "71A"),
          raw, freshRef, today)
  }

  // ---------- which messages are printed safely, and what comes back ----------

  predicate IsIsoDate(s: string) {
    && |s| == 10 && s[4] == '-' && s[7] == '-'
    && forall i :: 0 <= i < 10 && i != 4 && i != 7 ==> IsDigit(s[i])
  }

  ghost predicate SafeTexts(fields: seq<Field>) {
    forall i :: 0 <= i < |fields| ==> SafeContent(fields[i].content)
  }

  /** A currency that `:32A:` is recognised with. */
  predicate IsCurrencyCode(currency: string) {
    |currency| == 3 && forall i :: 0 <= i < 3 ==> 'A' <= currency[i] <= 'Z'
  }

  /** An ISO date, a currency of three characters, an amount that prints without exponent, and in no
      field text that reads as a tag or closes the block. The texts are otherwise arbitrary: they may
      be empty, blank, untrimmed, too long or of several lines, and may contain colons. */
  ghost predicate Printable(m: Message) {
    && IsIsoDate(m.valueDate)
    && |m.currency| == 3 && m.amount.Finite? && 0.0 <= m.amount.value < 1000000000000000000000.0
    && SafeTexts(Fields(m))
  }

  /** What the parser makes of a field of these lines: line by line, trimmed, without the blank ones. */
  function ReadLines(lines: seq<string>): seq<string> {
    LinesIn(EndLines(lines))
  }

  function FirstLine(s: string): string {
    Split(s, '\n')[0]
  }

  /** What follows the first line break. */
  function AfterLine(s: string): string {
    if s == "" then "" else if s[0] == '\n' then s[1..] else AfterLine(s[1..])
  }

  /** Of an IBAN and a name printed on two lines: the first line, and the next one unless only white
      space is left. */
  function ReadIban(iban: string, name: string): Beneficiary {
    var text := iban + "\n" + name;
    Beneficiary(None, Some(Trim(FirstLine(text))),
                if AllSpace(AfterLine(text)) then None else Some(Trim(FirstLine(AfterLine(text)))), None)
  }

  function RecoveredBeneficiary(b: Beneficiary): Beneficiary {
    if Truthy(b.iban) then ReadIban(b.iban.value, Take(OrEmpty(b.name), LINE_WIDTH))
    else BeneficiaryOfLines(ReadLines(PartyLines(b.account, b.name, b.address, 2)))
  }

  function RecoveredCustomer(c: Customer): Customer {
    CustomerOfLines(ReadLines(PartyLines(c.account, c.name, c.address, 3)))
  }

  /** A printed optional text comes back trimmed, or not at all if it is blank. */
  function RecoveredBic(bic: Option<string>): Option<string> {
    if Truthy(bic) && Trim(bic.value) != "" then Some(Trim(bic.value)) else None
  }

  /** What the parser makes of `raw`, the printed form of `m`: without a currency in capitals date,
      currency and amount are its defaults. */
  function Recovered(m: Message, raw: string, today: string): Message
    requires m.amount.Finite?
  {
    var ok := IsCurrencyCode(m.currency);
    Message(
      Trim(Take(m.transactionRef, 16)),
      Trim(m.bankOperationCode),
      DateOf(if ok then Drop(RemoveAll(m.valueDate, '-'), 2) else today),
      if ok then m.currency else "USD",
      if ok then Finite(RoundCents(m.amount.value) as real / 100.0) else ParseFloat("0"),
      RecoveredCustomer(m.orderingCustomer),
      None,
      RecoveredBic(m.accountWithInstitutionBic),
      RecoveredBeneficiary(m.beneficiaryCustomer),
      if Truthy(m.remittanceInfo) then Some(Trim(RemittanceText(m.remittanceInfo.value))) else None,
      Some(Trim(Charges(m))),
      None,
      Some(raw))
  }

  // ---------- the printer and the parser, in steps ----------

  /** `info.slice(i, i + 35)` */
  function Slice35(info: string, i: nat): string
    requires i <= |info|
  {
    if i + LINE_WIDTH <= |info| then info[i..i + LINE_WIDTH] else info[i..]
  }

  lemma SliceIsChunk(info: string, i: nat)
    requires i < |info| && i + LINE_WIDTH <= REMITTANCE_WIDTH
    ensures var kept := Take(info, REMITTANCE_WIDTH);
            Chunks(Drop(kept, i)) == [Slice35(info, i)] + Chunks(Drop(kept, i + LINE_WIDTH))
  {
    var rest := Drop(Take(info, REMITTANCE_WIDTH), i);
    assert Take(rest, LINE_WIDTH) == Slice35(info, i);
    assert Drop(rest, LINE_WIDTH) == Drop(Take(info, REMITTANCE_WIDTH), i + LINE_WIDTH);
  }

  lemma NextChunk(chunks: seq<string>, info: string, i: nat)
    requires i < |info| && i + LINE_WIDTH <= REMITTANCE_WIDTH
    ensures var kept := Take(info, REMITTANCE_WIDTH);
      chunks + Chunks(Drop(kept, i)) == (chunks + [Slice35(info, i)]) + Chunks(Drop(kept, i + LINE_WIDTH))
  {
    SliceIsChunk(info, i);
  }

  lemma NoMoreChunks(chunks: seq<string>, info: string, i: nat)
    requires i >= REMITTANCE_WIDTH || i >= |info|
    ensures chunks + Chunks(Drop(Take(info, REMITTANCE_WIDTH), i)) == chunks
  {
  }

  method SplitRemittance(info: string) returns (text: string)
    ensures text == RemittanceText(info)
  {
    var chunks: seq<string> := [];
    var i := 0;
    ghost var kept := Take(info, REMITTANCE_WIDTH);
    assert Drop(kept, 0) == kept;
    while i < REMITTANCE_WIDTH && i < |info|
      invariant i == 0 || i == 35 || i == 70 || i == 105 || i == 140
      invariant Chunks(kept) == chunks + Chunks(Drop(kept, i))
    {
      NextChunk(chunks, info, i);
      chunks := chunks + [Slice35(info, i)];
      i := i + LINE_WIDTH;
    }
    NoMoreChunks(chunks, info, i);
    text := Join(chunks, "\n");
  }

  method AppendAddress(start: string, address: seq<string>, maxAddress: nat) returns (field: string)
    ensures field == start + EndLines(TakeLines(address, maxAddress))
  {
    field := start;
    var i := 0;
    while i < |address| && i < maxAddress
      invariant i <= |address| && i <= maxAddress
      invariant start + EndLines(TakeLines(address, maxAddress))
             == field + EndLines(TakeLines(address[i..], maxAddress - i))
    {
      field := field + Take(address[i], LINE_WIDTH) + "\n";
      i := i + 1;
    }
  }

  /** The lines a party contributes, appended one by one as the printer does. */
  method AppendParty(start: string, account: Option<string>, name: Option<string>, address: Option<seq<string>>,
                     maxAddress: nat)
    returns (field: string)
    ensures field == start + EndLines(PartyLines(account, name, address, maxAddress))
  {
    field := AppendLine(start, Truthy(account), "/" + OrEmpty(account));
    field := AppendLine(field, Truthy(name), Take(OrEmpty(name), LINE_WIDTH));
    var lines := if address.Some? then address.value else [];
    field := AppendAddress(field, lines, maxAddress);
    PartyInParts(start, account, name, address, maxAddress);
  }

  lemma PartyInParts(start: string, account: Option<string>, name: Option<string>, address: Option<seq<string>>,
                     maxAddress: nat)
    ensures start + EndLines(PartyLines(account, name, address, maxAddress))
         == start + EndLines(if Truthy(account) then ["/" + OrEmpty(account)] else [])
            + EndLines(if Truthy(name) then [Take(OrEmpty(name), LINE_WIDTH)] else [])
            + EndLines(TakeLines(if address.Some? then address.value else [], maxAddress))
  {
    var a := if Truthy(account) then ["/" + OrEmpty(account)] else [];
    var n := if Truthy(name) then [Take(OrEmpty(name), LINE_WIDTH)] else [];
    var d := TakeLines(if address.Some? then address.value else [], maxAddress);
    assert PartyLines(account, name, address, maxAddress) == a + n + d;
    EndLinesOfConcat(a + n, d);
    EndLinesOfConcat(a, n);
    Assoc4(start, EndLines(a), EndLines(n), EndLines(d));
  }

  lemma Assoc4(a: string, b: string, c: string, d: string)
    ensures a + ((b + c) + d) == a + b + c + d
  {
  }

  method AppendLine(start: string, present: bool, line: string) returns (field: string)
    ensures field == start + EndLines(if present then [line] else [])
  {
    field := if present then start + line + "\n" else start;
  }

  /** `filter(Boolean)` */
  function NonEmpty(entries: seq<string>): seq<string> {
    if entries == [] then [] else (if entries[0] == "" then [] else [entries[0]]) + NonEmpty(entries[1..])
  }

  function Texts(fields: seq<Field>): seq<string> {
    if fields == [] then [] else [FieldText(fields[0])] + Texts(fields[1..])
  }

  lemma {:induction false} TextsOfConcat(a: seq<Field>, b: seq<Field>)
    ensures Texts(a + b) == Texts(a) + Texts(b)
  {
    if a == [] {
      assert a + b == b;
    } else {
      assert (a + b)[1..] == a[1..] + b;
      TextsOfConcat(a[1..], b);
    }
  }

  /** Entries left empty for absent fields drop out. */
  lemma {:induction false} NonEmptySlots(slots: seq<seq<Field>>, entries: seq<string>)
    requires |slots| == |entries|
    requires forall i :: 0 <= i < |slots| ==>
      |slots[i]| <= 1 && entries[i] == (if slots[i] == [] then "" else FieldText(slots[i][0]))
    ensures NonEmpty(entries) == Texts(Flatten(slots))
  {
    if slots != [] {
      NonEmptySlots(slots[1..], entries[1..]);
      TextsOfConcat(slots[0], Flatten(slots[1..]));
      assert Texts(slots[0]) == if slots[0] == [] then [] else [FieldText(slots[0][0])];
    }
  }

  lemma {:induction false} JoinOfTexts(fields: seq<Field>)
    requires fields != []
    ensures Join(Texts(fields), "\n") + "\n" == Render(fields)
  {
    if |fields| > 1 {
      JoinOfTexts(fields[1..]);
      assert Texts(fields)[1..] == Texts(fields[1..]);
    }
  }

  lemma TrimPartyField(tag: string, body: string)
    ensures Trim(Label(tag) + body) == Label(tag) + TrimEnd(body)
  {
    TrimKeepsHead(Label(tag) + body);
    TrimEndAfter(Label(tag), body);
  }

  lemma {:induction false} TrimEndAfter(head: string, body: string)
    requires head != "" && !IsSpace(head[|head| - 1])
    ensures TrimEnd(head + body) == head + TrimEnd(body)
  {
    if body == "" {
      assert head + body == head;
    } else {
      assert (head + body)[..|head + body| - 1] == head + body[..|body| - 1];
      TrimEndAfter(head, body[..|body| - 1]);
    }
  }

  lemma {:induction false} EndLinesOfConcat(a: seq<string>, b: seq<string>)
    ensures EndLines(a + b) == EndLines(a) + EndLines(b)
  {
    if a == [] {
      assert a + b == b;
    } else {
      assert (a + b)[1..] == a[1..] + b;
      EndLinesOfConcat(a[1..], b);
    }
  }

  /** The text of a slot, empty for an absent field. */
  function EntryText(slot: seq<Field>): string {
    if slot == [] then "" else FieldText(slot[0])
  }

  lemma WrapBody(head: string, body: string)
    ensures head + "{4:" + "\n" + (body + "\n") + "-}" == head + "{4:\n" + body + "\n-}"
  {
  }

  /** The message around the entries that are present. */
  function BlockText(entries: seq<string>): string {
    HEADER + "{4:\n" + Join(NonEmpty(entries), "\n") + "\n-}"
  }

  lemma WrapEntries(slots: seq<seq<Field>>, entries: seq<string>)
    requires |slots| == |entries| == 9 && |slots[0]| == 1
    requires forall i :: 0 <= i < 9 ==> |slots[i]| <= 1 && entries[i] == EntryText(slots[i])
    ensures BlockText(entries) == HEADER + "{4:" + "\n" + Render(Flatten(slots)) + "-}"
  {
    NonEmptySlots(slots, entries);
    assert Flatten(slots) == slots[0] + Flatten(slots[1..]);
    JoinOfTexts(Flatten(slots));
    WrapBody(HEADER, Join(Texts(Flatten(slots)), "\n"));
  }

  /** Nine entries, one for each slot, are the printed message. */
  lemma NineEntries(m: Message, e: seq<string>)
    requires |e| == 9
    requires e[0] == Label("20") + Take(m.transactionRef, 16) && e[1] == Label("23B") + m.bankOperationCode
    requires e[2] == FieldText(Field("32A", Field32A(m))) && e[3] == FieldText(Field50K(m.orderingCustomer))
    requires e[4] == EntryText(OptionalField("57A", m.accountWithInstitutionBic))
    requires e[5] == FieldText(Field59(m.beneficiaryCustomer))
    requires e[6] == EntryText(RemittanceField(m.remittanceInfo)) && e[7] == Label("71A") + Charges(m)
    requires e[8] == EntryText(SenderField(m.senderToReceiverInfo))
    ensures BlockText(e) == Printed(m)
  {
    var s := Slots(m);
    forall i | 0 <= i < 9 ensures |s[i]| <= 1 && e[i] == EntryText(s[i]) {
      assert i == 0 || i == 1 || i == 2 || i == 3 || i == 4 || i == 5 || i == 6 || i == 7 || i == 8;
    }
    WrapEntries(s, e);
  }

  method Serialize32A(m: Message) returns (field: string)
    ensures field == FieldText(Field("32A", Field32A(m)))
  {
    var dateYYMMDD := Drop(RemoveAll(m.valueDate, '-'), 2);
    var amountStr := ReplaceFirst(ToFixed2(m.amount), '.', ',');
    field := Label("32A") + (dateYYMMDD + m.currency + amountStr);
  }

  method Serialize50K(c: Customer) returns (field: string)
    ensures field == FieldText(Field50K(c))
  {
    field := AppendParty(Label("50K"), c.account, c.name, c.address, 3);
    TrimPartyField("50K", EndLines(PartyLines(c.account, c.name, c.address, 3)));
    field := Trim(field);
  }

  method Serialize70(info: Option<string>) returns (field: string)
    ensures field == EntryText(RemittanceField(info))
  {
    field := "";
    if Truthy(info) {
      var lines := SplitRemittance(info.value);
      field := Label("70") + lines;
    }
  }

  method SerializeMt103(m: Message) returns (text: string)
    ensures text == Printed(m)
  {
    var field32A := Serialize32A(m);
    var field50 := Serialize50K(m.orderingCustomer);
    var field57 := EntryText(OptionalField("57A", m.accountWithInstitutionBic));
    var field59 := Serialize59(m.beneficiaryCustomer);
    var field70 := Serialize70(m.remittanceInfo);
    var field71A := Label("71A") + Charges(m);
    var field72 := EntryText(SenderField(m.senderToReceiverInfo));
    var entries := [Label("20") + Take(m.transactionRef, 16), Label("23B") + m.bankOperationCode, field32A, field50,
                    field57, field59, field70, field71A, field72];
    NineEntries(m, entries);
    text := BlockText(entries);
  }

  method Serialize59(b: Beneficiary) returns (field: string)
    ensures field == FieldText(Field59(b))
  {
    if Truthy(b.iban) {
      ghost var body := "/" + b.iban.value + "\n" + Take(OrEmpty(b.name), LINE_WIDTH);
      field := Label("59A") + "/" + b.iban.value + "\n" + Take(OrEmpty(b.name), LINE_WIDTH);
      assert field == Label("59A") + body;
      TrimPartyField("59A", body);
    } else {
      field := AppendParty(Label("59"), b.account, b.name, b.address, 2);
      TrimPartyField("59", EndLines(PartyLines(b.account, b.name, b.address, 2)));
    }
    field := Trim(field);
  }

  function OrderingOf(body: string): Customer {
    var field50A := GetField(body, "50A");
    if Truthy(field50A) then CustomerOf50A(field50A.value) else CustomerOfLines(GetLines(body, "50K"))
  }

  method ParseOrdering(body: string) returns (c: Customer)
    ensures c == OrderingOf(body)
  {
    c := Customer(None, None, None, None);
    var field50K := GetLines(body, "50K");
    var field50A := GetField(body, "50A");
    if Truthy(field50A) {
      var parts := Split(field50A.value, '\n');
      if "/" <= parts[0] {
        c := c.(account := Some(Trim(parts[0][1..])));
      } else {
        c := c.(bic := Some(Trim(parts[0])), account := TrimOption(At(parts, 1)));
      }
    } else if |field50K| > 0 {
      c := c.(account := Some(Unslash(field50K[0])));
      c := c.(name := At(field50K, 1));
      c := c.(address := Some(Rest(field50K)));
    }
  }

  function BeneficiaryOf(body: string): Beneficiary {
    var field59A := GetField(body, "59A");
    if Truthy(field59A) then BeneficiaryOf59A(field59A.value) else BeneficiaryOfLines(GetLines(body, "59"))
  }

  method ParseBeneficiary(body: string) returns (b: Beneficiary)
    ensures b == BeneficiaryOf(body)
  {
    b := Beneficiary(None, None, None, None);
    var field59 := GetLines(body, "59");
    var field59A := GetField(body, "59A");
    if Truthy(field59A) {
      var parts := Split(Trim(field59A.value), '\n');
      if "/" <= parts[0] {
        b := b.(iban := Some(Trim(parts[0][1..])));
      }
      b := b.(name := TrimOption(At(parts, 1)));
    } else if |field59| > 0 {
      b := b.(account := Some(Unslash(field59[0])));
      b := b.(name := At(field59, 1));
      b := b.(address := Some(Rest(field59)));
    }
  }

  method ParseMt103(raw: string, freshRef: string, today: string) returns (m: Message)
    ensures m == Parsed(raw, freshRef, today)
  {
    var body := Body(raw);
    var field20 := GetField(body, "20");
    var field23B := GetField(body, "23B");
    var field32 := OrEmpty(GetField(body, "32A"));
    var rawDate, currency, amountStr := today, "USD", "0";
    if Is32A(field32) {
      rawDate, currency, amountStr := field32[..6], field32[6..9], ReplaceFirst(field32[9..], ',', '.');
    }
    var orderingCustomer := ParseOrdering(body);
    var field57A := GetField(body, "57A");
    var bic := BicOf(field57A);
    var beneficiaryCustomer := ParseBeneficiary(body);
    m := Message(if field20.Some? then field20.value else freshRef, if field23B.Some? then field23B.value else "CRED",
                 DateOf(rawDate), currency, ParseFloat(amountStr), orderingCustomer, None, bic, beneficiaryCustomer,
                 GetField(body, "70"), GetField(body, "71A"), None, Some(raw));
  }
}
