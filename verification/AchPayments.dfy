/** What the printed ACH file of a canonical payment says of the payment, line by line. */
module AchPayments {
  import opened Wrappers
  import opened Text
  import opened Numerals
  import opened Canonical
  import opened AchNacha
  import opened AchRecords
  import opened AchTranslation

  // ---------- what the translation makes of single texts ----------

  /** A text that is padded twice is padded once. */
  lemma ColumnTwice(s: string, n: nat)
    ensures Column(Column(s, n), n) == Column(s, n)
  {
    assert Fill(' ', 0) == "";
  }

  /** `column` gives the text back exactly when it fits and is trimmed. */
  predicate Shows(column: string, s: string, width: nat) {
    Trim(column) == s <==> |s| <= width && Trimmed(s)
  }

  lemma PaddedShows(s: string, n: nat)
    ensures Shows(Column(Column(s, n), n), s, n)
  {
    ColumnTwice(s, n);
    ColumnReads(s, n);
  }

  lemma CutShows(s: string, n: nat)
    ensures Shows(Column(Take(s, n), n), s, n)
  {
    ColumnReads(s, n);
    assert Column(Take(s, n), n) == Column(s, n);
  }

  /** `YYYY-MM-DD...` as YYMMDD. */
  lemma DateDigits(createdAt: string)
    requires |createdAt| >= 10
    ensures Yymmdd(createdAt) == [createdAt[2], createdAt[3], createdAt[5], createdAt[6], createdAt[8], createdAt[9]]
  {
  }

  lemma {:induction false} ZeroOthersAt(s: string, i: nat)
    requires i < |s|
    ensures ZeroOthers(s)[i] == if IsDigit(s[i]) then s[i] else '0'
  {
    if i > 0 {
      ZeroOthersAt(s[1..], i - 1);
    }
  }

  lemma BatchDigits(id: string)
    requires IsPaymentId(id)
    ensures var batch := PadStart(ZeroOthers(Take(WithoutPmt(id), 7)), 7, '0');
      IsBatchNumber(id, batch)
  {
    var head := Take(WithoutPmt(id), 7);
    assert head == id[4..11] && Fill('0', 0) == "";
    forall i | 0 <= i < 7 ensures ZeroOthers(head)[i] == if IsDigit(id[4 + i]) then id[4 + i] else '0' {
      ZeroOthersAt(head, i);
    }
  }

  lemma {:induction false} DigitsAlone(s: string)
    ensures DigitsOf(s) == s <==> AllDigits(s)
  {
    if s != "" {
      DigitsAlone(s[1..]);
      assert s == [s[0]] + s[1..];
      assert AllDigits(s) <==> IsDigit(s[0]) && AllDigits(s[1..]);
      assert !IsDigit(s[0]) ==> |DigitsOf(s)| < |s|;
    }
  }

  lemma {:induction false} DigitsKeepEnds(s: string)
    requires AllDigits(s)
    ensures Trimmed(s)
  {
  }

  /** The company id: the tax id's digits, which are the tax id itself if it is nothing else and not too long. */
  lemma CompanyId(taxId: string)
    ensures Trim(Column(Take(DigitsOf(taxId), 10), 10)) == taxId <==> AllDigits(taxId) && |taxId| <= 10
  {
    var id := Take(DigitsOf(taxId), 10);
    DigitsKeepEnds(id);
    ColumnReads(id, 10);
    DigitsAlone(taxId);
  }

  // ---------- the lines of the file ----------

  /** Nine digits in front of a slash, and what follows it without rail prefix; or the defaults. */
  lemma AbaParts(alias: string, fallbackAccount: string)
    ensures ParseAbaAlias(alias, fallbackAccount)
         == if LeadsWithRouting(alias) then (alias[..9], StripRailPrefix(alias[10..]))
            else ("021000021", StripRailPrefix(fallbackAccount))
  {
    if LeadsWithRouting(alias) {
      LeadingRouting(alias);
    } else {
      SplitHead(alias);
    }
  }

  /** The routing number of the originating institution. */
  function Odfi(c: Pacs008): string {
    OrElse(c.origin.routingNumber, "000000000")
  }

  /** The debtor's texts on the type 5 line. */
  predicate CompanyTexts(c: Pacs008, b: seq<string>) {
    && |b| == 13 && Shows(b[2], OrElse(c.debtor.name, "MIPIT"), 16) && Shows(b[6], c.purpose, 10)
    && (if c.debtor.taxId.Some? then
          Trim(b[4]) == c.debtor.taxId.value <==> AllDigits(c.debtor.taxId.value) && |c.debtor.taxId.value| <= 10
        else b[4] == "1234567890")
  }

  /** The seven characters after PMT-, those that are no digits as zeros. */
  predicate IsBatchNumber(id: string, batch: string) {
    && |batch| == 7 && |id| >= 11
    && forall i :: 0 <= i < 7 ==> batch[i] == if IsDigit(id[4 + i]) then id[4 + i] else '0'
  }

  /** Its codes, dates, institution and batch number. */
  predicate CompanyCodes(c: Pacs008, b: seq<string>) {
    && |b| == 13 && b[0] == "5" && b[1] == "220" && AllSpace(b[3]) && b[9] == "   " && b[10] == "1"
    && b[5] == (if c.destination.routingNumber.Some? && c.destination.routingNumber.value != "" then "CCD" else "PPD")
    && |c.created_at| >= 10 && b[7] == b[8] == c.created_at[2..4] + c.created_at[5..7] + c.created_at[8..10]
    && |Odfi(c)| == 9 && b[11] == Odfi(c)[..8] && IsBatchNumber(c.payment_id, b[12])
  }

  /** The account that is credited. */
  function CreditedAccount(c: Pacs008): string {
    StripRailPrefix(if LeadsWithRouting(c.alias) then c.alias[10..] else c.creditor.account_id)
  }

  /** The creditor's texts on the type 6 line. */
  predicate CreditTexts(c: Pacs008, e: seq<string>) {
    && |e| == 10 && Shows(e[3], CreditedAccount(c), 17)
    && Shows(e[5], OrElse(c.creditor.taxId, ""), 15) && Shows(e[6], OrElse(c.creditor.name, "BENEFICIARY"), 22)
  }

  /** Eight digits of the institution and seven of the clock. */
  predicate IsTrace(c: Pacs008, clockMs: nat, trace: string) {
    && |Odfi(c)| == 9 && |trace| == 15 && trace[..8] == Odfi(c)[..8]
    && AllDigits(trace[8..]) && Value(trace[8..]) == clockMs % 10000000
  }

  /** Its codes, routing number, amount and trace. */
  predicate CreditCodes(c: Pacs008, clockMs: nat, e: seq<string>) {
    && |e| == 10 && e[0] == "6" && e[1] == "22" && e[7] == "  "
    && e[2] == (if LeadsWithRouting(c.alias) then c.alias[..9] else "021000021")
    && c.amount.Finite? && AllDigits(e[4]) && Value(e[4]) == RoundCents(c.amount.value)
    && e[8] == (if c.remittanceInfo.Some? && c.remittanceInfo.value != "" then "1" else "0")
    && IsTrace(c, clockMs, e[9])
  }

  /** Remittance text and reference, as far as the 80 columns of a type 7 line go. */
  predicate AddendumColumnsOf(c: Pacs008, a: seq<string>)
    requires c.remittanceInfo.Some?
  {
    var own := c.reference != "" && c.reference != "MIPIT-POC";
    && |a| == 5 && a[0] == "7" && a[1] == "05"
    && Shows(a[2], c.remittanceInfo.value + if own then " REF:" + c.reference else "", 80)
    && a[3] == "0001" && |Odfi(c)| == 9 && a[4] == Odfi(c)[..7]
  }

  lemma OdfiIs(c: Pacs008, clockMs: nat)
    requires SchemaOk(c)
    ensures CanonicalToAchNacha(c, clockMs).odfiRouting == Odfi(c) && |Odfi(c)| == 9
  {
    var zeros := Fill('0', 9);
    assert zeros == "000000000";
    var alias := zeros + "/" + StripRailPrefix(c.debtor.account_id);
    assert alias[..9] == zeros && alias[9] == '/';
    AbaParts(alias, c.debtor.account_id);
  }

  /** The batch header of a payment, with its texts as they are before they are padded. */
  predicate HeaderFor(c: Pacs008, b: BatchHeader) {
    && b.serviceClassCode == "220" && b.companyName == Column(OrElse(c.debtor.name, "MIPIT"), 16)
    && b.companyId == (if c.debtor.taxId.Some? then Take(DigitsOf(c.debtor.taxId.value), 10) else "1234567890")
    && b.secCode
       == (if c.destination.routingNumber.Some? && c.destination.routingNumber.value != "" then "CCD" else "PPD")
    && b.companyEntryDescription == Column(c.purpose, 10) && b.companyDescriptiveDate == Some(Yymmdd(c.created_at))
    && b.effectiveEntryDate == Yymmdd(c.created_at) && b.originatingDfiId == Take(Odfi(c), 8)
    && b.batchNumber == PadStart(ZeroOthers(Take(WithoutPmt(c.payment_id), 7)), 7, '0')
  }

  lemma BatchHeaderIs(c: Pacs008, clockMs: nat)
    requires SchemaOk(c)
    ensures HeaderFor(c, CanonicalToAchNacha(c, clockMs).batchHeader)
  {
    OdfiIs(c, clockMs);
  }

  lemma CompanyTextLine(c: Pacs008, b: BatchHeader, f: seq<string>)
    requires b.companyName == Column(OrElse(c.debtor.name, "MIPIT"), 16)
    requires b.companyEntryDescription == Column(c.purpose, 10)
    requires b.companyId == if c.debtor.taxId.Some? then Take(DigitsOf(c.debtor.taxId.value), 10) else "1234567890"
    requires |f| == 13 && f[2] == Column(b.companyName, 16) && f[4] == Column(b.companyId, 10)
    requires f[6] == Column(b.companyEntryDescription, 10)
    ensures CompanyTexts(c, f)
  {
    PaddedShows(OrElse(c.debtor.name, "MIPIT"), 16);
    PaddedShows(c.purpose, 10);
    if c.debtor.taxId.Some? { CompanyId(c.debtor.taxId.value); }
    ColumnIs("1234567890", 10);
  }

  lemma CompanyCodeLine(c: Pacs008, b: BatchHeader, date: string)
    requires |c.created_at| >= 10 && date == c.created_at[2..4] + c.created_at[5..7] + c.created_at[8..10]
    requires b.serviceClassCode == "220" && b.companyDescriptiveDate == Some(date) && b.effectiveEntryDate == date
    requires b.secCode
          == if c.destination.routingNumber.Some? && c.destination.routingNumber.value != "" then "CCD" else "PPD"
    requires |Odfi(c)| == 9 && b.originatingDfiId == Odfi(c)[..8] && IsBatchNumber(c.payment_id, b.batchNumber)
    ensures CompanyCodes(c, BatchHeaderFields(b))
  {
    ColumnIs(date, 6);
    assert PadStart(b.batchNumber, 7, '0') == b.batchNumber;
  }

  lemma ColumnIs(s: string, n: nat)
    requires |s| == n
    ensures Column(s, n) == s
  {
  }

  lemma CompanyLine(c: Pacs008, b: BatchHeader)
    requires IsPaymentId(c.payment_id) && |c.created_at| >= 10 && |Odfi(c)| == 9 && HeaderFor(c, b)
    ensures CompanyTexts(c, BatchHeaderFields(b)) && CompanyCodes(c, BatchHeaderFields(b))
  {
    DateDigits(c.created_at);
    BatchDigits(c.payment_id);
    CompanyTextLine(c, b, BatchHeaderFields(b));
    CompanyCodeLine(c, b, Yymmdd(c.created_at));
  }

  /** And the entry. */
  predicate EntryFor(c: Pacs008, clockMs: nat, e: EntryDetail) {
    && e.transactionCode == 22 && e.amount == Cents(c.amount) && e.accountNumber == Column(CreditedAccount(c), 17)
    && e.routingTransitNumber == (if LeadsWithRouting(c.alias) then c.alias[..9] else "021000021")
    && OrElse(e.individualIdNumber, "") == Take(OrElse(c.creditor.taxId, ""), 15)
    && e.individualName == Column(OrElse(c.creditor.name, "BENEFICIARY"), 22) && e.discretionaryData == Some("  ")
    && e.addendaRecordIndicator == (if c.remittanceInfo.Some? && c.remittanceInfo.value != "" then "1" else "0")
    && e.traceNumber == Some(Trace(c, clockMs))
  }

  lemma EntryIs(c: Pacs008, clockMs: nat)
    requires SchemaOk(c)
    ensures EntryFor(c, clockMs, CanonicalToAchNacha(c, clockMs).entryDetail)
  {
    OdfiIs(c, clockMs);
    AbaParts(c.alias, c.creditor.account_id);
  }

  function Trace(c: Pacs008, clockMs: nat): string {
    Take(Odfi(c), 8) + PadStart(Dec(clockMs % 10000000), 7, '0')
  }

  lemma TraceIs(c: Pacs008, clockMs: nat)
    requires |Odfi(c)| == 9
    ensures IsTrace(c, clockMs, Trace(c, clockMs))
  {
    ClockDigits(clockMs);
    assert Trace(c, clockMs)[8..] == PadStart(Dec(clockMs % 10000000), 7, '0');
  }

  lemma CreditTextLine(c: Pacs008, e: EntryDetail, f: seq<string>)
    requires e.accountNumber == Column(CreditedAccount(c), 17)
    requires OrElse(e.individualIdNumber, "") == Take(OrElse(c.creditor.taxId, ""), 15)
    requires e.individualName == Column(OrElse(c.creditor.name, "BENEFICIARY"), 22)
    requires |f| == 10 && f[3] == Column(e.accountNumber, 17) && f[5] == Column(OrElse(e.individualIdNumber, ""), 15)
    requires f[6] == Column(e.individualName, 22)
    ensures CreditTexts(c, f)
  {
    PaddedShows(CreditedAccount(c), 17);
    CutShows(OrElse(c.creditor.taxId, ""), 15);
    PaddedShows(OrElse(c.creditor.name, "BENEFICIARY"), 22);
  }

  lemma CreditCodeLine(c: Pacs008, clockMs: nat, e: EntryDetail)
    requires e.transactionCode == 22 && c.amount.Finite? && e.amount == RoundCents(c.amount.value) < 10000000000
    requires e.routingTransitNumber == if LeadsWithRouting(c.alias) then c.alias[..9] else "021000021"
    requires e.discretionaryData == Some("  ") && e.traceNumber.Some? && IsTrace(c, clockMs, e.traceNumber.value)
    requires e.addendaRecordIndicator
          == if c.remittanceInfo.Some? && c.remittanceInfo.value != "" then "1" else "0"
    ensures CreditCodes(c, clockMs, EntryFields(e))
  {
    AmountDigits(e.amount);
    assert Dec(22) == "22";
  }

  lemma CreditLine(c: Pacs008, clockMs: nat, e: EntryDetail)
    requires EntryFor(c, clockMs, e) && e.amount < 10000000000
    requires c.amount.Finite? && c.amount.value > 0.0 && |Odfi(c)| == 9
    ensures CreditTexts(c, EntryFields(e)) && CreditCodes(c, clockMs, EntryFields(e))
  {
    TraceIs(c, clockMs);
    CreditTextLine(c, e, EntryFields(e));
    CreditCodeLine(c, clockMs, e);
  }

  lemma ClockDigits(clockMs: nat)
    ensures Reads(PadStart(Dec(clockMs % 10000000), 7, '0'), 7, clockMs % 10000000)
  {
    assert Pow10(3) == 1000;
    assert Pow10(6) == 1000000;
    DecFits(clockMs % 10000000, 7);
  }

  function AddendaOf(c: Pacs008, clockMs: nat): seq<Addendum> {
    if Truthy(c.remittanceInfo) then [Addendum("05", AddendaInfo(c), "0001", Trace(c, clockMs))] else []
  }

  lemma AddendaAre(c: Pacs008, clockMs: nat)
    requires SchemaOk(c)
    ensures Addenda(CanonicalToAchNacha(c, clockMs)) == AddendaOf(c, clockMs)
  {
    OdfiIs(c, clockMs);
  }

  lemma AddendumLine(c: Pacs008, clockMs: nat, a: Addendum)
    requires Truthy(c.remittanceInfo) && |Odfi(c)| == 9
    requires a == Addendum("05", AddendaInfo(c), "0001", Trace(c, clockMs))
    ensures AddendumColumnsOf(c, AddendumFields(a))
  {
    ClockDigits(clockMs);
    AddendumText(c);
    CutShows(AddendumTextOf(c), 80);
    assert PadStart("0001", 4, '0') == "0001";
    assert Take(Trace(c, clockMs), 7) == Odfi(c)[..7];
  }

  function AddendumTextOf(c: Pacs008): string
    requires c.remittanceInfo.Some?
  {
    c.remittanceInfo.value + if c.reference != "" && c.reference != "MIPIT-POC" then " REF:" + c.reference else ""
  }

  lemma AddendumText(c: Pacs008)
    requires Truthy(c.remittanceInfo)
    ensures AddendaInfo(c) == Take(AddendumTextOf(c), 80)
  {
    var info, ref := c.remittanceInfo.value, "REF:" + c.reference;
    assert [info, ref][1..] == [ref] && [info] + [ref] == [info, ref] && [info] + [] == [info];
    assert Join([info, ref], " ") == info + " " + ref;
    assert info + " " + ref == info + (" REF:" + c.reference) && info + "" == info;
  }

  /** A type 7 line for a payment with a remittance text, else the type 8 line. */
  predicate IsFourth(c: Pacs008, line: string) {
    if Truthy(c.remittanceInfo) then AddendumColumnsOf(c, Cut(line, ADDENDUM_COLUMNS))
    else Cut(line, BATCH_CONTROL_CUT)[0] == "8"
  }

  /** The printed file of a payment: its type 1 line names the institution, its type 5 line the debtor,
      and that line's code says whether the payment goes to an institution of its own. */
  lemma FileNamesDebtor(c: Pacs008, clockMs: nat, clock: Clock)
    requires SchemaOk(c) && |c.created_at| >= 10 && Cents(c.amount) < 10000000000
    requires |clock.date| == 6 && |clock.time| == 4
    ensures var lines := Lines(CanonicalToAchNacha(c, clockMs), clock);
            var b := Cut(lines[1], BATCH_HEADER_COLUMNS);
      Cut(lines[0], FILE_HEADER_CUT)[1] == Odfi(c) && CompanyTexts(c, b) && CompanyCodes(c, b)
  {
    TranslatedFits(c, clockMs, clock);
    OdfiIs(c, clockMs);
    BatchHeaderIs(c, clockMs);
    FileLines(CanonicalToAchNacha(c, clockMs), clock);
    SecondLine(c, CanonicalToAchNacha(c, clockMs), clock);
  }

  /** Its type 6 line credits the creditor's account with the amount, and a type 7 line follows exactly
      if there is a remittance text. */
  lemma FileCreditsCreditor(c: Pacs008, clockMs: nat, clock: Clock)
    requires SchemaOk(c) && |c.created_at| >= 10 && Cents(c.amount) < 10000000000
    requires |clock.date| == 6 && |clock.time| == 4
    ensures var lines := Lines(CanonicalToAchNacha(c, clockMs), clock);
            var e := Cut(lines[2], ENTRY_COLUMNS);
      |lines| == 10 && CreditTexts(c, e) && CreditCodes(c, clockMs, e) && IsFourth(c, lines[3])
  {
    TranslatedFits(c, clockMs, clock);
    OdfiIs(c, clockMs);
    EntryIs(c, clockMs);
    AddendaAre(c, clockMs);
    ThirdLine(c, clockMs, CanonicalToAchNacha(c, clockMs), clock);
    FourthLine(c, clockMs, CanonicalToAchNacha(c, clockMs), clock);
  }

  lemma SecondLine(c: Pacs008, txn: Transaction, clock: Clock)
    requires Fits(txn, clock) && |Addenda(txn)| <= 1 && HeaderFor(c, txn.batchHeader)
    requires IsPaymentId(c.payment_id) && |c.created_at| >= 10 && |Odfi(c)| == 9
    ensures |Lines(txn, clock)| > 1
    ensures var b := Cut(Lines(txn, clock)[1], BATCH_HEADER_COLUMNS);
      CompanyTexts(c, b) && CompanyCodes(c, b)
  {
    FileLines(txn, clock);
    CompanyLine(c, txn.batchHeader);
  }

  lemma ThirdLine(c: Pacs008, clockMs: nat, txn: Transaction, clock: Clock)
    requires Fits(txn, clock) && |Addenda(txn)| <= 1 && EntryFor(c, clockMs, txn.entryDetail)
    requires c.amount.Finite? && c.amount.value > 0.0 && |Odfi(c)| == 9
    ensures |Lines(txn, clock)| == 10
    ensures var e := Cut(Lines(txn, clock)[2], ENTRY_COLUMNS);
      CreditTexts(c, e) && CreditCodes(c, clockMs, e)
  {
    FileLines(txn, clock);
    CreditLine(c, clockMs, txn.entryDetail);
  }

  lemma FourthLine(c: Pacs008, clockMs: nat, txn: Transaction, clock: Clock)
    requires Fits(txn, clock) && |Odfi(c)| == 9
    requires Addenda(txn) == AddendaOf(c, clockMs)
    ensures |Lines(txn, clock)| == 10 && IsFourth(c, Lines(txn, clock)[3])
  {
    FileLines(txn, clock);
    if Truthy(c.remittanceInfo) { AddendumLine(c, clockMs, Addenda(txn)[0]); }
  }

  lemma FirstLinesOf(txn: Transaction, clock: Clock)
    requires |Addenda(txn)| <= 1
    ensures var lines := Lines(txn, clock);
      && |lines| == 10 && lines[0] == Record(FileHeader(txn, clock))
      && lines[1] == Record(BatchHeaderFields(txn.batchHeader)) && lines[2] == Record(EntryFields(txn.entryDetail))
      && lines[3] == if |Addenda(txn)| == 1 then Record(AddendumFields(Addenda(txn)[0]))
                     else Record(BatchControlFields(txn))
  {
    var body := Body(txn, clock);
    LinesShape(txn, clock);
    BodyLine(txn, clock, 3);
    assert Lines(txn, clock)[0] == body[0] && Lines(txn, clock)[1] == body[1];
    assert Lines(txn, clock)[2] == body[2] && Lines(txn, clock)[3] == body[3];
  }

  /** The lines of a file with at most one addendum, cut into columns, are the fields they were made of. */
  lemma FileLines(txn: Transaction, clock: Clock)
    requires Fits(txn, clock) && |Addenda(txn)| <= 1
    ensures var lines := Lines(txn, clock);
      && |lines| == 10 && Cut(lines[1], BATCH_HEADER_COLUMNS) == BatchHeaderFields(txn.batchHeader)
      && Cut(lines[2], ENTRY_COLUMNS) == EntryFields(txn.entryDetail)
      && Cut(lines[0], FILE_HEADER_CUT)[1] == txn.odfiRouting[..9]
      && (if |Addenda(txn)| == 1 then Cut(lines[3], ADDENDUM_COLUMNS) == AddendumFields(Addenda(txn)[0])
          else Cut(lines[3], BATCH_CONTROL_CUT)[0] == "8")
  {
    FirstLinesOf(txn, clock);
    BatchHeaderCut(txn.batchHeader);
    EntryCut(txn.entryDetail);
    FileHeaderColumns(txn, clock);
    if |Addenda(txn)| == 1 { AddendumCut(Addenda(txn)[0]); } else { BatchControlColumns(txn, clock); }
  }

  lemma BatchHeaderCut(b: BatchHeader)
    requires BatchHeaderFits(b)
    ensures Cut(Record(BatchHeaderFields(b)), BATCH_HEADER_COLUMNS) == BatchHeaderFields(b)
  {
    ColumnsAre94();
    BatchHeaderWidths(b);
    RecordReads(BatchHeaderFields(b), BATCH_HEADER_COLUMNS);
  }

  lemma AddendumCut(a: Addendum)
    requires AddendumFits(a)
    ensures Cut(Record(AddendumFields(a)), ADDENDUM_COLUMNS) == AddendumFields(a)
  {
    ColumnsAre94();
    RecordReads(AddendumFields(a), ADDENDUM_COLUMNS);
  }

  // ---------- round trip ----------

  /** What comes back of the debtor: the name if there is one, the tax id, and the account unless it had
      a rail prefix. */
  predicate DebtorCameBack(p: Party, back: Party) {
    && (back.name == p.name <==> p.name.Some?) && (p.name.None? ==> back.name == Some("MIPIT"))
    && back.taxId == p.taxId && back.country == Some("US") && back.address == None
    && (back.account_id == p.account_id <==> !HasRailPrefix(p.account_id))
  }

  /** And of the creditor: the name if it fits its column and is trimmed. */
  predicate CreditorCameBack(c: Pacs008, back: Party) {
    && (back.name == c.creditor.name <==>
          c.creditor.name.Some? && |c.creditor.name.value| <= 22 && Trimmed(c.creditor.name.value))
    && (c.creditor.name.None? ==> back.name == Some("BENEFICIARY"))
    && back.taxId == None && back.country == Some("US") && back.address == None
    && (back.account_id == CreditedAccount(c) <==> |CreditedAccount(c)| <= 17 && Trimmed(CreditedAccount(c)))
  }

  /** A remittance text comes back exactly if nothing is appended to it and it has at most 80 characters,
      or if exactly 80 of it are kept. */
  predicate RemittanceFits(c: Pacs008) {
    c.remittanceInfo.Some? ==>
      && c.remittanceInfo.value != ""
      && (if c.reference != "" && c.reference != "MIPIT-POC" then |c.remittanceInfo.value| == 80
          else |c.remittanceInfo.value| <= 80)
  }

  /** And of the rest: the institution's routing number loses its last digit, end-to-end id and reference
      are replaced by the trace and the batch. */
  predicate RestCameBack(c: Pacs008, clockMs: nat, back: Pacs008) {
    && |Odfi(c)| == 9 && back.origin.routingNumber == Some(Odfi(c)[..8] + "0")
    && back.destination.routingNumber == Some(if LeadsWithRouting(c.alias) then c.alias[..9] else "021000021")
    && back.alias == back.destination.routingNumber.value + "/" + back.creditor.account_id
    && (back.purpose == c.purpose <==> c.purpose != "" && |c.purpose| <= 10 && Trimmed(c.purpose))
    && (back.remittanceInfo == c.remittanceInfo <==> RemittanceFits(c))
    && back.currency == "USD" && back.aliasType == ABA_ROUTING && IsTrace(c, clockMs, back.endToEndId)
    && |back.reference| >= 8 && IsBatchNumber(c.payment_id, back.reference[|back.reference| - 7..])
  }

  lemma CreditorBack(c: Pacs008, e: EntryDetail)
    requires LengthAtMost(c.creditor.name, 140)
    requires e.accountNumber == Column(CreditedAccount(c), 17)
    requires e.individualName == Column(OrElse(c.creditor.name, "BENEFICIARY"), 22)
    ensures CreditorCameBack(
              c, Party(Some(Take(Trim(e.individualName), 140)), Some("US"), Trim(e.accountNumber), None, None))
  {
    var name := OrElse(c.creditor.name, "BENEFICIARY");
    ColumnReads(name, 22);
    ColumnShortens(name, 22);
    ColumnReads(CreditedAccount(c), 17);
  }

  /** The account of the originator record: the debtor's without rail prefix. */
  lemma OriginatorIs(c: Pacs008, clockMs: nat)
    requires SchemaOk(c)
    ensures var o, account := CanonicalToAchNacha(c, clockMs).originator, c.debtor.account_id;
      && o.Some? && o.value.name == OrElse(c.debtor.name, "MIPIT") && o.value.taxId == c.debtor.taxId
      && (o.value.account == account <==> !HasRailPrefix(account))
  {
    var routing, account := OrElse(c.origin.routingNumber, Fill('0', 9)), c.debtor.account_id;
    var alias := routing + "/" + StripRailPrefix(account);
    AbaParts(alias, account);
    assert alias[..9] == routing && alias[10..] == StripRailPrefix(account);
    StripChanges(account);
    StripChanges(StripRailPrefix(account));
  }

  lemma PurposeBack(purpose: string, column: string)
    requires |purpose| <= 35 && column == Column(purpose, 10)
    ensures var back := Take(Trim(column), 35);
      (if back == "" then "P2P" else back) == purpose <==> purpose != "" && |purpose| <= 10 && Trimmed(purpose)
  {
    ColumnReads(purpose, 10);
    TrimIsTrimmed(column);
    if purpose == "P2P" { assert Trimmed(purpose); }
  }

  lemma RemittanceBack(c: Pacs008)
    requires LengthAtMost(c.remittanceInfo, 140) && Truthy(c.remittanceInfo)
    ensures Take(AddendaInfo(c), 140) == c.remittanceInfo.value <==> RemittanceFits(c)
  {
    AddendumText(c);
    var info := c.remittanceInfo.value;
    if |info| == 80 { assert AddendumTextOf(c)[..80] == info; }
  }

  /** A draft of the payment that an ACH transaction is translated to, if it passes the schema. */
  lemma BackOf(txn: Transaction, paymentId: string, now: string, generatedTrace: string)
    ensures var back := AchNachaToCanonical(txn, paymentId, now, generatedTrace);
            var entry, batch := txn.entryDetail, txn.batchHeader;
      back.Ok? && txn.originator.Some? ==>
        var b, o := back.result, txn.originator.value;
        && b.debtor == Party(Some(Take(o.name, 140)), Some("US"), o.account, o.taxId, None)
        && b.creditor
           == Party(Some(Take(Trim(entry.individualName), 140)), Some("US"), Trim(entry.accountNumber), None, None)
        && b.destination.routingNumber == Some(Take(entry.routingTransitNumber, 9))
        && b.origin.routingNumber == Some(PadZeros(Take(batch.originatingDfiId, 9)))
        && b.alias == Take(entry.routingTransitNumber, 9) + "/" + Trim(entry.accountNumber)
        && b.aliasType == ABA_ROUTING
        && b.purpose == (if Take(Trim(batch.companyEntryDescription), 35) == "" then "P2P"
                         else Take(Trim(batch.companyEntryDescription), 35))
        && b.remittanceInfo
           == (if Addenda(txn) != [] then Some(Take(Addenda(txn)[0].paymentRelatedInfo, 140)) else None)
        && b.endToEndId == Take(OrElse(entry.traceNumber, generatedTrace), 35) && b.currency == "USD"
        && b.reference == batch.companyId + "-" + batch.batchNumber
  {
  }

  lemma RestBack(c: Pacs008, clockMs: nat, txn: Transaction, now: string, generatedTrace: string)
    requires SchemaOk(c) && |Odfi(c)| == 9 && txn.originator.Some?
    requires HeaderFor(c, txn.batchHeader) && EntryFor(c, clockMs, txn.entryDetail)
    requires Addenda(txn) == AddendaOf(c, clockMs)
    ensures var back := AchNachaToCanonical(txn, c.payment_id, now, generatedTrace);
      back.Ok? ==> RestCameBack(c, clockMs, back.result)
  {
    BackOf(txn, c.payment_id, now, generatedTrace);
    TraceIs(c, clockMs);
    BatchDigits(c.payment_id);
    PurposeBack(c.purpose, txn.batchHeader.companyEntryDescription);
    if Truthy(c.remittanceInfo) { RemittanceBack(c); }
    InstitutionBack(Odfi(c));
  }

  lemma InstitutionBack(odfi: string)
    requires |odfi| == 9
    ensures PadZeros(Take(Take(odfi, 8), 9)) == odfi[..8] + "0"
  {
    assert Fill('0', 1) == "0";
  }

  /** canonical -> ACH -> canonical, on every payment the schema admits: the way back succeeds
      exactly when the amount is at least one cent, and then returns the alias exactly when it
      survives the columns, the amount exactly when it is in whole cents, the debtor's name exactly
      when there is one and the creditor's exactly when it fits its column; and so on for every field. */
  lemma RoundTrip(c: Pacs008, clockMs: nat, now: string, generatedTrace: string)
    requires SchemaOk(c) && |c.created_at| >= 10
    ensures var back := AchNachaToCanonical(CanonicalToAchNacha(c, clockMs), c.payment_id, now, generatedTrace);
      && (back.Ok? <==> Cents(c.amount) >= 1)
      && (back.Ok? ==>
            && (back.result.alias == c.alias <==> SurvivesAch(c.alias))
            && (back.result.amount == c.amount <==> WholeCents(c.amount.value))
            && DebtorCameBack(c.debtor, back.result.debtor) && CreditorCameBack(c, back.result.creditor)
            && RestCameBack(c, clockMs, back.result))
  {
    var txn := CanonicalToAchNacha(c, clockMs);
    BackSucceeds(c, clockMs, now, generatedTrace);
    AliasBackExactly(c, clockMs, now, generatedTrace);
    AmountBackExactly(c, clockMs, now, generatedTrace);
    OdfiIs(c, clockMs);
    BatchHeaderIs(c, clockMs);
    EntryIs(c, clockMs);
    AddendaAre(c, clockMs);
    OriginatorIs(c, clockMs);
    RestBack(c, clockMs, txn, now, generatedTrace);
    PartiesBack(c, clockMs, txn, now, generatedTrace);
  }

  lemma PartiesBack(c: Pacs008, clockMs: nat, txn: Transaction, now: string, generatedTrace: string)
    requires SchemaOk(c) && txn.originator.Some? && EntryFor(c, clockMs, txn.entryDetail)
    requires var o, account := txn.originator.value, c.debtor.account_id;
      && o.name == OrElse(c.debtor.name, "MIPIT") && o.taxId == c.debtor.taxId
      && (o.account == account <==> !HasRailPrefix(account))
    ensures var back := AchNachaToCanonical(txn, c.payment_id, now, generatedTrace);
      back.Ok? ==> DebtorCameBack(c.debtor, back.result.debtor) && CreditorCameBack(c, back.result.creditor)
  {
    BackOf(txn, c.payment_id, now, generatedTrace);
    CreditorBack(c, txn.entryDetail);
  }
}
