/** The ACH translator: the canonical payment as an ACH transaction, and the transaction as the
    fixed-width text of the Nacha Operating Rules, Appendix Three (ACH Record Format Specifications). */
module AchNacha {
  import opened Wrappers
  import opened Text
  import opened Numerals

  datatype BatchHeader = BatchHeader(
    serviceClassCode: string, companyName: string, companyId: string, secCode: string, companyEntryDescription: string,
    companyDescriptiveDate: Option<string>, effectiveEntryDate: string, originatingDfiId: string, batchNumber: string)

  /** The amount is in cents. */
  datatype EntryDetail = EntryDetail(
    transactionCode: nat, routingTransitNumber: string, accountNumber: string, amount: nat,
    individualIdNumber: Option<string>, individualName: string, discretionaryData: Option<string>,
    addendaRecordIndicator: string, traceNumber: Option<string>)

  datatype Addendum = Addendum(
    addendaTypeCode: string, paymentRelatedInfo: string, addendaSequence: string, addendumTrace: string)

  datatype Originator = Originator(name: string, account: string, routing: string, taxId: Option<string>)

  datatype Transaction = Transaction(
    batchHeader: BatchHeader, entryDetail: EntryDetail, originator: Option<Originator>,
    odfiRouting: string, addenda: Option<seq<Addendum>>)

  /** The local clock at the time of printing: YYMMDD and HHmm. */
  datatype Clock = Clock(date: string, time: string)

  function Addenda(txn: Transaction): seq<Addendum> {
    if txn.addenda.Some? then txn.addenda.value else []
  }

  // ---------- the records, field by field ----------

  function Cat(parts: seq<string>): string {
    if parts == [] then "" else parts[0] + Cat(parts[1..])
  }

  /** Records are built field by field and then cut to 94 characters. */
  function Record(parts: seq<string>): string {
    Take(Cat(parts), 94)
  }

  /** `s.padEnd(n).substring(0, n)` */
  function Column(s: string, n: nat): (r: string)
    ensures |r| == n
  {
    Take(PadEnd(s, n), n)
  }

  function FileHeader(txn: Transaction, clock: Clock): seq<string> {
    ["101 ", Take(txn.odfiRouting, 9), " ", Fill('0', 9), clock.date, clock.time, "A094101",
     Column("MIPIT FI", 23), Column("MIPIT PoC ACH   ", 23), "        1"]
  }

  function BatchHeaderFields(b: BatchHeader): seq<string> {
    ["5", b.serviceClassCode, Column(b.companyName, 16), Fill(' ', 20), Column(b.companyId, 10), b.secCode,
     Column(b.companyEntryDescription, 10), Column(OrElse(b.companyDescriptiveDate, ""), 6), b.effectiveEntryDate,
     "   ", "1", Take(b.originatingDfiId, 8), PadStart(b.batchNumber, 7, '0')]
  }

  function EntryFields(e: EntryDetail): seq<string> {
    ["6", Dec(e.transactionCode), Take(e.routingTransitNumber, 9), Column(e.accountNumber, 17),
     PadStart(Dec(e.amount), 10, '0'), Column(OrElse(e.individualIdNumber, ""), 15), Column(e.individualName, 22),
     OrElse(e.discretionaryData, "  "), e.addendaRecordIndicator, Take(OrElse(e.traceNumber, Fill('0', 15)), 15)]
  }

  function AddendumFields(a: Addendum): seq<string> {
    ["7", a.addendaTypeCode, Column(a.paymentRelatedInfo, 80), PadStart(a.addendaSequence, 4, '0'),
     Take(a.addendumTrace, 7)]
  }

  function EntryCount(txn: Transaction): nat {
    1 + |Addenda(txn)|
  }

  function EntryHash(txn: Transaction): string {
    PadStart(Take(txn.entryDetail.routingTransitNumber, 8), 10, '0')
  }

  function BatchControlFields(txn: Transaction): seq<string> {
    ["8", txn.batchHeader.serviceClassCode, PadStart(Dec(EntryCount(txn)), 6, '0'), EntryHash(txn),
     PadStart(Dec(txn.entryDetail.amount), 12, '0'), Fill('0', 12), Fill(' ', 39),
     Take(txn.batchHeader.originatingDfiId, 8), PadStart(txn.batchHeader.batchNumber, 7, '0')]
  }

  function FileControlFields(txn: Transaction, blockCount: nat): seq<string> {
    ["9", "000001", PadStart(Dec(blockCount), 6, '0'), PadStart(Dec(EntryCount(txn)), 8, '0'), EntryHash(txn),
     PadStart(Dec(txn.entryDetail.amount), 12, '0'), Fill('0', 12), Fill(' ', 39)]
  }

  // ---------- the file ----------

  function AddendumLines(addenda: seq<Addendum>): (lines: seq<string>)
    ensures |lines| == |addenda|
  {
    if addenda == [] then []
    else AddendumLines(addenda[..|addenda| - 1]) + [Record(AddendumFields(addenda[|addenda| - 1]))]
  }

  lemma {:induction false} AddendumLineAt(addenda: seq<Addendum>, i: nat)
    requires i < |addenda|
    ensures AddendumLines(addenda)[i] == Record(AddendumFields(addenda[i]))
  {
    if i < |addenda| - 1 {
      AddendumLineAt(addenda[..|addenda| - 1], i);
    }
  }

  /** All records before the file control record. */
  function Body(txn: Transaction, clock: Clock): seq<string> {
    [Record(FileHeader(txn, clock)), Record(BatchHeaderFields(txn.batchHeader)), Record(EntryFields(txn.entryDetail))]
      + AddendumLines(Addenda(txn)) + [Record(BatchControlFields(txn))]
  }

  /** The count of blocks that the file control record declares. */
  function DeclaredBlocks(txn: Transaction): nat {
    (4 + |Addenda(txn)| + 2 + 9) / 10
  }

  const FILLER := Fill('9', 94)

  function Fillers(n: nat): seq<string> {
    seq(n, _ => FILLER)
  }

  function Lines(txn: Transaction, clock: Clock): seq<string> {
    var records := Body(txn, clock) + [Record(FileControlFields(txn, DeclaredBlocks(txn)))];
    records + Fillers((10 - |records| % 10) % 10)
  }

  /** One record per addendum. */
  method PrintAddenda(addenda: seq<Addendum>) returns (lines: seq<string>)
    ensures lines == AddendumLines(addenda)
  {
    lines := [];
    for i := 0 to |addenda|
      invariant lines == AddendumLines(addenda[..i])
    {
      assert addenda[..i + 1][..i] == addenda[..i];
      lines := lines + [Record(AddendumFields(addenda[i]))];
    }
    assert addenda[..|addenda|] == addenda;
  }

  /** Filler records up to a whole block of ten. */
  method PadToBlock(records: seq<string>) returns (lines: seq<string>)
    ensures lines == records + Fillers((10 - |records| % 10) % 10)
  {
    lines := records;
    while |lines| % 10 != 0
      invariant |records| <= |lines| <= |records| + (10 - |records| % 10) % 10
      invariant lines == records + Fillers(|lines| - |records|)
      decreases |records| + 10 - |lines|
    {
      lines := lines + [Fill('9', 94)];
    }
  }

  method SerializeAchNacha(txn: Transaction, clock: Clock) returns (file: string)
    ensures file == Join(Lines(txn, clock), "\n")
  {
    var lines := [Record(FileHeader(txn, clock)), Record(BatchHeaderFields(txn.batchHeader)),
                  Record(EntryFields(txn.entryDetail))];
    var addenda := PrintAddenda(Addenda(txn));
    lines := lines + addenda + [Record(BatchControlFields(txn))];
    var blockCount := (|lines| + 2 + 9) / 10;
    lines := lines + [Record(FileControlFields(txn, blockCount))];
    lines := PadToBlock(lines);
    file := Join(lines, "\n");
  }

  // ---------- reading columns ----------

  /** A line cut into columns of the given widths. */
  function Cut(line: string, widths: seq<nat>): (columns: seq<string>)
    ensures |columns| == |widths|
    decreases |widths|
  {
    if widths == [] then []
    else [Take(line, widths[0])] + Cut(if |line| <= widths[0] then "" else line[widths[0]..], widths[1..])
  }

  predicate HaveWidths(parts: seq<string>, widths: seq<nat>) {
    |parts| == |widths| && forall i :: 0 <= i < |parts| ==> |parts[i]| == widths[i]
  }

  function Total(widths: seq<nat>): nat {
    if widths == [] then 0 else widths[0] + Total(widths[1..])
  }

  lemma CutStep(head: string, rest: string, widths: seq<nat>)
    requires widths != [] && |head| == widths[0]
    ensures Cut(head + rest, widths) == [head] + Cut(rest, widths[1..])
  {
    var line := head + rest;
    assert Take(line, |head|) == head;
    assert (if |line| <= |head| then "" else line[|head|..]) == rest;
  }

  lemma {:induction false} CutOfCat(parts: seq<string>, widths: seq<nat>)
    requires HaveWidths(parts, widths)
    ensures Cut(Cat(parts), widths) == parts && |Cat(parts)| == Total(widths)
    decreases |parts|
  {
    if parts != [] {
      assert HaveWidths(parts[1..], widths[1..]);
      CutOfCat(parts[1..], widths[1..]);
      CutStep(parts[0], Cat(parts[1..]), widths);
      assert parts == [parts[0]] + parts[1..];
    }
  }

  /** A record whose fields have the widths of its columns can be read back column by column. */
  lemma RecordReads(parts: seq<string>, widths: seq<nat>)
    requires HaveWidths(parts, widths) && Total(widths) == 94
    ensures |Record(parts)| == 94 && Cut(Record(parts), widths) == parts
  {
    CutOfCat(parts, widths);
  }

  const BATCH_HEADER_COLUMNS: seq<nat> := [1, 3, 16, 20] + ([10, 3, 10, 6] + ([6, 3, 1, 8] + [7]))
  const ENTRY_COLUMNS: seq<nat> := [1, 2, 9, 17] + ([10, 15, 22, 2] + [1, 15])
  const ADDENDUM_COLUMNS: seq<nat> := [1, 2, 80, 4] + [7]
  const FILE_CONTROL_COLUMNS: seq<nat> := [1, 6, 6, 8] + ([10, 12, 12, 39] + [])

  lemma TotalOfFour(a: nat, b: nat, c: nat, d: nat, rest: seq<nat>)
    ensures Total([a, b, c, d] + rest) == a + b + c + d + Total(rest)
  {
    assert ([a, b, c, d] + rest)[1..] == [b, c, d] + rest;
    assert ([b, c, d] + rest)[1..] == [c, d] + rest;
    assert ([c, d] + rest)[1..] == [d] + rest;
    assert ([d] + rest)[1..] == rest;
    assert Total([d] + rest) == d + Total(rest);
    assert Total([c, d] + rest) == c + Total([d] + rest);
    assert Total([b, c, d] + rest) == b + Total([c, d] + rest);
  }

  lemma ColumnsAre94()
    ensures Total(BATCH_HEADER_COLUMNS) == Total(ENTRY_COLUMNS) == 94
    ensures Total(ADDENDUM_COLUMNS) == Total(FILE_CONTROL_COLUMNS) == 94
  {
    TotalOfFour(6, 3, 1, 8, [7]);
    TotalOfFour(10, 3, 10, 6, [6, 3, 1, 8] + [7]);
    TotalOfFour(1, 3, 16, 20, [10, 3, 10, 6] + ([6, 3, 1, 8] + [7]));
    TotalOfFour(10, 15, 22, 2, [1, 15]);
    TotalOfFour(1, 2, 9, 17, [10, 15, 22, 2] + [1, 15]);
    TotalOfFour(1, 2, 80, 4, [7]);
    TotalOfFour(10, 12, 12, 39, []);
    TotalOfFour(1, 6, 6, 8, [10, 12, 12, 39] + []);
  }

  predicate BatchHeaderFits(b: BatchHeader) {
    && |b.serviceClassCode| == 3 && |b.secCode| == 3 && |b.effectiveEntryDate| == 6
    && |b.originatingDfiId| >= 8 && |b.batchNumber| <= 7
  }

  predicate EntryFits(e: EntryDetail) {
    && 10 <= e.transactionCode < 100 && |e.routingTransitNumber| >= 9 && e.amount < 10000000000
    && |OrElse(e.discretionaryData, "  ")| == 2 && |e.addendaRecordIndicator| == 1
    && |OrElse(e.traceNumber, Fill('0', 15))| >= 15
  }

  predicate AddendumFits(a: Addendum) {
    |a.addendaTypeCode| == 2 && |a.addendaSequence| <= 4 && |a.addendumTrace| >= 7
  }

  /** Up to 9999 addenda, as the source says of CTX entries. */
  predicate Fits(txn: Transaction, clock: Clock) {
    && BatchHeaderFits(txn.batchHeader) && EntryFits(txn.entryDetail) && |txn.odfiRouting| >= 9
    && |clock.date| == 6 && |clock.time| == 4 && |Addenda(txn)| <= 9999
    && forall i :: 0 <= i < |Addenda(txn)| ==> AddendumFits(Addenda(txn)[i])
  }

  /** A zero-padded numeral of `k` columns. */
  predicate Reads(s: string, k: nat, n: nat) {
    |s| == k && AllDigits(s) && Value(s) == n
  }

  lemma DecFits(n: nat, k: nat)
    requires k >= 1 && n < Pow10(k)
    ensures Reads(PadStart(Dec(n), k, '0'), k, n)
  {
    DecWidth(n, k);
    ValueOfPadded(Dec(n), k);
    ValueOfDec(n);
  }

  lemma SixDigits(n: nat)
    requires n < 1000000
    ensures Reads(PadStart(Dec(n), 6, '0'), 6, n)
  {
    assert Pow10(3) == 1000;
    DecFits(n, 6);
  }

  lemma EightDigits(n: nat)
    requires n < 100000000
    ensures Reads(PadStart(Dec(n), 8, '0'), 8, n)
  {
    assert Pow10(3) == 1000;
    assert Pow10(6) == 1000000;
    DecFits(n, 8);
  }

  /** An amount that fits its ten columns fits the twelve of the control records too. */
  lemma AmountDigits(n: nat)
    requires n < 10000000000
    ensures Reads(PadStart(Dec(n), 10, '0'), 10, n) && Reads(PadStart(Dec(n), 12, '0'), 12, n)
  {
    assert Pow10(3) == 1000;
    assert Pow10(6) == 1000000;
    assert Pow10(9) == 1000000000;
    DecFits(n, 10);
    DecFits(n, 12);
  }
}
