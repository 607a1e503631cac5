/** What a reader of the printed ACH file can rely on: line widths, blocks of ten, and columns
    that give the printed fields back. */
module AchRecords {
  import opened Wrappers
  import opened Text
  import opened Numerals
  import opened AchNacha

  // ---------- columns ----------

  /** Text can be read back from a blank-padded column exactly when it fits and is trimmed. */
  lemma ColumnReads(s: string, n: nat)
    ensures Trim(Column(s, n)) == s <==> |s| <= n && Trimmed(s)
  {
    TrimIsTrimmed(Column(s, n));
    if |s| <= n && Trimmed(s) {
      assert Column(s, n) == s + Fill(' ', n - |s|);
      TrimLine(s, Fill(' ', n - |s|));
    }
  }

  lemma CodeDigits(code: nat)
    requires 10 <= code < 100
    ensures |Dec(code)| == 2 && Value(Dec(code)) == code
  {
    ValueOfDec(code);
    DecWidth(code, 2);
    assert Pow10(2) == 100;
  }

  lemma EntryWidths(e: EntryDetail)
    requires EntryFits(e)
    ensures HaveWidths(EntryFields(e), ENTRY_COLUMNS)
    ensures Value(EntryFields(e)[1]) == e.transactionCode && Value(EntryFields(e)[4]) == e.amount
  {
    AmountDigits(e.amount);
    CodeDigits(e.transactionCode);
  }

  lemma EntryCut(e: EntryDetail)
    requires EntryFits(e)
    ensures |Record(EntryFields(e))| == 94 && Cut(Record(EntryFields(e)), ENTRY_COLUMNS) == EntryFields(e)
    ensures AllDigits(Dec(e.transactionCode)) && Value(Dec(e.transactionCode)) == e.transactionCode
    ensures Reads(PadStart(Dec(e.amount), 10, '0'), 10, e.amount)
  {
    EntryWidths(e);
    ColumnsAre94();
    RecordReads(EntryFields(e), ENTRY_COLUMNS);
    AmountDigits(e.amount);
  }

  /** The type 6 line gives back its codes, routing, account, amount, names and trace. */
  lemma EntryColumns(e: EntryDetail)
    requires EntryFits(e)
    ensures var line := Record(EntryFields(e));
            var c := Cut(line, ENTRY_COLUMNS);
      && |line| == 94 && c[0] == "6" && AllDigits(c[1]) && Value(c[1]) == e.transactionCode
      && c[2] == e.routingTransitNumber[..9]
      && (Trim(c[3]) == e.accountNumber <==> |e.accountNumber| <= 17 && Trimmed(e.accountNumber))
      && AllDigits(c[4]) && Value(c[4]) == e.amount
      && (e.individualIdNumber.Some? ==>
            (Trim(c[5]) == e.individualIdNumber.value <==>
               |e.individualIdNumber.value| <= 15 && Trimmed(e.individualIdNumber.value)))
      && (Trim(c[6]) == e.individualName <==> |e.individualName| <= 22 && Trimmed(e.individualName))
      && (e.discretionaryData.Some? ==> c[7] == e.discretionaryData.value) && c[8] == e.addendaRecordIndicator
      && (e.traceNumber.Some? ==> c[9] == e.traceNumber.value[..15])
  {
    EntryCut(e);
    ColumnReads(e.accountNumber, 17);
    ColumnReads(OrElse(e.individualIdNumber, ""), 15);
    ColumnReads(e.individualName, 22);
  }

  lemma BatchHeaderWidths(b: BatchHeader)
    requires BatchHeaderFits(b)
    ensures HaveWidths(BatchHeaderFields(b), BATCH_HEADER_COLUMNS)
  {
  }

  /** The type 5 line gives back the company, the codes, the dates, the institution and the batch number. */
  lemma BatchHeaderColumns(b: BatchHeader)
    requires BatchHeaderFits(b)
    ensures var line := Record(BatchHeaderFields(b));
            var c := Cut(line, BATCH_HEADER_COLUMNS);
      && |line| == 94 && c[0] == "5" && c[1] == b.serviceClassCode && c[5] == b.secCode
      && (Trim(c[2]) == b.companyName <==> |b.companyName| <= 16 && Trimmed(b.companyName))
      && (Trim(c[4]) == b.companyId <==> |b.companyId| <= 10 && Trimmed(b.companyId))
      && (Trim(c[6]) == b.companyEntryDescription
        <==> |b.companyEntryDescription| <= 10 && Trimmed(b.companyEntryDescription))
      && AllSpace(c[3]) && c[7] == Column(OrElse(b.companyDescriptiveDate, ""), 6) && c[9] == "   " && c[10] == "1"
      && c[8] == b.effectiveEntryDate && c[11] == b.originatingDfiId[..8]
      && (AllDigits(b.batchNumber) ==> AllDigits(c[12]) && Value(c[12]) == Value(b.batchNumber))
  {
    BatchHeaderWidths(b);
    ColumnsAre94();
    RecordReads(BatchHeaderFields(b), BATCH_HEADER_COLUMNS);
    ColumnReads(b.companyName, 16);
    ColumnReads(b.companyId, 10);
    ColumnReads(b.companyEntryDescription, 10);
    if AllDigits(b.batchNumber) { ValueOfPadded(b.batchNumber, 7); }
  }

  /** The type 7 line gives back its text, its sequence number and seven characters of the trace. */
  lemma AddendumColumns(a: Addendum)
    requires AddendumFits(a)
    ensures var line := Record(AddendumFields(a));
            var c := Cut(line, ADDENDUM_COLUMNS);
      && |line| == 94 && c[0] == "7" && c[1] == a.addendaTypeCode && c[4] == a.addendumTrace[..7]
      && (Trim(c[2]) == a.paymentRelatedInfo <==> |a.paymentRelatedInfo| <= 80 && Trimmed(a.paymentRelatedInfo))
      && (AllDigits(a.addendaSequence) ==> AllDigits(c[3]) && Value(c[3]) == Value(a.addendaSequence))
  {
    ColumnsAre94();
    RecordReads(AddendumFields(a), ADDENDUM_COLUMNS);
    ColumnReads(a.paymentRelatedInfo, 80);
    if AllDigits(a.addendaSequence) { ValueOfPadded(a.addendaSequence, 4); }
  }

  lemma FileControlWidths(txn: Transaction, clock: Clock, blockCount: nat)
    requires Fits(txn, clock) && blockCount < 1000000
    ensures HaveWidths(FileControlFields(txn, blockCount), FILE_CONTROL_COLUMNS)
  {
    SixDigits(blockCount);
    EightDigits(EntryCount(txn));
    AmountDigits(txn.entryDetail.amount);
  }

  /** The type 9 line gives back the block count, the entry count, the hash and the amount. */
  lemma FileControlColumns(txn: Transaction, clock: Clock, blockCount: nat)
    requires Fits(txn, clock) && blockCount < 1000000
    ensures var line := Record(FileControlFields(txn, blockCount));
            var c := Cut(line, FILE_CONTROL_COLUMNS);
      && |line| == 94 && c[0] == "9" && AllDigits(c[2]) && Value(c[2]) == blockCount
      && AllDigits(c[3]) && Value(c[3]) == 1 + |Addenda(txn)|
      && c[1] == "000001" && c[4] == "00" + txn.entryDetail.routingTransitNumber[..8]
      && AllDigits(c[5]) && Value(c[5]) == txn.entryDetail.amount && c[6] == "000000000000" && AllSpace(c[7])
  {
    FileControlWidths(txn, clock, blockCount);
    ColumnsAre94();
    RecordReads(FileControlFields(txn, blockCount), FILE_CONTROL_COLUMNS);
    SixDigits(blockCount);
    EightDigits(EntryCount(txn));
    AmountDigits(txn.entryDetail.amount);
  }

  // ---------- the two records that are cut ----------

  const FILE_HEADER_COLUMNS: seq<nat> := [4, 9, 1, 9] + ([6, 4, 7, 23] + [23, 9])
  const BATCH_CONTROL_COLUMNS: seq<nat> := [1, 3, 6, 10] + ([12, 12, 39, 8] + [7])

  /** The type 1 record is built 95 wide and loses its last character. */
  lemma FileHeaderIs94(txn: Transaction, clock: Clock)
    requires Fits(txn, clock)
    ensures |Cat(FileHeader(txn, clock))| == 95 && |Record(FileHeader(txn, clock))| == 94
  {
    TotalOfFour(6, 4, 7, 23, [23, 9]);
    TotalOfFour(4, 9, 1, 9, [6, 4, 7, 23] + [23, 9]);
    CutOfCat(FileHeader(txn, clock), FILE_HEADER_COLUMNS);
  }

  lemma BatchControlWidths(txn: Transaction, clock: Clock)
    requires Fits(txn, clock)
    ensures HaveWidths(BatchControlFields(txn), BATCH_CONTROL_COLUMNS) && Total(BATCH_CONTROL_COLUMNS) == 98
    ensures Total(BATCH_CONTROL_COLUMNS[..7]) == 83
  {
    SixDigits(EntryCount(txn));
    AmountDigits(txn.entryDetail.amount);
    BatchControlTotals();
  }

  lemma BatchControlTotals()
    ensures Total(BATCH_CONTROL_COLUMNS) == 98 && Total(BATCH_CONTROL_COLUMNS[..7]) == 83
  {
    TotalOfFour(12, 12, 39, 8, [7]);
    TotalOfFour(1, 3, 6, 10, [12, 12, 39, 8] + [7]);
    assert BATCH_CONTROL_COLUMNS[..7] == [1, 3, 6, 10] + [12, 12, 39];
    TotalOfFour(1, 3, 6, 10, [12, 12, 39]);
    assert Total([12, 39]) == 51 by { assert [12, 39][1..] == [39]; }
    assert [12, 12, 39][1..] == [12, 39];
  }

  lemma {:induction false} CatSplits(parts: seq<string>, more: seq<string>)
    ensures Cat(parts + more) == Cat(parts) + Cat(more)
  {
    if parts == [] {
      assert parts + more == more;
    } else {
      assert (parts + more)[1..] == parts[1..] + more;
      CatSplits(parts[1..], more);
    }
  }

  /** A record whose last field sticks out can be read back but for what sticks out. */
  lemma CutRecordReads(front: seq<string>, last: string, kept: nat, widths: seq<nat>)
    requires kept <= |last| && HaveWidths(front + [last[..kept]], widths) && Total(widths) == 94
    ensures |Record(front + [last])| == 94 && Cut(Record(front + [last]), widths) == front + [last[..kept]]
  {
    CutOfCat(front + [last[..kept]], widths);
    CatSplits(front, [last]);
    CatSplits(front, [last[..kept]]);
    CatOfOne(last);
    CatOfOne(last[..kept]);
    TakeOfCat(Cat(front), last, kept);
  }

  lemma CatOfOne(s: string)
    ensures Cat([s]) == s
  {
    assert Cat([s]) == s + Cat([]) == s;
  }

  lemma TakeOfCat(head: string, last: string, kept: nat)
    requires kept <= |last| && |head + last[..kept]| == 94
    ensures Take(head + last, 94) == head + last[..kept]
  {
  }

  const FILE_HEADER_CUT: seq<nat> := [4, 9, 1, 9] + ([6, 4, 7, 23] + [23, 8])
  const BATCH_CONTROL_CUT: seq<nat> := [1, 3, 6, 10] + ([12, 12, 39, 8] + [3])

  lemma CutTotals()
    ensures Total(FILE_HEADER_CUT) == 94 && Total(BATCH_CONTROL_CUT) == 94
  {
    TotalOfFour(6, 4, 7, 23, [23, 8]);
    TotalOfFour(4, 9, 1, 9, [6, 4, 7, 23] + [23, 8]);
    TotalOfFour(12, 12, 39, 8, [3]);
    TotalOfFour(1, 3, 6, 10, [12, 12, 39, 8] + [3]);
  }

  /** The type 1 line gives back the institution's routing number, the clock and the two names; its
      closing digit 1 is the character that is lost. */
  lemma FileHeaderColumns(txn: Transaction, clock: Clock)
    requires Fits(txn, clock)
    ensures var line := Record(FileHeader(txn, clock));
            var c := Cut(line, FILE_HEADER_CUT);
      && |line| == 94 && c[0] == "101 " && c[1] == txn.odfiRouting[..9] && c[2] == " " && c[3] == "000000000"
      && c[4] == clock.date && c[5] == clock.time && c[6] == "A094101"
      && Trim(c[7]) == "MIPIT FI" && Trim(c[8]) == "MIPIT PoC ACH" && c[9] == "        "
  {
    var parts := FileHeader(txn, clock);
    CutTotals();
    HeaderNames();
    assert parts == parts[..9] + [parts[9]] && |parts[9]| == 9;
    CutRecordReads(parts[..9], parts[9], 8, FILE_HEADER_CUT);
    assert parts[9][..8] == "        ";
  }

  lemma HeaderNames()
    ensures Trim(Column("MIPIT FI", 23)) == "MIPIT FI"
    ensures Trim(Column("MIPIT PoC ACH   ", 23)) == "MIPIT PoC ACH"
  {
    ColumnReads("MIPIT FI", 23);
    ColumnReads("MIPIT PoC ACH", 23);
    assert Column("MIPIT PoC ACH   ", 23) == Column("MIPIT PoC ACH", 23);
  }

  /** The type 8 record is built 98 wide: the line gives back the service class, the entry count, the
      hash, the amount and the institution, but three digits of the batch number alone. */
  lemma BatchControlColumns(txn: Transaction, clock: Clock)
    requires Fits(txn, clock)
    ensures var line := Record(BatchControlFields(txn));
            var c := Cut(line, BATCH_CONTROL_CUT);
      && |line| == 94 && c[0] == "8" && c[1] == txn.batchHeader.serviceClassCode
      && AllDigits(c[2]) && Value(c[2]) == 1 + |Addenda(txn)|
      && c[3] == "00" + txn.entryDetail.routingTransitNumber[..8]
      && AllDigits(c[4]) && Value(c[4]) == txn.entryDetail.amount && c[5] == "000000000000" && AllSpace(c[6])
      && c[7] == txn.batchHeader.originatingDfiId[..8] && c[8] == PadStart(txn.batchHeader.batchNumber, 7, '0')[..3]
  {
    var parts := BatchControlFields(txn);
    CutTotals();
    BatchControlWidths(txn, clock);
    assert parts == parts[..8] + [parts[8]];
    CutRecordReads(parts[..8], parts[8], 3, BATCH_CONTROL_CUT);
    SixDigits(EntryCount(txn));
    AmountDigits(txn.entryDetail.amount);
  }

  /** So where a batch number belongs there is the institution's end and three digits of it. */
  lemma BatchControlIsShifted(txn: Transaction, clock: Clock)
    requires Fits(txn, clock)
    ensures var line := Record(BatchControlFields(txn));
            var batch := PadStart(txn.batchHeader.batchNumber, 7, '0');
      && |line| == 94 && line[83..91] == txn.batchHeader.originatingDfiId[..8]
      && line[87..94] == txn.batchHeader.originatingDfiId[4..8] + batch[..3]
  {
    BatchControlWidths(txn, clock);
    var fields := BatchControlFields(txn);
    CutOfCat(fields, BATCH_CONTROL_COLUMNS);
    CutOfCat(fields[..7], BATCH_CONTROL_COLUMNS[..7]);
    assert fields == fields[..7] + fields[7..];
    CatSplits(fields[..7], fields[7..]);
    TailSlices(Cat(fields[..7]), fields[7], fields[8]);
    assert fields[7..] == [fields[7], fields[8]];
    CatOfTwo(fields[7], fields[8]);
  }

  lemma CatOfTwo(a: string, b: string)
    ensures Cat([a, b]) == a + b
  {
    assert [a, b][1..] == [b] && [b][1..] == [];
    assert Cat([b]) == b + Cat([]) == b;
  }

  lemma TailSlices(head: string, dfi: string, batch: string)
    requires |head| == 83 && |dfi| == 8 && |batch| == 7
    ensures var line := Take(head + (dfi + batch), 94);
      |line| == 94 && line[83..91] == dfi && line[87..94] == dfi[4..8] + batch[..3]
  {
  }

  // ---------- blocks ----------

  lemma LinesShape(txn: Transaction, clock: Clock)
    ensures var lines, records := Lines(txn, clock), |Addenda(txn)| + 5;
      && |lines| == records + (10 - records % 10) % 10
      && lines[records - 1] == Record(FileControlFields(txn, DeclaredBlocks(txn)))
      && forall i :: records <= i < |lines| ==> lines[i] == FILLER
  {
    assert |Body(txn, clock)| == |Addenda(txn)| + 4;
  }

  /** A line of nines. */
  predicate IsFiller(line: string) {
    |line| == 94 && forall i :: 0 <= i < 94 ==> line[i] == '9'
  }

  /** The line count is a multiple of ten, reached by at most nine fillers after the records. */
  lemma BlocksOfTen(txn: Transaction, clock: Clock)
    ensures var lines, records := Lines(txn, clock), |Addenda(txn)| + 5;
      && |lines| % 10 == 0 && records <= |lines| <= records + 9
      && forall i :: records <= i < |lines| ==> IsFiller(lines[i])
  {
    LinesShape(txn, clock);
    RoundUpToTen(|Addenda(txn)| + 5);
  }

  lemma RoundUpToTen(n: nat)
    ensures (n + (10 - n % 10) % 10) % 10 == 0 && (10 - n % 10) % 10 <= 9
  {
  }

  lemma BodyLine(txn: Transaction, clock: Clock, i: nat)
    requires i < |Body(txn, clock)|
    ensures Body(txn, clock)[i] ==
      if i == 0 then Record(FileHeader(txn, clock))
      else if i == 1 then Record(BatchHeaderFields(txn.batchHeader))
      else if i == 2 then Record(EntryFields(txn.entryDetail))
      else if i < 3 + |Addenda(txn)| then Record(AddendumFields(Addenda(txn)[i - 3]))
      else Record(BatchControlFields(txn))
  {
    var addenda := AddendumLines(Addenda(txn));
    if 3 <= i < 3 + |addenda| {
      assert Body(txn, clock)[i] == addenda[i - 3];
      AddendumLineAt(Addenda(txn), i - 3);
    }
  }

  /** Every line has 94 characters. */
  lemma LineWidth(txn: Transaction, clock: Clock, i: nat)
    requires Fits(txn, clock) && i < |Lines(txn, clock)|
    ensures |Lines(txn, clock)[i]| == 94
  {
    var body := Body(txn, clock);
    if i < |body| {
      assert Lines(txn, clock)[i] == body[i];
      BodyLine(txn, clock, i);
      if i == 0 { FileHeaderIs94(txn, clock); }
      else if i == 1 { BatchHeaderColumns(txn.batchHeader); }
      else if i == 2 { EntryColumns(txn.entryDetail); }
      else if i < 3 + |Addenda(txn)| { AddendumColumns(Addenda(txn)[i - 3]); }
      else { BatchControlIsShifted(txn, clock); }
    } else if i == |body| {
      FileControlColumns(txn, clock, DeclaredBlocks(txn));
    }
  }

  /** The declared block count is the real one exactly when the records do not fill their last block. */
  lemma DeclaredBlocksExact(txn: Transaction, clock: Clock)
    requires Fits(txn, clock)
    ensures var lines, control := Lines(txn, clock), |Addenda(txn)| + 4;
      && Cut(lines[control], FILE_CONTROL_COLUMNS)[0] == "9" && AllDigits(Cut(lines[control], FILE_CONTROL_COLUMNS)[2])
      && (10 * Value(Cut(lines[control], FILE_CONTROL_COLUMNS)[2]) == |lines| <==> (|Addenda(txn)| + 5) % 10 != 0)
  {
    LinesShape(txn, clock);
    FileControlColumns(txn, clock, DeclaredBlocks(txn));
    BlockArithmetic(|Addenda(txn)|);
  }

  lemma BlockArithmetic(addenda: nat)
    ensures var records := addenda + 5;
      10 * ((4 + addenda + 2 + 9) / 10) == records + (10 - records % 10) % 10 <==> records % 10 != 0
  {
  }

  // ---------- the file as text ----------

  predicate OneLine(s: string) {
    Without(s, '\n')
  }

  predicate OneLineFields(txn: Transaction, clock: Clock) {
    var b, e := txn.batchHeader, txn.entryDetail;
    && OneLine(b.serviceClassCode) && OneLine(b.companyName) && OneLine(b.companyId) && OneLine(b.secCode)
    && OneLine(b.companyEntryDescription) && OneLine(OrElse(b.companyDescriptiveDate, ""))
    && OneLine(b.effectiveEntryDate)
    && OneLine(b.originatingDfiId) && OneLine(b.batchNumber)
    && OneLine(e.routingTransitNumber) && OneLine(e.accountNumber) && OneLine(OrElse(e.individualIdNumber, ""))
    && OneLine(e.individualName) && OneLine(OrElse(e.discretionaryData, "  ")) && OneLine(e.addendaRecordIndicator)
    && OneLine(OrElse(e.traceNumber, Fill('0', 15)))
    && OneLine(txn.odfiRouting) && OneLine(clock.date) && OneLine(clock.time)
    && forall i :: 0 <= i < |Addenda(txn)| ==>
         OneLine(Addenda(txn)[i].addendaTypeCode) && OneLine(Addenda(txn)[i].paymentRelatedInfo)
         && OneLine(Addenda(txn)[i].addendaSequence) && OneLine(Addenda(txn)[i].addendumTrace)
  }

  lemma {:induction false} CatOneLine(parts: seq<string>)
    requires forall i :: 0 <= i < |parts| ==> OneLine(parts[i])
    ensures OneLine(Cat(parts))
  {
    if parts != [] {
      CatOneLine(parts[1..]);
    }
  }

  lemma BatchHeaderOneLine(txn: Transaction, clock: Clock)
    requires OneLineFields(txn, clock)
    ensures OneLine(Record(BatchHeaderFields(txn.batchHeader)))
  {
    CatOneLine(BatchHeaderFields(txn.batchHeader));
  }

  lemma EntryOneLine(txn: Transaction, clock: Clock)
    requires OneLineFields(txn, clock)
    ensures OneLine(Record(EntryFields(txn.entryDetail)))
  {
    CatOneLine(EntryFields(txn.entryDetail));
  }

  lemma AddendumOneLine(txn: Transaction, clock: Clock, i: nat)
    requires OneLineFields(txn, clock) && i < |Addenda(txn)|
    ensures OneLine(Record(AddendumFields(Addenda(txn)[i])))
  {
    CatOneLine(AddendumFields(Addenda(txn)[i]));
  }

  lemma FileHeaderOneLine(txn: Transaction, clock: Clock)
    requires OneLineFields(txn, clock)
    ensures OneLine(Record(FileHeader(txn, clock)))
  {
    CatOneLine(FileHeader(txn, clock));
  }

  lemma FileControlOneLine(txn: Transaction, clock: Clock)
    requires OneLineFields(txn, clock)
    ensures OneLine(Record(FileControlFields(txn, DeclaredBlocks(txn))))
  {
    CatOneLine(FileControlFields(txn, DeclaredBlocks(txn)));
  }

  lemma BatchControlOneLine(txn: Transaction, clock: Clock)
    requires OneLineFields(txn, clock)
    ensures OneLine(Record(BatchControlFields(txn)))
  {
    CatOneLine(BatchControlFields(txn));
  }

  lemma FieldsOneLine(txn: Transaction, clock: Clock, i: nat)
    requires OneLineFields(txn, clock) && i < |Lines(txn, clock)|
    ensures OneLine(Lines(txn, clock)[i])
  {
    var body := Body(txn, clock);
    FileHeaderOneLine(txn, clock);
    FileControlOneLine(txn, clock);
    if i < |body| {
      assert Lines(txn, clock)[i] == body[i];
      BodyLine(txn, clock, i);
      if i == 1 { BatchHeaderOneLine(txn, clock); }
      else if i == 2 { EntryOneLine(txn, clock); }
      else if 3 <= i < 3 + |Addenda(txn)| { AddendumOneLine(txn, clock, i - 3); }
      else { BatchControlOneLine(txn, clock); }
    }
  }

  /** Splitting the file text at line ends gives the lines back. */
  lemma FileSplits(txn: Transaction, clock: Clock)
    requires OneLineFields(txn, clock)
    ensures Split(Join(Lines(txn, clock), "\n"), '\n') == Lines(txn, clock)
  {
    forall i | 0 <= i < |Lines(txn, clock)| ensures Without(Lines(txn, clock)[i], '\n') {
      FieldsOneLine(txn, clock, i);
    }
    SplitOfJoin(Lines(txn, clock), '\n');
  }
}
