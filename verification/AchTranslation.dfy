/** The canonical payment as an ACH transaction and back. */
module AchTranslation {
  import opened Wrappers
  import opened Text
  import opened Numerals
  import opened Canonical
  import opened AchNacha
  import opened AchRecords

  // ---------- canonical to ACH ----------

  /** `"routing/account"`, or the default routing with a fallback account. */
  function ParseAbaAlias(alias: string, fallbackAccount: string): (string, string) {
    var parts := Split(alias, '/');
    if |parts| >= 2 && IsRouting(parts[0]) then (parts[0], StripRailPrefix(Join(parts[1..], "/")))
    else ("021000021", StripRailPrefix(fallbackAccount))
  }

  /** `s.replace('PMT-', '')`: the first occurrence only. */
  function WithoutPmt(s: string): string {
    if "PMT-" <= s then s[4..] else if s == "" then "" else [s[0]] + WithoutPmt(s[1..])
  }

  /** Every character but digits as '0'. */
  function ZeroOthers(s: string): (r: string)
    ensures |r| == |s| && AllDigits(r)
  {
    if s == "" then "" else [if IsDigit(s[0]) then s[0] else '0'] + ZeroOthers(s[1..])
  }

  function DigitsOf(s: string): (r: string)
    ensures |r| <= |s| && AllDigits(r)
  {
    if s == "" then "" else (if IsDigit(s[0]) then [s[0]] else "") + DigitsOf(s[1..])
  }

  function AddendaInfo(c: Pacs008): string {
    var parts := (if Truthy(c.remittanceInfo) then [c.remittanceInfo.value] else [])
                 + (if c.reference != "" && c.reference != "MIPIT-POC" then ["REF:" + c.reference] else []);
    Take(Join(parts, " "), 80)
  }

  function Cents(amount: JsNumber): nat {
    if amount.NaN? then 0 else Abs(RoundCents(amount.value))
  }

  function Slice(s: string, from: nat, to: nat): string
    requires from <= to
  {
    if |s| <= from then "" else if |s| <= to then s[from..] else s[from..to]
  }

  function Yymmdd(createdAt: string): string {
    Slice(createdAt, 2, 4) + Slice(createdAt, 5, 7) + Slice(createdAt, 8, 10)
  }

  /** `clockMs` is the clock that the trace number is drawn from. */
  function CanonicalToAchNacha(c: Pacs008, clockMs: nat): Transaction
    requires SchemaOk(c)
  {
    var (cdtrRouting, cdtrAccount) := ParseAbaAlias(c.alias, c.creditor.account_id);
    var (dbtrRouting, dbtrAccount) := ParseAbaAlias(
      OrElse(c.origin.routingNumber, Fill('0', 9)) + "/" + StripRailPrefix(c.debtor.account_id), c.debtor.account_id);
    var odfi := OrElse(c.origin.routingNumber, dbtrRouting);
    var trace := Take(odfi, 8) + PadStart(Dec(clockMs % 10000000), 7, '0');
    Transaction(
      BatchHeader(
        "220", Column(OrElse(c.debtor.name, "MIPIT"), 16),
        if c.debtor.taxId.Some? then Take(DigitsOf(c.debtor.taxId.value), 10) else "1234567890",
        if Truthy(c.destination.routingNumber) then "CCD" else "PPD", Column(c.purpose, 10),
        Some(Yymmdd(c.created_at)), Yymmdd(c.created_at), Take(odfi, 8),
        PadStart(ZeroOthers(Take(WithoutPmt(c.payment_id), 7)), 7, '0')),
      EntryDetail(
        22, Take(cdtrRouting, 9), Column(cdtrAccount, 17), Cents(c.amount),
        if c.creditor.taxId.Some? then Some(Take(c.creditor.taxId.value, 15)) else None,
        Column(OrElse(c.creditor.name, "BENEFICIARY"), 22), Some("  "),
        if Truthy(c.remittanceInfo) then "1" else "0", Some(trace)),
      Some(Originator(OrElse(c.debtor.name, "MIPIT"), dbtrAccount, dbtrRouting, c.debtor.taxId)),
      odfi,
      if Truthy(c.remittanceInfo) then Some([Addendum("05", AddendaInfo(c), "0001", trace)]) else None)
  }

  // ---------- ACH to canonical ----------

  /** A NaN amount cannot occur here: cents are whole numbers. `generatedTrace` stands for the
      random reference of an entry without a trace number. */
  function AchNachaToCanonical(txn: Transaction, paymentId: string, now: string,
                               generatedTrace: string): Result<Pacs008, TranslationError> {
    var entry, batch := txn.entryDetail, txn.batchHeader;
    var routing, account := Take(entry.routingTransitNumber, 9), Trim(entry.accountNumber);
    var purpose := Take(Trim(batch.companyEntryDescription), 35);
    Checked(Pacs008(
      paymentId, now, Take(OrElse(entry.traceNumber, generatedTrace), 35), Finite(entry.amount as real / 100.0), "USD",
      None, None, Agent(Some(PadZeros(Take(batch.originatingDfiId, 9))), None, None), Agent(Some(routing), None, None),
      Party(Some(Take(if txn.originator.Some? then txn.originator.value.name else batch.companyName, 140)), Some("US"),
            if txn.originator.Some? then txn.originator.value.account else batch.companyId,
            if txn.originator.Some? then txn.originator.value.taxId else None, None),
      Party(Some(Take(Trim(entry.individualName), 140)), Some("US"), account, None, None),
      ABA_ROUTING, routing + "/" + account,
      if purpose == "" then "P2P" else purpose, batch.companyId + "-" + batch.batchNumber,
      if Addenda(txn) != [] then Some(Take(Addenda(txn)[0].paymentRelatedInfo, 140)) else None))
  }

  /** `s.padEnd(9, '0')` */
  function PadZeros(s: string): string {
    s + Fill('0', 9 - |s|)
  }

  // ---------- what the printed file of a translated payment looks like ----------

  lemma ParsedRouting(alias: string, fallbackAccount: string)
    ensures IsRouting(ParseAbaAlias(alias, fallbackAccount).0)
  {
  }

  lemma TranslatedParts(c: Pacs008, clockMs: nat)
    requires SchemaOk(c) && |c.created_at| >= 10
    ensures |Yymmdd(c.created_at)| == 6
    ensures |PadStart(ZeroOthers(Take(WithoutPmt(c.payment_id), 7)), 7, '0')| == 7
    ensures |PadStart(Dec(clockMs % 10000000), 7, '0')| == 7
  {
    assert Pow10(3) == 1000;
    assert Pow10(6) == 1000000;
    DecFits(clockMs % 10000000, 7);
  }

  /** Every schema-conforming payment of less than 10^10 cents translates to a transaction that
      fits the columns, with at most one addendum: so its file has lines of 94 characters, whole
      blocks of ten, and declares its real block count. */
  lemma TranslatedFits(c: Pacs008, clockMs: nat, clock: Clock)
    requires SchemaOk(c) && |c.created_at| >= 10 && Cents(c.amount) < 10000000000
    requires |clock.date| == 6 && |clock.time| == 4
    ensures var txn := CanonicalToAchNacha(c, clockMs);
      && Fits(txn, clock) && |Addenda(txn)| <= 1
      && (|Addenda(txn)| == 1 <==> txn.entryDetail.addendaRecordIndicator == "1")
  {
    TranslatedParts(c, clockMs);
    ParsedRouting(c.alias, c.creditor.account_id);
    ParsedRouting(OrElse(c.origin.routingNumber, Fill('0', 9)) + "/" + StripRailPrefix(c.debtor.account_id),
                  c.debtor.account_id);
  }

  lemma TranslatedFileIsExact(c: Pacs008, clockMs: nat, clock: Clock)
    requires SchemaOk(c) && |c.created_at| >= 10 && Cents(c.amount) < 10000000000
    requires |clock.date| == 6 && |clock.time| == 4
    ensures var txn := CanonicalToAchNacha(c, clockMs);
            var lines, control := Lines(txn, clock), |Addenda(txn)| + 4;
      && |lines| == 10 && (forall i :: 0 <= i < 10 ==> |lines[i]| == 94)
      && Cut(lines[control], FILE_CONTROL_COLUMNS)[0] == "9" && AllDigits(Cut(lines[control], FILE_CONTROL_COLUMNS)[2])
      && Value(Cut(lines[control], FILE_CONTROL_COLUMNS)[2]) == 1
  {
    var txn := CanonicalToAchNacha(c, clockMs);
    TranslatedFits(c, clockMs, clock);
    FileFacts(txn, clock);
  }

  lemma FileFacts(txn: Transaction, clock: Clock)
    requires Fits(txn, clock) && |Addenda(txn)| <= 1
    ensures var lines, control := Lines(txn, clock), |Addenda(txn)| + 4;
      && |lines| == 10 && (forall i :: 0 <= i < 10 ==> |lines[i]| == 94)
      && Cut(lines[control], FILE_CONTROL_COLUMNS)[0] == "9" && AllDigits(Cut(lines[control], FILE_CONTROL_COLUMNS)[2])
      && Value(Cut(lines[control], FILE_CONTROL_COLUMNS)[2]) == 1
  {
    LinesShape(txn, clock);
    DeclaredBlocksExact(txn, clock);
    forall i | 0 <= i < |Lines(txn, clock)| ensures |Lines(txn, clock)[i]| == 94 {
      LineWidth(txn, clock, i);
    }
  }

  // ---------- round trip ----------

  /** A routing number and an account that survive packing, stripping and the 17-character column. */
  predicate SurvivesAch(alias: string) {
    && |alias| >= 10 && IsRouting(alias[..9]) && alias[9] == '/'
    && |alias[10..]| <= 17 && Trimmed(alias[10..]) && !HasRailPrefix(alias[10..])
  }

  /** The alias as it comes back: the entry's routing number and trimmed account. */
  function AliasBack(routing: string, account: string): string {
    Take(Take(routing, 9), 9) + "/" + Trim(Column(account, 17))
  }

  lemma ParseOfRouting(routing: string, account: string, fallback: string)
    requires IsRouting(routing)
    ensures ParseAbaAlias(routing + "/" + account, fallback) == (routing, StripRailPrefix(account))
  {
    assert Without(routing, '/');
    Unpacks(routing, account);
  }

  lemma {:induction false} SplitHead(s: string)
    ensures Split(s, '/')[0] <= s && Without(Split(s, '/')[0], '/')
    ensures |Split(s, '/')| >= 2 ==> |Split(s, '/')[0]| < |s| && s[|Split(s, '/')[0]|] == '/'
  {
    if s != "" {
      SplitHead(s[1..]);
    }
  }

  lemma {:induction false} TrimEndOfPadded(s: string, pad: string)
    requires AllSpace(pad)
    ensures |Trim(s + pad)| <= |s|
  {
    if s == "" {
      assert s + pad == pad;
      TrimStartOfSpace(pad);
    } else if IsSpace(s[0]) {
      assert (s + pad)[1..] == s[1..] + pad;
      TrimEndOfPadded(s[1..], pad);
    } else {
      TrimEndDropsSpace(s, pad);
      TrimEndIsShorter(s);
    }
  }

  lemma ColumnShortens(s: string, n: nat)
    ensures |Trim(Column(s, n))| <= |s| && |Trim(Column(s, n))| <= n
  {
    TrimIsTrimmed(Column(s, n));
    if |s| <= n {
      assert Column(s, n) == s + Fill(' ', n - |s|);
      TrimEndOfPadded(s, Fill(' ', n - |s|));
    }
  }

  lemma PackedAliasReturns(routing: string, account: string, fallback: string)
    requires IsRouting(routing)
    ensures var (r, a) := ParseAbaAlias(routing + "/" + account, fallback);
      AliasBack(r, a) == routing + "/" + account <==> |account| <= 17 && Trimmed(account) && !HasRailPrefix(account)
  {
    ParseOfRouting(routing, account, fallback);
    var a := StripRailPrefix(account);
    StripChanges(account);
    ColumnReads(account, 17);
    ColumnShortens(a, 17);
    var back := AliasBack(routing, a);
    assert back == routing + "/" + Trim(Column(a, 17));
    assert back[10..] == Trim(Column(a, 17)) && (routing + "/" + account)[10..] == account;
    assert back == routing + "/" + account <==> Trim(Column(a, 17)) == account;
  }

  /** A canonical alias comes back from ACH exactly when it is a nine-digit routing number, a slash
      and a trimmed account of at most 17 characters without rail prefix; slashes in the account
      do no harm. */
  lemma AliasReturns(alias: string, fallback: string)
    ensures var (r, a) := ParseAbaAlias(alias, fallback);
      AliasBack(r, a) == alias <==> SurvivesAch(alias)
  {
    var (r, a) := ParseAbaAlias(alias, fallback);
    SplitHead(alias);
    ParsedRouting(alias, fallback);
    var parts := Split(alias, '/');
    if |parts| >= 2 && IsRouting(parts[0]) {
      assert alias == alias[..9] + "/" + alias[10..];
      PackedAliasReturns(alias[..9], alias[10..], fallback);
    } else {
      BackMatches(alias, r, a);
    }
  }

  /** An alias of another form is replaced by the default routing number, hence never returned. */
  lemma BackMatches(alias: string, routing: string, account: string)
    requires !(|Split(alias, '/')| >= 2 && IsRouting(Split(alias, '/')[0])) && IsRouting(routing)
    ensures AliasBack(routing, account) != alias && !SurvivesAch(alias)
  {
    var back := AliasBack(routing, account);
    assert back == routing + "/" + Trim(Column(account, 17));
    assert Without(routing, '/');
    Unpacks(routing, Trim(Column(account, 17)));
    NotPacked(alias);
  }

  lemma NotPacked(alias: string)
    ensures SurvivesAch(alias) ==> |Split(alias, '/')| >= 2 && IsRouting(Split(alias, '/')[0])
  {
    if SurvivesAch(alias) {
      assert alias == alias[..9] + "/" + alias[10..];
      assert Without(alias[..9], '/');
      Unpacks(alias[..9], alias[10..]);
    }
  }

  lemma CentsReturn(value: real)
    requires value > 0.0
    ensures Cents(Finite(value)) as real / 100.0 == value <==> WholeCents(value)
  {
    AmountExact(value);
  }

  lemma BackSucceeds(c: Pacs008, clockMs: nat, now: string, generatedTrace: string)
    requires SchemaOk(c) && |c.created_at| >= 10
    ensures AchNachaToCanonical(CanonicalToAchNacha(c, clockMs), c.payment_id, now, generatedTrace).Ok?
        <==> Cents(c.amount) >= 1
  {
    var txn := CanonicalToAchNacha(c, clockMs);
    TranslatedParts(c, clockMs);
    TrimIsTrimmed(txn.batchHeader.companyEntryDescription);
    TrimIsTrimmed(txn.entryDetail.individualName);
    ParsedRouting(c.alias, c.creditor.account_id);
  }

  lemma BackFields(txn: Transaction, paymentId: string, now: string, generatedTrace: string)
    ensures var back := AchNachaToCanonical(txn, paymentId, now, generatedTrace);
      back.Ok? ==>
        && back.result.alias
           == Take(txn.entryDetail.routingTransitNumber, 9) + "/" + Trim(txn.entryDetail.accountNumber)
        && back.result.amount == Finite(txn.entryDetail.amount as real / 100.0)
  {
  }

  lemma AliasBackExactly(c: Pacs008, clockMs: nat, now: string, generatedTrace: string)
    requires SchemaOk(c)
    ensures var back := AchNachaToCanonical(CanonicalToAchNacha(c, clockMs), c.payment_id, now, generatedTrace);
      back.Ok? ==> (back.result.alias == c.alias <==> SurvivesAch(c.alias))
  {
    BackFields(CanonicalToAchNacha(c, clockMs), c.payment_id, now, generatedTrace);
    AliasReturns(c.alias, c.creditor.account_id);
  }

  lemma AmountBack(txn: Transaction, value: real, paymentId: string, now: string, generatedTrace: string)
    requires value > 0.0 && txn.entryDetail.amount == Cents(Finite(value))
    ensures var back := AchNachaToCanonical(txn, paymentId, now, generatedTrace);
      back.Ok? ==> (back.result.amount == Finite(value) <==> WholeCents(value))
  {
    BackFields(txn, paymentId, now, generatedTrace);
    CentsReturn(value);
  }

  lemma AmountBackExactly(c: Pacs008, clockMs: nat, now: string, generatedTrace: string)
    requires SchemaOk(c)
    ensures var back := AchNachaToCanonical(CanonicalToAchNacha(c, clockMs), c.payment_id, now, generatedTrace);
      back.Ok? ==> (back.result.amount == c.amount <==> WholeCents(c.amount.value))
  {
    assert c.amount == Finite(c.amount.value);
    AmountBack(CanonicalToAchNacha(c, clockMs), c.amount.value, c.payment_id, now, generatedTrace);
  }
}
