/** Exactly which printable MT103 messages come back unchanged. */
module Mt103Exact {
  import opened Wrappers
  import opened Text
  import opened Numerals
  import opened Mt103
  import opened Mt103Party
  import opened Mt103RoundTrip

  // ---------- date, amount, remittance ----------

  function Year(date: string): nat
    requires IsIsoDate(date)
  {
    Value(date[..4])
  }

  /** The two-digit year comes back for the years 1970 to 2069 and no others. */
  lemma DateExact(date: string)
    requires IsIsoDate(date)
    ensures DateOf(Drop(RemoveAll(date, '-'), 2)) == date <==> 1970 <= Year(date) <= 2069
  {
    DatePrinted(date);
    var cc, yy, mo, d := date[..2], date[2..4], date[5..7], date[8..10];
    var printed := yy + mo + d;
    assert Take(printed, 2) == yy && Take(Drop(printed, 2), 2) == mo && Take(Drop(printed, 4), 2) == d;
    assert date[..4] == cc + yy;
    ValueOfConcat(cc, yy);
    assert Pow10(1) == 10 && Pow10(2) == 100;
    TwoDigits(cc);
    TwoDigits(yy);
    TwoDigits("19");
    TwoDigits("20");
    assert date == cc + yy + "-" + mo + "-" + d;
    assert DateOf(printed)[..2] == Century(yy);
    assert Century(yy) == cc ==> DateOf(printed) == date;
  }

  lemma TwoDigits(s: string)
    requires |s| == 2 && AllDigits(s)
    ensures Value(s) == 10 * DigitValue(s[0]) + DigitValue(s[1])
    ensures s == "19" <==> Value(s) == 19
    ensures s == "20" <==> Value(s) == 20
  {
    assert s[..1][..0] == "";
    assert Value(s[..1]) == DigitValue(s[0]);
    assert s == [s[0], s[1]];
  }

  lemma {:induction false} RemoveAllConcat(a: string, b: string, c: char)
    ensures RemoveAll(a + b, c) == RemoveAll(a, c) + RemoveAll(b, c)
  {
    if a == "" {
      assert a + b == b;
    } else {
      assert (a + b)[1..] == a[1..] + b;
      RemoveAllConcat(a[1..], b, c);
    }
  }

  lemma {:induction false} TrimEndUnbroken(x: string)
    ensures RemoveAll(TrimEnd(x), '\n') == TrimEnd(RemoveAll(x, '\n'))
  {
    if x != "" {
      var n := |x| - 1;
      assert x == x[..n] + [x[n]];
      RemoveAllConcat(x[..n], [x[n]], '\n');
      assert RemoveAll([x[n]], '\n') == if x[n] == '\n' then "" else [x[n]];
      var y := RemoveAll(x[..n], '\n');
      if IsSpace(x[n]) {
        TrimEndUnbroken(x[..n]);
        assert y + "" == y;
        assert x[n] != '\n' ==> (y + [x[n]])[..|y + [x[n]]| - 1] == y;
      }
    }
  }

  lemma {:induction false} TrimStartUnbroken(x: string)
    ensures RemoveAll(TrimStart(x), '\n') == TrimStart(RemoveAll(x, '\n'))
  {
    if x != "" {
      TrimStartUnbroken(x[1..]);
      var y := RemoveAll(x[1..], '\n');
      assert "" + y == y && ([x[0]] + y)[1..] == y;
    }
  }

  /** Removing line breaks and trimming can be done in either order. */
  lemma TrimUnbroken(x: string)
    ensures RemoveAll(Trim(x), '\n') == Trim(RemoveAll(x, '\n'))
  {
    TrimStartUnbroken(x);
    TrimEndUnbroken(TrimStart(x));
  }

  lemma {:induction false} ChunksUnbroken(s: string)
    ensures RemoveAll(Join(Chunks(s), "\n"), '\n') == RemoveAll(s, '\n')
    decreases |s|
  {
    if |s| > LINE_WIDTH {
      var head, rest := s[..LINE_WIDTH], s[LINE_WIDTH..];
      ChunksCons(s);
      ChunksUnbroken(rest);
      RemoveAllConcat(head + "\n", Join(Chunks(rest), "\n"), '\n');
      RemoveAllConcat(head, "\n", '\n');
      assert RemoveAll("\n", '\n') == "";
      RemoveAllConcat(head, rest, '\n');
      assert s == head + rest;
    } else if s != "" {
      assert Chunks(s) == [s] + Chunks("") == [s];
    }
  }

  /** What field 70 keeps of a text: all but line breaks and the white space at its ends, of the
      first 140 characters. */
  predicate RemittanceFits(info: string) {
    Trimmed(RemoveAll(info, '\n')) && RemoveAll(Drop(info, REMITTANCE_WIDTH), '\n') == ""
  }

  lemma TrimmedPrefix(a: string, b: string)
    ensures Trim(a) == a + b <==> Trimmed(a + b) && b == ""
  {
    TrimIsTrimmed(a);
    if b == "" {
      assert a + b == a;
      TakeBack(a, |a|);
    }
  }

  lemma OneLineFits(info: string)
    requires Without(info, '\n')
    ensures RemittanceFits(info) <==> |info| <= REMITTANCE_WIDTH && Trimmed(info)
  {
    RemoveAllNone(info, '\n');
    RemoveAllNone(Drop(info, REMITTANCE_WIDTH), '\n');
  }

  /** Field 70 comes back, line breaks aside, as the first 140 characters, trimmed. */
  lemma RemittanceContent(info: string)
    ensures RemoveAll(Trim(RemittanceText(info)), '\n') == Trim(RemoveAll(Take(info, REMITTANCE_WIDTH), '\n'))
    ensures RemoveAll(Trim(RemittanceText(info)), '\n') == RemoveAll(info, '\n') <==> RemittanceFits(info)
    ensures Without(info, '\n') ==> (RemittanceFits(info) <==> |info| <= REMITTANCE_WIDTH && Trimmed(info))
  {
    var kept, lost := Take(info, REMITTANCE_WIDTH), Drop(info, REMITTANCE_WIDTH);
    TrimUnbroken(RemittanceText(info));
    ChunksUnbroken(kept);
    assert info == kept + lost;
    RemoveAllConcat(kept, lost, '\n');
    TrimmedPrefix(RemoveAll(kept, '\n'), RemoveAll(lost, '\n'));
    if Without(info, '\n') { OneLineFits(info); }
  }

  // ---------- the lines of field 70 ----------

  /** At most `count` lines of at most `width` characters. */
  predicate Within(lines: seq<string>, count: nat, width: nat) {
    |lines| <= count && forall i :: 0 <= i < |lines| ==> |lines[i]| <= width
  }

  lemma WithinRest(first: string, rest: seq<string>, count: nat, width: nat)
    requires |rest| >= 1
    requires Within([""] + rest, count, width) || Within([first + rest[0]] + rest[1..], count, width)
    ensures Within(rest, count, width)
  {
    var a, b := [""] + rest, [first + rest[0]] + rest[1..];
    forall i | 0 <= i < |rest| ensures |rest[i]| <= width {
      assert a[i + 1] == rest[i];
      assert i == 0 ==> |b[0]| == |first| + |rest[0]|;
      assert i > 0 ==> b[i] == rest[i];
    }
  }

  lemma WithinTail(s: string, count: nat, width: nat)
    requires s != "" && Within(Split(s, '\n'), count, width)
    ensures Within(Split(s[1..], '\n'), count, width)
  {
    WithinRest([s[0]], Split(s[1..], '\n'), count, width);
  }

  lemma WithinLonger(parts: seq<string>, x: char, count: nat, width: nat)
    requires |parts| >= 1 && Within(Longer(parts, x, '\n'), count, width)
    ensures Within(parts, count, width)
  {
    var longer, n := Longer(parts, x, '\n'), |parts| - 1;
    forall i | 0 <= i < |parts| ensures |parts[i]| <= width {
      assert |longer[i]| <= width;
      if i < n { assert longer[i] == parts[i]; }
    }
  }

  lemma WithinFront(front: string, x: char, count: nat, width: nat)
    requires Within(Split(front + [x], '\n'), count, width)
    ensures Within(Split(front, '\n'), count, width)
  {
    SplitSnoc(front, x, '\n');
    WithinLonger(Split(front, '\n'), x, count, width);
  }

  lemma {:induction false} WithinTrimStart(s: string, count: nat, width: nat)
    requires Within(Split(s, '\n'), count, width)
    ensures Within(Split(TrimStart(s), '\n'), count, width)
  {
    if s != "" && IsSpace(s[0]) {
      WithinTail(s, count, width);
      WithinTrimStart(s[1..], count, width);
    }
  }

  lemma {:induction false} WithinTrimEnd(s: string, count: nat, width: nat)
    requires Within(Split(s, '\n'), count, width)
    ensures Within(Split(TrimEnd(s), '\n'), count, width)
  {
    if s != "" && IsSpace(s[|s| - 1]) {
      assert s == s[..|s| - 1] + [s[|s| - 1]];
      WithinFront(s[..|s| - 1], s[|s| - 1], count, width);
      WithinTrimEnd(s[..|s| - 1], count, width);
    }
  }

  lemma {:induction false} SplitBounded(s: string)
    ensures Within(Split(s, '\n'), |s| + 1, |s|)
    ensures Without(s, '\n') ==> |Split(s, '\n')| == 1
  {
    if s != "" {
      SplitBounded(s[1..]);
      var rest := Split(s[1..], '\n');
      assert forall i :: 0 <= i < |rest| ==> |rest[i]| <= |s| - 1;
    }
  }

  lemma WithinConcat(a: seq<string>, b: seq<string>, m: nat, n: nat, width: nat)
    requires Within(a, m, width) && Within(b, n, width)
    ensures Within(a + b, m + n, width)
  {
  }

  /** Chunks have no long lines, and of a text without line breaks there are few. */
  lemma {:induction false} ChunkLines(s: string, lines: nat)
    requires |s| <= lines * LINE_WIDTH && lines >= 1
    ensures var parts := Split(Join(Chunks(s), "\n"), '\n');
      Within(parts, |parts|, LINE_WIDTH) && (Without(s, '\n') ==> |parts| <= lines)
    decreases |s|
  {
    SplitBounded(s);
    if |s| > LINE_WIDTH {
      var head, rest := s[..LINE_WIDTH], s[LINE_WIDTH..];
      ChunksCons(s);
      ChunkLines(rest, lines - 1);
      SplitEnded(head, Join(Chunks(rest), "\n"));
      SplitBounded(head);
      var a, b := Split(head, '\n'), Split(Join(Chunks(rest), "\n"), '\n');
      WithinConcat(a, b, |a|, |b|, LINE_WIDTH);
    } else if s != "" {
      assert Chunks(s) == [s] + Chunks("") == [s];
    }
  }

  lemma {:induction false} JoinIsUnbroken(s: string)
    ensures Join(Split(s, '\n'), "") == RemoveAll(s, '\n')
  {
    if s != "" {
      var rest := Split(s[1..], '\n');
      JoinIsUnbroken(s[1..]);
      if s[0] == '\n' {
        assert ([""] + rest)[1..] == rest;
      } else if |rest| > 1 {
        assert ([[s[0]] + rest[0]] + rest[1..])[1..] == rest[1..];
        assert [s[0]] + rest[0] + "" + Join(rest[1..], "") == [s[0]] + (rest[0] + "" + Join(rest[1..], ""));
      }
    }
  }

  /** Field 70 comes back in lines of at most 35 characters, of a text without line breaks in at most
      four, that concatenate to the first 140 characters exactly when these are trimmed. */
  lemma RemittanceLines(info: string)
    ensures var lines, kept := Split(Trim(RemittanceText(info)), '\n'), Take(info, REMITTANCE_WIDTH);
      && (forall i :: 0 <= i < |lines| ==> |lines[i]| <= LINE_WIDTH)
      && (Without(kept, '\n') ==> |lines| <= 4)
      && (Join(lines, "") == kept <==> Without(kept, '\n') && Trimmed(kept))
  {
    var kept := Take(info, REMITTANCE_WIDTH);
    var text := RemittanceText(info);
    var count := |Split(text, '\n')|;
    ChunkLines(kept, 4);
    WithinTrimStart(text, count, LINE_WIDTH);
    WithinTrimEnd(TrimStart(text), count, LINE_WIDTH);
    JoinIsUnbroken(Trim(text));
    RemittanceContent(info);
    TrimmedContent(kept);
  }

  lemma {:induction false} RemoveAllWithout(s: string, c: char)
    ensures Without(RemoveAll(s, c), c)
  {
    if s != "" {
      RemoveAllWithout(s[1..], c);
    }
  }

  lemma TrimmedContent(kept: string)
    ensures Trim(RemoveAll(kept, '\n')) == kept <==> Without(kept, '\n') && Trimmed(kept)
  {
    RemoveAllWithout(kept, '\n');
    TrimWithout(RemoveAll(kept, '\n'), '\n');
    TrimIsTrimmed(RemoveAll(kept, '\n'));
    if Without(kept, '\n') {
      RemoveAllNone(kept, '\n');
      TakeBack(kept, |kept|);
    }
  }

  // ---------- the whole message ----------

  /** What of a message the parser looks for in its text: field 72 and the ordering institution are
      not. Absent and empty address lists read the same, absent charges read as the default, and line
      breaks in field 70 are not content. */
  datatype Carried = Carried(
    transactionRef: string, bankOperationCode: string, valueDate: string, currency: string, amount: JsNumber,
    debtor: Party, creditorBankBic: Option<string>, creditorIban: Option<string>, creditor: Party,
    charges: string, remittance: string)

  function CarriedBy(m: Message): Carried {
    var o, b := m.orderingCustomer, m.beneficiaryCustomer;
    Carried(m.transactionRef, m.bankOperationCode, m.valueDate, m.currency, m.amount,
            Party(o.account, o.name, AddressOf(o.address)), m.accountWithInstitutionBic,
            b.iban, Party(b.account, b.name, AddressOf(b.address)),
            Charges(m), RemoveAll(OrEmpty(m.remittanceInfo), '\n'))
  }

  /** The widths of the fields, trimmed texts, the two-digit year's range, a currency in capitals, whole
      cents, and party lines without gaps. */
  predicate Fits(m: Message)
    requires IsIsoDate(m.valueDate) && m.amount.Finite?
  {
    var o := m.orderingCustomer;
    && |m.transactionRef| <= 16 && Trimmed(m.transactionRef) && Trimmed(m.bankOperationCode) && Trimmed(Charges(m))
    && 1970 <= Year(m.valueDate) <= 2069 && IsCurrencyCode(m.currency) && WholeCents(m.amount.value)
    && PartyFits(Party(o.account, o.name, AddressOf(o.address)), 3)
    && BicFits(m.accountWithInstitutionBic) && BeneficiaryFits(m.beneficiaryCustomer)
    && RemittanceFits(OrEmpty(m.remittanceInfo))
  }

  predicate BicFits(bic: Option<string>) {
    bic.Some? ==> bic.value != "" && Trimmed(bic.value)
  }

  lemma BicExact(bic: Option<string>)
    ensures RecoveredBic(bic) == bic <==> BicFits(bic)
  {
    if bic.Some? {
      TakeBack(bic.value, |bic.value|);
    }
  }

  lemma ChargesExact(m: Message, r: Message)
    requires r.detailsOfCharges == Some(Trim(Charges(m)))
    ensures Charges(r) == Charges(m) <==> Trimmed(Charges(m))
  {
    TakeBack(Charges(m), |Charges(m)|);
    TrimIsTrimmed(Charges(m));
  }

  lemma RemittanceExact(info: Option<string>)
    ensures var back := if Truthy(info) then Some(Trim(RemittanceText(info.value))) else None;
            RemoveAll(OrEmpty(back), '\n') == RemoveAll(OrEmpty(info), '\n') <==> RemittanceFits(OrEmpty(info))
  {
    if Truthy(info) {
      RemittanceContent(info.value);
    }
  }

  /** The equalities of the parts make up the equality of the whole. */
  lemma CarriedByParts(m: Message, r: Message)
    requires IsIsoDate(m.valueDate) && m.amount.Finite?
    requires r.currency == m.currency <==> IsCurrencyCode(m.currency)
    requires r.transactionRef == m.transactionRef <==> |m.transactionRef| <= 16 && Trimmed(m.transactionRef)
    requires r.bankOperationCode == m.bankOperationCode <==> Trimmed(m.bankOperationCode)
    requires IsCurrencyCode(m.currency) ==> (r.valueDate == m.valueDate <==> 1970 <= Year(m.valueDate) <= 2069)
    requires IsCurrencyCode(m.currency) ==> (r.amount == m.amount <==> WholeCents(m.amount.value))
    requires CarriedBy(r).debtor == CarriedBy(m).debtor <==> PartyFits(CarriedBy(m).debtor, 3)
    requires r.accountWithInstitutionBic == m.accountWithInstitutionBic <==> BicFits(m.accountWithInstitutionBic)
    requires CarriedBy(r).creditorIban == CarriedBy(m).creditorIban && CarriedBy(r).creditor == CarriedBy(m).creditor
             <==> BeneficiaryFits(m.beneficiaryCustomer)
    requires CarriedBy(r).remittance == CarriedBy(m).remittance <==> RemittanceFits(OrEmpty(m.remittanceInfo))
    requires Charges(r) == Charges(m) <==> Trimmed(Charges(m))
    ensures CarriedBy(r) == CarriedBy(m) <==> Fits(m)
  {
  }

  lemma DefaultCurrency()
    ensures IsCurrencyCode("USD")
  {
  }

  /** The parts that field 32A and the plain texts carry. */
  lemma PlainPartsExact(m: Message, r: Message, raw: string, today: string)
    requires IsIsoDate(m.valueDate) && m.amount.Finite? && r == Recovered(m, raw, today)
    ensures r.transactionRef == m.transactionRef <==> |m.transactionRef| <= 16 && Trimmed(m.transactionRef)
    ensures r.bankOperationCode == m.bankOperationCode <==> Trimmed(m.bankOperationCode)
    ensures r.currency == m.currency <==> IsCurrencyCode(m.currency)
    ensures IsCurrencyCode(m.currency) ==> (r.valueDate == m.valueDate <==> 1970 <= Year(m.valueDate) <= 2069)
    ensures IsCurrencyCode(m.currency) ==> (r.amount == m.amount <==> WholeCents(m.amount.value))
    ensures Charges(r) == Charges(m) <==> Trimmed(Charges(m))
  {
    TakeBack(m.transactionRef, 16);
    TakeBack(m.bankOperationCode, |m.bankOperationCode|);
    DefaultCurrency();
    DateExact(m.valueDate);
    AmountExact(m.amount.value);
    ChargesExact(m, r);
  }

  lemma CarriedExact(m: Message, raw: string, today: string)
    requires IsIsoDate(m.valueDate) && m.amount.Finite?
    ensures CarriedBy(Recovered(m, raw, today)) == CarriedBy(m) <==> Fits(m)
  {
    var o := m.orderingCustomer;
    PlainPartsExact(m, Recovered(m, raw, today), raw, today);
    PartyExact(o.account, o.name, o.address, 3);
    BicExact(m.accountWithInstitutionBic);
    BeneficiaryExact(m.beneficiaryCustomer);
    RemittanceExact(m.remittanceInfo);
    CarriedByParts(m, Recovered(m, raw, today));
  }

  /** Parsing a printed message returns what the parser looks for if and only if the message fits. */
  lemma RoundTripExact(m: Message, freshRef: string, today: string)
    requires Printable(m)
    ensures CarriedBy(Parsed(Printed(m), freshRef, today)) == CarriedBy(m) <==> Fits(m)
  {
    RoundTrip(m, freshRef, today);
    CarriedExact(m, Printed(m), today);
  }
}
