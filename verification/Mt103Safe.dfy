/** Which texts cannot be mistaken for the structure of the block they are printed in. */
module Mt103Safe {
  import opened Wrappers
  import opened Text
  import opened Numerals
  import opened FinScan
  import opened Mt103
  import opened Mt103RoundTrip

  // ---------- safe text stays safe ----------

  lemma SafeTake(t: string, k: nat)
    requires SafeContent(t)
    ensures SafeContent(Take(t, k))
  {
    if |t| > k {
      assert (":" + t)[..k + 1] == ":" + t[..k];
      NoTagTake(":" + t, k + 1);
    }
  }

  lemma SafePrefix(t: string, p: string)
    requires SafeContent(t) && p <= t
    ensures SafeContent(p)
  {
    SafeTake(t, |p|);
    assert Take(t, |p|) == p;
  }

  lemma SafeTrimEnd(t: string)
    requires SafeContent(t)
    ensures SafeContent(TrimEnd(t))
  {
    TrimEndIsShorter(t);
    SafePrefix(t, TrimEnd(t));
  }

  lemma SafeSlashed(t: string)
    requires SafeContent(t)
    ensures SafeContent("/" + t)
  {
    var w := ":/" + t;
    forall i | 0 <= i <= |w| ensures !TagAt(w[i..]) {
      if i >= 2 { assert w[i..] == (":" + t)[i - 1..]; }
    }
    assert w == ":" + ("/" + t);
  }

  /** Safe texts on lines of their own are safe together. */
  lemma SafeJoin(a: string, b: string)
    requires SafeContent(a) && SafeContent(b)
    ensures SafeContent(a + "\n" + b)
  {
    assert (":" + b)[1..] == b;
    NoTagTail(":" + b, 1);
    NoTagLines(":" + a, b);
    assert ":" + a + "\n" + b == ":" + (a + "\n" + b);
  }

  ghost predicate SafeLines(lines: seq<string>) {
    forall i :: 0 <= i < |lines| ==> SafeContent(lines[i])
  }

  lemma {:induction false} SafeEndLines(lines: seq<string>)
    requires SafeLines(lines)
    ensures SafeContent(EndLines(lines))
  {
    if lines == [] {
      NoColonSafe("");
    } else {
      SafeEndLines(lines[1..]);
      SafeJoin(lines[0], EndLines(lines[1..]));
    }
  }

  lemma {:induction false} SafeTakeLines(lines: seq<string>, n: nat)
    requires SafeLines(lines)
    ensures SafeLines(TakeLines(lines, n))
  {
    if lines != [] && n > 0 {
      SafeTakeLines(lines[1..], n - 1);
      SafeTake(lines[0], LINE_WIDTH);
    }
  }

  ghost predicate SafeOption(o: Option<string>) {
    o.Some? ==> SafeContent(o.value)
  }

  ghost predicate SafeParty(account: Option<string>, name: Option<string>, address: Option<seq<string>>) {
    SafeOption(account) && SafeOption(name) && (address.Some? ==> SafeLines(address.value))
  }

  lemma PartySafe(account: Option<string>, name: Option<string>, address: Option<seq<string>>, n: nat)
    requires SafeParty(account, name, address)
    ensures SafeContent(TrimEnd(EndLines(PartyLines(account, name, address, n))))
  {
    if Truthy(account) { SafeSlashed(account.value); }
    if Truthy(name) { SafeTake(name.value, LINE_WIDTH); }
    if address.Some? { SafeTakeLines(address.value, n); }
    SafeEndLines(PartyLines(account, name, address, n));
    SafeTrimEnd(EndLines(PartyLines(account, name, address, n)));
  }

  lemma IbanSafe(iban: string, name: string)
    requires SafeContent(iban) && SafeContent(name)
    ensures SafeContent(TrimEnd("/" + iban + "\n" + name))
  {
    SafeSlashed(iban);
    SafeJoin("/" + iban, name);
    SafeTrimEnd("/" + iban + "\n" + name);
  }

  lemma BeneficiarySafe(b: Beneficiary)
    requires SafeParty(b.account, b.name, b.address) && SafeOption(b.iban)
    ensures SafeContent(Field59(b).content)
  {
    if Truthy(b.iban) {
      NoColonSafe("");
      if b.name.Some? { SafeTake(b.name.value, LINE_WIDTH); }
      IbanSafe(b.iban.value, Take(OrEmpty(b.name), LINE_WIDTH));
    } else {
      PartySafe(b.account, b.name, b.address, 2);
    }
  }

  lemma ChunkStep(before: string, head: string, rest: string)
    requires NoTag(before + (head + rest)) && NoClose(head + rest)
    ensures NoTag(before + head) && NoTag(rest) && NoClose(head) && NoClose(rest)
  {
    var all := before + (head + rest);
    assert all[..|before + head|] == before + head && all[|before + head|..] == rest;
    NoTagTake(all, |before + head|);
    NoTagTail(all, |before + head|);
    assert forall i :: 0 <= i < |head| ==> (head + rest)[i] == head[i];
    assert forall i :: 0 <= i < |rest| ==> (head + rest)[|head| + i] == rest[i];
  }

  lemma LineStep(before: string, head: string, tail: string)
    requires NoTag(before + head) && NoTag(tail) && NoClose(head) && NoClose(tail)
    ensures NoTag(before + (head + "\n" + tail)) && NoClose(head + "\n" + tail)
  {
    NoTagLines(before + head, tail);
    assert before + head + "\n" + tail == before + (head + "\n" + tail);
  }

  /** Cutting safe text into lines leaves it safe. */
  lemma {:induction false} ChunksSafe(before: string, s: string)
    requires s != "" && NoTag(before + s) && NoClose(s)
    ensures Join(Chunks(s), "\n") != "" && Join(Chunks(s), "\n")[0] == s[0]
    ensures NoTag(before + Join(Chunks(s), "\n")) && NoClose(Join(Chunks(s), "\n"))
    decreases |s|
  {
    if |s| > LINE_WIDTH {
      var head, rest := s[..LINE_WIDTH], s[LINE_WIDTH..];
      assert s == head + rest;
      ChunksCons(s);
      ChunkStep(before, head, rest);
      assert "" + rest == rest;
      ChunksSafe("", rest);
      assert "" + Join(Chunks(rest), "\n") == Join(Chunks(rest), "\n");
      LineStep(before, head, Join(Chunks(rest), "\n"));
    } else {
      assert Chunks(s) == [s] + Chunks("") == [s];
    }
  }

  lemma RemittanceSafe(info: string)
    requires SafeContent(info) && info != ""
    ensures SafeContent(RemittanceText(info))
  {
    SafeTake(info, REMITTANCE_WIDTH);
    ChunksSafe(":", Take(info, REMITTANCE_WIDTH));
  }

  // ---------- printable messages ----------

  ghost predicate SafeSlot(slot: seq<Field>) {
    |slot| <= 1 && (|slot| == 1 ==> SafeContent(slot[0].content))
  }

  lemma {:induction false} FlattenSafe(slots: seq<seq<Field>>)
    requires forall i :: 0 <= i < |slots| ==> SafeSlot(slots[i])
    ensures SafeTexts(Flatten(slots))
  {
    if slots != [] {
      assert SafeSlot(slots[0]);
      FlattenSafe(slots[1..]);
    }
  }

  /** Date, currency and amount of a printable message. */
  predicate PlainParts(m: Message) {
    && IsIsoDate(m.valueDate)
    && |m.currency| == 3 && m.amount.Finite? && 0.0 <= m.amount.value < 1000000000000000000000.0
  }

  lemma NineSafeSlots(s: seq<seq<Field>>)
    requires |s| == 9 && SafeSlot(s[0]) && SafeSlot(s[1]) && SafeSlot(s[2]) && SafeSlot(s[3]) && SafeSlot(s[4])
    requires SafeSlot(s[5]) && SafeSlot(s[6]) && SafeSlot(s[7]) && SafeSlot(s[8])
    ensures SafeTexts(Flatten(s))
  {
    forall i | 0 <= i < 9 ensures SafeSlot(s[i]) {
      assert i == 0 || i == 1 || i == 2 || i == 3 || i == 4 || i == 5 || i == 6 || i == 7 || i == 8;
    }
    FlattenSafe(s);
  }

  /** Field 32A is safe by itself with a currency in capitals. */
  lemma CodeIsSafe(m: Message)
    requires PlainParts(m) && IsCurrencyCode(m.currency)
    ensures SafeContent(Field32A(m))
  {
    Field32AParts(m);
  }

  lemma PrintableBySlots(m: Message)
    requires PlainParts(m) && SafeContent(Take(m.transactionRef, 16)) && SafeContent(m.bankOperationCode)
    requires SafeContent(Field32A(m))
    requires SafeContent(Field50K(m.orderingCustomer).content) && SafeContent(Field59(m.beneficiaryCustomer).content)
    requires SafeSlot(OptionalField("57A", m.accountWithInstitutionBic)) && SafeSlot(RemittanceField(m.remittanceInfo))
    requires SafeContent(Charges(m)) && SafeSlot(SenderField(m.senderToReceiverInfo))
    ensures Printable(m)
  {
    NineSafeSlots(Slots(m));
  }

  /** A message whose texts are safe one by one is printable, however they are cut into lines. */
  lemma SafeTextsPrint(m: Message)
    requires PlainParts(m) && SafeContent(m.transactionRef) && SafeContent(m.bankOperationCode)
    requires IsCurrencyCode(m.currency)
    requires SafeParty(m.orderingCustomer.account, m.orderingCustomer.name, m.orderingCustomer.address)
    requires SafeOption(m.accountWithInstitutionBic) && SafeOption(m.beneficiaryCustomer.iban)
    requires SafeParty(m.beneficiaryCustomer.account, m.beneficiaryCustomer.name, m.beneficiaryCustomer.address)
    requires SafeOption(m.remittanceInfo) && SafeOption(m.detailsOfCharges) && SafeOption(m.senderToReceiverInfo)
    ensures Printable(m)
  {
    var o := m.orderingCustomer;
    SafeTake(m.transactionRef, 16);
    PartySafe(o.account, o.name, o.address, 3);
    BeneficiarySafe(m.beneficiaryCustomer);
    if Truthy(m.remittanceInfo) { RemittanceSafe(m.remittanceInfo.value); }
    NoColonSafe("SHA");
    CodeIsSafe(m);
    if Truthy(m.senderToReceiverInfo) { SafeTake(m.senderToReceiverInfo.value, LINE_WIDTH); }
    PrintableBySlots(m);
  }

  // ---------- tags in text ----------

  lemma {:induction false} UntilTagStops(s: string, i: nat)
    requires i <= |s| && (TagAt(s[i..]) || CloseAt(s[i..]))
    ensures |UntilTag(s)| <= i
  {
    if i > 0 {
      assert s[1..][i - 1..] == s[i..];
      UntilTagStops(s[1..], i - 1);
    } else {
      assert s[0..] == s;
    }
  }

  lemma GetFirstField(tag: string, rest: string)
    requires IsTagName(tag)
    ensures GetField(":" + tag + ":" + rest, tag) == Some(Trim(UntilTag(rest)))
  {
    TagNameDecides(tag, rest, tag);
    assert (":" + tag + ":" + rest)[|tag| + 2..] == rest;
  }

  lemma TagCuts(text: string, after: string)
    requires !NoTag(text) || !NoClose(text)
    ensures |UntilTag(text + after)| < |text|
  {
    var whole := text + after;
    if !NoTag(text) {
      var i :| 0 <= i <= |text| && TagAt(text[i..]);
      TagAtExtends(text[i..], after);
      assert whole[i..] == text[i..] + after;
      UntilTagStops(whole, i);
    } else {
      var i :| 0 <= i < |text| - 1 && text[i] == '-' && text[i + 1] == '}';
      assert whole[i..][0] == text[i] && whole[i..][1] == text[i + 1];
      UntilTagStops(whole, i);
    }
  }

  lemma SafeReference(ref: string, fields: seq<Field>)
    requires NoTag(ref) && NoClose(ref)
    requires forall i :: 0 <= i < |fields| ==> SafeField(fields[i])
    ensures Trim(UntilTag(ref + "\n" + Render(fields))) == ref <==> Trimmed(ref)
  {
    UntilTagThrough(ref, Render(fields));
    UntilTagAtRender(fields);
    TrimDropsEnd(ref, "\n");
    assert ref + "\n" + "" == ref + "\n";
    TakeBack(ref, |ref|);
  }

  lemma CutReference(ref: string, after: string)
    requires !NoTag(ref) || !NoClose(ref)
    ensures Trim(UntilTag(ref + "\n" + after)) != ref
  {
    TagCuts(ref, "\n" + after);
    assert ref + "\n" + after == ref + ("\n" + after);
    TrimIsTrimmed(UntilTag(ref + "\n" + after));
  }

  /** A reference survives in front of any further fields exactly when it is trimmed and neither a
      tag nor the end of the block starts inside it. */
  lemma ReferenceExact(ref: string, fields: seq<Field>)
    requires forall i :: 0 <= i < |fields| ==> SafeField(fields[i])
    ensures GetField(":" + "20" + ":" + (ref + "\n" + Render(fields)), "20") == Some(ref)
            <==> NoTag(ref) && NoClose(ref) && Trimmed(ref)
  {
    var rest := ref + "\n" + Render(fields);
    GetFirstField("20", rest);
    if NoTag(ref) && NoClose(ref) {
      SafeReference(ref, fields);
    } else {
      CutReference(ref, Render(fields));
    }
  }

  /** Text without colons that does not close the block is safe. */
  lemma ColonFreeIsSafe(t: string)
    requires Without(t, ':') && NoClose(t)
    ensures SafeContent(t)
  {
    var w := ":" + t;
    forall i | 0 <= i <= |w| ensures !TagAt(w[i..]) {
      assert forall k :: 1 <= k < |w| ==> w[k] == t[k - 1];
    }
  }

  /** So is the address line the translator makes up from a country code, colon included. */
  lemma CountryLineIsSafe(country: string)
    requires |country| == 2 && country != "-}"
    ensures SafeContent("Country: " + country)
  {
    var t := "Country: " + country;
    var w := ":" + t;
    assert w == [':', 'C', 'o', 'u', 'n', 't', 'r', 'y', ':', ' ', country[0], country[1]];
    assert country == [country[0], country[1]];
    forall i | 0 <= i <= |w| ensures !TagAt(w[i..]) {
      assert i == 0 ==> w[i + 1] == 'C';
      assert 0 < i < 8 ==> w[i] != ':';
      assert i == 8 ==> w[i + 1] == ' ';
    }
  }
}
