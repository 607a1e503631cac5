/** The FedNow translators, which pack an ABA routing number and an account into one string. */
module FedNow {
  import opened Wrappers
  import opened Text
  import opened Numerals
  import opened Canonical

  datatype Side = Side(mmbId: string, accountId: string, nm: Option<string>, ctry: Option<string>,
                       adrLines: Option<seq<string>>)

  datatype Message = Message(
    msgEndToEndId: string, uetr: Option<string>, settlementAmount: string, dbtr: Side, cdtr: Side,
    purposeCode: Option<string>, ustrd: Option<string>)

  // ---------- FedNow to canonical ----------

  function Packed(side: Side): string {
    side.mmbId + "/" + side.accountId
  }

  function PartyOf(side: Side): Party {
    Party(TakeIf(side.nm, 140), Some(OrElse(side.ctry, "US")), Packed(side), None, FirstLines(side.adrLines, 4))
  }

  function FednowToCanonical(m: Message, paymentId: string, now: string): Result<Pacs008, TranslationError> {
    Checked(Pacs008(
      paymentId, now, Take(m.msgEndToEndId, 35), ParseFloat(m.settlementAmount), "USD", None, None,
      Agent(Some(m.dbtr.mmbId), None, None), Agent(Some(m.cdtr.mmbId), None, None), PartyOf(m.dbtr), PartyOf(m.cdtr),
      ABA_ROUTING, Packed(m.cdtr),
      if m.purposeCode.Some? then Take(m.purposeCode.value, 35) else "P2P", m.msgEndToEndId, TakeIf(m.ustrd, 140)))
  }

  // ---------- canonical to FedNow ----------

  function ExtractRtnAndAccount(alias: string, defaultRtn: string, accountFallback: string): (string, string) {
    var clean := StripRailPrefix(alias);
    if LeadsWithRouting(clean) then (Split(clean, '/')[0], StripRailPrefix(AfterSlash(clean)))
    else (defaultRtn, StripRailPrefix(accountFallback))
  }

  function AmountUsd(c: Pacs008): JsNumber {
    if c.currency == "USD" || c.amount.NaN? then c.amount
    else if c.fxLocalAmount.Some? then Finite(c.fxLocalAmount.value)
    else Finite(c.amount.value * if c.fxRate.Some? then c.fxRate.value else 1.0)
  }

  function SideOf(rtnAndAccount: (string, string), p: Party): Side {
    Side(rtnAndAccount.0, Take(rtnAndAccount.1, 34), TakeIf(p.name, 140), Some(OrElse(p.country, "US")),
         FirstLines(p.address, 4))
  }

  function CanonicalToFednow(c: Pacs008, generatedUetr: string): Message {
    Message(
      Take(c.endToEndId, 35), Some(generatedUetr), ToFixed2(AmountUsd(c)),
      SideOf(ExtractRtnAndAccount(c.debtor.account_id, OrElse(c.origin.routingNumber, "021000021"),
                                  c.debtor.account_id), c.debtor),
      SideOf(ExtractRtnAndAccount(c.alias, OrElse(c.destination.routingNumber, "021000021"), c.creditor.account_id),
             c.creditor),
      Some(Take(c.purpose, 4)),
      if c.remittanceInfo.Some? && c.remittanceInfo.value != "" then Some(Take(c.remittanceInfo.value, 140)) else None)
  }

  // ---------- round trip ----------

  lemma PackedDigits(rtn: string, account: string)
    requires IsRouting(rtn)
    ensures ExtractRtnAndAccount(rtn + "/" + account, rtn, rtn + "/" + account) == (rtn, StripRailPrefix(account))
  {
    var alias := rtn + "/" + account;
    assert alias[..9] == rtn && alias[0] == rtn[0];
    assert IsDigit(alias[0]);
    assert Without(rtn, '/');
    Unpacks(rtn, account);
  }

  lemma TakeWhole(s: string, n: nat)
    ensures |Take(s, n)| <= |s| && (Take(s, n) == s <==> |s| <= n)
  {
  }

  function Cycle(p: string, i: nat): char
    requires p != ""
    decreases i
  {
    if i < |p| then p[i] else Cycle(p, i - |p|)
  }

  /** The first `n` characters of `p` repeated for ever. */
  function Cycled(p: string, n: nat): string
    requires p != ""
  {
    seq(n, (i: nat) => Cycle(p, i))
  }

  /** Pushing `p` in front of a text and cutting it leaves the text alone only if it is all `p`s. */
  lemma TakeShifted(p: string, a: string, n: nat)
    requires p != "" && n > 0
    ensures Take(p + a, n) == a <==> a == Cycled(p, n)
  {
    if Take(p + a, n) == a {
      forall i | 0 <= i < n ensures a[i] == Cycle(p, i) {
        IsCycle(p, a, n, i);
      }
    }
    if a == Cycled(p, n) {
      assert forall i :: 0 <= i < n ==> (p + a)[i] == a[i];
    }
  }

  lemma {:induction false} IsCycle(p: string, a: string, n: nat, i: nat)
    requires p != "" && |a| == n && Take(p + a, n) == a && i < n
    ensures a[i] == Cycle(p, i)
    decreases i
  {
    assert a[i] == (p + a)[i];
    if i >= |p| {
      IsCycle(p, a, n, i - |p|);
    }
  }

  /** A routing number that is no number is packed into the account and not taken out again. */
  lemma PackedStays(rtn: string, account: string)
    requires |rtn| == 9 && !IsRouting(rtn)
    ensures ExtractRtnAndAccount(rtn + "/" + account, rtn, rtn + "/" + account)
         == (rtn, StripRailPrefix(rtn + "/") + account)
  {
    var alias, head := rtn + "/" + account, rtn + "/";
    var clean := StripRailPrefix(alias);
    assert alias[..4] == head[..4] && alias[..5] == head[..5];
    assert "PIX-" <= alias <==> "PIX-" <= head;
    assert "SPEI-" <= alias <==> "SPEI-" <= head;
    assert clean == StripRailPrefix(head) + account;
    assert !LeadsWithRouting(clean) by {
      if "PIX-" <= alias {
        assert clean[5] == '/';
      } else if "SPEI-" <= alias {
        assert clean[4] == '/';
      } else {
        assert clean[..9] == rtn;
      }
    }
  }

  /** The routing number comes back even when it is not nine digits: nothing shorter than nine
      characters can be mistaken for one, because the slash comes too early. */
  lemma RoutingReturns(rtn: string, account: string)
    requires |rtn| == 9
    ensures ExtractRtnAndAccount(rtn + "/" + account, rtn, rtn + "/" + account).0 == rtn
  {
    if IsRouting(rtn) { PackedDigits(rtn, account); } else { PackedStays(rtn, account); }
  }

  /** Which accounts come back: behind nine digits those of at most 34 characters without rail
      prefix, behind anything else the packed text itself, repeated to 34 characters. */
  predicate AccountFits(rtn: string, account: string)
    requires |rtn| == 9
  {
    if IsRouting(rtn) then |account| <= 34 && !HasRailPrefix(account)
    else account == Cycled(StripRailPrefix(rtn + "/"), 34)
  }

  lemma AccountReturns(rtn: string, account: string)
    requires |rtn| == 9
    ensures Take(ExtractRtnAndAccount(rtn + "/" + account, rtn, rtn + "/" + account).1, 34) == account
       <==> AccountFits(rtn, account)
  {
    if IsRouting(rtn) {
      PackedDigits(rtn, account);
      StripChanges(account);
      TakeWhole(StripRailPrefix(account), 34);
    } else {
      PackedStays(rtn, account);
      TakeShifted(StripRailPrefix(rtn + "/"), account, 34);
    }
  }

  /** A side of a message, there and back. */
  function SideBack(side: Side): Side {
    SideOf(ExtractRtnAndAccount(Packed(side), side.mmbId, Packed(side)), PartyOf(side))
  }

  /** What comes back of a side, with the exact condition of each field. */
  predicate SideCameBack(side: Side, back: Side)
    requires |side.mmbId| == 9
  {
    && back.mmbId == side.mmbId && (back.accountId == side.accountId <==> AccountFits(side.mmbId, side.accountId))
    && (back.nm == side.nm <==> LengthAtMost(side.nm, 140))
    && (if side.ctry.Some? then back.ctry == side.ctry else back.ctry == Some("US"))
    && (back.adrLines == side.adrLines <==> (side.adrLines.Some? ==> |side.adrLines.value| <= 4))
  }

  lemma SideReturns(side: Side)
    requires |side.mmbId| == 9
    ensures SideCameBack(side, SideBack(side))
  {
    RoutingReturns(side.mmbId, side.accountId);
    AccountReturns(side.mmbId, side.accountId);
  }

  lemma SidesBack(m: Message, paymentId: string, now: string, generatedUetr: string)
    ensures var c := FednowToCanonical(m, paymentId, now);
      c.Ok? ==>
        && CanonicalToFednow(c.result, generatedUetr).dbtr == SideBack(m.dbtr)
        && CanonicalToFednow(c.result, generatedUetr).cdtr == SideBack(m.cdtr)
        && CanonicalToFednow(c.result, generatedUetr).settlementAmount == ToFixed2(ParseFloat(m.settlementAmount))
        && ParseFloat(m.settlementAmount).Finite? && ParseFloat(m.settlementAmount).value > 0.0
        && |m.dbtr.mmbId| == 9 && |m.cdtr.mmbId| == 9
  {
  }

  /** What comes back of the message around the sides. */
  predicate TextsCameBack(m: Message, back: Message) {
    && (back.msgEndToEndId == m.msgEndToEndId <==> |m.msgEndToEndId| <= 35)
    && (back.purposeCode == m.purposeCode <==> m.purposeCode.Some? && |m.purposeCode.value| <= 4)
    && (m.purposeCode.None? ==> back.purposeCode == Some("P2P"))
    && (back.ustrd == m.ustrd <==> (m.ustrd.Some? ==> 0 < |m.ustrd.value| <= 140))
  }

  lemma TextsBack(m: Message, paymentId: string, now: string, generatedUetr: string)
    ensures var c := FednowToCanonical(m, paymentId, now);
      c.Ok? ==>
        && TextsCameBack(m, CanonicalToFednow(c.result, generatedUetr))
        && CanonicalToFednow(c.result, generatedUetr).uetr == Some(generatedUetr)
  {
  }

  /** FedNow -> canonical -> FedNow: whenever the first translation succeeds, both routing numbers
      come back, the UETR is a new one, and every other field comes back exactly under its condition.
      Slashes in accounts do no harm. */
  lemma RoundTrip(m: Message, paymentId: string, now: string, generatedUetr: string)
    ensures var c := FednowToCanonical(m, paymentId, now);
      c.Ok? ==>
        var back := CanonicalToFednow(c.result, generatedUetr);
        && |m.dbtr.mmbId| == 9 && |m.cdtr.mmbId| == 9
        && SideCameBack(m.dbtr, back.dbtr) && SideCameBack(m.cdtr, back.cdtr) && TextsCameBack(m, back)
        && (back.settlementAmount == m.settlementAmount
            <==> exists cents: nat :: m.settlementAmount == CentsString(cents))
        && back.uetr == Some(generatedUetr)
  {
    SidesBack(m, paymentId, now, generatedUetr);
    TextsBack(m, paymentId, now, generatedUetr);
    if FednowToCanonical(m, paymentId, now).Ok? {
      SideReturns(m.dbtr);
      SideReturns(m.cdtr);
      AmountTextReturns(m.settlementAmount);
    }
  }

  // ---------- what a payment settles ----------

  /** `x` is `exact` rounded to cents. */
  predicate RoundedTo(x: JsNumber, exact: real) {
    && x.Finite? && WholeCents(x.value) && -0.005 <= x.value - exact <= 0.005
    && x.value == RoundCents(exact) as real / 100.0
  }

  lemma CentsAreWhole(cents: int)
    ensures WholeCents(cents as real / 100.0)
  {
  }

  lemma RoundsNear(exact: real)
    ensures -0.005 <= RoundCents(exact) as real / 100.0 - exact <= 0.005
  {
    var n := RoundCents(exact) as real;
    assert n <= 100.0 * exact + 0.5 < n + 1.0;
  }

  lemma PrintedReads(exact: real)
    requires exact > 0.0
    ensures RoundedTo(ParseFloat(ToFixed2(Finite(exact))), exact)
  {
    CentsAreWhole(RoundCents(exact));
    RoundsNear(exact);
    PrintedIs(exact);
  }

  lemma PrintedIs(exact: real)
    requires exact > 0.0
    ensures ParseFloat(ToFixed2(Finite(exact))) == Finite(RoundCents(exact) as real / 100.0)
  {
    ParseOfCents(RoundCents(exact));
  }

  lemma Settles(c: Pacs008, generatedUetr: string, exact: real)
    requires AmountUsd(c) == Finite(exact) && exact > 0.0
    ensures RoundedTo(ParseFloat(CanonicalToFednow(c, generatedUetr).settlementAmount), exact)
  {
    PrintedReads(exact);
  }

  /** The settlement amount, read as a number, is the exact amount rounded to cents: that of a payment
      in dollars whatever its exchange data; of another the local amount if it has one, else the amount
      at its rate, or at 1. */
  lemma SettlesInDollars(c: Pacs008, generatedUetr: string, exact: real)
    requires SchemaOk(c)
    requires c.currency == "USD" ==> exact == c.amount.value
    requires c.currency != "USD" && c.fxLocalAmount.Some? ==> exact == c.fxLocalAmount.value
    requires c.currency != "USD" && c.fxLocalAmount.None? && c.fxRate.Some? ==> exact == c.amount.value * c.fxRate.value
    requires c.currency != "USD" && c.fxLocalAmount.None? && c.fxRate.None? ==> exact == c.amount.value
    ensures RoundedTo(ParseFloat(CanonicalToFednow(c, generatedUetr).settlementAmount), exact)
  {
    if c.fxRate.Some? { Positive(c.amount.value, c.fxRate.value); }
    Settles(c, generatedUetr, exact);
  }

  lemma Positive(x: real, y: real)
    requires x > 0.0 && y > 0.0
    ensures x * y > 0.0
  {
  }

  // ---------- canonical to FedNow and back ----------

  /** Of a packed identifier, rail prefix aside: nine digits before the first slash and what follows
      it, or the default routing number and the fallback account. */
  lemma Extracts(alias: string, defaultRtn: string, accountFallback: string)
    ensures var (rtn, account) := ExtractRtnAndAccount(alias, defaultRtn, accountFallback);
            var clean := StripRailPrefix(alias);
      if LeadsWithRouting(clean) then rtn == clean[..9] && account == StripRailPrefix(clean[10..])
      else rtn == defaultRtn && account == StripRailPrefix(accountFallback)
  {
    if LeadsWithRouting(StripRailPrefix(alias)) { LeadingRouting(StripRailPrefix(alias)); }
  }

  /** A packed identifier that survives: no rail prefix, and an account of at most 34 characters. */
  predicate SurvivesFednow(alias: string) {
    LeadsWithRouting(alias) && |alias| <= 44 && !HasRailPrefix(alias[10..])
  }

  /** What a side of the message is packed to again. */
  function PackedAgain(alias: string, defaultRtn: string, accountFallback: string): string {
    var clean := StripRailPrefix(alias);
    if LeadsWithRouting(clean) then clean[..9] + "/" + Take(StripRailPrefix(clean[10..]), 34)
    else defaultRtn + "/" + Take(StripRailPrefix(accountFallback), 34)
  }

  lemma PackedAgainExactly(alias: string, defaultRtn: string, accountFallback: string)
    requires LeadsWithRouting(StripRailPrefix(alias))
    ensures PackedAgain(alias, defaultRtn, accountFallback) == alias <==> SurvivesFednow(alias)
  {
    var clean, back := StripRailPrefix(alias), PackedAgain(alias, defaultRtn, accountFallback);
    assert IsDigit(clean[0]) && back[0] == clean[0];
    if HasRailPrefix(alias) {
      assert !IsDigit(alias[0]);
    } else {
      StripChanges(clean[10..]);
      assert back[10..] == Take(StripRailPrefix(clean[10..]), 34) && alias == alias[..9] + "/" + alias[10..];
    }
  }

  /** What comes back of a party that has been packed as `account`. */
  predicate PartyCameBack(p: Party, back: Party, account: string) {
    && back.name == p.name && back.address == p.address && (back.country == p.country <==> p.country != None)
    && (p.country == None ==> back.country == Some("US")) && back.account_id == account && back.taxId == None
  }

  lemma PartyBack(p: Party, rtnAndAccount: (string, string))
    requires PartyOk(p)
    ensures PartyCameBack(p, PartyOf(SideOf(rtnAndAccount, p)), rtnAndAccount.0 + "/" + Take(rtnAndAccount.1, 34))
  {
  }

  /** What comes back of a payment that went over FedNow. */
  predicate PaymentCameBack(c: Pacs008, back: Pacs008, debtor: string, creditor: string) {
    && PartyCameBack(c.debtor, back.debtor, debtor) && PartyCameBack(c.creditor, back.creditor, creditor)
    && |debtor| >= 9 && |creditor| >= 9
    && back.origin.routingNumber == Some(debtor[..9]) && back.destination.routingNumber == Some(creditor[..9])
    && back.alias == creditor && back.aliasType == ABA_ROUTING
    && back.endToEndId == back.reference == c.endToEndId && back.currency == "USD"
    && (back.purpose == c.purpose <==> |c.purpose| <= 4) && back.purpose == Take(c.purpose, 4)
    && (back.remittanceInfo == c.remittanceInfo <==> c.remittanceInfo != Some(""))
  }

  lemma DollarsPositive(c: Pacs008)
    requires SchemaOk(c)
    ensures AmountUsd(c).Finite? && AmountUsd(c).value > 0.0
  {
    if c.fxRate.Some? { Positive(c.amount.value, c.fxRate.value); }
    assert c.amount.value * 1.0 == c.amount.value;
  }

  lemma SettlesACent(exact: real)
    requires exact > 0.0
    ensures var settled := ParseFloat(ToFixed2(Finite(exact)));
      settled.Finite? && (settled.value > 0.0 <==> settled.value >= 0.01)
  {
    ParseOfCents(RoundCents(exact));
  }

  lemma RoutingIsNine(alias: string, routingNumber: Option<string>, accountFallback: string)
    requires LengthIs(routingNumber, 9)
    ensures var (rtn, account) := ExtractRtnAndAccount(alias, OrElse(routingNumber, "021000021"), accountFallback);
      && |rtn| == 9
      && rtn + "/" + Take(account, 34) == PackedAgain(alias, OrElse(routingNumber, "021000021"), accountFallback)
  {
    Extracts(alias, OrElse(routingNumber, "021000021"), accountFallback);
  }

  lemma MessageBack(c: Pacs008, m: Message, debtor: (string, string), creditor: (string, string), now: string)
    requires SchemaOk(c) && |debtor.0| == |creditor.0| == 9
    requires m.dbtr == SideOf(debtor, c.debtor) && m.cdtr == SideOf(creditor, c.creditor)
    requires m.msgEndToEndId == c.endToEndId && m.purposeCode == Some(Take(c.purpose, 4))
    requires m.ustrd == if c.remittanceInfo == Some("") then None else c.remittanceInfo
    ensures var back := FednowToCanonical(m, c.payment_id, now);
      && (back.Ok? <==> ParseFloat(m.settlementAmount).Finite? && ParseFloat(m.settlementAmount).value > 0.0)
      && (back.Ok? ==>
            && PaymentCameBack(c, back.result, debtor.0 + "/" + Take(debtor.1, 34),
                               creditor.0 + "/" + Take(creditor.1, 34))
            && back.result.amount == ParseFloat(m.settlementAmount))
  {
    PartyBack(c.debtor, debtor);
    PartyBack(c.creditor, creditor);
    assert (debtor.0 + "/" + Take(debtor.1, 34))[..9] == debtor.0;
    assert (creditor.0 + "/" + Take(creditor.1, 34))[..9] == creditor.0;
  }

  /** canonical -> FedNow -> canonical, for every payment that the schema admits: the message names
      both parties, and the way back succeeds exactly when what settles is at least a cent. Names, addresses
      and the end-to-end id always come back, and a packed alias exactly when it survives. */
  lemma CanonicalRoundTrip(c: Pacs008, generatedUetr: string, now: string)
    requires SchemaOk(c)
    ensures var m := CanonicalToFednow(c, generatedUetr);
            var back := FednowToCanonical(m, c.payment_id, now);
            var debtor := PackedAgain(
              c.debtor.account_id, OrElse(c.origin.routingNumber, "021000021"), c.debtor.account_id);
            var creditor := PackedAgain(
              c.alias, OrElse(c.destination.routingNumber, "021000021"), c.creditor.account_id);
      && m.dbtr.nm == c.debtor.name && m.cdtr.nm == c.creditor.name
      && (back.Ok? <==> ParseFloat(m.settlementAmount).Finite? && ParseFloat(m.settlementAmount).value >= 0.01)
      && (back.Ok? ==>
            && PaymentCameBack(c, back.result, debtor, creditor)
            && back.result.amount == ParseFloat(m.settlementAmount)
            && (LeadsWithRouting(StripRailPrefix(c.alias)) ==>
                  (back.result.alias == c.alias <==> SurvivesFednow(c.alias))))
  {
    var m := CanonicalToFednow(c, generatedUetr);
    RoutingIsNine(c.alias, c.destination.routingNumber, c.creditor.account_id);
    RoutingIsNine(c.debtor.account_id, c.origin.routingNumber, c.debtor.account_id);
    if LeadsWithRouting(StripRailPrefix(c.alias)) {
      PackedAgainExactly(c.alias, OrElse(c.destination.routingNumber, "021000021"), c.creditor.account_id);
    }
    DollarsPositive(c);
    SettlesACent(AmountUsd(c).value);
    MessageBack(
      c, m, ExtractRtnAndAccount(c.debtor.account_id, OrElse(c.origin.routingNumber, "021000021"), c.debtor.account_id),
      ExtractRtnAndAccount(c.alias, OrElse(c.destination.routingNumber, "021000021"), c.creditor.account_id), now);
  }
}
