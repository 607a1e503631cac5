/** When a routing rule matches a payment: the condition fields, the forms of an account id, amount
    ranges and the rails' opening hours. */
module RoutingConditions {
  import opened Wrappers
  import opened Text
  import opened Numerals
  import opened RoutingRules
  import opened SwiftTranslation
  import BreB
  import C = Canonical
  import Clabe
  import Mt103

  // ---------- the forms of an account id ----------

  predicate IsCapitalOrDigit(c: char) {
    'A' <= c <= 'Z' || IsDigit(c)
  }

  predicate IsHex(c: char) {
    IsDigit(c) || 'a' <= c <= 'f' || 'A' <= c <= 'F'
  }

  predicate DigitsOnly(s: string, n: nat) {
    |s| == n && AllDigits(s)
  }

  /** `/^\+55\d{10,11}$/` */
  predicate IsBrazilianPhone(s: string) {
    13 <= |s| <= 14 && s[0] == '+' && s[1] == '5' && s[2] == '5' && forall i :: 3 <= i < |s| ==> IsDigit(s[i])
  }

  /** A UUID of version 4, in letters of either case. */
  predicate IsEvp(s: string) {
    && |s| == 36 && s[8] == '-' && s[13] == '-' && s[18] == '-' && s[23] == '-'
    && s[14] == '4' && s[19] in {'8', '9', 'a', 'b', 'A', 'B'}
    && forall i :: 0 <= i < 36 && i != 8 && i != 13 && i != 18 && i != 23 ==> IsHex(s[i])
  }

  /** `/^\d{9,10}(-\d)?$/` */
  predicate IsNitForm(s: string) {
    DigitsOnly(s, 9) || DigitsOnly(s, 10) || BreB.IsNit(s)
  }

  /** `/^[A-Z]{2}\d{2}[A-Z0-9]{4,}$/` */
  predicate IsIbanForm(s: string) {
    && |s| >= 8 && IsUpper(s[0]) && IsUpper(s[1]) && IsDigit(s[2]) && IsDigit(s[3])
    && forall i :: 4 <= i < |s| ==> IsCapitalOrDigit(s[i])
  }

  /** `/^[A-Z]{4}[A-Z]{2}[A-Z0-9]{2}([A-Z0-9]{3})?$/` */
  predicate IsBicForm(s: string) {
    && (|s| == 8 || |s| == 11) && (forall i :: 0 <= i < 6 ==> IsUpper(s[i]))
    && forall i :: 6 <= i < |s| ==> IsCapitalOrDigit(s[i])
  }

  /** `inferAliasType`: the forms are tried one after the other. */
  function InferAliasType(alias: string): string {
    if "PIX-" <= alias then "PIX_KEY"
    else if "SPEI-" <= alias then "CLABE"
    else if "BREB-" <= alias then "LLAVE_BREB"
    else if DigitsOnly(alias, 11) || DigitsOnly(alias, 14) then "PIX_KEY"
    else if IsBrazilianPhone(alias) || IsEvp(alias) then "PIX_KEY"
    else if DigitsOnly(alias, 18) then "CLABE"
    else if BreB.IsPhone(alias) || IsNitForm(alias) then "LLAVE_BREB"
    else if IsIbanForm(alias) then "IBAN"
    else if IsBicForm(alias) then "BIC"
    else "ACCOUNT"
  }

  predicate IsPixKey(s: string) {
    "PIX-" <= s || DigitsOnly(s, 11) || DigitsOnly(s, 14) || IsBrazilianPhone(s) || IsEvp(s)
  }

  predicate IsClabeForm(s: string) {
    "SPEI-" <= s || DigitsOnly(s, 18)
  }

  predicate IsBrebKey(s: string) {
    "BREB-" <= s || BreB.IsPhone(s) || IsNitForm(s)
  }

  /** What the first characters of each form are. */
  lemma FirstCharacters(s: string)
    ensures "PIX-" <= s ==> |s| >= 4 && s[0] == 'P' && s[3] == '-'
    ensures "SPEI-" <= s ==> |s| >= 5 && s[0] == 'S' && s[4] == '-'
    ensures "BREB-" <= s ==> |s| >= 5 && s[0] == 'B' && s[4] == '-'
    ensures IsIbanForm(s) || IsBicForm(s) ==> |s| >= 8 && s[3] != '-' && s[4] != '-' && IsUpper(s[0])
    ensures IsEvp(s) ==> s[3] != '-' && s[4] != '-' && s[8] == '-' && IsHex(s[0])
    ensures IsNitForm(s) ==> |s| >= 9 && IsDigit(s[0]) && IsDigit(s[8])
  {
    if "PIX-" <= s { assert s[0] == "PIX-"[0] && s[3] == "PIX-"[3]; }
    if "SPEI-" <= s { assert s[0] == "SPEI-"[0] && s[4] == "SPEI-"[4]; }
    if "BREB-" <= s { assert s[0] == "BREB-"[0] && s[4] == "BREB-"[4]; }
  }

  /** No account id has the forms of two types, so that the order in which they are tried does not matter:
      the type is the one whose form the id has, and ACCOUNT exactly if it has none. */
  lemma AliasTypesExactly(s: string)
    ensures InferAliasType(s) == "PIX_KEY" <==> IsPixKey(s)
    ensures InferAliasType(s) == "CLABE" <==> IsClabeForm(s)
    ensures InferAliasType(s) == "LLAVE_BREB" <==> IsBrebKey(s)
    ensures InferAliasType(s) == "IBAN" <==> IsIbanForm(s)
    ensures InferAliasType(s) == "BIC" <==> IsBicForm(s)
    ensures InferAliasType(s) == "ACCOUNT" <==>
      !IsPixKey(s) && !IsClabeForm(s) && !IsBrebKey(s) && !IsIbanForm(s) && !IsBicForm(s)
  {
    FirstCharacters(s);
    DigitsApart(s);
  }

  lemma DigitsApart(s: string)
    ensures BreB.IsNit(s) ==> !AllDigits(s)
    ensures IsBrazilianPhone(s) || BreB.IsPhone(s) ==> |s| <= 14 && s[0] == '+'
    ensures !(IsBrazilianPhone(s) && BreB.IsPhone(s))
  {
    if BreB.IsNit(s) { assert s[|s| - 2] == '-'; }
  }

  /** The other components judge some of these forms differently: an IBAN for routing is one for the MT103
      translation exactly with 15 to 34 characters; 18 digits are a CLABE whatever their check digit; nine or ten
      bare digits are a Bre-B key here and an alias there. */
  lemma FormsElsewhere(s: string)
    ensures InferAliasType(s) == "IBAN" ==> (IsIban(s) <==> 15 <= |s| <= 34)
    ensures IsIban(s) ==> InferAliasType(s) == "IBAN"
    ensures DigitsOnly(s, 18) ==>
      InferAliasType(s) == "CLABE" && (Clabe.Valid(s) <==> s[17] == Clabe.CheckDigit(s[..17]))
    ensures DigitsOnly(s, 9) || DigitsOnly(s, 10) ==>
      InferAliasType(s) == "LLAVE_BREB" && BreB.InferTipoLlave(s) == BreB.ALIAS
  {
    AliasTypesExactly(s);
    BreB.KeyTypes(s);
    if DigitsOnly(s, 18) {
      assert s == s[..17] + [s[17]];
      Clabe.UniqueCheckDigit(s[..17], s[17]);
    }
    if DigitsOnly(s, 9) || DigitsOnly(s, 10) { assert '@' !in s; }
  }

  // ---------- amount ranges ----------

  /** `parseFloat` of a part that may be missing; white space in front is skipped. */
  function Bound(part: Option<string>): JsNumber {
    if part.Some? then ParseFloat(TrimStart(part.value)) else NaN
  }

  /** A comparison with NaN is false. */
  predicate InRange(amount: JsNumber, range: string) {
    var parts := Split(range, '-');
    var low, high := Bound(Mt103.At(parts, 0)), Bound(Mt103.At(parts, 1));
    amount.Finite? && low.Finite? && high.Finite? && low.value <= amount.value <= high.value
  }

  lemma PlainNumber(whole: string, rest: string)
    requires AllDigits(whole) && whole != "" && Without(rest, '-')
    ensures Without(whole + rest, '-') && TrimStart(whole + rest) == whole + rest
  {
    assert IsDigit(whole[0]) && (whole + rest)[0] == whole[0];
  }

  lemma CentsHaveNoHyphen(cents: nat)
    ensures Without(CentsString(cents), '-') && Without(Dec(cents), '-')
    ensures TrimStart(CentsString(cents)) == CentsString(cents) && TrimStart(Dec(cents)) == Dec(cents)
  {
    var fraction := "." + [DigitChar(cents % 100 / 10), DigitChar(cents % 10)];
    assert CentsString(cents) == Dec(cents / 100) + fraction && Dec(cents) == Dec(cents) + "";
    PlainNumber(Dec(cents / 100), fraction);
    PlainNumber(Dec(cents), "");
  }

  lemma WholeReads(n: nat)
    ensures ParseFloat(Dec(n)) == Finite(n as real)
  {
    LeadingDigitsOf(Dec(n), "");
    assert Dec(n) + "" == Dec(n) && Dec(n)[|Dec(n)|..] == "";
    ValueOfDec(n);
    assert Value("") as real / Pow10(0) as real == 0.0;
  }

  /** A range of two plain numbers matches the amounts between them, both included; neighbouring ranges that
      share a bound both match it. A range without a hyphen matches nothing. */
  lemma RangesExactly(amount: JsNumber, low: nat, high: nat)
    requires amount.Finite?
    ensures InRange(amount, Dec(low) + "-" + Dec(high)) <==> low as real <= amount.value <= high as real
    ensures InRange(amount, CentsString(low) + "-" + CentsString(high))
       <==> low as real / 100.0 <= amount.value <= high as real / 100.0
    ensures !InRange(amount, Dec(low))
  {
    WholeRange(amount, low, high);
    CentsRange(amount, low, high);
    CentsHaveNoHyphen(low);
    SplitOfWhole(Dec(low), '-');
  }

  lemma WholeRange(amount: JsNumber, low: nat, high: nat)
    requires amount.Finite?
    ensures InRange(amount, Dec(low) + "-" + Dec(high)) <==> low as real <= amount.value <= high as real
  {
    CentsHaveNoHyphen(low);
    CentsHaveNoHyphen(high);
    TwoParts(Dec(low), Dec(high));
    WholeReads(low);
    WholeReads(high);
  }

  lemma CentsRange(amount: JsNumber, low: nat, high: nat)
    requires amount.Finite?
    ensures InRange(amount, CentsString(low) + "-" + CentsString(high))
       <==> low as real / 100.0 <= amount.value <= high as real / 100.0
  {
    CentsHaveNoHyphen(low);
    CentsHaveNoHyphen(high);
    TwoParts(CentsString(low), CentsString(high));
    ParseOfCents(low);
    ParseOfCents(high);
  }

  lemma TwoParts(a: string, b: string)
    requires Without(a, '-') && Without(b, '-')
    ensures Split(a + "-" + b, '-') == [a, b]
  {
    SplitOfPrefix(a, '-', b);
    SplitOfWhole(b, '-');
  }

  // ---------- opening hours ----------

  datatype Schedule = Schedule(days: set<int>, startHhmm: int, endHhmm: int, tz: int)

  function ScheduleOf(rail: string): Option<Schedule> {
    if rail == "PIX" then Some(Schedule({1, 2, 3, 4, 5, 6}, 700, 2359, -3))
    else if rail == "SPEI" then Some(Schedule({1, 2, 3, 4, 5}, 700, 1730, -6))
    else if rail == "BRE_B" then Some(Schedule({1, 2, 3, 4, 5}, 600, 2200, -5))
    else None
  }

  const HOUR_MS := 3600000
  const DAY_MS := 86400000

  /** The day of the week of a time in milliseconds since 1970, a Thursday; Sunday is 0. */
  function DayOfWeek(t: int): int {
    (t / DAY_MS + 4) % 7
  }

  function Hhmm(t: int): int {
    var minute := t % DAY_MS / 60000;
    minute / 60 * 100 + minute % 60
  }

  predicate IsRailOpen(rail: string, now: int) {
    match ScheduleOf(rail)
    case None => true
    case Some(s) =>
      var local := now + s.tz * HOUR_MS;
      DayOfWeek(local) in s.days && s.startHhmm <= Hhmm(local) <= s.endHhmm
  }

  /** Hours and minutes written as one number are in the order of the minutes of the day. */
  lemma ClockOrder(minute: int, hours: int, minutes: int)
    requires 0 <= minute < 1440 && 0 <= minutes < 60
    ensures minute / 60 * 100 + minute % 60 <= hours * 100 + minutes <==> minute <= hours * 60 + minutes
    ensures hours * 100 + minutes <= minute / 60 * 100 + minute % 60 <==> hours * 60 + minutes <= minute
  {
  }

  /** From one time of day to another, both minutes included, on the working days of the week in a time zone. */
  predicate OpenBetween(now: int, zone: int, firstMinute: int, lastMinute: int, saturdays: bool) {
    var local := now + zone * HOUR_MS;
    var day, minute := (local / DAY_MS + 4) % 7, local % DAY_MS / 60000;
    1 <= day <= (if saturdays then 6 else 5) && firstMinute <= minute <= lastMinute
  }

  lemma ScheduleHours(s: Schedule, local: int, h1: int, m1: int, h2: int, m2: int)
    requires 0 <= m1 < 60 && 0 <= m2 < 60 && s.startHhmm == h1 * 100 + m1 && s.endHhmm == h2 * 100 + m2
    ensures s.startHhmm <= Hhmm(local) <= s.endHhmm
       <==> h1 * 60 + m1 <= local % DAY_MS / 60000 <= h2 * 60 + m2
  {
    MinuteOfDay(local);
    ClockOrder(local % DAY_MS / 60000, h1, m1);
    ClockOrder(local % DAY_MS / 60000, h2, m2);
  }

  /** PIX is open from seven to midnight, Mondays to Saturdays. */
  lemma PixHours(now: int)
    ensures IsRailOpen("PIX", now) <==> OpenBetween(now, -3, 7 * 60, 23 * 60 + 59, true)
  {
    ScheduleHours(ScheduleOf("PIX").value, now + -3 * HOUR_MS, 7, 0, 23, 59);
  }

  /** SPEI from seven to the end of the minute 17:30, Mondays to Fridays. */
  lemma SpeiHours(now: int)
    ensures IsRailOpen("SPEI", now) <==> OpenBetween(now, -6, 7 * 60, 17 * 60 + 30, false)
  {
    ScheduleHours(ScheduleOf("SPEI").value, now + -6 * HOUR_MS, 7, 0, 17, 30);
  }

  /** Bre-B from six to the end of the minute 22:00, Mondays to Fridays. */
  lemma BrebHours(now: int)
    ensures IsRailOpen("BRE_B", now) <==> OpenBetween(now, -5, 6 * 60, 22 * 60, false)
  {
    ScheduleHours(ScheduleOf("BRE_B").value, now + -5 * HOUR_MS, 6, 0, 22, 0);
  }

  lemma MinuteOfDay(t: int)
    ensures 0 <= t % DAY_MS / 60000 < 1440
  {
  }

  // ---------- matching ----------

  /** `matches` */
  predicate Matches(rule: Rule, c: C.Pacs008, now: int) {
    var value := rule.conditionValue;
    if rule.conditionField == "alias.type" then value == InferAliasType(c.creditor.account_id)
    else if rule.conditionField == "destination_country" then c.creditor.country == Some(value)
    else if rule.conditionField == "availability" then value == "always" || value == "true"
    else if rule.conditionField == "amount.range" then InRange(c.amount, value)
    else if rule.conditionField == "rail.operating_hours" then IsRailOpen(value, now)
    else if rule.conditionField == "currency" then Upper(c.currency) == Upper(value)
    else false
  }

  const CONDITION_FIELDS := {"alias.type", "destination_country", "availability", "amount.range",
                             "rail.operating_hours", "currency"}

  predicate AllCapitals(s: string) {
    forall i :: 0 <= i < |s| ==> IsUpper(s[i])
  }

  lemma {:induction false} CapitalsStay(s: string)
    requires AllCapitals(s)
    ensures Upper(s) == s
  {
    if s != "" {
      CapitalsStay(s[1..]);
    }
  }

  /** `alias.type` asks for the form of the creditor's account id. */
  lemma AliasCondition(rule: Rule, c: C.Pacs008, now: int)
    requires rule.conditionField == "alias.type"
    ensures var value, account, matched := rule.conditionValue, c.creditor.account_id, Matches(rule, c, now);
      && (value == "PIX_KEY" ==> (matched <==> IsPixKey(account)))
      && (value == "CLABE" ==> (matched <==> IsClabeForm(account)))
      && (value == "LLAVE_BREB" ==> (matched <==> IsBrebKey(account)))
      && (value == "IBAN" ==> (matched <==> IsIbanForm(account)))
      && (value == "BIC" ==> (matched <==> IsBicForm(account)))
      && (value !in {"PIX_KEY", "CLABE", "LLAVE_BREB", "IBAN", "BIC", "ACCOUNT"} ==> !matched)
  {
    AliasTypesExactly(c.creditor.account_id);
  }

  /** `amount.range` for the amounts between two plain numbers, both included. */
  lemma AmountCondition(rule: Rule, c: C.Pacs008, now: int, low: nat, high: nat)
    requires rule.conditionField == "amount.range" && rule.conditionValue == Dec(low) + "-" + Dec(high)
    requires c.amount.Finite?
    ensures Matches(rule, c, now) <==> low as real <= c.amount.value <= high as real
  {
    WholeRange(c.amount, low, high);
  }

  /** `rail.operating_hours` for the opening hours of the rail that is named, not of the payment's own. */
  lemma HoursCondition(rule: Rule, c: C.Pacs008, now: int)
    requires rule.conditionField == "rail.operating_hours"
    ensures var value, matched := rule.conditionValue, Matches(rule, c, now);
      && (value == "PIX" ==> (matched <==> OpenBetween(now, -3, 7 * 60, 23 * 60 + 59, true)))
      && (value == "SPEI" ==> (matched <==> OpenBetween(now, -6, 7 * 60, 17 * 60 + 30, false)))
      && (value == "BRE_B" ==> (matched <==> OpenBetween(now, -5, 6 * 60, 22 * 60, false)))
      && (value !in {"PIX", "SPEI", "BRE_B"} ==> matched)
  {
    PixHours(now);
    SpeiHours(now);
    BrebHours(now);
  }

  /** The other fields: the creditor's country, always, and the currency; one of any other name never matches. */
  lemma OtherConditions(rule: Rule, c: C.Pacs008, now: int)
    ensures var field, value, matched := rule.conditionField, rule.conditionValue, Matches(rule, c, now);
      && (field == "destination_country" ==> (matched <==> c.creditor.country == Some(value)))
      && (field == "availability" ==> (matched <==> value in {"always", "true"}))
      && (field == "currency" && AllCapitals(value) && AllCapitals(c.currency) ==> (matched <==> c.currency == value))
      && (field !in CONDITION_FIELDS ==> !matched)
  {
    if AllCapitals(rule.conditionValue) { CapitalsStay(rule.conditionValue); }
    if AllCapitals(c.currency) { CapitalsStay(c.currency); }
  }
}
