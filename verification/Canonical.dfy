/** The canonical pacs.008 payment that every rail translates to and from, as far as the rail
    translators below read it, with the schema's constraints on those fields. */
module Canonical {
  import opened Wrappers
  import opened Text
  import opened Numerals

  datatype AliasType = PIX_KEY | CLABE | IBAN | ACCOUNT | ABA_ROUTING | BIC | LLAVE_BREB

  datatype Party = Party(name: Option<string>, country: Option<string>, account_id: string, taxId: Option<string>,
                         address: Option<seq<string>>)

  datatype Agent = Agent(routingNumber: Option<string>, ispb: Option<string>, bic: Option<string>)

  datatype Pacs008 = Pacs008(
    payment_id: string, created_at: string, endToEndId: string, amount: JsNumber, currency: string,
    fxRate: Option<real>, fxLocalAmount: Option<real>, origin: Agent, destination: Agent,
    debtor: Party, creditor: Party, aliasType: AliasType, alias: string,
    purpose: string, reference: string, remittanceInfo: Option<string>)

  predicate LengthIs(o: Option<string>, n: nat) {
    o.Some? ==> |o.value| == n
  }

  predicate LengthAtMost(o: Option<string>, n: nat) {
    o.Some? ==> |o.value| <= n
  }

  /** `/^PMT-[A-Z0-9]{10,32}$/` */
  predicate IsPaymentId(s: string) {
    "PMT-" <= s && 14 <= |s| <= 36 && forall i :: 4 <= i < |s| ==> IsDigit(s[i]) || 'A' <= s[i] <= 'Z'
  }

  predicate AgentOk(a: Agent) {
    LengthIs(a.routingNumber, 9) && LengthIs(a.ispb, 8) && LengthAtMost(a.bic, 11)
  }

  predicate PartyOk(p: Party) {
    && LengthAtMost(p.name, 140) && LengthIs(p.country, 2)
    && (p.address.Some? ==>
          |p.address.value| <= 4 && forall i :: 0 <= i < |p.address.value| ==> |p.address.value[i]| <= 70)
  }

  predicate SchemaOk(c: Pacs008) {
    && IsPaymentId(c.payment_id) && |c.endToEndId| <= 35 && c.amount.Finite? && c.amount.value > 0.0
    && |c.currency| == 3
    && (c.fxRate.Some? ==> c.fxRate.value > 0.0) && (c.fxLocalAmount.Some? ==> c.fxLocalAmount.value > 0.0)
    && AgentOk(c.origin) && AgentOk(c.destination) && PartyOk(c.debtor) && PartyOk(c.creditor)
    && |c.purpose| <= 35 && |c.reference| <= 140 && LengthAtMost(c.remittanceInfo, 140)
  }

  datatype TranslationError = InvalidCanonical

  /** Every translator to the canonical model ends with the schema check. */
  function Checked(c: Pacs008): Result<Pacs008, TranslationError> {
    if SchemaOk(c) then Ok(c) else Err(InvalidCanonical)
  }

  // ---------- packed identifiers ----------

  predicate HasRailPrefix(s: string) {
    "PIX-" <= s || "SPEI-" <= s
  }

  /** `s.replace(/^(PIX-|SPEI-)/, '')` */
  function StripRailPrefix(s: string): string {
    if "PIX-" <= s then s[4..] else if "SPEI-" <= s then s[5..] else s
  }

  /** Nine digits: an ABA routing number. */
  predicate IsRouting(s: string) {
    |s| == 9 && AllDigits(s)
  }

  /** Splitting at '/' and joining all but the first part: what follows the first slash. */
  function AfterSlash(s: string): string {
    Join(Split(s, '/')[1..], "/")
  }

  /** A slash-free head packed with any tail, slashes included, can be unpacked again. */
  lemma Unpacks(head: string, tail: string)
    requires Without(head, '/')
    ensures Split(head + "/" + tail, '/')[0] == head && |Split(head + "/" + tail, '/')| >= 2
    ensures AfterSlash(head + "/" + tail) == tail
  {
    SplitOfPrefix(head, '/', tail);
    assert ([head] + Split(tail, '/'))[1..] == Split(tail, '/');
    JoinOfSplit(tail, '/');
  }

  /** `/^\d{9}\//` */
  predicate LeadsWithRouting(s: string) {
    |s| >= 10 && AllDigits(s[..9]) && s[9] == '/'
  }

  lemma LeadingRouting(s: string)
    requires LeadsWithRouting(s)
    ensures |Split(s, '/')| >= 2 && Split(s, '/')[0] == s[..9] && AfterSlash(s) == s[10..]
  {
    assert s == s[..9] + "/" + s[10..];
    assert Without(s[..9], '/');
    Unpacks(s[..9], s[10..]);
  }

  lemma StripChanges(s: string)
    ensures StripRailPrefix(s) == s <==> !HasRailPrefix(s)
    ensures |StripRailPrefix(s)| <= |s| && (HasRailPrefix(s) ==> |StripRailPrefix(s)| < |s|)
  {
  }
}
