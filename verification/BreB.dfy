/** The Bre-B translators, which pack an entity code and an identifier into one account string. */
module BreB {
  import opened Wrappers
  import opened Text
  import opened Numerals
  import opened Canonical

  datatype BrebParty = BrebParty(
    codigoEntidad: string, nombre: string, nit: Option<string>, cc: Option<string>, numeroCuenta: Option<string>)

  datatype KeyType = TELEFONO | NIT | EMAIL | ALIAS

  datatype Request = Request(
    idTransaccion: string, original: string, pagador: BrebParty, beneficiario: BrebParty,
    llave: string, tipoLlave: Option<KeyType>, concepto: Option<string>, fechaHora: Option<string>)

  predicate Has(s: string, c: char) {
    exists i :: 0 <= i < |s| && s[i] == c
  }

  /** A phone number, a NIT with its check digit, an e-mail address or anything else. */
  function InferTipoLlave(llave: string): KeyType {
    var n := |llave|;
    if n == 13 && "+57" <= llave && AllDigits(llave[3..]) then TELEFONO
    else if 11 <= n <= 12 && AllDigits(llave[..n - 2]) && llave[n - 2] == '-' && IsDigit(llave[n - 1]) then NIT
    else if Has(llave, '@') then EMAIL
    else ALIAS
  }

  // ---------- Bre-B to canonical, native requests ----------

  /** The identifier packed behind the entity code. */
  function PackedId(p: BrebParty, default: string): string {
    OrElse(FirstOf(p.nit, FirstOf(p.cc, p.numeroCuenta)), default)
  }

  function PartyOf(p: BrebParty, default: string): Party {
    Party(Some(Take(p.nombre, 140)), Some("CO"), p.codigoEntidad + "/" + PackedId(p, default), FirstOf(p.nit, p.cc),
          None)
  }

  function BrebToCanonical(m: Request, paymentId: string, now: string): Result<Pacs008, TranslationError> {
    var tipoLlave := if m.tipoLlave.Some? then m.tipoLlave.value else InferTipoLlave(m.llave);
    Checked(Pacs008(
      paymentId, OrElse(m.fechaHora, now), Take(m.idTransaccion, 35), ParseFloat(m.original), "COP", None, None,
      Agent(None, Some(m.pagador.codigoEntidad), None), Agent(None, Some(m.beneficiario.codigoEntidad), None),
      PartyOf(m.pagador, "UNKNOWN"), PartyOf(m.beneficiario, m.llave), LLAVE_BREB, m.llave,
      if tipoLlave.NIT? then "SUPP" else "P2P", m.idTransaccion,
      if m.concepto.Some? then Some(Take(m.concepto.value, 140)) else None))
  }

  // ---------- canonical to Bre-B ----------

  const FINTECH_SIMULATED := "26264220"

  function AccountPart(accountId: string): string {
    if Has(accountId, '/') then AfterSlash(accountId) else accountId
  }

  function StripBreb(s: string): string {
    if "BREB-" <= s then s[5..] else s
  }

  function NitOf(taxId: Option<string>): Option<string> {
    if taxId.Some? && Has(taxId.value, '-') then taxId else None
  }

  function CcOf(taxId: Option<string>): Option<string> {
    if taxId.Some? && taxId.value != "" && !Has(taxId.value, '-') then taxId else None
  }

  function BrebPartyOf(entity: Option<string>, p: Party, defaultName: string): BrebParty {
    BrebParty(OrElse(entity, FINTECH_SIMULATED), Take(OrElse(p.name, defaultName), 140), NitOf(p.taxId), CcOf(p.taxId),
              Some(AccountPart(p.account_id)))
  }

  function CanonicalToBreb(c: Pacs008, generatedId: string): Request {
    Request(
      generatedId, ToFixed2(c.amount), BrebPartyOf(c.origin.ispb, c.debtor, "REMITENTE"),
      BrebPartyOf(c.destination.ispb, c.creditor, "BENEFICIARIO"),
      StripBreb(if c.aliasType == LLAVE_BREB then c.alias else AccountPart(c.creditor.account_id)), None,
      Some(Take(OrElse(c.remittanceInfo, c.reference), 140)), Some(c.created_at))
  }

  // ---------- round trip ----------

  /** Unpacking gives the identifier back exactly when the entity code has no slash. */
  lemma {:induction false} AfterSlashExact(code: string, id: string)
    ensures AfterSlash(code + "/" + id) == id <==> Without(code, '/')
    ensures |AfterSlash(code + "/" + id)| >= |id|
  {
    var s := code + "/" + id;
    if code == "" {
      Unpacks("", id);
    } else if code[0] == '/' {
      assert s[1..] == code[1..] + "/" + id;
      var rest := Split(s[1..], '/');
      assert Split(s, '/') == [""] + rest;
      assert Split(s, '/')[1..] == rest;
      JoinOfSplit(s[1..], '/');
    } else {
      assert s[1..] == code[1..] + "/" + id;
      AfterSlashExact(code[1..], id);
      var rest := Split(s[1..], '/');
      assert Split(s, '/') == [[s[0]] + rest[0]] + rest[1..];
      assert Split(s, '/')[1..] == rest[1..];
      assert Without(code, '/') <==> Without(code[1..], '/');
    }
  }

  lemma AccountPartExact(code: string, id: string)
    ensures AccountPart(code + "/" + id) == id <==> Without(code, '/')
  {
    AfterSlashExact(code, id);
    assert (code + "/" + id)[|code|] == '/';
  }

  predicate NitKept(p: BrebParty) {
    if p.nit.Some? then Has(p.nit.value, '-') else p.cc.None? || !Has(p.cc.value, '-')
  }

  predicate CcKept(p: BrebParty) {
    if p.cc.Some? then (p.nit.None? || p.nit == p.cc) && p.cc.value != "" && !Has(p.cc.value, '-')
    else p.nit.None? || p.nit.value == "" || Has(p.nit.value, '-')
  }

  /** What comes back of a party, with the exact condition of each field. */
  predicate PartyCameBack(p: BrebParty, back: BrebParty, default: string) {
    && back.codigoEntidad == p.codigoEntidad && (back.nombre == p.nombre <==> |p.nombre| <= 140)
    && (back.numeroCuenta == Some(PackedId(p, default)) <==> Without(p.codigoEntidad, '/'))
    && (back.nit == p.nit <==> NitKept(p)) && (back.cc == p.cc <==> CcKept(p))
  }

  lemma PartyReturns(p: BrebParty, default: string, defaultName: string)
    ensures PartyCameBack(p, BrebPartyOf(Some(p.codigoEntidad), PartyOf(p, default), defaultName), default)
  {
    AccountPartExact(p.codigoEntidad, PackedId(p, default));
  }

  lemma PartiesBack(m: Request, paymentId: string, now: string, generatedId: string)
    ensures var c := BrebToCanonical(m, paymentId, now);
      c.Ok? ==>
        var back := CanonicalToBreb(c.result, generatedId);
        && back.pagador == BrebPartyOf(Some(m.pagador.codigoEntidad), PartyOf(m.pagador, "UNKNOWN"), "REMITENTE")
        && back.beneficiario
           == BrebPartyOf(Some(m.beneficiario.codigoEntidad), PartyOf(m.beneficiario, m.llave), "BENEFICIARIO")
        && back.llave == StripBreb(m.llave) && back.original == ToFixed2(ParseFloat(m.original))
        && ParseFloat(m.original).Finite? && ParseFloat(m.original).value > 0.0
  {
  }

  /** What comes back of the request around the parties: a request without a subject gets its
      transaction id as one, and the new one never names its key's type. */
  predicate TextsCameBack(m: Request, back: Request, now: string) {
    && (back.concepto == m.concepto <==> m.concepto.Some? && |m.concepto.value| <= 140)
    && (m.concepto.None? ==> back.concepto == Some(m.idTransaccion))
    && back.fechaHora == Some(OrElse(m.fechaHora, now)) && (back.fechaHora == m.fechaHora <==> m.fechaHora.Some?)
    && back.tipoLlave == None && (back.llave == m.llave <==> !("BREB-" <= m.llave))
  }

  lemma TextsBack(m: Request, paymentId: string, now: string, generatedId: string)
    ensures var c := BrebToCanonical(m, paymentId, now);
      c.Ok? ==> TextsCameBack(m, CanonicalToBreb(c.result, generatedId), now)
  {
  }

  /** Bre-B -> canonical -> Bre-B: the entity codes always come back; the packed identifier comes
      back as the account exactly when its entity code has no slash; a NIT comes back as a NIT
      exactly when it is hyphenated, a key exactly when it has no BREB- prefix, and an amount exactly
      when it is printed with two decimals. */
  lemma RoundTrip(m: Request, paymentId: string, now: string, generatedId: string)
    ensures var c := BrebToCanonical(m, paymentId, now);
      c.Ok? ==>
        var back := CanonicalToBreb(c.result, generatedId);
        && PartyCameBack(m.pagador, back.pagador, "UNKNOWN")
        && PartyCameBack(m.beneficiario, back.beneficiario, m.llave)
        && TextsCameBack(m, back, now) && back.idTransaccion == generatedId
        && (back.original == m.original <==> exists cents: nat :: m.original == CentsString(cents))
  {
    PartiesBack(m, paymentId, now, generatedId);
    TextsBack(m, paymentId, now, generatedId);
    PartyReturns(m.pagador, "UNKNOWN", "REMITENTE");
    PartyReturns(m.beneficiario, m.llave, "BENEFICIARIO");
    if BrebToCanonical(m, paymentId, now).Ok? { AmountTextReturns(m.original); }
  }

  // ---------- key types ----------

  /** Nine or ten digits, a hyphen and a check digit. */
  predicate IsNit(s: string) {
    (|s| == 11 || |s| == 12) && forall i :: 0 <= i < |s| ==> if i == |s| - 2 then s[i] == '-' else IsDigit(s[i])
  }

  /** A country code for Colombia and ten digits. */
  predicate IsPhone(s: string) {
    |s| == 13 && s[0] == '+' && s[1] == '5' && s[2] == '7' && forall i :: 3 <= i < 13 ==> IsDigit(s[i])
  }

  /** The type of a key is the one whose form it has; no key has two of the forms. */
  lemma KeyTypes(llave: string)
    ensures InferTipoLlave(llave) == TELEFONO <==> IsPhone(llave)
    ensures InferTipoLlave(llave) == NIT <==> IsNit(llave)
    ensures InferTipoLlave(llave) == EMAIL <==> '@' in llave
    ensures InferTipoLlave(llave) == ALIAS <==> !IsPhone(llave) && !IsNit(llave) && '@' !in llave
  {
    PhoneForm(llave);
    NitForm(llave);
    assert Has(llave, '@') <==> '@' in llave;
  }

  lemma PhoneForm(s: string)
    ensures |s| == 13 && "+57" <= s && AllDigits(s[3..]) <==> IsPhone(s)
    ensures IsPhone(s) ==> !Has(s, '@') && !IsNit(s)
  {
    if |s| == 13 {
      assert "+57" <= s <==> s[0] == '+' && s[1] == '5' && s[2] == '7';
      assert forall i :: 3 <= i < 13 ==> s[i] == s[3..][i - 3];
    }
  }

  lemma NitForm(s: string)
    ensures 11 <= |s| <= 12 && AllDigits(s[..|s| - 2]) && s[|s| - 2] == '-' && IsDigit(s[|s| - 1]) <==> IsNit(s)
    ensures IsNit(s) ==> !Has(s, '@')
  {
    if 11 <= |s| <= 12 {
      assert forall i :: 0 <= i < |s| - 2 ==> s[i] == s[..|s| - 2][i];
    }
  }

  /** A payment to a NIT, given as such or recognised, is a supplier payment, any other one between persons. */
  lemma PurposeByKey(m: Request, paymentId: string, now: string)
    ensures var c := BrebToCanonical(m, paymentId, now);
      c.Ok? ==> c.result.purpose == if m.tipoLlave == Some(NIT) || (m.tipoLlave.None? && IsNit(m.llave)) then "SUPP"
                                    else "P2P"
  {
    KeyTypes(m.llave);
  }

  // ---------- canonical to Bre-B and back ----------

  lemma {:induction false} AfterFirstSlash(s: string, i: nat)
    requires i < |s| && s[i] == '/' && Without(s[..i], '/')
    ensures AfterSlash(s) == s[i + 1..]
  {
    assert s == s[..i] + "/" + s[i + 1..];
    Unpacks(s[..i], s[i + 1..]);
  }

  /** What a party's account is packed to: its tax id behind the entity code, if it has one, else what
      follows the first slash of its account, if there is one. */
  ghost predicate PackedAgain(p: Party, entity: Option<string>, packed: string) {
    var code := OrElse(entity, "26264220") + "/";
    && code <= packed
    && (if Truthy(p.taxId) then packed[|code|..] == p.taxId.value
        else Unpacked(p.account_id, packed[|code|..]))
  }

  /** What follows the first slash, or everything if there is none. */
  ghost predicate Unpacked(s: string, part: string) {
    if Without(s, '/') then part == s else exists i: nat :: FirstSlash(s, i) && part == s[i + 1..]
  }

  /** A key without the prefix that it may have had. */
  predicate IsKeyOf(key: string, s: string) {
    if "BREB-" <= s then "BREB-" + key == s else key == s
  }

  lemma AccountUnpacks(accountId: string)
    ensures Unpacked(accountId, AccountPart(accountId))
  {
    if !Without(accountId, '/') {
      var i := FindSlash(accountId);
      AfterFirstSlash(accountId, i);
    }
  }

  predicate FirstSlash(s: string, i: nat) {
    i < |s| && s[i] == '/' && Without(s[..i], '/')
  }

  lemma {:induction false} FindSlash(s: string) returns (i: nat)
    requires !Without(s, '/')
    ensures FirstSlash(s, i)
  {
    if s[0] == '/' {
      i := 0;
    } else {
      var j := FindSlash(s[1..]);
      i := j + 1;
      assert s[..i] == [s[0]] + s[1..][..j];
    }
  }

  lemma AccountPacks(p: Party, entity: Option<string>, defaultName: string, default: string)
    ensures var b := BrebPartyOf(entity, p, defaultName);
      PackedAgain(p, entity, b.codigoEntidad + "/" + PackedId(b, default))
  {
    var b := BrebPartyOf(entity, p, defaultName);
    var code := OrElse(entity, "26264220") + "/";
    assert (b.codigoEntidad + "/" + PackedId(b, default))[|code|..] == PackedId(b, default);
    AccountUnpacks(p.account_id);
  }

  /** What comes back of a party that went over Bre-B. */
  ghost predicate PartyCrossed(p: Party, back: Party, entity: Option<string>, defaultName: string) {
    && back.name == Some(OrElse(p.name, defaultName)) && (back.taxId == p.taxId <==> p.taxId != Some(""))
    && back.country == Some("CO") && back.address == None && PackedAgain(p, entity, back.account_id)
  }

  lemma PartyCrosses(p: Party, entity: Option<string>, defaultName: string, default: string)
    requires LengthAtMost(p.name, 140) && |defaultName| <= 140
    ensures PartyCrossed(p, PartyOf(BrebPartyOf(entity, p, defaultName), default), entity, defaultName)
  {
    AccountPacks(p, entity, defaultName, default);
  }

  /** canonical -> Bre-B -> canonical, for every payment that the schema admits: the way back succeeds
      exactly from one cent up. Names, tax ids and entity codes come back when they are there, the amount
      exactly in whole cents, the time and a remittance text always. */
  lemma CanonicalRoundTrip(c: Pacs008, generatedId: string, now: string)
    requires SchemaOk(c) && |generatedId| == 32
    ensures var back := BrebToCanonical(CanonicalToBreb(c, generatedId), c.payment_id, now);
      && (back.Ok? <==> RoundCents(c.amount.value) >= 1)
      && (back.Ok? ==>
            && PartyCrossed(c.debtor, back.result.debtor, c.origin.ispb, "REMITENTE")
            && PartyCrossed(c.creditor, back.result.creditor, c.destination.ispb, "BENEFICIARIO")
            && back.result.origin.ispb == Some(OrElse(c.origin.ispb, "26264220"))
            && back.result.destination.ispb == Some(OrElse(c.destination.ispb, "26264220"))
            && (back.result.amount == c.amount <==> WholeCents(c.amount.value)) && back.result.currency == "COP"
            && back.result.created_at == c.created_at && back.result.endToEndId == back.result.reference == generatedId
            && back.result.remittanceInfo == Some(OrElse(c.remittanceInfo, c.reference))
            && back.result.aliasType == LLAVE_BREB
            && (if c.aliasType == LLAVE_BREB then IsKeyOf(back.result.alias, c.alias)
                else exists part :: Unpacked(c.creditor.account_id, part) && IsKeyOf(back.result.alias, part)))
  {
    var m := CanonicalToBreb(c, generatedId);
    PartyCrosses(c.debtor, c.origin.ispb, "REMITENTE", "UNKNOWN");
    PartyCrosses(c.creditor, c.destination.ispb, "BENEFICIARIO", m.llave);
    AmountReturns(c.amount.value);
    KeyIsStripped(c.alias);
    KeyIsStripped(AccountPart(c.creditor.account_id));
    AccountUnpacks(c.creditor.account_id);
  }

  lemma KeyIsStripped(s: string)
    ensures IsKeyOf(StripBreb(s), s)
  {
  }
}
