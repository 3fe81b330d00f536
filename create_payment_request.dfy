/** `CreatePaymentRequest`: the field rules of a payment submission and its authorisation. */
module CreatePaymentRequest {
  import opened Wrappers
  import Numerals

  /** A request field after JSON decoding: missing, null, a number (in cents) or a string. */
  datatype Input = Absent | Null | Number(cents: int) | Text(s: string)

  datatype PaymentRequest = PaymentRequest(amount: Input, currency: Input, recipient: Input, description: Input)

  /** The validated data. `currency` and `description` keep whether the key was sent at all. */
  datatype Validated = Validated(amount: int, currency: Input, recipient: string, description: Input)

  /** `authorize()`: every request is authorised. */
  function Authorize(req: PaymentRequest): (r: bool)
    ensures r
  {
    true
  }

  /** A character PHP's `trim` removes: space, tab, newline, carriage return, NUL and vertical tab. */
  predicate Trimmed(c: char) { c == ' ' || c == '\t' || c == '\n' || c == '\r' || c == 0 as char || c == 11 as char }

  /** Text that is empty once trimmed. */
  predicate Blank(s: string) { forall i :: 0 <= i < |s| ==> Trimmed(s[i]) }

  /** `required`: present, not null and not a string that is empty once trimmed. */
  predicate Required(v: Input) { !v.Absent? && !v.Null? && !(v.Text? && Blank(v.s)) }

  /** `nullable`: a missing or null value skips the field's other rules. */
  predicate Skipped(v: Input) { v.Absent? || v.Null? }

  /** `string|max:n`: a string of at most `n` characters. */
  predicate StringAtMost(v: Input, n: nat) { v.Text? && |v.s| <= n }

  /** The value `numeric` sees, in cents: a JSON number, or a numeric string. */
  function AmountCents(v: Input): Option<int>
  {
    match v
    case Number(c) => Some(c)
    case Text(s) => (match Numerals.ParseAmount(s) case Some(m) => Some(m as int) case None => None)
    case _ => None
  }

  /** `amount`: required, numeric, at least 0.01 (one cent). */
  predicate AmountValid(v: Input) { Required(v) && AmountCents(v).Some? && AmountCents(v).value >= 1 }

  /** `currency`: nullable, a string of at most 5 characters. */
  predicate CurrencyValid(v: Input) { Skipped(v) || StringAtMost(v, 5) }

  /** `recipient`: required, a string of at most 150 characters. */
  predicate RecipientValid(v: Input) { Required(v) && StringAtMost(v, 150) }

  /** `description`: nullable, a string of at most 150 characters. */
  predicate DescriptionValid(v: Input) { Skipped(v) || StringAtMost(v, 150) }

  function FailingFields(req: PaymentRequest): set<string>
  {
    (if AmountValid(req.amount) then {} else {"amount"})
    + (if CurrencyValid(req.currency) then {} else {"currency"})
    + (if RecipientValid(req.recipient) then {} else {"recipient"})
    + (if DescriptionValid(req.description) then {} else {"description"})
  }

  /**
   * `rules()` applied to a request: the validated data when every field rule
   * holds, otherwise the set of fields whose rule failed.
   */
  function Validate(req: PaymentRequest): (r: Result<Validated, set<string>>)
    ensures r.Ok? <==>
      AmountValid(req.amount) && CurrencyValid(req.currency)
      && RecipientValid(req.recipient) && DescriptionValid(req.description)
    ensures r.Err? ==> r.error != {}
    ensures r.Err? ==> ("amount" in r.error <==> !AmountValid(req.amount))
    ensures r.Err? ==> ("currency" in r.error <==> !CurrencyValid(req.currency))
    ensures r.Err? ==> ("recipient" in r.error <==> !RecipientValid(req.recipient))
    ensures r.Err? ==> ("description" in r.error <==> !DescriptionValid(req.description))
    ensures r.Ok? ==> r.value.amount == AmountCents(req.amount).value && 1 <= r.value.amount
    ensures r.Ok? ==> r.value.recipient == req.recipient.s && !Blank(r.value.recipient) && |r.value.recipient| <= 150
    ensures r.Ok? ==> r.value.currency == req.currency && r.value.description == req.description
    ensures r.Ok? ==> (r.value.currency.Text? ==> |r.value.currency.s| <= 5)
    ensures r.Ok? ==> (r.value.description.Text? ==> |r.value.description.s| <= 150)
  {
    var failing := FailingFields(req);
    if failing == {} then
      Ok(Validated(AmountCents(req.amount).value, req.currency, req.recipient.s, req.description))
    else
      Err(failing)
  }
  /**
   * A form-encoded amount is accepted: the two-decimal text of any positive
   * amount, or a whole number of units, passes `numeric|min:0.01` with its value.
   */
  lemma AmountTextAccepted(m: nat, n: nat)
    requires 1 <= m && 1 <= n
    ensures AmountValid(Text(Numerals.NatToString(m / 100) + "." + Numerals.Cents(m)))
    ensures AmountCents(Text(Numerals.NatToString(m / 100) + "." + Numerals.Cents(m))) == Some(m)
    ensures AmountValid(Text(Numerals.NatToString(n))) && AmountCents(Text(Numerals.NatToString(n))) == Some(100 * n)
  {
    var s := Numerals.NatToString(m / 100) + "." + Numerals.Cents(m);
    Numerals.ParseAmountOfText(m);
    Numerals.ParseAmountOfWhole(n);
    assert !Trimmed(s[|s| - 3]);
    assert !Trimmed(Numerals.NatToString(n)[0]);
  }

  /** A recipient that is empty once trimmed fails `required`, whatever else is sent. */
  lemma BlankRecipientRefused(req: PaymentRequest)
    requires req.recipient.Text? && Blank(req.recipient.s)
    ensures Validate(req).Err? && "recipient" in Validate(req).error
  {
  }
}
