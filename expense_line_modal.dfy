/** The expense-line modal: the checks its submit makes before handing a line to its
    caller, the line it hands over, the reimbursable-amount rule driven by the exchange
    rate, and the daily amount. */
module ExpenseLineModal {
  import opened Js
  import opened JsStrings
  import opened JsNumbers
  import opened ExpenseLinesHook

  /** What a submit does: show an alert and stop, hand the line to `onSave`, or throw. */
  datatype SubmitOutcome = Alerted(message: string) | Saved(lineData: Value) | Threw(error: Value)

  /** The submit's checks, in order: date, type, non-blank description, an amount whose
      `parseFloat` is not at most zero, currency. */
  function SubmitCheck(data: Value): (r: Option<SubmitOutcome>)
    ensures !Truthy(Get(data, "expenseDate")) ==> r == Some(Alerted(DateRequired))
    ensures Truthy(Get(data, "expenseDate")) && !Truthy(Get(data, "expenseTypeId")) ==>
              r == Some(Alerted(TypeRequired))
    ensures DateOk(data) && TypeOk(data) && !Truthy(Get(data, "description")) ==>
              r == Some(Alerted(DescriptionRequired))
    ensures DateOk(data) && TypeOk(data) && Get(data, "description").Str? && AllSpace(Get(data, "description").s) ==>
              r == Some(Alerted(DescriptionRequired))
    ensures DateOk(data) && TypeOk(data) && DescriptionOk(data)
            && (!Truthy(Get(data, "originalAmount")) || AtMostZero(ParseFloat(Get(data, "originalAmount")))) ==>
              r == Some(Alerted(AmountPositive))
    ensures r.None? <==>
              (DateOk(data) && TypeOk(data) && DescriptionOk(data) && Truthy(Get(data, "originalAmount"))
               && !AtMostZero(ParseFloat(Get(data, "originalAmount"))) && CurrencyOk(data))
    ensures r.Some? && !r.value.Alerted? ==> r.value == Threw(TypeErrorValue)
  {
    var description := Get(data, "description");
    if !Truthy(Get(data, "expenseDate")) then Some(Alerted(DateRequired))
    else if !Truthy(Get(data, "expenseTypeId")) then Some(Alerted(TypeRequired))
    else if !Truthy(description) then Some(Alerted(DescriptionRequired))
    else if !description.Str? then Some(Threw(TypeErrorValue))
    else
      TrimEmptyIffBlank(description.s);
      if Trim(description.s) == "" then Some(Alerted(DescriptionRequired))
      else if !Truthy(Get(data, "originalAmount")) || AtMostZero(ParseFloat(Get(data, "originalAmount"))) then
        Some(Alerted(AmountPositive))
      else if !Truthy(Get(data, "originalCurrency")) then Some(Alerted(CurrencyRequired))
      else None
  }

  const LineDataKeys: set<string> := {"expenseDate", "expenseTypeId", "expenseType", "description",
    "originalAmount", "originalCurrency", "exchangeRate", "reimbursementAmount", "reimbursementCurrency",
    "merchantVendor", "businessPurpose", "projectCode", "numberOfDays", "documents"}

  /** The type reference the line carries: the selected type's id and name, or `null`. */
  function TypeReference(selectedType: Value): Value {
    if Truthy(selectedType) then
      Obj(map["id" := Get(selectedType, "expenseTypeId"), "name" := Get(selectedType, "typeName")])
    else Null
  }

  /** `v ? v.trim() : ''` for an optional text field of the form. */
  function TrimOrEmpty(v: Value): Value {
    TrimOr(v, Str(""))
  }

  /** The line handed to `onSave` for form values that passed the checks: the type id as an
      integer, the amount as a number, the description trimmed (and reused as the business
      purpose), the currency trimmed and upper-cased, the modal's rate and reimbursable amount
      in US dollars, optional text trimmed or empty, and one day unless a count is given. */
  function LineData(data: Value, description: string, currency: string, exchangeRate: Value,
                    reimbursable: Value, selectedType: Value, documents: Value): Value
  {
    Obj(map[
      "expenseDate" := Get(data, "expenseDate"),
      "expenseTypeId" := ParseInt(Get(data, "expenseTypeId")),
      "expenseType" := TypeReference(selectedType),
      "description" := Str(description),
      "originalAmount" := ParseFloat(Get(data, "originalAmount")),
      "originalCurrency" := Str(Upper(currency)),
      "exchangeRate" := exchangeRate,
      "reimbursementAmount" := reimbursable,
      "reimbursementCurrency" := Str("USD"),
      "merchantVendor" := TrimOrEmpty(Get(data, "merchantName")),
      "businessPurpose" := Str(description),
      "projectCode" := TrimOrEmpty(Get(data, "projectNumber")),
      "numberOfDays" := if Truthy(Get(data, "numberOfDays")) then ParseInt(Get(data, "numberOfDays")) else Num(1.0),
      "documents" := documents])
  }

  /** `onSubmit(data)`: the first failed check's alert, or the line for `onSave`; a text
      field that is not a string makes it throw. */
  function Submit(data: Value, exchangeRate: Value, reimbursable: Value, selectedType: Value, documents: Value): (r: SubmitOutcome)
    ensures r.Saved? <==>
              (SubmitCheck(data).None? && Get(data, "originalCurrency").Str?
               && TextOrUnset(Get(data, "merchantName")) && TextOrUnset(Get(data, "projectNumber")))
    ensures r.Saved? ==>
              r.lineData == LineData(data, Trim(Get(data, "description").s), Trim(Get(data, "originalCurrency").s),
                                     exchangeRate, reimbursable, selectedType, documents)
    ensures SubmitCheck(data).Some? ==> r == SubmitCheck(data).value
  {
    match SubmitCheck(data)
    case Some(stop) => stop
    case None =>
      var currency := Get(data, "originalCurrency");
      if !(currency.Str? && TextOrUnset(Get(data, "merchantName")) && TextOrUnset(Get(data, "projectNumber"))) then
        Threw(TypeErrorValue)
      else
        Saved(LineData(data, Trim(Get(data, "description").s), Trim(currency.s),
                       exchangeRate, reimbursable, selectedType, documents))
  }

  /** The saved line is normalised: it has exactly the modal's fields, a non-empty trimmed
      description that is also the business purpose, a currency code that trimming and
      upper-casing leave as it is, trimmed merchant and project texts, the modal's rate and
      reimbursable amount in US dollars, and one day unless a count was given. */
  lemma SavedLineIsNormalised(data: Value, exchangeRate: Value, reimbursable: Value, selectedType: Value, documents: Value)
    requires Submit(data, exchangeRate, reimbursable, selectedType, documents).Saved?
    ensures var line := Submit(data, exchangeRate, reimbursable, selectedType, documents).lineData;
            line.Obj? && line.fields.Keys == LineDataKeys
            && TrimmedText(Get(line, "description")) && Get(line, "description") != Str("")
            && Get(line, "businessPurpose") == Get(line, "description")
            && Get(line, "originalCurrency").Str?
            && Upper(Trim(Get(line, "originalCurrency").s)) == Get(line, "originalCurrency").s
            && TrimmedText(Get(line, "merchantVendor")) && TrimmedText(Get(line, "projectCode"))
    ensures var line := Submit(data, exchangeRate, reimbursable, selectedType, documents).lineData;
            Get(line, "reimbursementCurrency") == Str("USD")
            && Get(line, "exchangeRate") == exchangeRate && Get(line, "reimbursementAmount") == reimbursable
            && (!Truthy(Get(data, "numberOfDays")) ==> Get(line, "numberOfDays") == Num(1.0))
  {
    var description := Trim(Get(data, "description").s);
    var currency := Trim(Get(data, "originalCurrency").s);
    TrimEmptyIffBlank(Get(data, "description").s);
    TrimIdempotent(Get(data, "description").s);
    UpperTrimIdempotent(Get(data, "originalCurrency").s);
    LineDataShape(data, description, currency, exchangeRate, reimbursable, selectedType, documents);
    LineDataTexts(data, description, currency, exchangeRate, reimbursable, selectedType, documents);
    LineDataOptionals(data, description, currency, exchangeRate, reimbursable, selectedType, documents);
    LineDataRate(data, description, currency, exchangeRate, reimbursable, selectedType, documents);
  }

  lemma LineDataTexts(data: Value, description: string, currency: string, exchangeRate: Value,
                      reimbursable: Value, selectedType: Value, documents: Value)
    ensures var line := LineData(data, description, currency, exchangeRate, reimbursable, selectedType, documents);
            Get(line, "description") == Get(line, "businessPurpose") == Str(description)
            && Get(line, "originalCurrency") == Str(Upper(currency))
  {
    var m := LineData(data, description, currency, exchangeRate, reimbursable, selectedType, documents).fields;
    assert "description" in m && "businessPurpose" in m && "originalCurrency" in m;
  }

  lemma LineDataShape(data: Value, description: string, currency: string, exchangeRate: Value,
                      reimbursable: Value, selectedType: Value, documents: Value)
    ensures var line := LineData(data, description, currency, exchangeRate, reimbursable, selectedType, documents);
            line.Obj? && line.fields.Keys == LineDataKeys
  {
    var m := LineData(data, description, currency, exchangeRate, reimbursable, selectedType, documents).fields;
    assert forall k :: k in m <==> k in LineDataKeys;
  }

  lemma LineDataOptionals(data: Value, description: string, currency: string, exchangeRate: Value,
                          reimbursable: Value, selectedType: Value, documents: Value)
    requires TextOrUnset(Get(data, "merchantName")) && TextOrUnset(Get(data, "projectNumber"))
    ensures var line := LineData(data, description, currency, exchangeRate, reimbursable, selectedType, documents);
            TrimmedText(Get(line, "merchantVendor")) && TrimmedText(Get(line, "projectCode"))
  {
    var m := LineData(data, description, currency, exchangeRate, reimbursable, selectedType, documents).fields;
    assert "merchantVendor" in m && "projectCode" in m;
    if Truthy(Get(data, "merchantName")) { TrimIdempotent(Get(data, "merchantName").s); }
    if Truthy(Get(data, "projectNumber")) { TrimIdempotent(Get(data, "projectNumber").s); }
    assert Trim("") == "";
  }

  lemma LineDataRate(data: Value, description: string, currency: string, exchangeRate: Value,
                     reimbursable: Value, selectedType: Value, documents: Value)
    ensures var line := LineData(data, description, currency, exchangeRate, reimbursable, selectedType, documents);
            Get(line, "reimbursementCurrency") == Str("USD")
            && Get(line, "exchangeRate") == exchangeRate && Get(line, "reimbursementAmount") == reimbursable
            && (!Truthy(Get(data, "numberOfDays")) ==> Get(line, "numberOfDays") == Num(1.0))
  {
    var m := LineData(data, description, currency, exchangeRate, reimbursable, selectedType, documents).fields;
    assert "reimbursementCurrency" in m && "exchangeRate" in m && "reimbursementAmount" in m && "numberOfDays" in m;
  }

  /** A line the modal saves passes the expense-lines hook's own checks, and the hook sends
      its description unchanged, whenever its type id and amount read as numbers (the type id
      not 0) and its currency is not blank. */
  lemma SavedLinePassesHookChecks(data: Value, exchangeRate: Value, reimbursable: Value, selectedType: Value, documents: Value)
    requires Submit(data, exchangeRate, reimbursable, selectedType, documents).Saved?
    requires Truthy(ParseInt(Get(data, "expenseTypeId"))) && ParseFloat(Get(data, "originalAmount")).Num?
    requires Get(data, "originalCurrency").Str? && Trim(Get(data, "originalCurrency").s) != ""
    ensures var line := Submit(data, exchangeRate, reimbursable, selectedType, documents).lineData;
            AddLineCheck(line).Ok? && Str(AddLineCheck(line).value) == Get(line, "description")
  {
    var description := Trim(Get(data, "description").s);
    var currency := Trim(Get(data, "originalCurrency").s);
    var line := LineData(data, description, currency, exchangeRate, reimbursable, selectedType, documents);
    assert Submit(data, exchangeRate, reimbursable, selectedType, documents).lineData == line;
    assert SubmitCheck(data).None?;
    LineDataNumbers(data, description, currency, exchangeRate, reimbursable, selectedType, documents);
    LineDataTexts(data, description, currency, exchangeRate, reimbursable, selectedType, documents);
    TrimEmptyIffBlank(Get(data, "description").s);
    TrimEmptyIffBlank(description);
    TrimIdempotent(Get(data, "description").s);
    assert DateOk(line) && TypeOk(line);
    assert DescriptionOk(line);
    assert AmountOk(line);
    assert CurrencyOk(line);
    assert Trim(Get(line, "description").s) == Get(line, "description").s;
  }

  lemma LineDataNumbers(data: Value, description: string, currency: string, exchangeRate: Value,
                        reimbursable: Value, selectedType: Value, documents: Value)
    ensures var line := LineData(data, description, currency, exchangeRate, reimbursable, selectedType, documents);
            Get(line, "expenseDate") == Get(data, "expenseDate")
            && Get(line, "expenseTypeId") == ParseInt(Get(data, "expenseTypeId"))
            && Get(line, "originalAmount") == ParseFloat(Get(data, "originalAmount"))
  {
    var m := LineData(data, description, currency, exchangeRate, reimbursable, selectedType, documents).fields;
    assert "expenseDate" in m && "expenseTypeId" in m && "originalAmount" in m;
  }

  /** The amount and currency for which the modal looks a rate up: both set and an amount
      that `parseFloat` reads as a number. */
  predicate Convertible(amount: Value, currency: Value) {
    Truthy(amount) && Truthy(currency) && !IsNaN(ParseFloat(amount))
  }

  /** The rate as the modal reads it from the lookup's answer: `response.data.exchangeRate`
      (throwing when the answer or its data is missing). */
  function RateAsWritten(response: Value): Result<Value> {
    if Nullish(response) || Nullish(Get(response, "data")) then Err(TypeErrorValue)
    else Ok(Get(Get(response, "data"), "exchangeRate"))
  }

  /** The rate read from the field the exchange-rate record declares, `rate`. */
  function RateOf(response: Value): (r: Result<Value>)
    ensures r.Err? <==> Nullish(response) || Nullish(Get(response, "data"))
    ensures r.Ok? ==> r.value == Get(Get(response, "data"), "rate")
  {
    if Nullish(response) || Nullish(Get(response, "data")) then Err(TypeErrorValue)
    else Ok(Get(Get(response, "data"), "rate"))
  }

  /** The exchange rate and reimbursable amount the conversion effect settles on, given how
      the lookup went and how the rate is read from its answer: no conversion gives rate 1
      and 0; US dollars give rate 1 and the amount; another currency gives the rate read and
      the amount times it; a failed lookup or read gives rate 1 and the amount (or 0). */
  function Conversion(amount: Value, currency: Value, lookup: Settled, read: Result<Value>): (r: (Value, Value))
    ensures !Convertible(amount, currency) ==> r == (Num(1.0), Num(0.0))
    ensures Convertible(amount, currency) && StrictEquals(currency, Str("USD")) ==>
              r == (Num(1.0), ParseFloat(amount))
    ensures Convertible(amount, currency) && !StrictEquals(currency, Str("USD")) && lookup.Fulfilled? && read.Ok? ==>
              r == (read.value, Mul(ParseFloat(amount), read.value))
    ensures Convertible(amount, currency) && !StrictEquals(currency, Str("USD")) && (lookup.Rejected? || read.Err?) ==>
              r == (Num(1.0), if Truthy(ParseFloat(amount)) then ParseFloat(amount) else Num(0.0))
  {
    if !Convertible(amount, currency) then (Num(1.0), Num(0.0))
    else
      var a := ParseFloat(amount);
      if StrictEquals(currency, Str("USD")) then (Num(1.0), a)
      else if lookup.Fulfilled? && read.Ok? then (read.value, Mul(a, read.value))
      else (Num(1.0), if Truthy(a) then a else Num(0.0))
  }

  /** The US dollar rule and the fallback: with US dollars, or with a failed lookup, the
      reimbursable amount is the amount itself (the checks leave no zero amount); a rate of
      `x` for another currency multiplies the amount by `x`. */
  lemma ConversionRules(a: real, x: real, currency: string, response: Value, reason: Value)
    requires a > 0.0 && currency != "" && currency != "USD"
    requires Get(response, "data") == Obj(map["rate" := Num(x)])
    ensures Conversion(Num(a), Str("USD"), Rejected(reason), Err(TypeErrorValue)) == (Num(1.0), Num(a))
    ensures Conversion(Num(a), Str(currency), Rejected(reason), Err(TypeErrorValue)) == (Num(1.0), Num(a))
    ensures Conversion(Num(a), Str(currency), Fulfilled(response), RateOf(response)) == (Num(x), Num(a * x))
  {
    assert Get(Obj(map["rate" := Num(x)]), "rate") == Num(x);
    assert RateOf(response) == Ok(Num(x));
    assert Convertible(Num(a), Str(currency)) && !StrictEquals(Str(currency), Str("USD"));
    assert Mul(Num(a), Num(x)) == Num(a * x);
  }

  /** As written the modal reads `exchangeRate`, a field the exchange-rate answer does not
      declare: an answer that carries the rate as `rate` leaves the rate undefined and the
      reimbursable amount `NaN`, where reading `rate` gives the converted amount. */
  lemma RateFieldMismatch()
    ensures var response := Obj(map["data" := Obj(map["fromCurrency" := Str("EUR"), "toCurrency" := Str("USD"),
                                                      "rate" := Num(1.1), "date" := Str("2024-01-31")])]);
            Conversion(Num(10.0), Str("EUR"), Fulfilled(response), RateAsWritten(response)) == (Undefined, NaN)
            && Conversion(Num(10.0), Str("EUR"), Fulfilled(response), RateOf(response)) == (Num(1.1), Num(11.0))
  {
    var record := Obj(map["fromCurrency" := Str("EUR"), "toCurrency" := Str("USD"),
                          "rate" := Num(1.1), "date" := Str("2024-01-31")]);
    var response := Obj(map["data" := record]);
    assert Get(response, "data") == record;
    assert Get(record, "exchangeRate") == Undefined && Get(record, "rate") == Num(1.1);
  }

  /** `dailyAmount` when the effect sets it: amount over the whole days, only when the amount
      is set and the day count is positive; `None` when the effect leaves the field. */
  function DailyAmount(amount: Value, days: Value): (r: Option<Value>)
    ensures r.Some? <==> Truthy(amount) && Truthy(days) && ToNumber(days).Num? && ToNumber(days).n > 0.0
  {
    var d := ToNumber(days);
    if Truthy(amount) && Truthy(days) && d.Num? && d.n > 0.0 then Some(Div(ParseFloat(amount), ParseInt(days)))
    else None
  }

  /** Over `n` whole days the daily amount is the amount divided by `n`; with no days or no
      amount it is left alone. */
  lemma DailyAmountRule(a: real, n: nat, days: Value)
    requires a != 0.0 && n > 0
    ensures DailyAmount(Num(a), Num(n as real)) == Some(Num(a / n as real))
    ensures DailyAmount(Num(a), Num(0.0)) == None && DailyAmount(Str(""), days) == None
  {
    assert (n as real).Floor == n;
  }

  /** The modal's conversion state. */
  class ModalState {
    var exchangeRate: Value
    var reimbursableAmount: Value
    var isCalculating: bool
    var dailyAmount: Value

    constructor ()
      ensures exchangeRate == Num(1.0) && reimbursableAmount == Num(0.0) && !isCalculating && dailyAmount == Str("")
    {
      exchangeRate := Num(1.0);
      reimbursableAmount := Num(0.0);
      isCalculating := false;
      dailyAmount := Str("");
    }

    /** The conversion effect for the watched amount and currency, with `lookup` the outcome
        of the rate lookup it makes for a currency other than US dollars. */
    method Recalculate(amount: Value, currency: Value, lookup: Settled) returns (looked: bool)
      modifies this
      ensures looked <==> Convertible(amount, currency) && !StrictEquals(currency, Str("USD"))
      ensures (exchangeRate, reimbursableAmount)
              == Conversion(amount, currency, lookup, if lookup.Fulfilled? then RateOf(lookup.value) else Err(TypeErrorValue))
      ensures isCalculating == (if Convertible(amount, currency) then false else old(isCalculating))
      ensures dailyAmount == old(dailyAmount)
    {
      looked := false;
      if Convertible(amount, currency) {
        isCalculating := true;
        var a := ParseFloat(amount);
        if StrictEquals(currency, Str("USD")) {
          exchangeRate := Num(1.0);
          reimbursableAmount := a;
        } else {
          looked := true;
          var read := if lookup.Fulfilled? then RateOf(lookup.value) else Err(TypeErrorValue);
          if lookup.Fulfilled? && read.Ok? {
            exchangeRate := read.value;
            reimbursableAmount := Mul(a, read.value);
          } else {
            exchangeRate := Num(1.0);
            reimbursableAmount := if Truthy(a) then a else Num(0.0);
          }
        }
        isCalculating := false;
      } else {
        reimbursableAmount := Num(0.0);
        exchangeRate := Num(1.0);
      }
    }

    /** The daily-amount effect for the watched amount and day count. */
    method UpdateDailyAmount(amount: Value, days: Value)
      modifies this
      ensures dailyAmount == DailyAmount(amount, days).GetOr(old(dailyAmount))
      ensures exchangeRate == old(exchangeRate) && reimbursableAmount == old(reimbursableAmount)
      ensures isCalculating == old(isCalculating)
    {
      var next := DailyAmount(amount, days);
      if next.Some? {
        dailyAmount := next.value;
      }
    }
  }
}
