/** The configuration hooks: the mirrors of the expense types and of the expense templates,
    which behave alike apart from their id field and their messages, and the currencies
    hook with its exchange-rate lookup. */
module ConfigurationHooks {
  import opened Js
  import opened Api
  import opened Mirror
  import opened ExpenseService

  /** The state of `useExpenseTypes` or `useExpenseTemplates`: the mirror, the loading flag,
      the last error message, and the constants that tell the two hooks apart. */
  class ConfigMirror {
    var items: seq<Value>
    var loading: bool
    var error: Value
    const idKey: string
    const fetchFailed: string
    const createFailed: string
    const updateFailed: string
    const deleteFailed: string
    const deletedMessage: string

    /** `useExpenseTypes()`. */
    constructor Types()
      ensures items == [] && !loading && error == Null
      ensures idKey == "expenseTypeId"
      ensures fetchFailed == "Failed to fetch expense types" && createFailed == "Failed to create expense type"
      ensures updateFailed == "Failed to update expense type" && deleteFailed == "Failed to delete expense type"
      ensures deletedMessage == "Expense type deleted successfully"
    {
      items := [];
      loading := false;
      error := Null;
      idKey := "expenseTypeId";
      fetchFailed := "Failed to fetch expense types";
      createFailed := "Failed to create expense type";
      updateFailed := "Failed to update expense type";
      deleteFailed := "Failed to delete expense type";
      deletedMessage := "Expense type deleted successfully";
    }

    /** `useExpenseTemplates()`. */
    constructor Templates()
      ensures items == [] && !loading && error == Null
      ensures idKey == "templateId"
      ensures fetchFailed == "Failed to fetch expense templates" && createFailed == "Failed to create template"
      ensures updateFailed == "Failed to update template" && deleteFailed == "Failed to delete template"
      ensures deletedMessage == "Template deleted successfully"
    {
      items := [];
      loading := false;
      error := Null;
      idKey := "templateId";
      fetchFailed := "Failed to fetch expense templates";
      createFailed := "Failed to create template";
      updateFailed := "Failed to update template";
      deleteFailed := "Failed to delete template";
      deletedMessage := "Template deleted successfully";
    }

    /** The fetch answered by `server`: the envelope's list, else a bare array, else nothing;
        a failure also empties the mirror and records the error. */
    method Fetch(server: Settled)
      modifies this
      ensures !loading
      ensures server.Fulfilled? ==> items == UnwrapList(server.value) && error == Null
      ensures server.Rejected? ==> items == [] && error == HandleApiError(server.reason, fetchFailed)
    {
      loading := true;
      error := Null;
      match server {
        case Fulfilled(response) =>
          items := UnwrapList(response);
        case Rejected(reason) =>
          error := HandleApiError(reason, fetchFailed);
          items := [];
      }
      loading := false;
    }

    /** The create answered by `server`: the server's record goes at the end; a failure
        leaves the mirror, records the error and is rethrown. */
    method Create(server: Settled) returns (result: Settled)
      modifies this
      ensures !loading && result == server
      ensures server.Fulfilled? ==>
                (error == Null
                 && items == old(items) + (if Truthy(Unwrap(server.value)) then [Unwrap(server.value)] else []))
      ensures server.Rejected? ==>
                (items == old(items) && error == HandleApiError(server.reason, createFailed))
    {
      loading := true;
      error := Null;
      match server {
        case Fulfilled(response) =>
          var created := Unwrap(response);
          if Truthy(created) {
            items := items + [created];
          }
        case Rejected(reason) =>
          error := HandleApiError(reason, createFailed);
      }
      result := server;
      loading := false;
    }

    /** The update of the record with id `id` answered by `server`: the server's record is
        merged into the records with that id only. */
    method Update(id: Value, server: Settled) returns (result: Settled)
      modifies this
      ensures !loading && result == server
      ensures server.Fulfilled? ==>
                (error == Null
                 && items == (if Truthy(Unwrap(server.value))
                              then PatchWhere(old(items), idKey, id, Unwrap(server.value))
                              else old(items)))
      ensures server.Rejected? ==>
                (items == old(items) && error == HandleApiError(server.reason, updateFailed))
    {
      loading := true;
      error := Null;
      match server {
        case Fulfilled(response) =>
          var updated := Unwrap(response);
          if Truthy(updated) {
            items := PatchWhere(items, idKey, id, updated);
          }
        case Rejected(reason) =>
          error := HandleApiError(reason, updateFailed);
      }
      result := server;
      loading := false;
    }

    /** The delete of id `id` answered by `server`: exactly the records with that id go. */
    method Delete(id: Value, server: Settled) returns (result: Settled)
      modifies this
      ensures !loading
      ensures server.Fulfilled? ==>
                (error == Null && items == RemoveWhere(old(items), idKey, id)
                 && result == Fulfilled(Obj(map["data" := Obj(map["message" := Str(deletedMessage)])])))
      ensures server.Rejected? ==>
                (result == server && items == old(items)
                 && error == HandleApiError(server.reason, deleteFailed))
    {
      loading := true;
      error := Null;
      if server.Rejected? {
        error := HandleApiError(server.reason, deleteFailed);
        result := server;
      } else {
        items := RemoveWhere(items, idKey, id);
        result := Fulfilled(Obj(map["data" := Obj(map["message" := Str(deletedMessage)])]));
      }
      loading := false;
    }
  }

  /** An update changes only the records with the id: every other record, the length and
      the order stay, and a record that matches keeps the fields the server's record does
      not carry. */
  lemma UpdateOnlyTheMatch(items: seq<Value>, idKey: string, id: Value, updated: Value, i: nat)
    requires i < |items|
    ensures |PatchWhere(items, idKey, id, updated)| == |items|
    ensures !StrictEquals(IdOf(items[i], idKey), id) ==> PatchWhere(items, idKey, id, updated)[i] == items[i]
    ensures StrictEquals(IdOf(items[i], idKey), id) ==>
              forall k :: k in Spread(items[i]) && k !in Spread(updated) ==>
                Get(PatchWhere(items, idKey, id, updated)[i], k) == Spread(items[i])[k]
  {
    PatchWhereAt(items, idKey, id, updated, i);
  }

  const CurrenciesFailed := "Failed to fetch currencies"
  const ExchangeRateFailed := "Failed to fetch exchange rate"

  /** The request the hook makes for `getExchangeRate(fromCurrency, toCurrency, date)` as
      written: the three values are passed positionally to a service that takes one request
      object, so the first argument is read as that object. */
  function ExchangeRateCallAsWritten(fromCurrency: Value, toCurrency: Value, date: Value, today: string): Result<Request> {
    ExchangeRateRequest(fromCurrency, today)
  }

  /** The same lookup as the service expects it: one request object holding the three. */
  function ExchangeRateCall(fromCurrency: Value, toCurrency: Value, date: Value, today: string): (r: Result<Request>)
    ensures r.Ok? && r.value.path == "/configuration/exchange-rates"
    ensures r.value.params.Keys == {"fromCurrency", "toCurrency", "date"}
    ensures r.value.params["fromCurrency"] == fromCurrency && r.value.params["toCurrency"] == toCurrency
    ensures r.value.params["date"] == if Truthy(date) then date else Str(today)
  {
    ExchangeRateRequest(Obj(map["fromCurrency" := fromCurrency, "toCurrency" := toCurrency, "date" := date]), today)
  }

  /** As written, a currency code passed as the first argument is read as the request: both
      currencies reach the server as undefined and the given date is replaced by today's; an
      undefined first argument makes the lookup throw before any request. */
  lemma ExchangeRateArgumentsLost(today: string)
    ensures ExchangeRateCallAsWritten(Str("EUR"), Str("USD"), Str("2024-01-31"), today).Ok?
    ensures ExchangeRateCallAsWritten(Str("EUR"), Str("USD"), Str("2024-01-31"), today).value.params
            == map["fromCurrency" := Undefined, "toCurrency" := Undefined, "date" := Str(today)]
    ensures ExchangeRateCall(Str("EUR"), Str("USD"), Str("2024-01-31"), today).value.params
            == map["fromCurrency" := Str("EUR"), "toCurrency" := Str("USD"), "date" := Str("2024-01-31")]
    ensures ExchangeRateCallAsWritten(Undefined, Str("USD"), Undefined, today) == Err(TypeErrorValue)
  {
    var asWritten := ExchangeRateCallAsWritten(Str("EUR"), Str("USD"), Str("2024-01-31"), today).value.params;
    assert asWritten.Keys == map["fromCurrency" := Undefined, "toCurrency" := Undefined, "date" := Str(today)].Keys;
    var corrected := ExchangeRateCall(Str("EUR"), Str("USD"), Str("2024-01-31"), today).value.params;
    assert corrected.Keys
           == map["fromCurrency" := Str("EUR"), "toCurrency" := Str("USD"), "date" := Str("2024-01-31")].Keys;
  }

  /** The state of `useCurrencies`: the currency list, the loading flag and the last error. */
  class Currencies {
    var currencies: seq<Value>
    var loading: bool
    var error: Value

    constructor ()
      ensures currencies == [] && !loading && error == Null
    {
      currencies := [];
      loading := false;
      error := Null;
    }

    /** `fetchCurrencies()` answered by `server`: the envelope's list only when it is an array,
        else a bare array, else nothing; a failure also empties the list. */
    method FetchCurrencies(server: Settled)
      modifies this
      ensures !loading
      ensures server.Fulfilled? ==> currencies == UnwrapList(server.value) && error == Null
      ensures server.Fulfilled? && IsEnveloped(server.value) && !Get(Get(server.value, "data"), "data").Arr? ==>
                currencies == []
      ensures server.Rejected? ==> currencies == [] && error == HandleApiError(server.reason, CurrenciesFailed)
    {
      loading := true;
      error := Null;
      match server {
        case Fulfilled(response) =>
          currencies := UnwrapList(response);
        case Rejected(reason) =>
          error := HandleApiError(reason, CurrenciesFailed);
          currencies := [];
      }
      loading := false;
    }

    /** `getExchangeRate(fromCurrency, toCurrency, date)` on `today` answered by `server`: the
        answer is passed through; any failure is rethrown as a new `Error` whose message is the
        extracted one. The state is not touched. */
    method GetExchangeRate(fromCurrency: Value, toCurrency: Value, date: Value, today: string, server: Settled)
      returns (sent: Request, result: Settled)
      ensures Ok(sent) == ExchangeRateCall(fromCurrency, toCurrency, date, today)
      ensures server.Fulfilled? ==> result == server
      ensures server.Rejected? ==> result == Rejected(NewError(HandleApiError(server.reason, ExchangeRateFailed)))
    {
      sent := ExchangeRateCall(fromCurrency, toCurrency, date, today).value;
      match server {
        case Fulfilled(_) =>
          result := server;
        case Rejected(reason) =>
          result := Rejected(NewError(HandleApiError(reason, ExchangeRateFailed)));
      }
    }
  }
}
