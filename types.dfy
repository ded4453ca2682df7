/** The value records the client builds: rates, intervals, daily readings, accounts and the
    aggregate usage snapshot. */
module Types {
  import opened Base
  import opened Numbers
  import opened Dates
  import opened Exceptions

  /** Tiered rate constants carried through for downstream cost modelling. */
  datatype Rates = Rates(step1Rate: Decimal, step2Rate: Decimal, threshold: Decimal)

  /** A span of days; datetimes are midnights, so a day is all they hold. */
  datatype Interval = Interval(start: Date, end: Date, billingPeriodEnd: Option<Date>)

  /** The dataclass constructor called without `billing_period_end`, which defaults to None. */
  function NewInterval(start: Date, end: Date): (r: Interval)
    ensures r.start == start && r.end == end
    ensures r.billingPeriodEnd == None
  {
    Interval(start, end, None)
  }

  /** `BCHydroInterval.__repr__`: only `start` and `end` are shown. */
  function IntervalRepr(i: Interval): (r: string)
    requires ValidDate(i.start) && ValidDate(i.end)
    ensures |r| == 22 + 19 + 6 + 19 + 1
  {
    "BCHydroInterval(start=" + IsoFormat(i.start) + ", end=" + IsoFormat(i.end) + ")"
  }

  /** The repr never shows `billing_period_end`: intervals differing only there print alike. */
  lemma IntervalReprIgnoresBillingPeriodEnd(i: Interval, b: Option<Date>)
    requires ValidDate(i.start) && ValidDate(i.end)
    ensures IntervalRepr(i.(billingPeriodEnd := b)) == IntervalRepr(i)
  {
  }

  /** The repr does show `start` and `end`: equal reprs mean equal start and end days. */
  lemma {:induction false} IntervalReprDeterminesDays(i1: Interval, i2: Interval)
    requires ValidDate(i1.start) && ValidDate(i1.end) && ValidDate(i2.start) && ValidDate(i2.end)
    requires IntervalRepr(i1) == IntervalRepr(i2)
    ensures i1.start == i2.start && i1.end == i2.end
  {
    var s1, e1 := IsoFormat(i1.start), IsoFormat(i1.end);
    var s2, e2 := IsoFormat(i2.start), IsoFormat(i2.end);
    FieldsOfRepr(s1, e1);
    FieldsOfRepr(s2, e2);
    IsoFormatInjective(i1.start, i2.start);
    IsoFormatInjective(i1.end, i2.end);
  }

  lemma FieldsOfRepr(start: string, end: string)
    requires |start| == 19 && |end| == 19
    ensures var r := "BCHydroInterval(start=" + start + ", end=" + end + ")";
      r[22..41] == start && r[47..66] == end
  {
  }

  /** One row of the consumption table: a day's kWh and cost. */
  datatype DailyElectricity = DailyElectricity(consumption: Decimal, cost: Decimal, interval: Interval, isEstimate: bool)

  /** The dataclass constructor called without `is_estimate`, which defaults to False. */
  function NewDailyElectricity(consumption: Decimal, cost: Decimal, interval: Interval): (r: DailyElectricity)
    ensures r.consumption == consumption && r.cost == cost && r.interval == interval
    ensures !r.isEstimate
  {
    DailyElectricity(consumption, cost, interval, false)
  }

  /** A JSON value as the account endpoint returns it. */
  datatype Json =
    | JNull
    | JBool(b: bool)
    | JNumber(n: Decimal)
    | JString(s: string)
    | JArray(items: seq<Json>)
    | JObject(fields: map<string, Json>)

  /** Account details. The annotations say strings and a dictionary, but nothing checks them
      at run time, so each field holds whatever JSON value its key held. */
  datatype Account = Account(accountId: Json, firstName: Json, lastName: Json, status: Json, address: Json)

  /** The keys `from_json` reads, in the order it reads them. */
  const AccountKeys: seq<string> := ["accountId", "firstName", "lastName", "accountStatus", "address"]

  /** `BCHydroAccount.from_json`: each field from its JSON key, by subscript, so the first
      missing key (in reading order) raises KeyError. */
  function AccountFromJson(data: map<string, Json>): (r: Result<Account, Error>)
    ensures r.Ok? <==> (forall k | k in AccountKeys :: k in data)
    ensures r.Ok? ==> r.value == Account(data["accountId"], data["firstName"], data["lastName"],
                                          data["accountStatus"], data["address"])
  {
    if "accountId" !in data then Err(KeyError("accountId"))
    else if "firstName" !in data then Err(KeyError("firstName"))
    else if "lastName" !in data then Err(KeyError("lastName"))
    else if "accountStatus" !in data then Err(KeyError("accountStatus"))
    else if "address" !in data then Err(KeyError("address"))
    else Ok(Account(data["accountId"], data["firstName"], data["lastName"], data["accountStatus"], data["address"]))
  }

  /** The JSON object an account was read from, keys renamed back. */
  function AccountToJson(a: Account): map<string, Json>
  {
    map["accountId" := a.accountId, "firstName" := a.firstName, "lastName" := a.lastName,
        "accountStatus" := a.status, "address" := a.address]
  }

  /** Renaming is lossless both ways: an account survives the trip through JSON, and reading
      an object keeps exactly its five account keys. */
  lemma AccountJsonRoundTrip(a: Account, data: map<string, Json>)
    ensures AccountFromJson(AccountToJson(a)) == Ok(a)
    ensures AccountFromJson(data).Ok? ==>
      AccountToJson(AccountFromJson(data).value) == map k | k in data && k in AccountKeys :: data[k]
  {
    if AccountFromJson(data).Ok? {
      var m := map k | k in data && k in AccountKeys :: data[k];
      assert AccountToJson(AccountFromJson(data).value).Keys == m.Keys;
    }
  }

  /** A missing key is reported as the first one missing in reading order. */
  lemma AccountFromJsonMissingKey(data: map<string, Json>, i: nat)
    requires i < |AccountKeys| && AccountKeys[i] !in data
    requires forall j | 0 <= j < i :: AccountKeys[j] in data
    ensures AccountFromJson(data) == Err(KeyError(AccountKeys[i]))
  {
    assert AccountKeys[0] == "accountId" && AccountKeys[1] == "firstName" && AccountKeys[2] == "lastName";
    assert AccountKeys[3] == "accountStatus" && AccountKeys[4] == "address";
  }

  /** The aggregate snapshot of one fetch. The annotation says an account, but the parser
      passes the client's account, which may be None. */
  datatype DailyUsage = DailyUsage(account: Option<Account>, interval: Interval, rates: Rates,
                                   electricity: seq<DailyElectricity>)
}
