/**
 * The request `make_vapi_call` (app.py) assembles before it posts it:
 * trimmed identifiers, sanitised customer records, the singular
 * `customer` or plural `customers` key, and an optional `schedulePlan`;
 * plus the schedule plan the bulk and single-call screens build.
 */
module CallPayload {
  import opened Chars
  import opened Text
  import opened Wrappers
  import opened PhoneValidation

  /** A value in a customer record: a string, or any other JSON value (kept opaque). */
  datatype FieldValue = StrValue(s: string) | OtherValue(json: string)

  /** A customer record, such as `{"number": "+15551234567"}`. */
  type Customer = map<string, FieldValue>

  /** A schedule plan: `earliestAt` and, optionally, `latestAt`. */
  type SchedulePlan = map<string, string>

  /**
   * The JSON body. `None` is an absent key: exactly one of `customer` and
   * `customers` is present, and `schedulePlan` may be absent.
   */
  datatype Payload = Payload(
    assistantId: string,
    phoneNumberId: string,
    customer: Option<Customer>,
    customers: Option<seq<Customer>>,
    schedulePlan: Option<SchedulePlan>)

  /** What is posted: the URL, the two headers and the body. */
  datatype CallRequest = CallRequest(url: string, authorization: string, contentType: string, payload: Payload)

  const DefaultBaseUrl := "https://api.vapi.ai"
  const JsonContentType := "application/json; charset=utf-8"

  /** Strings are sanitised; any other value is passed through. */
  function SanitizeValue(v: FieldValue): FieldValue
  {
    match v
    case StrValue(s) => StrValue(SanitizeText(s))
    case OtherValue(_) => v
  }

  function SanitizeCustomer(c: Customer): Customer
  {
    map k | k in c :: SanitizeValue(c[k])
  }

  function SanitizeCustomers(cs: seq<Customer>): seq<Customer>
  {
    seq(|cs|, i requires 0 <= i < |cs| => SanitizeCustomer(cs[i]))
  }

  /** Python truthiness of `Optional[Dict]`: present and non-empty. */
  predicate IsTruthy(plan: Option<SchedulePlan>)
  {
    plan.Some? && |plan.value| > 0
  }

  /** The body `make_vapi_call` builds. */
  function PayloadOf(assistantId: string, phoneNumberId: string, customers: seq<Customer>,
                     schedulePlan: Option<SchedulePlan>): Payload
  {
    var clean := SanitizeCustomers(customers);
    Payload(
      Strip(assistantId),
      Strip(phoneNumberId),
      if |clean| == 1 then Some(clean[0]) else None,
      if |clean| == 1 then None else Some(clean),
      if IsTruthy(schedulePlan) then schedulePlan else None)
  }

  /** The request `make_vapi_call` posts, headers included. */
  function RequestOf(apiKey: string, assistantId: string, phoneNumberId: string, customers: seq<Customer>,
                     schedulePlan: Option<SchedulePlan>, baseUrl: string): CallRequest
  {
    CallRequest(baseUrl + "/call", "Bearer " + Strip(apiKey), JsonContentType,
                PayloadOf(assistantId, phoneNumberId, customers, schedulePlan))
  }

  /** Both call screens leave `base_url` at its default, so the request goes to the Vapi `/call` endpoint. */
  lemma DefaultRequestUrl(apiKey: string, assistantId: string, phoneNumberId: string, customers: seq<Customer>,
                          schedulePlan: Option<SchedulePlan>)
    ensures RequestOf(apiKey, assistantId, phoneNumberId, customers, schedulePlan, DefaultBaseUrl).url
      == "https://api.vapi.ai/call"
  {
  }

  /** The customers a payload carries, whichever key holds them. */
  function CustomersIn(p: Payload): seq<Customer>
  {
    if p.customer.Some? then [p.customer.value]
    else if p.customers.Some? then p.customers.value
    else []
  }

  /**
   * `make_vapi_call` up to the network call: the customer loop with its
   * per-field loop, then the conditional keys.
   */
  method BuildCallRequest(apiKey: string, assistantId: string, phoneNumberId: string,
                          customers: seq<Customer>, schedulePlan: Option<SchedulePlan>, baseUrl: string)
    returns (req: CallRequest)
    ensures req == RequestOf(apiKey, assistantId, phoneNumberId, customers, schedulePlan, baseUrl)
  {
    var url := baseUrl + "/call";
    var key := Strip(apiKey);
    var payload := Payload(Strip(assistantId), Strip(phoneNumberId), None, None, None);

    var cleanCustomers: seq<Customer> := [];
    var i := 0;
    while i < |customers|
      invariant 0 <= i <= |customers|
      invariant |cleanCustomers| == i
      invariant forall j :: 0 <= j < i ==> cleanCustomers[j] == SanitizeCustomer(customers[j])
    {
      var customer := customers[i];
      var cleanCustomer: Customer := map[];
      var pending := customer.Keys;
      while pending != {}
        invariant pending <= customer.Keys
        invariant cleanCustomer.Keys == customer.Keys - pending
        invariant forall k :: k in cleanCustomer ==> cleanCustomer[k] == SanitizeValue(customer[k])
        decreases pending
      {
        var k :| k in pending;
        var value := customer[k];
        match value {
          case StrValue(s) =>
            cleanCustomer := cleanCustomer[k := StrValue(SanitizeText(s))];
          case OtherValue(_) =>
            cleanCustomer := cleanCustomer[k := value];
        }
        pending := pending - {k};
      }
      cleanCustomers := cleanCustomers + [cleanCustomer];
      i := i + 1;
    }

    if |cleanCustomers| == 1 {
      payload := payload.(customer := Some(cleanCustomers[0]));
    } else {
      payload := payload.(customers := Some(cleanCustomers));
    }
    if IsTruthy(schedulePlan) {
      payload := payload.(schedulePlan := schedulePlan);
    }
    assert cleanCustomers == SanitizeCustomers(customers);
    req := CallRequest(url, "Bearer " + key, JsonContentType, payload);
  }

  /** The records the single-call and bulk screens pass: `[{"number": n} for n in numbers]`. */
  function NumberCustomers(numbers: seq<string>): seq<Customer>
  {
    seq(|numbers|, i requires 0 <= i < |numbers| => map["number" := StrValue(numbers[i])])
  }

  /**
   * `schedule_plan` as the two screens build it: absent unless scheduling
   * is on and an earliest time is given; `earliestAt` gets a `Z` suffix,
   * `latestAt` is added when a latest time is given. Timestamps are the
   * opaque `isoformat()` strings; nothing checks earliest <= latest.
   */
  function SchedulePlanOf(scheduleCall: bool, earliest: Option<string>, latest: Option<string>)
    : (plan: Option<SchedulePlan>)
    ensures plan.Some? <==> scheduleCall && earliest.Some?
    ensures plan.Some? ==> "earliestAt" in plan.value && plan.value["earliestAt"] == earliest.value + "Z"
    ensures plan.Some? ==> ("latestAt" in plan.value <==> latest.Some?)
    ensures plan.Some? && latest.Some? ==> plan.value["latestAt"] == latest.value + "Z"
    ensures plan.Some? ==> plan.value.Keys <= {"earliestAt", "latestAt"}
  {
    if scheduleCall && earliest.Some? then
      var plan := map["earliestAt" := earliest.value + "Z"];
      if latest.Some? then Some(plan["latestAt" := latest.value + "Z"]) else Some(plan)
    else None
  }

  /**
   * Sanitising a customer keeps its keys; string values are sanitised and
   * every other value is unchanged.
   */
  lemma SanitizeCustomerFields(c: Customer)
    ensures SanitizeCustomer(c).Keys == c.Keys
    ensures forall k :: k in c && c[k].StrValue? ==> SanitizeCustomer(c)[k] == StrValue(SanitizeText(c[k].s))
    ensures forall k :: k in c && c[k].OtherValue? ==> SanitizeCustomer(c)[k] == c[k]
  {
  }

  /** Sanitising a customer twice is sanitising it once. */
  lemma SanitizeCustomerIdempotent(c: Customer)
    ensures SanitizeCustomer(SanitizeCustomer(c)) == SanitizeCustomer(c)
  {
    var d := SanitizeCustomer(c);
    var dd := SanitizeCustomer(d);
    assert dd.Keys == d.Keys == c.Keys;
    forall k | k in d ensures dd[k] == d[k] {
      if c[k].StrValue? {
        SanitizeTextIdempotent(c[k].s);
      }
    }
  }

  /**
   * Exactly one of `customer` and `customers` is present: `customer` for
   * one record, `customers` for any other count, zero included.
   */
  lemma PayloadShape(assistantId: string, phoneNumberId: string, customers: seq<Customer>,
                     schedulePlan: Option<SchedulePlan>)
    ensures var p := PayloadOf(assistantId, phoneNumberId, customers, schedulePlan);
      (p.customer.Some? <==> |customers| == 1) && (p.customers.Some? <==> |customers| != 1)
    ensures |customers| == 0 ==> PayloadOf(assistantId, phoneNumberId, customers, schedulePlan).customers == Some([])
  {
  }

  /**
   * Whichever key carries them, the payload holds the sanitised customers
   * with their count and order.
   */
  lemma PayloadCustomers(assistantId: string, phoneNumberId: string, customers: seq<Customer>,
                         schedulePlan: Option<SchedulePlan>)
    ensures CustomersIn(PayloadOf(assistantId, phoneNumberId, customers, schedulePlan)) == SanitizeCustomers(customers)
    ensures |CustomersIn(PayloadOf(assistantId, phoneNumberId, customers, schedulePlan))| == |customers|
  {
  }

  /**
   * `schedulePlan` is present exactly when the given plan is truthy, and is
   * then that plan; a missing or empty plan leaves the key out.
   */
  lemma PayloadSchedule(assistantId: string, phoneNumberId: string, customers: seq<Customer>,
                        schedulePlan: Option<SchedulePlan>)
    ensures var p := PayloadOf(assistantId, phoneNumberId, customers, schedulePlan);
      (p.schedulePlan.Some? <==> IsTruthy(schedulePlan)) && (p.schedulePlan.Some? ==> p.schedulePlan == schedulePlan)
  {
  }

  /** The identifiers are present and have no whitespace at either end. */
  lemma PayloadIdentifiersTrimmed(assistantId: string, phoneNumberId: string, customers: seq<Customer>,
                                  schedulePlan: Option<SchedulePlan>)
    ensures var p := PayloadOf(assistantId, phoneNumberId, customers, schedulePlan);
      (p.assistantId != [] ==> !IsWhitespace(p.assistantId[0]) && !IsWhitespace(p.assistantId[|p.assistantId| - 1]))
      && (p.phoneNumberId != [] ==> !IsWhitespace(p.phoneNumberId[0]) && !IsWhitespace(p.phoneNumberId[|p.phoneNumberId| - 1]))
  {
    var _, _ := StripParts(assistantId);
    var _, _ := StripParts(phoneNumberId);
  }

  /** Building a payload from a payload's own fields reproduces it: building is idempotent. */
  lemma PayloadRebuild(assistantId: string, phoneNumberId: string, customers: seq<Customer>,
                       schedulePlan: Option<SchedulePlan>)
    ensures var p := PayloadOf(assistantId, phoneNumberId, customers, schedulePlan);
      PayloadOf(p.assistantId, p.phoneNumberId, CustomersIn(p), p.schedulePlan) == p
  {
    StripIdempotent(assistantId);
    StripIdempotent(phoneNumberId);
    var clean := SanitizeCustomers(customers);
    forall i | 0 <= i < |customers| ensures SanitizeCustomer(clean[i]) == clean[i] {
      SanitizeCustomerIdempotent(customers[i]);
    }
    assert SanitizeCustomers(clean) == clean;
  }

  /**
   * Numbers that passed the validator still pass it as the payload carries
   * them, in order, whichever key carries them.
   */
  lemma PayloadNumbersValid(assistantId: string, phoneNumberId: string, numbers: seq<string>,
                            schedulePlan: Option<SchedulePlan>)
    requires forall i :: 0 <= i < |numbers| ==> ValidatePhoneNumber(numbers[i])
    ensures var sent := CustomersIn(PayloadOf(assistantId, phoneNumberId, NumberCustomers(numbers), schedulePlan));
      |sent| == |numbers| &&
      forall i :: 0 <= i < |sent| ==>
        && "number" in sent[i]
        && sent[i]["number"] == StrValue(SanitizeText(numbers[i]))
        && ValidatePhoneNumber(sent[i]["number"].s)
  {
    var cs := NumberCustomers(numbers);
    PayloadCustomers(assistantId, phoneNumberId, cs, schedulePlan);
    var sent := SanitizeCustomers(cs);
    forall i | 0 <= i < |numbers|
      ensures "number" in sent[i] && sent[i]["number"] == StrValue(SanitizeText(numbers[i]))
      ensures ValidatePhoneNumber(SanitizeText(numbers[i]))
    {
      assert sent[i] == SanitizeCustomer(cs[i]);
      assert cs[i] == map["number" := StrValue(numbers[i])];
      ValidateSanitized(numbers[i]);
    }
  }

  /** A plan built for a scheduled call is always truthy, so the payload carries it. */
  lemma ScheduledPlanIsSent(assistantId: string, phoneNumberId: string, customers: seq<Customer>,
                            earliest: string, latest: Option<string>)
    ensures var plan := SchedulePlanOf(true, Some(earliest), latest);
      PayloadOf(assistantId, phoneNumberId, customers, plan).schedulePlan == plan && plan.Some?
  {
    var plan := SchedulePlanOf(true, Some(earliest), latest);
    assert "earliestAt" in plan.value;
  }
}
