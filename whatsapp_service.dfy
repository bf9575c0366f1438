/** The WhatsApp sender used to alert a guardian: how the recipient number
    is normalised, which URL a request goes to, the two message bodies, and
    the rule that a send reports failure as `false` and never throws. The
    HTTP exchange itself is an input: whether an API key is configured and
    what the server answered. */
module WhatsApp {

  import opened Types
  import opened Text

  const PhoneNumberId: string := "584744444726098"
  const ApiUrl: string := "https://graph.facebook.com/v17.0"
  const MessagesEndpoint: string := "/messages"
  const DefaultPatient: string := "The patient"

  /** `to.startsWith('+') ? to.substring(1) : to`. */
  function FormatPhone(to: string): (r: string)
    ensures |to| > 0 && to[0] == '+' ==> [to[0]] + r == to
    ensures !(|to| > 0 && to[0] == '+') ==> r == to
  {
    if |to| > 0 && to[0] == '+' then to[1..] else to
  }

  /** Only one leading `+` is stripped, and a number written without it is
      sent as written: both spellings of a number reach the same recipient. */
  lemma FormatPhoneSpellings(digits: string)
    requires |digits| == 0 || digits[0] != '+'
    ensures FormatPhone("+" + digits) == digits
    ensures FormatPhone(digits) == digits
    ensures FormatPhone("++" + digits) == "+" + digits
  {
    assert ("+" + digits)[1..] == digits;
    assert ("++" + digits)[1..] == "+" + digits;
  }

  /** The URL `makeRequest` posts to for an endpoint. */
  function RequestUrl(endpoint: string): (r: string)
    ensures IsPrefix(ApiUrl + "/" + PhoneNumberId, r)
    ensures r[|ApiUrl| + 1 + |PhoneNumberId|..] == endpoint
  {
    ApiUrl + "/" + PhoneNumberId + endpoint
  }

  /** Different endpoints are posted to different URLs. */
  lemma RequestUrlInjective(e1: string, e2: string)
    requires RequestUrl(e1) == RequestUrl(e2)
    ensures e1 == e2
  {
    assert RequestUrl(e1)[|ApiUrl| + 1 + |PhoneNumberId|..] == e1;
  }

  /** The opening line of a missed-dose alert, before the patient's name. */
  const AlertHeader: string := "\U{1F6A8} Medication Alert!\n\n"
  const AfterPatient: string := " missed their medication:\n\n\U{1F48A} Medication: "
  const AfterMedication: string := "\n\U{23F0} Scheduled Time: "
  const AlertFooter: string :=
    "\n\nPlease check on them to ensure they're okay and remind them to take their medication.\n\n" +
    "This is an automated message from MediTrack."

  /** The body of `sendMedicationMissedMessage`. */
  function MissedBody(medication: string, scheduledTime: string, patient: string): (r: string)
    ensures OccursAt(r, patient, |AlertHeader|)
    ensures OccursAt(r, medication, |AlertHeader| + |patient| + |AfterPatient|)
    ensures OccursAt(r, scheduledTime, |AlertHeader| + |patient| + |AfterPatient| + |medication| + |AfterMedication|)
  {
    var r := AlertHeader + patient + AfterPatient + medication + AfterMedication + scheduledTime + AlertFooter;
    assert r[|AlertHeader|..|AlertHeader| + |patient|] == patient;
    var m := |AlertHeader| + |patient| + |AfterPatient|;
    assert r[m..m + |medication|] == medication;
    var t := m + |medication| + |AfterMedication|;
    assert r[t..t + |scheduledTime|] == scheduledTime;
    r
  }

  /** A missed-dose alert names the medication and the scheduled time, and
      the patient is "The patient" unless a name is given. */
  lemma MissedBodyMentions(medication: string, scheduledTime: string)
    ensures Includes(MissedBody(medication, scheduledTime, DefaultPatient), medication)
    ensures Includes(MissedBody(medication, scheduledTime, DefaultPatient), scheduledTime)
    ensures Includes(MissedBody(medication, scheduledTime, DefaultPatient), DefaultPatient)
  {
    var b := MissedBody(medication, scheduledTime, DefaultPatient);
    IncludesIff(b, medication);
    IncludesIff(b, scheduledTime);
    IncludesIff(b, DefaultPatient);
  }

  /** The fixed body of `sendTestMessage`. */
  const TestBody: string :=
    "\U{1F44B} Hello! This is a test message from MediTrack. " +
    "You will receive medication alerts at this number when needed."

  /** What the HTTP layer did with a request. */
  datatype Reply =
    | Answered(ok: bool)   // a response arrived; `ok` is `response.ok`
    | Failed               // the request threw (network error, bad JSON)

  /** The request `sendMessage` posts. */
  datatype Request = Request(url: string, to: string, body: string)

  /** One call of `sendMessage`: the request made, if any, and the boolean
      the call resolves to. */
  datatype Attempt = Attempt(request: Option<Request>, delivered: bool)

  /** `sendMessage(to, message)`; `apiKey` is the configured key and
      `reply` what the network did with the request. */
  function SendMessage(to: string, message: string, apiKey: Option<string>, reply: Reply): (r: Attempt)
    ensures r.request.Some? <==> Present(apiKey)
    ensures r.request.Some? ==> r.request.value == Request(RequestUrl(MessagesEndpoint), FormatPhone(to), message)
    ensures r.delivered <==> Present(apiKey) && reply == Answered(true)
  {
    if !Present(apiKey) then Attempt(None, false)
    else
      var req := Request(RequestUrl(MessagesEndpoint), FormatPhone(to), message);
      match reply
      case Answered(ok) => Attempt(Some(req), ok)
      case Failed => Attempt(Some(req), false)
  }

  /** `sendMedicationMissedMessage`, whose result is that of the send. */
  function SendMissed(to: string, medication: string, scheduledTime: string, patient: string,
                      apiKey: Option<string>, reply: Reply): (r: Attempt)
    ensures r.request.Some? ==> r.request.value.body == MissedBody(medication, scheduledTime, patient)
    ensures r.delivered <==> Present(apiKey) && reply == Answered(true)
  {
    SendMessage(to, MissedBody(medication, scheduledTime, patient), apiKey, reply)
  }

  /** `sendTestMessage`. */
  function SendTest(to: string, apiKey: Option<string>, reply: Reply): (r: Attempt)
    ensures r.request.Some? ==> r.request.value.body == TestBody && r.request.value.to == FormatPhone(to)
    ensures r.delivered <==> Present(apiKey) && reply == Answered(true)
  {
    SendMessage(to, TestBody, apiKey, reply)
  }

  /** Without a key nothing is posted and every send reports failure,
      whatever the recipient and body. */
  lemma NoKeyNoRequest(to: string, message: string, reply: Reply)
    ensures SendMessage(to, message, None, reply) == Attempt(None, false)
    ensures SendMessage(to, message, Some(""), reply) == Attempt(None, false)
  {
  }
}
