/** The e-mail helper: the configuration check made when the module loads, and `sendEmail`,
    which checks the form, builds the template parameters and turns the delivery outcome into
    either a success value or a thrown error with a detailed message.

    The delivery service itself is not modelled: what it answers is an input (`Delivery`). */
module EmailJs {
  import opened Wrappers
  import opened Numerals

  /** The four fields of the contact form. */
  datatype FormData = FormData(firstName: string, lastName: string, email: string, message: string)

  /** All four fields are non-empty strings, which is when JavaScript finds them all truthy. */
  predicate Filled(f: FormData)
  {
    f.firstName != "" && f.lastName != "" && f.email != "" && f.message != ""
  }

  // ---------------------------------------------------------------------------------------
  // Configuration

  /** The three identifiers the module needs from the environment. */
  datatype Config = Config(serviceId: string, templateId: string, publicKey: string)

  /** An environment variable counts as set when it exists and is not empty. */
  predicate Present(v: Option<string>)
  {
    v.Some? && v.value != ""
  }

  function Mark(present: bool): (m: string)
    ensures |m| == 1
    ensures m[0] == '\U{2713}' <==> present
    ensures m[0] == '\U{2717}' <==> !present
  {
    if present then "\U{2713}" else "\U{2717}"
  }

  /** The text of the error thrown when a variable is missing; it ticks off each of the three. */
  function MissingConfigMessage(serviceId: Option<string>, templateId: Option<string>, publicKey: Option<string>): string
  {
    "Missing EmailJS environment variables:\n    Service ID: " + Mark(Present(serviceId))
      + "\n    Template ID: " + Mark(Present(templateId))
      + "\n    Public Key: " + Mark(Present(publicKey))
  }

  /** Loading the module succeeds exactly when all three variables are set, and then uses
      them as they are. */
  function LoadConfig(serviceId: Option<string>, templateId: Option<string>, publicKey: Option<string>): (r: Result<Config, string>)
    ensures r.Success? <==> Present(serviceId) && Present(templateId) && Present(publicKey)
    ensures r.Success? ==> r.value == Config(serviceId.value, templateId.value, publicKey.value)
    ensures r.Failure? ==> r.error == MissingConfigMessage(serviceId, templateId, publicKey)
  {
    if !Present(serviceId) || !Present(templateId) || !Present(publicKey) then
      Failure(MissingConfigMessage(serviceId, templateId, publicKey))
    else
      Success(Config(serviceId.value, templateId.value, publicKey.value))
  }

  /** The failure message names exactly the variables that are missing: after each of the
      three labels comes a tick when that variable is set and a cross when it is not. */
  lemma MissingConfigMarks(serviceId: Option<string>, templateId: Option<string>, publicKey: Option<string>)
    ensures var m := MissingConfigMessage(serviceId, templateId, publicKey);
      var head := "Missing EmailJS environment variables:\n    Service ID: ";
      var second, third := "\n    Template ID: ", "\n    Public Key: ";
      var t := |head| + 1 + |second|;
      var p := t + 1 + |third|;
      && |m| == p + 1
      && m[..|head|] == head && m[|head| + 1..t] == second && m[t + 1..p] == third
      && (m[|head|] == '\U{2713}' <==> Present(serviceId))
      && (m[t] == '\U{2713}' <==> Present(templateId))
      && (m[p] == '\U{2713}' <==> Present(publicKey))
      && (m[|head|] == '\U{2717}' <==> !Present(serviceId))
      && (m[t] == '\U{2717}' <==> !Present(templateId))
      && (m[p] == '\U{2717}' <==> !Present(publicKey))
  {
    Layout("Missing EmailJS environment variables:\n    Service ID: ", Mark(Present(serviceId)),
      "\n    Template ID: ", Mark(Present(templateId)), "\n    Public Key: ", Mark(Present(publicKey)));
  }

  /** Where the pieces of a heading, three one-character marks and the labels between them sit
      in their concatenation. */
  lemma Layout(head: string, a: string, second: string, b: string, third: string, c: string)
    requires |a| == 1 && |b| == 1 && |c| == 1
    ensures var m := head + a + second + b + third + c;
      var t := |head| + 1 + |second|;
      var p := t + 1 + |third|;
      && |m| == p + 1
      && m[..|head|] == head && m[|head| + 1..t] == second && m[t + 1..p] == third
      && m[|head|] == a[0] && m[t] == b[0] && m[p] == c[0]
  {
  }

  // ---------------------------------------------------------------------------------------
  // Sending

  /** The template parameters handed to the delivery service. */
  datatype TemplateParams = TemplateParams(subject: string, name: string, Message: string, email: string)

  function FullName(f: FormData): string
  {
    f.firstName + " " + f.lastName
  }

  /** The sender's full name, a subject line naming the sender, and the message and address
      as typed. */
  function BuildParams(f: FormData): (p: TemplateParams)
    ensures p.subject == "Message from " + p.name
    ensures p.name == FullName(f)
    ensures p.Message == f.message && p.email == f.email
  {
    TemplateParams("Message from " + f.firstName + " " + f.lastName, f.firstName + " " + f.lastName, f.message, f.email)
  }

  /** The full name starts with the first name and ends with the last name, a space between. */
  lemma FullNameParts(f: FormData)
    ensures var n := FullName(f);
      && |n| == |f.firstName| + 1 + |f.lastName|
      && n[..|f.firstName|] == f.firstName
      && n[|f.firstName|] == ' '
      && n[|f.firstName| + 1..] == f.lastName
  {
    var n := FullName(f);
    assert n == f.firstName + (" " + f.lastName);
    assert n[|f.firstName| + 1..] == f.lastName;
  }

  /** A request as it goes to the delivery service. */
  datatype Request = Request(serviceId: string, templateId: string, params: TemplateParams)

  /** The response of a successful delivery. */
  datatype Response = Response(status: nat, text: string)

  /** The error a failed delivery is rejected with. An error object may lack any of these
      properties; a missing string is "" and a missing or zero status is 0, the values
      JavaScript treats as false. */
  datatype SendError = SendError(message: string, text: string, status: nat)

  /** What the delivery service does with a request. */
  datatype Delivery = Delivered(response: Response) | Rejected(error: SendError)

  /** The value `sendEmail` resolves with; `error` is read by the contact form. */
  datatype SendReturn = SendReturn(success: bool, data: Response, error: Option<SendError>)

  /** The request that was sent, if any, and the result: a value, or the message of the
      thrown error. */
  datatype Attempt = Attempt(request: Option<Request>, outcome: Result<SendReturn, string>)

  const MissingFormDataMessage: string := "Missing required form data"

  /** The error's message, else its text, else the words "Unknown error". */
  function Describe(e: SendError): (d: string)
    ensures d != ""
    ensures e.message != "" ==> d == e.message
    ensures e.message == "" && e.text != "" ==> d == e.text
    ensures e.message == "" && e.text == "" ==> d == "Unknown error"
  {
    if e.message != "" then e.message else if e.text != "" then e.text else "Unknown error"
  }

  /** The message of the error `sendEmail` throws when the delivery fails. */
  function DeliveryErrorMessage(e: SendError, config: Config): string
  {
    "EmailJS error: " + Describe(e)
      + "\n      Status: " + (if e.status != 0 then Decimal(e.status) else "No status")
      + "\n      Service ID: " + config.serviceId
      + "\n      Template ID: " + config.templateId
  }

  /** `sendEmail`: an incomplete form throws before anything is sent; otherwise the request is
      sent, and the call either resolves with `success: true` or throws. */
  function SendEmail(f: FormData, config: Config, delivery: Delivery): (a: Attempt)
    ensures !Filled(f) ==> a == Attempt(None, Failure(MissingFormDataMessage))
    ensures Filled(f) ==> a.request == Some(Request(config.serviceId, config.templateId, BuildParams(f)))
    ensures a.outcome.Success? <==> Filled(f) && delivery.Delivered?
    ensures a.outcome.Success? ==> a.outcome.value == SendReturn(true, delivery.response, None)
    ensures Filled(f) && delivery.Rejected? ==> a.outcome == Failure(DeliveryErrorMessage(delivery.error, config))
  {
    if !Filled(f) then
      Attempt(None, Failure(MissingFormDataMessage))
    else
      var request := Request(config.serviceId, config.templateId, BuildParams(f));
      match delivery
      case Delivered(response) => Attempt(Some(request), Success(SendReturn(true, response, None)))
      case Rejected(e) => Attempt(Some(request), Failure(DeliveryErrorMessage(e, config)))
  }

  /** `sendEmail` never resolves with `success: false`: every failure is thrown. */
  lemma NeverResolvesUnsuccessful(f: FormData, config: Config, delivery: Delivery)
    ensures SendEmail(f, config, delivery).outcome.Success? ==> SendEmail(f, config, delivery).outcome.value.success
  {
  }

  /** Every thrown delivery error starts with "EmailJS error: " followed by the error's
      description, and is never empty. */
  lemma DeliveryErrorShape(e: SendError, config: Config)
    ensures var m := DeliveryErrorMessage(e, config);
      var head := "EmailJS error: ";
      && m[..|head|] == head
      && m[|head|..|head| + |Describe(e)|] == Describe(e)
  {
    var head := "EmailJS error: ";
    var m := DeliveryErrorMessage(e, config);
    var rest := "\n      Status: " + (if e.status != 0 then Decimal(e.status) else "No status")
      + "\n      Service ID: " + config.serviceId
      + "\n      Template ID: " + config.templateId;
    assert m == head + Describe(e) + rest;
  }
}
