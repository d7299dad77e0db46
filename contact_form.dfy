/** The contact form: field edits, and a submission that checks the fields in order, sends the
    message through the e-mail helper, resets the form on success and reports the outcome.

    The notification toasts are modelled as the `Notice` a submission returns. */
module ContactForm {
  import opened Wrappers
  import opened EmailJs

  const EmptyForm: FormData := FormData("", "", "", "")

  // ---------------------------------------------------------------------------------------
  // The e-mail address pattern ^[^\s@]+@[^\s@]+\.[^\s@]+$

  /** The characters JavaScript's `\s` matches: the ASCII spaces, tab, line feed, vertical
      tab, form feed and carriage return, and the Unicode space separators, line and paragraph
      separators and the byte order mark. */
  predicate IsWhitespace(c: char)
  {
    var k := c as int;
    || (9 <= k <= 13) || k == 32 || k == 0xA0 || k == 0x1680
    || (0x2000 <= k <= 0x200A) || k == 0x2028 || k == 0x2029 || k == 0x202F
    || k == 0x205F || k == 0x3000 || k == 0xFEFF
  }

  /** A character of the class `[^\s@]`. */
  predicate Plain(c: char)
  {
    !IsWhitespace(c) && c != '@'
  }

  predicate AllPlain(s: string)
  {
    forall k :: 0 <= k < |s| ==> Plain(s[k])
  }

  /** A match of `[^\s@]+`. */
  predicate Word(s: string)
  {
    |s| > 0 && AllPlain(s)
  }

  function Address(local: string, host: string, suffix: string): string
  {
    local + "@" + host + "." + suffix
  }

  /** The pattern, read as a grammar: a word, '@', a word, '.', a word, and nothing else. */
  ghost predicate MatchesPattern(s: string)
  {
    exists local, host, suffix :: s == Address(local, host, suffix) && Word(local) && Word(host) && Word(suffix)
  }

  /** The first position of `c` in `s`. */
  function IndexOf(s: string, c: char): (r: Option<nat>)
    ensures r.Some? ==> r.value < |s| && s[r.value] == c && c !in s[..r.value]
    ensures r.None? ==> c !in s
  {
    if |s| == 0 then None
    else if s[0] == c then Some(0)
    else match IndexOf(s[1..], c)
      case None => None
      case Some(i) => assert s[..i + 1] == [s[0]] + s[1..][..i]; Some(i + 1)
  }

  /** A domain with a '.' that is neither its first nor its last character. */
  predicate HasInnerDot(d: string)
  {
    |d| >= 3 && '.' in d[1..|d| - 1]
  }

  /** The test the form runs: split at the first '@'; the part before it must be a non-empty
      run of plain characters and the part after it a run of plain characters with an inner
      dot. */
  predicate IsValidEmail(s: string)
  {
    match IndexOf(s, '@')
    case None => false
    case Some(at) => at > 0 && AllPlain(s[..at]) && AllPlain(s[at + 1..]) && HasInnerDot(s[at + 1..])
  }

  lemma AddressParts(local: string, host: string, suffix: string)
    ensures var s := Address(local, host, suffix);
      && |s| == |local| + |host| + |suffix| + 2
      && s[..|local|] == local && s[|local|] == '@'
      && s[|local| + 1..] == host + "." + suffix
  {
    var s := Address(local, host, suffix);
    assert s == local + ("@" + (host + "." + suffix));
  }

  /** `IndexOf` finds the first occurrence. */
  lemma {:induction false} IndexOfFirst(s: string, c: char, at: nat)
    requires at < |s| && s[at] == c
    requires forall k :: 0 <= k < at ==> s[k] != c
    ensures IndexOf(s, c) == Some(at)
  {
    if at > 0 {
      IndexOfFirst(s[1..], c, at - 1);
    }
  }

  /** A position of the inner dot. */
  lemma InnerDotAt(d: string) returns (k: nat)
    requires HasInnerDot(d)
    ensures 1 <= k < |d| - 1 && d[k] == '.'
  {
    var inner := d[1..|d| - 1];
    assert '.' in inner;
    var j :| 0 <= j < |inner| && inner[j] == '.';
    k := j + 1;
  }

  /** A slice of a run of plain characters is one. */
  lemma AllPlainSlice(s: string, i: nat, j: nat)
    requires AllPlain(s) && i <= j <= |s|
    ensures AllPlain(s[i..j])
  {
    forall k | 0 <= k < j - i
      ensures Plain(s[i..j][k])
    {
      assert s[i..j][k] == s[i + k];
    }
  }

  /** Every address the form accepts matches the pattern. */
  lemma ValidEmailMatches(s: string)
    requires IsValidEmail(s)
    ensures MatchesPattern(s)
  {
    var at := IndexOf(s, '@').value;
    var local, d := s[..at], s[at + 1..];
    var k := InnerDotAt(d);
    var host, suffix := d[..k], d[k + 1..];
    AllPlainSlice(d, 0, k);
    AllPlainSlice(d, k + 1, |d|);
    assert d == host + "." + suffix;
    assert s == local + "@" + d;
    assert s == Address(local, host, suffix) && Word(local) && Word(host) && Word(suffix);
  }

  /** Every address the pattern matches is accepted. */
  lemma MatchIsValidEmail(local: string, host: string, suffix: string)
    requires Word(local) && Word(host) && Word(suffix)
    ensures IsValidEmail(Address(local, host, suffix))
  {
    var s := Address(local, host, suffix);
    AddressParts(local, host, suffix);
    var at := |local|;
    IndexOfFirst(s, '@', at);
    var d := s[at + 1..];
    assert d == host + "." + suffix;
    assert d[1..|d| - 1][|host| - 1] == '.';
    forall k | 0 <= k < |d|
      ensures Plain(d[k])
    {
      if k < |host| {
        assert d[k] == host[k];
      } else if k > |host| {
        assert d[k] == suffix[k - |host| - 1];
      }
    }
  }

  /** The form's test accepts exactly the strings the pattern matches. */
  lemma IsValidEmailMatchesPattern(s: string)
    ensures IsValidEmail(s) <==> MatchesPattern(s)
  {
    if IsValidEmail(s) {
      ValidEmailMatches(s);
    }
    if MatchesPattern(s) {
      var local, host, suffix :| s == Address(local, host, suffix) && Word(local) && Word(host) && Word(suffix);
      MatchIsValidEmail(local, host, suffix);
    }
  }

  /** An address without a dot after the '@' is refused. */
  lemma RejectedWithoutDot()
    ensures !IsValidEmail("a@bc")
  {
    IndexOfFirst("a@bc", '@', 1);
  }

  /** An address with nothing before the '@' is refused. */
  lemma RejectedWithoutLocalPart()
    ensures !IsValidEmail("@b.c")
  {
    IndexOfFirst("@b.c", '@', 0);
  }

  /** An address whose dot opens the part after the '@' is refused. */
  lemma RejectedLeadingDot()
    ensures !IsValidEmail("a@.bc")
  {
    IndexOfFirst("a@.bc", '@', 1);
  }

  /** An address whose dot closes the part after the '@' is refused. */
  lemma RejectedTrailingDot()
    ensures !IsValidEmail("a@bc.")
  {
    IndexOfFirst("a@bc.", '@', 1);
  }

  /** An address with a second '@' is refused. */
  lemma RejectedSecondAt()
    ensures !IsValidEmail("a@b@c.d")
  {
    IndexOfFirst("a@b@c.d", '@', 1);
    assert "a@b@c.d"[2..][1] == '@';
  }

  /** An address with a space is refused. */
  lemma RejectedSpace()
    ensures !IsValidEmail("a b@c.d")
  {
    IndexOfFirst("a b@c.d", '@', 3);
    assert "a b@c.d"[..3][1] == ' ';
  }

  /** A plain address is accepted. */
  lemma AcceptedPlain()
    ensures IsValidEmail("me@site.org")
  {
    MatchIsValidEmail("me", "site", "org");
    assert Address("me", "site", "org") == "me@site.org";
  }

  /** A dot may also occur more than once after the '@': the pattern's middle word can stop at
      the first dot, so every address whose domain is a chain of two or more dot-separated words
      is accepted. */
  lemma AcceptedDottedDomain(local: string, labels: seq<string>)
    requires Word(local) && |labels| >= 2
    requires forall k :: 0 <= k < |labels| ==> Word(labels[k])
    ensures IsValidEmail(local + "@" + Dotted(labels))
  {
    var host, rest := labels[0], Dotted(labels[1..]);
    assert Word(host);
    DottedWord(labels[1..]);
    assert Dotted(labels) == host + "." + rest;
    MatchIsValidEmail(local, host, rest);
    JoinAddress(local, host, rest);
  }

  lemma JoinAddress(local: string, host: string, rest: string)
    ensures Address(local, host, rest) == local + "@" + (host + "." + rest)
  {
  }

  /** "a@b.c.d", with three labels after the '@', is accepted. */
  lemma AcceptedSeveralDots()
    ensures IsValidEmail("a@b.c.d")
  {
    var labels := ["b", "c", "d"];
    assert Word("a") && Word("b") && Word("c") && Word("d");
    assert Dotted(labels[2..]) == "d";
    assert Dotted(labels[1..]) == "c.d";
    assert Dotted(labels) == "b.c.d";
    AcceptedDottedDomain("a", labels);
    assert "a" + "@" + "b.c.d" == "a@b.c.d";
  }

  /** Labels joined by dots. */
  function Dotted(labels: seq<string>): string
  {
    if labels == [] then "" else if |labels| == 1 then labels[0] else labels[0] + "." + Dotted(labels[1..])
  }

  /** Words joined by dots form a word, since a dot is neither whitespace nor '@'. */
  lemma {:induction false} DottedWord(labels: seq<string>)
    requires |labels| >= 1 && forall k :: 0 <= k < |labels| ==> Word(labels[k])
    ensures Word(Dotted(labels))
  {
    if |labels| > 1 {
      var head, rest := labels[0], Dotted(labels[1..]);
      DottedWord(labels[1..]);
      assert Dotted(labels) == head + "." + rest;
      forall k | 0 <= k < |head + "." + rest|
        ensures Plain((head + "." + rest)[k])
      {
        if k < |head| {
          assert (head + "." + rest)[k] == head[k];
        } else if k > |head| {
          assert (head + "." + rest)[k] == rest[k - |head| - 1];
        }
      }
    }
  }

  // ---------------------------------------------------------------------------------------
  // Submission

  /** A toast: an error or a success notification with its text. */
  datatype Notice = Error(text: string) | Done(text: string)

  const FillInMessage: string := "Please fill in all fields"
  const InvalidEmailMessage: string := "Please enter a valid email address"
  const SentMessage: string := "Message sent successfully! I'll get back to you soon."

  /** The detail shown when the helper resolves without success: the error's message, else its
      text, else "Failed to send message". */
  function FailureDetail(e: Option<SendError>): (d: string)
    ensures d != ""
    ensures e.Some? && e.value.message != "" ==> d == e.value.message
    ensures e.Some? && e.value.message == "" && e.value.text != "" ==> d == e.value.text
    ensures (e.None? || (e.value.message == "" && e.value.text == "")) ==> d == "Failed to send message"
  {
    match e
    case Some(err) => if err.message != "" then err.message else if err.text != "" then err.text else "Failed to send message"
    case None => "Failed to send message"
  }

  function UnsuccessfulNotice(e: Option<SendError>): Notice
  {
    Error("Failed to send message: " + FailureDetail(e))
  }

  function ThrownNotice(message: string): Notice
  {
    Error("An error occurred: " + (if message != "" then message else "Unknown error"))
  }

  /** The notice shown, the form afterwards, and the request sent, if any. */
  datatype Submission = Submission(notice: Notice, form: FormData, request: Option<Request>)

  /** `handleSubmit`, as a function of the form, the configuration and the delivery outcome. */
  function Submit(f: FormData, config: Config, delivery: Delivery): Submission
  {
    if !Filled(f) then Submission(Error(FillInMessage), f, None)
    else if !IsValidEmail(f.email) then Submission(Error(InvalidEmailMessage), f, None)
    else
      var attempt := SendEmail(f, config, delivery);
      match attempt.outcome
      case Success(result) =>
        if result.success then Submission(Done(SentMessage), EmptyForm, attempt.request)
        else Submission(UnsuccessfulNotice(result.error), f, attempt.request)
      case Failure(message) => Submission(ThrownNotice(message), f, attempt.request)
  }

  /** An empty field stops the submission first: nothing is sent and the form is kept. This
      check comes before the address check, so an empty address also gets this notice. */
  lemma EmptyFieldRejected(f: FormData, config: Config, delivery: Delivery)
    requires f.firstName == "" || f.lastName == "" || f.email == "" || f.message == ""
    ensures Submit(f, config, delivery) == Submission(Error(FillInMessage), f, None)
  {
  }

  /** A complete form with an address the pattern does not match sends nothing either. */
  lemma InvalidEmailRejected(f: FormData, config: Config, delivery: Delivery)
    requires Filled(f) && !MatchesPattern(f.email)
    ensures Submit(f, config, delivery) == Submission(Error(InvalidEmailMessage), f, None)
  {
    IsValidEmailMatchesPattern(f.email);
  }

  /** A complete, well-formed form is sent with its template parameters; on delivery the form
      is cleared, otherwise it is kept and the thrown message is shown. */
  lemma ValidFormSent(f: FormData, config: Config, delivery: Delivery)
    requires Filled(f) && MatchesPattern(f.email)
    ensures var s := Submit(f, config, delivery);
      && s.request == Some(Request(config.serviceId, config.templateId, BuildParams(f)))
      && (delivery.Delivered? ==> s.notice == Done(SentMessage) && s.form == EmptyForm)
      && (delivery.Rejected? ==> s.notice == ThrownNotice(DeliveryErrorMessage(delivery.error, config)) && s.form == f)
  {
    IsValidEmailMatchesPattern(f.email);
  }

  /** The form is cleared exactly when the message was delivered, and is otherwise unchanged. */
  lemma ResetOnlyOnDelivery(f: FormData, config: Config, delivery: Delivery)
    ensures var s := Submit(f, config, delivery);
      s.form == if Filled(f) && IsValidEmail(f.email) && delivery.Delivered? then EmptyForm else f
  {
  }

  /** The helper's own completeness check and its "success: false" answer are never seen by
      the form: it checks the fields first, and the helper throws instead of answering
      "success: false". The notices are therefore only these four kinds. */
  lemma UnreachableBranches(f: FormData, config: Config, delivery: Delivery)
    ensures var n := Submit(f, config, delivery).notice;
      || n == Error(FillInMessage)
      || n == Error(InvalidEmailMessage)
      || n == Done(SentMessage)
      || (delivery.Rejected? && n == ThrownNotice(DeliveryErrorMessage(delivery.error, config)))
  {
  }

  /** An empty address, which the pattern would also refuse, is reported as a missing field. */
  lemma EmptyEmailGetsFillInNotice(f: FormData, config: Config, delivery: Delivery)
    requires f.email == ""
    ensures Submit(f, config, delivery).notice == Error(FillInMessage)
    ensures !IsValidEmail(f.email)
  {
  }

  // ---------------------------------------------------------------------------------------
  // Field edits

  /** The `name` attribute of the four inputs. */
  datatype Field = FirstName | LastName | Email | Message

  function Get(f: FormData, field: Field): string
  {
    match field
    case FirstName => f.firstName
    case LastName => f.lastName
    case Email => f.email
    case Message => f.message
  }

  /** `handleChange`: the named field takes the new value and the other three keep theirs. */
  function Update(f: FormData, field: Field, value: string): (g: FormData)
    ensures Get(g, field) == value
    ensures forall other :: other != field ==> Get(g, other) == Get(f, other)
  {
    match field
    case FirstName => f.(firstName := value)
    case LastName => f.(lastName := value)
    case Email => f.(email := value)
    case Message => f.(message := value)
  }

  /** Editing a field back to its old value restores the form; a later edit of the same field
      overrides an earlier one. */
  lemma UpdateLaws(f: FormData, field: Field, v: string, w: string)
    ensures Update(f, field, Get(f, field)) == f
    ensures Update(Update(f, field, v), field, w) == Update(f, field, w)
  {
  }

  /** The component's state cells. */
  class Contact {
    var formData: FormData
    var isSubmitting: bool

    constructor ()
      ensures formData == EmptyForm && !isSubmitting
    {
      formData, isSubmitting := EmptyForm, false;
    }

    /** `handleSubmit`. It raises the submitting flag, and lowers it again on every way out. */
    method HandleSubmit(config: Config, delivery: Delivery) returns (notice: Notice, request: Option<Request>)
      modifies this
      ensures !isSubmitting
      ensures Submission(notice, formData, request) == Submit(old(formData), config, delivery)
    {
      isSubmitting := true;

      if !Filled(formData) {
        notice, request := Error(FillInMessage), None;
        isSubmitting := false;
        return;
      }

      if !IsValidEmail(formData.email) {
        notice, request := Error(InvalidEmailMessage), None;
        isSubmitting := false;
        return;
      }

      var attempt := SendEmail(formData, config, delivery);
      request := attempt.request;
      match attempt.outcome {
        case Success(result) =>
          if result.success {
            notice := Done(SentMessage);
            formData := EmptyForm;
          } else {
            notice := UnsuccessfulNotice(result.error);
          }
        case Failure(message) =>
          notice := ThrownNotice(message);
      }
      isSubmitting := false;
    }

    /** `handleChange`. */
    method HandleChange(field: Field, value: string)
      modifies this`formData
      ensures formData == Update(old(formData), field, value)
    {
      formData := Update(formData, field, value);
    }
  }
}
