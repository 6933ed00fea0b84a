/**
 * The `index` view: a GET renders the page; a POST is validated, checked
 * against the captcha provider, and then turned into two independent email
 * sends whose results decide the status message. Every POST ends in a
 * redirect to the contact anchor of the index page.
 *
 * The captcha provider's reply and SES's verdict on each send are inputs
 * (an `Environment`); the view's outbound calls are returned, in order, as a
 * log of `Call`s; the status messages are appended to the request's queue.
 */
module ContactView {
  import opened Wrappers
  import opened Text
  import opened Ses
  import opened Templates

  const TeamRecipient := "sales@bignetwork.in"
  /** `internal_team_cc`: the team notification goes out without CC. */
  const InternalTeamCc: Option<string> := None
  const CaptchaVerifyUrl := "https://hcaptcha.com/siteverify"
  const IndexTemplate := "bigsupport/index.html"
  const ContactFragment := "contact"

  const NameKey := "name"
  const EmailKey := "email"
  const PhoneKey := "phone"
  const SubjectKey := "subject"
  const MessageKey := "message"
  const TokenKey := "h-captcha-response"
  /** The keys `index` requires to be non-empty. */
  const RequiredKeys := {NameKey, EmailKey, SubjectKey, MessageKey}

  datatype Level = Error | Warning | Success
  /** A queued message: its level, and which status text it shows (`NoticeText`). */
  datatype Message = Message(level: Level, notice: Notice)

  /** `redirect(reverse('index') + '#contact')` or `render(request, template)`. */
  datatype Response = RedirectToIndex(fragment: string) | Render(template: string)

  /** The parsed JSON reply: `success` (absent reads as false) and `error-codes` (absent reads as []). */
  datatype CaptchaReply = CaptchaReply(success: bool, errorCodes: seq<string>)
  /** The verification POST either fails in transport (`RequestException`) or yields a reply. */
  datatype CaptchaOutcome = TransportFailure | Replied(reply: CaptchaReply)

  /** How the outside world answers during one request. */
  datatype Environment = Environment(
    captcha: CaptchaOutcome,
    clientSendAccepted: bool,   // false: the first `awssesmail` raises `ClientError`
    teamSendAccepted: bool,     // false: the second `awssesmail` raises `ClientError`
    year: nat)                  // `datetime.date.today().year`

  /** One outbound call of the view. */
  datatype Call = VerifyCaptcha(url: string, token: string) | SendEmail(request: SendEmailRequest)

  /** What one request produces: the response, the messages it queues, the calls it makes. */
  datatype Outcome = Outcome(response: Response, messages: seq<Message>, calls: seq<Call>)

  const Redirect := RedirectToIndex(ContactFragment)

  /** `request.POST.get(key, '')`. */
  function Field(post: map<string, string>, key: string): string
  {
    if key in post then post[key] else ""
  }

  /** Python truthiness of `request.POST.get(key)`: present and non-empty. */
  predicate Filled(post: map<string, string>, key: string)
  {
    key in post && post[key] != ""
  }

  /**
   * `all([name, email, subject_form, message_content])`: every required key is
   * present with a non-empty value; the phone and the token play no part.
   */
  predicate RequiredFieldsFilled(post: map<string, string>)
    ensures RequiredFieldsFilled(post) <==> forall k | k in RequiredKeys :: k in post && post[k] != ""
  {
    Filled(post, NameKey) && Filled(post, EmailKey) && Filled(post, SubjectKey) && Filled(post, MessageKey)
  }

  /**
   * The form values as `index` reads them: a missing phone reads as empty, and
   * once validation has passed, the required fields are exactly as posted.
   */
  function InquiryOf(post: map<string, string>): (q: Inquiry)
    ensures q.phone == if PhoneKey in post then post[PhoneKey] else ""
    ensures RequiredFieldsFilled(post) ==>
              q.name == post[NameKey] && q.email == post[EmailKey]
              && q.subject == post[SubjectKey] && q.message == post[MessageKey]
  {
    Inquiry(Field(post, NameKey), Field(post, EmailKey), Field(post, PhoneKey), Field(post, SubjectKey), Field(post, MessageKey))
  }

  /** The confirmation: to the submitter alone, explicitly without CC. */
  function ClientRequest(q: Inquiry, year: nat): (req: SendEmailRequest)
    ensures req.destination == Destination([q.email], None)
    ensures req.subject == ClientSubject(q.subject) && req.htmlBody == ClientBody(year)
    ensures req.source == Sender
  {
    AwsSesMail(q.email, ClientSubject(q.subject), ClientBody(year), None)
  }

  /** The notification: to the fixed team address alone, since `internal_team_cc` is `None`. */
  function TeamRequest(q: Inquiry, year: nat): (req: SendEmailRequest)
    ensures req.destination == Destination([TeamRecipient], None)
    ensures req.subject == TeamSubject(q.subject, q.name) && req.htmlBody == TeamBody(q, year)
    ensures req.source == Sender
  {
    AwsSesMail(TeamRecipient, TeamSubject(q.subject, q.name), TeamBody(q, year), InternalTeamCc)
  }

  /**
   * The final status message, chosen from the two send flags: none when both
   * sends failed, otherwise one that is not an error, a success exactly when
   * both went out.
   */
  function Aggregate(sentToClient: bool, sentToTeam: bool): (ms: seq<Message>)
    ensures |ms| <= 1
    ensures ms == [] <==> !sentToClient && !sentToTeam
    ensures forall m | m in ms :: m.level != Error
    ensures (ms != [] && ms[0].level == Success) <==> sentToClient && sentToTeam
  {
    if sentToClient && sentToTeam then [Message(Success, BothSent)]
    else if sentToTeam then [Message(Warning, OnlyTeamSent)]
    else if sentToClient then [Message(Warning, OnlyClientSent)]
    else []
  }

  /**
   * The messages of the send phase: each failed send's error, in send order,
   * then the aggregate. The client's error, if any, comes first, and the last
   * message is an error only when both sends failed.
   */
  function SendPhaseMessages(sentToClient: bool, sentToTeam: bool): (ms: seq<Message>)
    ensures |ms| == (if sentToClient then 0 else 1) + (if sentToTeam then 0 else 1)
                    + (if sentToClient || sentToTeam then 1 else 0)
    ensures !sentToClient ==> ms[0] == Message(Error, ClientSendFailed)
    ensures !sentToTeam ==> Message(Error, TeamSendFailed) in ms
    ensures ms[|ms| - 1].level == Error <==> !sentToClient && !sentToTeam
  {
    (if sentToClient then [] else [Message(Error, ClientSendFailed)])
      + (if sentToTeam then [] else [Message(Error, TeamSendFailed)])
      + Aggregate(sentToClient, sentToTeam)
  }

  /**
   * The whole view as a decision table. A POST always redirects and always
   * queues a message; anything else renders the page and queues nothing. The
   * first outbound call, if any, is the captcha verification of the posted
   * token, and there are at most three.
   */
  function IndexSpec(httpMethod: string, post: map<string, string>, env: Environment): (o: Outcome)
    ensures o.response == if httpMethod == "POST" then Redirect else Render(IndexTemplate)
    ensures o.messages != [] <==> httpMethod == "POST"
    ensures o.calls != [] ==> TokenKey in post && o.calls[0] == VerifyCaptcha(CaptchaVerifyUrl, post[TokenKey])
    ensures |o.calls| <= 3
  {
    if httpMethod != "POST" then Outcome(Render(IndexTemplate), [], [])
    else if !RequiredFieldsFilled(post) then Outcome(Redirect, [Message(Error, FillRequiredFields)], [])
    else if !Filled(post, TokenKey) then Outcome(Redirect, [Message(Error, CompleteCaptcha)], [])
    else
      var verify := VerifyCaptcha(CaptchaVerifyUrl, post[TokenKey]);
      match env.captcha
      case TransportFailure => Outcome(Redirect, [Message(Error, CaptchaNetworkError)], [verify])
      case Replied(reply) =>
        if !reply.success then
          Outcome(Redirect, [Message(Error, CaptchaRejected(reply.errorCodes))], [verify])
        else
          var q := InquiryOf(post);
          Outcome(Redirect,
                  SendPhaseMessages(env.clientSendAccepted, env.teamSendAccepted),
                  [verify, SendEmail(ClientRequest(q, env.year)), SendEmail(TeamRequest(q, env.year))])
  }

  /** The incoming request; `messages` is its queue in the messages framework. */
  class Request {
    const httpMethod: string
    const post: map<string, string>
    var messages: seq<Message>

    constructor(httpMethod: string, post: map<string, string>, queued: seq<Message>)
      ensures this.httpMethod == httpMethod && this.post == post && messages == queued
    {
      this.httpMethod := httpMethod;
      this.post := post;
      messages := queued;
    }

    /** `messages.<level>(request, NoticeText(notice))`. */
    method AddMessage(level: Level, notice: Notice)
      modifies this
      ensures messages == old(messages) + [Message(level, notice)]
    {
      messages := messages + [Message(level, notice)];
    }
  }

  /**
   * The send phase of `index`: the confirmation, then the notification, each
   * attempted whatever became of the other, then the closing status message.
   */
  method SendPhase(request: Request, q: Inquiry, env: Environment) returns (calls: seq<Call>)
    modifies request
    ensures calls == [SendEmail(ClientRequest(q, env.year)), SendEmail(TeamRequest(q, env.year))]
    ensures request.messages
         == old(request.messages) + SendPhaseMessages(env.clientSendAccepted, env.teamSendAccepted)
  {
    var year := env.year;
    var msgToTeam := TeamBody(q, year);
    var msgToClient := ClientBody(year);

    var sentToClient := false;
    var sentToTeam := false;

    calls := [SendEmail(AwsSesMail(q.email, ClientSubject(q.subject), msgToClient, None))];
    if env.clientSendAccepted {
      sentToClient := true;
    } else {
      request.AddMessage(Error, ClientSendFailed);
    }

    calls := calls + [SendEmail(AwsSesMail(TeamRecipient, TeamSubject(q.subject, q.name), msgToTeam, InternalTeamCc))];
    if env.teamSendAccepted {
      sentToTeam := true;
    } else {
      request.AddMessage(Error, TeamSendFailed);
    }

    if sentToClient && sentToTeam {
      request.AddMessage(Success, BothSent);
    } else if sentToTeam {
      request.AddMessage(Warning, OnlyTeamSent);
    } else if sentToClient {
      request.AddMessage(Warning, OnlyClientSent);
    }
  }

  /** `index(request)`, step by step. */
  method Index(request: Request, env: Environment) returns (response: Response, calls: seq<Call>)
    modifies request
    ensures var o := IndexSpec(request.httpMethod, request.post, env);
            && response == o.response
            && calls == o.calls
            && request.messages == old(request.messages) + o.messages
  {
    calls := [];
    if request.httpMethod == "POST" {
      var post := request.post;
      var name := Field(post, NameKey);
      var email := Field(post, EmailKey);
      var phone := Field(post, PhoneKey);
      var subject := Field(post, SubjectKey);
      var message := Field(post, MessageKey);

      if !(name != "" && email != "" && subject != "" && message != "") {
        request.AddMessage(Error, FillRequiredFields);
        return Redirect, calls;
      }

      var token := Field(post, TokenKey);
      if token == "" {
        request.AddMessage(Error, CompleteCaptcha);
        return Redirect, calls;
      }

      calls := calls + [VerifyCaptcha(CaptchaVerifyUrl, token)];
      if env.captcha.TransportFailure? {
        request.AddMessage(Error, CaptchaNetworkError);
        return Redirect, calls;
      }
      var result := env.captcha.reply;

      if result.success {
        var q := Inquiry(name, email, phone, subject, message);
        var sendCalls := SendPhase(request, q, env);
        calls := calls + sendCalls;
        return Redirect, calls;
      } else {
        request.AddMessage(Error, CaptchaRejected(result.errorCodes));
        return Redirect, calls;
      }
    }
    response := Render(IndexTemplate);
  }

  // ---------------------------------------------------------------------------
  // Properties of the view

  /** Number of messages of the given level. */
  function CountLevel(ms: seq<Message>, level: Level): nat
  {
    if ms == [] then 0
    else (if ms[0].level == level then 1 else 0) + CountLevel(ms[1..], level)
  }

  lemma {:induction false} CountLevelAppend(a: seq<Message>, b: seq<Message>, level: Level)
    ensures CountLevel(a + b, level) == CountLevel(a, level) + CountLevel(b, level)
  {
    if a == [] {
      assert a + b == b;
    } else {
      assert (a + b)[0] == a[0];
      assert (a + b)[1..] == a[1..] + b;
      CountLevelAppend(a[1..], b, level);
    }
  }

  lemma CountLevelSingle(m: Message, level: Level)
    ensures CountLevel([m], level) == if m.level == level then 1 else 0
  {
    assert [m][1..] == [];
  }

  /** Number of emails handed to SES. */
  function SendCount(calls: seq<Call>): nat
  {
    if calls == [] then 0
    else (if calls[0].SendEmail? then 1 else 0) + SendCount(calls[1..])
  }

  /** The request gets past validation and the captcha, so the send phase runs. */
  predicate ReachesSends(httpMethod: string, post: map<string, string>, env: Environment)
  {
    && httpMethod == "POST" && RequiredFieldsFilled(post) && Filled(post, TokenKey)
    && env.captcha.Replied? && env.captcha.reply.success
  }

  /** Anything but a POST renders the page, queues nothing and calls nothing. */
  lemma NonPostRendersPage(httpMethod: string, post: map<string, string>, env: Environment)
    requires httpMethod != "POST"
    ensures IndexSpec(httpMethod, post, env) == Outcome(Render(IndexTemplate), [], [])
  {
  }

  /** Every POST, whatever happens, ends in the redirect to the contact anchor. */
  lemma PostAlwaysRedirects(post: map<string, string>, env: Environment)
    ensures IndexSpec("POST", post, env).response == RedirectToIndex("contact")
  {
  }

  /**
   * Validation runs first: a missing or empty required field yields exactly the
   * one error and no outbound call, whatever the token and the environment.
   */
  lemma MissingFieldRejected(post: map<string, string>, env: Environment)
    requires !RequiredFieldsFilled(post)
    ensures IndexSpec("POST", post, env) == Outcome(Redirect, [Message(Error, FillRequiredFields)], [])
  {
  }

  /** The validation error appears exactly when a required field is missing or empty. */
  lemma ValidationErrorIffFieldMissing(post: map<string, string>, env: Environment)
    ensures Message(Error, FillRequiredFields) in IndexSpec("POST", post, env).messages
        <==> !RequiredFieldsFilled(post)
  {
  }

  /** Whitespace characters; `index` does not strip them. */
  const Whitespace := {' ', '\t', '\n', '\r'}

  /**
   * Whitespace is not empty: a form whose required fields hold nothing but
   * blanks passes validation and draws no validation error.
   */
  lemma BlankFieldsPassValidation(post: map<string, string>, env: Environment)
    requires forall k | k in RequiredKeys ::
               k in post && post[k] != "" && forall c | c in post[k] :: c in Whitespace
    ensures RequiredFieldsFilled(post)
    ensures Message(Error, FillRequiredFields) !in IndexSpec("POST", post, env).messages
  {
    ValidationErrorIffFieldMissing(post, env);
  }

  /** With the fields filled, a missing token is the one error, and the captcha is not asked. */
  lemma MissingTokenRejected(post: map<string, string>, env: Environment)
    requires RequiredFieldsFilled(post) && !Filled(post, TokenKey)
    ensures IndexSpec("POST", post, env) == Outcome(Redirect, [Message(Error, CompleteCaptcha)], [])
  {
  }

  /** A transport failure of the verification call fails closed: one error, no email. */
  lemma CaptchaTransportFailureFailsClosed(post: map<string, string>, env: Environment)
    requires RequiredFieldsFilled(post) && Filled(post, TokenKey) && env.captcha == TransportFailure
    ensures IndexSpec("POST", post, env)
         == Outcome(Redirect, [Message(Error, CaptchaNetworkError)], [VerifyCaptcha(CaptchaVerifyUrl, post[TokenKey])])
  {
  }

  /**
   * A rejected token fails closed too: one error, no email, and the error text
   * carries every error code of the provider, each at its place in the ", "-joined list.
   */
  lemma CaptchaRejectionFailsClosed(post: map<string, string>, env: Environment)
    requires RequiredFieldsFilled(post) && Filled(post, TokenKey)
    requires env.captcha.Replied? && !env.captcha.reply.success
    ensures var o := IndexSpec("POST", post, env);
            var codes := env.captcha.reply.errorCodes;
            && o.calls == [VerifyCaptcha(CaptchaVerifyUrl, post[TokenKey])]
            && o.messages == [Message(Error, CaptchaRejected(codes))]
            && var text := NoticeText(o.messages[0].notice);
               forall i | 0 <= i < |codes| ::
                 var k := |CaptchaRejectedOpen| + JoinOffset(codes, CodeSeparator, i);
                 k + |codes[i]| <= |text| && text[k..k + |codes[i]|] == codes[i]
  {
    RejectedMessageNamesEveryCode(env.captcha.reply.errorCodes);
  }

  /**
   * Fail closed, as a whole: an email is handed to SES only when the request got
   * through validation and the captcha said yes, and then exactly two are.
   */
  lemma SendsOnlyAfterCaptchaSuccess(httpMethod: string, post: map<string, string>, env: Environment)
    ensures SendCount(IndexSpec(httpMethod, post, env).calls)
         == if ReachesSends(httpMethod, post, env) then 2 else 0
  {
    var calls := IndexSpec(httpMethod, post, env).calls;
    if ReachesSends(httpMethod, post, env) {
      assert |calls| == 3 && !calls[0].SendEmail? && calls[1].SendEmail? && calls[2].SendEmail?;
      assert calls[1..][1..][1..] == [];
      assert SendCount(calls[1..][1..]) == 1;
    } else if calls != [] {
      assert |calls| == 1 && !calls[0].SendEmail?;
      assert calls[1..] == [];
    }
  }

  /**
   * No short-circuit: once the captcha says yes, the captcha call is followed by
   * the client send and then the team send, whatever SES answers to either.
   */
  lemma BothSendsAttempted(post: map<string, string>, env: Environment)
    requires ReachesSends("POST", post, env)
    ensures (var q := InquiryOf(post);
             IndexSpec("POST", post, env).calls
             == [VerifyCaptcha(CaptchaVerifyUrl, post[TokenKey]), SendEmail(ClientRequest(q, env.year)), SendEmail(TeamRequest(q, env.year))])
    ensures forall c: bool, t: bool ::
              (IndexSpec("POST", post, env.(clientSendAccepted := c, teamSendAccepted := t)).calls
               == IndexSpec("POST", post, env).calls)
  {
  }

  /**
   * The two emails: the confirmation goes to the submitter, the notification to
   * the fixed team address; neither carries a CC; the subject lines and bodies
   * are the templates'.
   */
  lemma SendEnvelopes(q: Inquiry, year: nat)
    ensures ClientRequest(q, year).destination == Destination([q.email], None)
    ensures TeamRequest(q, year).destination == Destination(["sales@bignetwork.in"], None)
    ensures ClientRequest(q, year).subject == "Your Inquiry to Big Support - " + q.subject
    ensures TeamRequest(q, year).subject == "New Big Support Website Inquiry: " + q.subject + " from " + q.name
    ensures ClientRequest(q, year).htmlBody == ClientBody(year)
    ensures TeamRequest(q, year).htmlBody == TeamBody(q, year)
    ensures ClientRequest(q, year).source == TeamRequest(q, year).source == Sender
  {
  }

  /** The confirmation email is the same for every submission of a given year. */
  lemma ConfirmationIgnoresForm(post1: map<string, string>, post2: map<string, string>, year: nat)
    ensures ClientRequest(InquiryOf(post1), year).htmlBody == ClientRequest(InquiryOf(post2), year).htmlBody
  {
  }

  /** The four rows of the outcome table of the send phase. */
  lemma SendPhaseTable(sentToClient: bool, sentToTeam: bool)
    ensures sentToClient && sentToTeam ==>
      SendPhaseMessages(sentToClient, sentToTeam) == [Message(Success, BothSent)]
    ensures !sentToClient && sentToTeam ==>
      SendPhaseMessages(sentToClient, sentToTeam) == [Message(Error, ClientSendFailed), Message(Warning, OnlyTeamSent)]
    ensures sentToClient && !sentToTeam ==>
      SendPhaseMessages(sentToClient, sentToTeam) == [Message(Error, TeamSendFailed), Message(Warning, OnlyClientSent)]
    ensures !sentToClient && !sentToTeam ==>
      SendPhaseMessages(sentToClient, sentToTeam) == [Message(Error, ClientSendFailed), Message(Error, TeamSendFailed)]
  {
  }

  /** The counts of the send phase's messages, by level. */
  lemma SendPhaseCounts(c: bool, t: bool)
    ensures var ms := SendPhaseMessages(c, t);
            && CountLevel(ms, Success) + CountLevel(ms, Warning) <= 1
            && (CountLevel(ms, Success) == 1 <==> c && t)
            && CountLevel(ms, Error) == (if c then 0 else 1) + (if t then 0 else 1)
  {
    var e1 := if c then [] else [Message(Error, ClientSendFailed)];
    var e2 := if t then [] else [Message(Error, TeamSendFailed)];
    var agg := Aggregate(c, t);
    var ms := SendPhaseMessages(c, t);
    assert ms == e1 + e2 + agg;
    forall level: Level
      ensures CountLevel(ms, level) == CountLevel(e1, level) + CountLevel(e2, level) + CountLevel(agg, level)
    {
      CountLevelAppend(e1 + e2, agg, level);
      CountLevelAppend(e1, e2, level);
    }
    forall level: Level
      ensures CountLevel(e1, level) == if !c && level == Error then 1 else 0
      ensures CountLevel(e2, level) == if !t && level == Error then 1 else 0
      ensures CountLevel(agg, level) == if agg != [] && agg[0].level == level then 1 else 0
    {
      CountLevelSingle(Message(Error, ClientSendFailed), level);
      CountLevelSingle(Message(Error, TeamSendFailed), level);
      if agg != [] {
        CountLevelSingle(agg[0], level);
        assert agg == [agg[0]];
      }
    }
  }

  /**
   * Over every request: at most one success-or-warning message; a success
   * exactly when both emails went out; one error per rejected send in the send
   * phase and exactly one error on every other POST path.
   */
  lemma StatusMessageCounts(httpMethod: string, post: map<string, string>, env: Environment)
    ensures var ms := IndexSpec(httpMethod, post, env).messages;
            && CountLevel(ms, Success) + CountLevel(ms, Warning) <= 1
            && (CountLevel(ms, Success) == 1 <==>
                  ReachesSends(httpMethod, post, env) && env.clientSendAccepted && env.teamSendAccepted)
            && CountLevel(ms, Error) ==
                 if ReachesSends(httpMethod, post, env) then
                   (if env.clientSendAccepted then 0 else 1) + (if env.teamSendAccepted then 0 else 1)
                 else if httpMethod == "POST" then 1
                 else 0
  {
    var ms := IndexSpec(httpMethod, post, env).messages;
    if ReachesSends(httpMethod, post, env) {
      SendPhaseCounts(env.clientSendAccepted, env.teamSendAccepted);
    } else if httpMethod == "POST" {
      assert |ms| == 1 && ms[0].level == Error;
      assert ms == [ms[0]];
      CountLevelSingle(ms[0], Success);
      CountLevelSingle(ms[0], Warning);
      CountLevelSingle(ms[0], Error);
    }
  }
}
