/**
 * The text the contact view produces: the two HTML email bodies, their
 * subject lines and the status messages queued for the user. The inline-CSS
 * markup of the bodies is abbreviated to the labels it carries; the holes sit
 * in the same order as in the view, and user values are inserted unescaped.
 */
module Templates {
  import opened Text

  /** The form values that feed the team notification. */
  datatype Inquiry = Inquiry(name: string, email: string, phone: string, subject: string, message: string)

  // ---------------------------------------------------------------------------
  // Team notification body

  const TeamOpen := "<html><body><p>Hi Team,</p><p>We received a new contact inquiry via the Big Support website.</p><table><tr><th colspan=\"2\">Inquiry Details:</th></tr><tr><td>Name:</td><td>"
  const TeamEmailCell := "</td></tr><tr><td>Email:</td><td>"
  const TeamEmailClose := "</td></tr>"
  const PhoneRowOpen := "<tr><td>Contact Number:</td><td>"
  const PhoneRowClose := "</td></tr>"
  const TeamSubjectCell := "<tr><td>Subject:</td><td>"
  const TeamMessageCell := "</td></tr><tr><td>Message:</td><td>"
  const FooterOpen := "</td></tr></table><p>\U{A9} "
  const FooterClose := " Big Support. All rights reserved</p></body></html>"

  /** The "Contact Number" row: present exactly when a phone number was given. */
  function PhoneRow(phone: string): (row: string)
    ensures row == "" <==> phone == ""
  {
    if phone != "" then Fill([PhoneRowOpen, PhoneRowClose], [phone]) else ""
  }

  /** A non-empty phone number appears verbatim in its row. */
  lemma PhoneRowHoldsPhone(phone: string)
    requires phone != ""
    ensures |PhoneRowOpen| + |phone| <= |PhoneRow(phone)|
    ensures PhoneRow(phone)[|PhoneRowOpen|..|PhoneRowOpen| + |phone|] == phone
  {
    FillHasHole([PhoneRowOpen, PhoneRowClose], [phone], 0);
  }

  /** The literal text of the team notification, around its six values. */
  const TeamChunks := [TeamOpen, TeamEmailCell, TeamEmailClose, TeamSubjectCell, TeamMessageCell, FooterOpen, FooterClose]

  /** Positions of the values in the team notification. */
  const NameHole := 0
  const EmailHole := 1
  const PhoneHole := 2
  const SubjectHole := 3
  const MessageHole := 4
  const YearHole := 5

  /** The values interpolated into the team notification, in order. */
  function TeamHoles(q: Inquiry, year: nat): (holes: seq<string>)
    ensures |holes| == |TeamChunks| - 1
  {
    [q.name, q.email, PhoneRow(q.phone), q.subject, ReplaceNewlines(q.message), NatToString(year)]
  }

  /**
   * `msg_to_team`: the notification sent to the fixed team address. The first
   * value, the submitter's name, follows the opening markup verbatim.
   */
  function TeamBody(q: Inquiry, year: nat): (body: string)
    ensures var k := |Before(TeamChunks, TeamHoles(q, year), NameHole)|;
            k + |q.name| <= |body| && body[k..k + |q.name|] == q.name
  {
    var holes := TeamHoles(q, year);
    FillHasHole(TeamChunks, holes, NameHole);
    Fill(TeamChunks, holes)
  }

  /**
   * Name, email and subject appear verbatim (no HTML escaping), the message
   * with its newlines turned into `<br>`, the year in decimal, and the phone
   * row, each at its place in the template.
   */
  lemma TeamBodyCarriesFields(q: Inquiry, year: nat, i: nat)
    requires i < 6
    ensures var holes := TeamHoles(q, year);
            var k := |Before(TeamChunks, holes, i)|;
            k + |holes[i]| <= |TeamBody(q, year)| && TeamBody(q, year)[k..k + |holes[i]|] == holes[i]
    ensures TeamHoles(q, year)[NameHole] == q.name
    ensures TeamHoles(q, year)[EmailHole] == q.email
    ensures TeamHoles(q, year)[PhoneHole] == PhoneRow(q.phone)
    ensures TeamHoles(q, year)[SubjectHole] == q.subject
    ensures TeamHoles(q, year)[MessageHole] == ReplaceNewlines(q.message)
    ensures TeamHoles(q, year)[YearHole] == NatToString(year)
  {
    FillHasHole(TeamChunks, TeamHoles(q, year), i);
  }

  /**
   * The phone number affects the team body only through the phone row: the
   * body is the phone-less body's text before and after the (empty) row, with
   * the row in between.
   */
  lemma TeamBodyPhoneSplice(q: Inquiry, year: nat)
    ensures var plain := TeamHoles(q.(phone := ""), year);
            && TeamBody(q.(phone := ""), year)
               == Before(TeamChunks, plain, PhoneHole) + After(TeamChunks, plain, PhoneHole)
            && TeamBody(q, year)
               == Before(TeamChunks, plain, PhoneHole) + PhoneRow(q.phone) + After(TeamChunks, plain, PhoneHole)
  {
    var plain, holes := TeamHoles(q.(phone := ""), year), TeamHoles(q, year);
    assert TeamBody(q.(phone := ""), year) == Fill(TeamChunks, plain);
    assert TeamBody(q, year) == Fill(TeamChunks, holes);
    assert plain[PhoneHole] == "" && holes[PhoneHole] == PhoneRow(q.phone);
    FillAgreeingHoles(TeamChunks, plain, holes, PhoneHole);
  }

  /** A `<script>` tag typed as the name reaches the team body as live markup. */
  lemma NameMarkupNotEscaped(q: Inquiry, year: nat)
    requires q.name == "<script>"
    ensures TeamBody(q, year)[|TeamOpen|..|TeamOpen| + 8] == "<script>"
  {
    FillHasHole(TeamChunks, TeamHoles(q, year), NameHole);
  }

  // ---------------------------------------------------------------------------
  // Client confirmation body

  /**
   * The greeting and the subject reference are written with doubled braces in
   * an f-string, so they render as the literal text `{ name }` and
   * `{ subject_form }`: nothing from the form reaches this body.
   */
  const ClientOpen := "<html><body><p>Hi { name },</p><p>Thank you for contacting Big Support! We have received your inquiry regarding: \"{ subject_form }\".</p><p>Our team will review your message and get back to you shortly.</p><p>Best regards,<br/><br/>The Big Support Team</p><p>\U{A9} "

  /**
   * `msg_to_client`: a function of the year alone. It is the fixed opening, the
   * year in decimal and the fixed footer, in that order.
   */
  function ClientBody(year: nat): (body: string)
    ensures |body| == |ClientOpen| + |NatToString(year)| + |FooterClose|
    ensures body[..|ClientOpen|] == ClientOpen
    ensures body[|ClientOpen|..|ClientOpen| + |NatToString(year)|] == NatToString(year)
    ensures body[|ClientOpen| + |NatToString(year)|..] == FooterClose
  {
    var y := NatToString(year);
    FillSplit([ClientOpen, FooterClose], [y], 0);
    SliceWithin(ClientOpen, y, FooterClose, 0, |y|);
    Fill([ClientOpen, FooterClose], [y])
  }

  /** Two confirmation bodies are equal exactly when their years are. */
  lemma ClientBodyDeterminedByYear(y1: nat, y2: nat)
    ensures ClientBody(y1) == ClientBody(y2) <==> y1 == y2
  {
    if ClientBody(y1) == ClientBody(y2) {
      var chunks := [ClientOpen, FooterClose];
      var s1, s2 := NatToString(y1), NatToString(y2);
      FillSplit(chunks, [s1], 0);
      FillSplit(chunks, [s2], 0);
      assert |s1| == |s2|;
      FillHasHole(chunks, [s1], 0);
      FillHasHole(chunks, [s2], 0);
      NatToStringInjective(y1, y2);
    }
  }

  // ---------------------------------------------------------------------------
  // Subject lines

  const ClientSubjectPrefix := "Your Inquiry to Big Support - "
  const TeamSubjectPrefix := "New Big Support Website Inquiry: "
  const TeamSubjectFrom := " from "

  /** The confirmation's subject: the fixed prefix, then the form's subject. */
  function ClientSubject(subject: string): (line: string)
    ensures |line| == |ClientSubjectPrefix| + |subject|
    ensures line[..|ClientSubjectPrefix|] == ClientSubjectPrefix
    ensures line[|ClientSubjectPrefix|..] == subject
  {
    ClientSubjectPrefix + subject
  }

  /** The notification's subject: prefix, the form's subject, " from ", the name. */
  function TeamSubject(subject: string, name: string): (line: string)
    ensures |line| == |TeamSubjectPrefix| + |subject| + |TeamSubjectFrom| + |name|
    ensures line[..|TeamSubjectPrefix|] == TeamSubjectPrefix
    ensures line[|TeamSubjectPrefix|..|TeamSubjectPrefix| + |subject|] == subject
    ensures line[|TeamSubjectPrefix| + |subject|..|line| - |name|] == TeamSubjectFrom
    ensures line[|line| - |name|..] == name
  {
    TeamSubjectPrefix + subject + TeamSubjectFrom + name
  }

  // ---------------------------------------------------------------------------
  // Status messages

  /** The status messages the view can queue. */
  datatype Notice =
    | FillRequiredFields
    | CompleteCaptcha
    | CaptchaNetworkError
    | CaptchaRejected(codes: seq<string>)
    | ClientSendFailed
    | TeamSendFailed
    | BothSent
    | OnlyTeamSent
    | OnlyClientSent

  // The fixed status texts.
  const FillRequiredFieldsText := "Please fill out all required fields (Name, Email, Subject, Message)."
  const CompleteCaptchaText := "Please complete the captcha."
  const CaptchaNetworkErrorText := "Captcha verification failed due to a network error."
  const ClientSendFailedText := "Failed to send you a confirmation email. Our team will still review your inquiry."
  const TeamSendFailedText := "A critical error occurred while notifying our team. Please try contacting us through other means if this issue persists."
  const BothSentText := "Your message has been sent, and a confirmation has been emailed to you. Thank you!"
  const OnlyTeamSentText := "Your message has been sent to our team. However, we couldn't send you a confirmation email."
  const OnlyClientSentText := "Your confirmation email has been sent, but there was an issue fully processing your request for our team. We will investigate."

  /**
   * The text shown for each status message. Only the rejection ends in a
   * parenthesis, the one closing its list of error codes.
   */
  function NoticeText(n: Notice): (text: string)
    ensures text != [] && (text[|text| - 1] == ')' <==> n.CaptchaRejected?)
  {
    match n
    case FillRequiredFields => FillRequiredFieldsText
    case CompleteCaptcha => CompleteCaptchaText
    case CaptchaNetworkError => CaptchaNetworkErrorText
    case CaptchaRejected(codes) => CaptchaRejectedMessage(codes)
    case ClientSendFailed => ClientSendFailedText
    case TeamSendFailed => TeamSendFailedText
    case BothSent => BothSentText
    case OnlyTeamSent => OnlyTeamSentText
    case OnlyClientSent => OnlyClientSentText
  }

  const CaptchaRejectedOpen := "Captcha verification failed. Please try again. ("
  const CodeSeparator := ", "

  /** The rejection message: the provider's error codes, joined by ", ", in parentheses. */
  function CaptchaRejectedMessage(codes: seq<string>): (text: string)
    ensures |text| == |CaptchaRejectedOpen| + |Join(codes, CodeSeparator)| + 1
    ensures text[..|CaptchaRejectedOpen|] == CaptchaRejectedOpen
    ensures text[|CaptchaRejectedOpen|..|text| - 1] == Join(codes, CodeSeparator)
    ensures text[|text| - 1] == ')'
  {
    var joined := Join(codes, CodeSeparator);
    FillSplit([CaptchaRejectedOpen, ")"], [joined], 0);
    SliceWithin(CaptchaRejectedOpen, joined, ")", 0, |joined|);
    Fill([CaptchaRejectedOpen, ")"], [joined])
  }

  /** The codes as they appear between the parentheses. */
  function CodesInMessage(text: string): string
    requires |text| > |CaptchaRejectedOpen|
  {
    text[|CaptchaRejectedOpen|..|text| - 1]
  }

  /** Every error code appears in the message verbatim, at its place in the joined list. */
  lemma RejectedMessageNamesEveryCode(codes: seq<string>)
    ensures var text := CaptchaRejectedMessage(codes);
            forall i | 0 <= i < |codes| ::
              var k := |CaptchaRejectedOpen| + JoinOffset(codes, CodeSeparator, i);
              k + |codes[i]| <= |text| && text[k..k + |codes[i]|] == codes[i]
  {
    var text := CaptchaRejectedMessage(codes);
    var joined := Join(codes, CodeSeparator);
    FillSplit([CaptchaRejectedOpen, ")"], [joined], 0);
    assert text == CaptchaRejectedOpen + joined + ")";
    forall i | 0 <= i < |codes|
      ensures var k := |CaptchaRejectedOpen| + JoinOffset(codes, CodeSeparator, i);
              k + |codes[i]| <= |text| && text[k..k + |codes[i]|] == codes[i]
    {
      var k := JoinOffset(codes, CodeSeparator, i);
      JoinContainsPart(codes, CodeSeparator, i);
      SliceWithin(CaptchaRejectedOpen, joined, ")", k, k + |codes[i]|);
    }
  }

  /** Non-empty comma-free codes can be read back from the message. */
  lemma RejectedMessageRecoversCodes(codes: seq<string>)
    requires codes != [] && FreeOfSeparator(codes, CodeSeparator)
    ensures var text := CaptchaRejectedMessage(codes);
            |text| > |CaptchaRejectedOpen| &&
            Split(CodesInMessage(text), CodeSeparator) == codes
  {
    var joined := Join(codes, CodeSeparator);
    FillSplit([CaptchaRejectedOpen, ")"], [joined], 0);
    SliceWithin(CaptchaRejectedOpen, joined, ")", 0, |joined|);
    SplitJoin(codes, CodeSeparator);
  }
}
