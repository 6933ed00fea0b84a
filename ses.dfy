/**
 * The envelope that `awssesmail` hands to the SES `send_email` call: the
 * destination (To and, when resolved, CC), the subject, the HTML body and the
 * fixed sender. The call itself is outside the model; whether SES accepts a
 * request is an input of the contact view.
 */
module Ses {
  import opened Wrappers

  const Sender := "BIGFIX <donotreply@bignetwork.in>"
  const DefaultCcAddress := "sales@bignetwork.in"
  const Charset := "UTF-8"
  /** The default value of the override parameter: "use the default CC". */
  const UseDefaultCcSentinel := "USE_DEFAULT_CC_UNLESS_NONE"

  /** The `Destination` dict: `CcAddresses` is either absent (`None`) or a list. */
  datatype Destination = Destination(toAddresses: seq<string>, ccAddresses: Option<seq<string>>)

  /** The keyword arguments of one `send_email` call. */
  datatype SendEmailRequest = SendEmailRequest(
    destination: Destination,
    subject: string,
    htmlBody: string,
    charset: string,
    source: string)

  /**
   * The CC address chosen for an override: `None` for no CC, the sentinel for
   * the default CC address (kept only when that address is non-empty), any
   * other string as given (possibly empty).
   */
  function ResolveCc(ccOverride: Option<string>): (cc: Option<string>)
    ensures ccOverride == Some(UseDefaultCcSentinel) ==> cc == Some(DefaultCcAddress) && DefaultCcAddress != ""
    ensures ccOverride == None ==> cc == None
    ensures ccOverride.Some? && ccOverride.value != UseDefaultCcSentinel ==> cc == ccOverride
  {
    if ccOverride == Some(UseDefaultCcSentinel) then
      if DefaultCcAddress != "" then Some(DefaultCcAddress) else None
    else if ccOverride.Some? then ccOverride
    else None
  }

  /** The destination dict: `CcAddresses` is added only for a non-empty resolved CC. */
  function BuildDestination(recipient: string, ccOverride: Option<string>): (d: Destination)
    ensures d.toAddresses == [recipient]
    ensures d.ccAddresses.Some? <==>
      ccOverride == Some(UseDefaultCcSentinel) || (ccOverride.Some? && ccOverride.value != "")
    ensures ccOverride == Some(UseDefaultCcSentinel) ==> d.ccAddresses == Some([DefaultCcAddress])
    ensures ccOverride.Some? && ccOverride.value !in {"", UseDefaultCcSentinel} ==>
      d.ccAddresses == Some([ccOverride.value])
  {
    var cc := ResolveCc(ccOverride);
    if cc.Some? && cc.value != "" then Destination([recipient], Some([cc.value]))
    else Destination([recipient], None)
  }

  /** What `awssesmail(recipient, subject, msg, cc_address_override)` asks SES to send. */
  function AwsSesMail(recipient: string, subject: string, msg: string, ccOverride: Option<string>): (req: SendEmailRequest)
    ensures req.destination == BuildDestination(recipient, ccOverride)
    ensures req.subject == subject && req.htmlBody == msg
    ensures req.charset == Charset && req.source == Sender
  {
    SendEmailRequest(BuildDestination(recipient, ccOverride), subject, msg, Charset, Sender)
  }
}
