# Big Support contact form — a Dafny model

The Big Support site has one piece of logic: the `index` view in
`bigsupport/views.py` and the `awssesmail` helper that it calls. A GET renders the
page. A POST then goes through these steps in order:

- the required fields (name, email, subject, message) are checked;
- the presence of the hCaptcha token is checked;
- the token is verified with hCaptcha, and the check fails closed;
- two emails are sent through Amazon SES, one confirming receipt to the submitter
  and one notifying the team at a fixed address;
- the two send results are folded into at most one success or warning message.

Every POST path ends in a redirect to `index#contact`.

The model has five modules:

- `Wrappers` (`wrappers.dfy`): `Option`, which stands for Python's `None` or a value.
- `Text` (`text.dfy`): the three string built-ins the view relies on. These are
  `sep.join(parts)`, `s.replace(chr(10), '<br>')` and `str(year)`. Each has a partner
  and a lemma that connects the two: a splitter (`Split`/`SplitJoin`), an undo of
  the replacement (`RestoreNewlines`/`RestoreReplaceNewlines`), and a decimal parser
  (`ParseDecimal`/`ParseNatToString`). The module also models f-string
  interpolation: `Fill` joins literal chunks and interpolated values, `Before` and
  `After` give the text on either side of a value, and lemmas locate every value.
- `Ses` (`ses.dfy`): the request that `awssesmail` builds for `send_email`. This covers
  the three-way CC override, the `Destination` dict, the subject, the HTML body, the
  charset and the fixed sender.
- `Templates` (`templates.dfy`): the team notification body, the client
  confirmation body, both subject lines and every status message text. Both bodies
  are f-strings, modelled by `Text.Fill` over their literal chunks and their values.
  The status messages are a `Notice` datatype; `NoticeText` gives each one's exact
  text, and the rejection's text is built from the provider's codes.
- `ContactView` (`contact_view.dfy`): the view itself.
  - `Request` is a class whose `messages` field is the request's message queue. A
    queued message holds its level and its `Notice`.
  - `Index` is an imperative method that appends messages step by step, in the
    source's order. It hands the send phase to `SendPhase`, which sets the two send
    flags as the source does and then queues the closing message.
  - `IndexSpec` is the same view written as a pure decision table. `Index` is proved
    to agree with it, and the flow properties are lemmas about `IndexSpec`.

Calls to the outside world become inputs, carried by an `Environment`:

- the hCaptcha verification is a transport failure or a reply `{success, error-codes}`;
- each SES send is accepted, or it raises `ClientError`;
- the current year is a number.

The view returns the outbound calls it makes, in order, as a log of `Call`s
(`VerifyCaptcha`, `SendEmail`). This is how the model can say that "no email is
sent" or that "the captcha is not asked".

POST data is a `map<string, string>`. A missing key and an empty value are both
falsy, as with `request.POST.get`. Whitespace-only values are truthy.

The CC override stays a string with the sentinel `"USE_DEFAULT_CC_UNLESS_NONE"`, as
in the source, so a caller who passes that literal gets the default CC.

The client confirmation writes `{{ name }}` and `{{ subject_form }}` inside an
f-string. These render as the literal text `{ name }` and `{ subject_form }`, so
that body is a function of the year alone. The model keeps this behaviour.

Two behaviours of the source are kept as they are:

- User values go into the team body unescaped (`NameMarkupNotEscaped`).
- When both sends fail, only the two per-send errors are queued and no combined
  message is added (`SendPhaseTable`).

## Model

| member | source | states |
|---|---|---|
| `Ses.ResolveCc` | bigsupport/views.py:32-37 | The sentinel resolves to the default CC address, which is non-empty. `None` resolves to no CC. Any other string resolves to itself, the empty string included. |
| `Ses.BuildDestination` | bigsupport/views.py:31-40 | `ToAddresses` is always exactly `[recipient]`. `CcAddresses` is present if and only if the override is the sentinel or a non-empty string. It then holds `[sales@bignetwork.in]` for the sentinel and `[override]` for any other string. |
| `Ses.AwsSesMail` | bigsupport/views.py:31-57 | The `send_email` request carries that destination, the given subject and HTML body, the UTF-8 charset and the fixed sender. |
| `Text.Join` | bigsupport/views.py:235 | `', '.join`: the empty list gives `""` and one part gives that part. Otherwise the length is the sum of the parts' lengths plus one separator between each pair of neighbours. |
| `Text.JoinContainsPart` | bigsupport/views.py:235 | Every part appears verbatim in the joined string, at its computed offset. |
| `Text.SplitJoin` | bigsupport/views.py:235 | Splitting on the separator recovers a non-empty list of parts when no part contains the separator's first character. |
| `Text.ReplaceNewlines` | bigsupport/views.py:134 | After `replace(chr(10), '<br>')` no newline is left, and a text without newlines is unchanged. |
| `Text.ReplaceNewlinesLength` | bigsupport/views.py:134 | Each newline adds three characters; nothing else changes the length. |
| `Text.ReplaceNewlinesAppend` | bigsupport/views.py:134 | The replacement works character by character: it distributes over concatenation. |
| `Text.RestoreReplaceNewlines` | bigsupport/views.py:134 | For a message without `<`, turning each `<br>` back into a newline gives back the original message. |
| `Text.ReplaceNewlinesNotInjective` | bigsupport/views.py:134 | Without that condition information is lost: a newline and a literal `<br>` render the same. |
| `Text.NatToString` | bigsupport/views.py:142 | `str(year)` is non-empty, all decimal digits, and has no leading zero. |
| `Text.ParseNatToString` | bigsupport/views.py:142 | Parsing the printed year gives back the year. |
| `Text.NatToStringInjective` | bigsupport/views.py:194 | Different years print differently. |
| `Text.Fill` | bigsupport/views.py:106-235 | An f-string with no interpolated values is its only literal chunk. |
| `Text.FillLength` | bigsupport/views.py:106-235 | An f-string is as long as all its literal chunks and all its values together. |
| `Text.FillSplit` | bigsupport/views.py:109-153 | In an f-string, every interpolated value sits verbatim between the text before it and the text after it. |
| `Text.FillReplaceHole` | bigsupport/views.py:109-153 | Changing one interpolated value changes only its own stretch of the text. |
| `Text.FillAgreeingHoles` | bigsupport/views.py:109-153 | Two lists of values that differ in at most one place give the same text around that place. |
| `Text.FillHasHole` | bigsupport/views.py:109-153 | Each interpolated value can be read back at its offset, which is the length of the text before it. |
| `Templates.PhoneRow` | bigsupport/views.py:106 | The "Contact Number" row is empty if and only if the phone is empty. |
| `Templates.PhoneRowHoldsPhone` | bigsupport/views.py:106 | A non-empty phone appears verbatim inside its row, right after the row's opening markup. |
| `Templates.TeamBody` | bigsupport/views.py:109-153 | `msg_to_team` is the team f-string over name, email, phone row, subject, replaced message and year. The submitter's name follows the opening markup verbatim. |
| `Templates.TeamBodyCarriesFields` | bigsupport/views.py:109-153 | Name, email, phone row, subject, message (newlines as `<br>`) and year each appear verbatim, unescaped, at their place in the team body. |
| `Templates.TeamBodyPhoneSplice` | bigsupport/views.py:106-132 | The phone changes the team body only through its row. The body is the phone-less body's text before and after the empty row, with the phone row spliced in between. |
| `Templates.NameMarkupNotEscaped` | bigsupport/views.py:130 | A name of `<script>` reaches the team body as raw markup. |
| `Templates.ClientBody` | bigsupport/views.py:156-203 | `msg_to_client` is the fixed opening, then the year in decimal, then the fixed footer. No form value reaches it. |
| `Templates.ClientBodyDeterminedByYear` | bigsupport/views.py:156-203 | Two confirmation bodies are equal if and only if their years are equal. |
| `Templates.ClientSubject` | bigsupport/views.py:213 | The confirmation subject is `"Your Inquiry to Big Support - "` followed by the form subject. The form subject can be read back from it. |
| `Templates.TeamSubject` | bigsupport/views.py:219 | The notification subject is its prefix, then the form subject, then `" from "`, then the name. Its length is the sum of its pieces. |
| `Templates.NoticeText` | bigsupport/views.py:82-235 | Each status message has its source text. Only the captcha rejection ends in `)`, the parenthesis that closes its list of codes. |
| `Templates.CaptchaRejectedMessage` | bigsupport/views.py:235 | The rejection text is the opening `"Captcha verification failed. Please try again. ("`, then the codes joined by `", "`, then `)`. |
| `Templates.RejectedMessageNamesEveryCode` | bigsupport/views.py:233-235 | Every error code appears verbatim in the rejection text, each at its place in the `", "`-joined list. |
| `Templates.RejectedMessageRecoversCodes` | bigsupport/views.py:233-235 | Comma-free codes can be read back from the rejection text, between the opening and the closing parenthesis. |
| `ContactView.Index` | bigsupport/views.py:66-238 | The step-by-step view returns the response and the outbound calls of `IndexSpec`. It appends `IndexSpec`'s messages, in order, to the request's queue. |
| `ContactView.IndexSpec` | bigsupport/views.py:66-238 | The view as a decision table. A POST always redirects to `index#contact` and always queues a message; anything else renders the page and queues nothing. The first outbound call, if any, verifies the posted token, and there are at most three calls. |
| `ContactView.InquiryOf` | bigsupport/views.py:70-74 | A missing phone reads as the empty string. Once validation has passed, name, email, subject and message are exactly the posted values. |
| `ContactView.RequiredFieldsFilled` | bigsupport/views.py:81 | Validation passes if and only if every one of name, email, subject and message is present and non-empty. The phone and the token play no part. |
| `ContactView.ClientRequest` | bigsupport/views.py:213 | The confirmation goes to the submitter alone with no CC, under the confirmation subject, with the year-only body and the fixed sender. |
| `ContactView.TeamRequest` | bigsupport/views.py:206-219 | The notification goes to `sales@bignetwork.in` alone with no CC, under the notification subject, with the team body and the fixed sender. |
| `ContactView.Aggregate` | bigsupport/views.py:224-229 | At most one closing message, and never an error. There is none when both sends failed, and it is a success exactly when both went out. |
| `ContactView.SendPhaseMessages` | bigsupport/views.py:209-229 | One error per failed send plus a closing message when at least one send went out. The client's error comes first. The last message is an error only when both sends failed. |
| `ContactView.SendPhase` | bigsupport/views.py:104-229 | The client send and then the team send are both attempted. The messages queued are `SendPhaseMessages` of the two verdicts: one error per rejected send, in send order, then the closing message. |
| `ContactView.Request.AddMessage` | bigsupport/views.py:82 | Queuing a message appends it at the end of the request's queue. |
| `ContactView.NonPostRendersPage` | bigsupport/views.py:238 | A non-POST request renders the page with no messages and no calls. |
| `ContactView.PostAlwaysRedirects` | bigsupport/views.py:83 | Every POST, on every path, ends in the redirect to `index#contact`. |
| `ContactView.MissingFieldRejected` | bigsupport/views.py:81-83 | A missing or empty required field gives exactly the one validation error and no call. This holds whatever the token and the environment, so this check comes before the token check. |
| `ContactView.ValidationErrorIffFieldMissing` | bigsupport/views.py:81-83 | On a POST, the validation error is queued if and only if a required field is missing or empty. |
| `ContactView.BlankFieldsPassValidation` | bigsupport/views.py:81-83 | Required fields that hold nothing but spaces, tabs, newlines or carriage returns pass validation. The view then queues no validation error. |
| `ContactView.MissingTokenRejected` | bigsupport/views.py:85-88 | With the fields filled, a missing or empty token gives exactly the one captcha error and no call. |
| `ContactView.CaptchaTransportFailureFailsClosed` | bigsupport/views.py:95-102 | A transport failure gives exactly the network-error message. The only call is the verification; no email is sent. |
| `ContactView.CaptchaRejectionFailsClosed` | bigsupport/views.py:232-236 | A `success` of false gives exactly one error, the rejection carrying the provider's codes, and no email. The error's text holds every code at its place in the joined list. |
| `ContactView.SendsOnlyAfterCaptchaSuccess` | bigsupport/views.py:104 | Fail closed: the number of emails handed to SES is 2 if the request passed validation, the token check and the captcha, and 0 otherwise. |
| `ContactView.BothSendsAttempted` | bigsupport/views.py:209-222 | No short-circuit: after a captcha success the calls are exactly the verification, the client send and then the team send, and they do not depend on what SES answers. |
| `ContactView.SendEnvelopes` | bigsupport/views.py:206-219 | Neither email carries a CC. The confirmation goes to the submitter with the year-only body. The notification goes to `sales@bignetwork.in` with the team body. Both subject lines are as written and both emails use the fixed sender. |
| `ContactView.ConfirmationIgnoresForm` | bigsupport/views.py:170-171 | For a given year, the confirmation body is the same for every submission. |
| `ContactView.SendPhaseTable` | bigsupport/views.py:209-229 | The four outcomes. Both sent: only the success message. Team only: the client-failure error, then one warning. Client only: the team-failure error, then one warning. Neither: the two errors in client-then-team order. |
| `ContactView.SendPhaseCounts` | bigsupport/views.py:209-229 | The send phase queues at most one success or warning, a success exactly when both sends went out, and one error per failed send. |
| `ContactView.StatusMessageCounts` | bigsupport/views.py:209-229 | On every request there is at most one success or warning message. A success appears if and only if both emails were accepted. The send phase queues one error per rejected send, and every other POST path queues exactly one error. |

## Left out

- The boto3 client (region, credentials) and the `send_email` call itself are foreign AWS code. Each send is modelled as accepted, or as rejected with `ClientError`. Any other exception from boto3 is not modelled; in the source it escapes the view.
- The hCaptcha `requests.post`, `raise_for_status` and JSON parsing are network I/O. They are modelled as a transport failure or as a reply with a boolean `success` and a list of string codes. A non-boolean `success` (Python truthiness) or non-string codes are not modelled. The secret key sent with the token is configuration and is not recorded in the `VerifyCaptcha` call.
- Django's `render`, `redirect`, `reverse` and message storage are not modelled. The URL configuration is not part of this model, so the redirect is `RedirectToIndex("contact")`. The message queue is a sequence field of the request.
- Repeated values of one form key are not modelled. The map holds one value per key, the one that `QueryDict.get` returns.
- `datetime.date.today()` is not modelled; the year is an input.
- The `print` logging is not modelled.
- The inline-CSS markup of both bodies is abbreviated to the text labels it carries. The holes are kept in the source's order, with the same conditional row and the same newline replacement.
- HTML escaping is not modelled and no combined "both failed" message is added: the source does neither.
- `Ses.AwsSesMail`: the source's default for `cc_address_override` (the sentinel) is not modelled, so every caller passes the override explicitly. Both calls in `index` pass an explicit value, so the view loses nothing.
