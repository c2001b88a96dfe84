/** The e-mail sender: address and subject resolution, the defaults used to
    fill the HTML template, and how send failures are reported. */
module Email {
  import opened Common
  import opened Text
  import opened Events

  /** The address used when none is configured. */
  const FallbackAddress := "naveenkumarpoff@gmail.com"

  /** resolveFrom and resolveReplyTo: the configured address trimmed, or the
      fallback when it is null or whitespace-only. The result is never empty
      and never carries surrounding whitespace. */
  function ResolveAddress(configured: Option<string>): (r: string)
    ensures r != [] && Trim(r) == r
    ensures configured.Some? && Trim(configured.value) != [] ==> r == Trim(configured.value)
    ensures configured.None? || Trim(configured.value) == [] ==> r == FallbackAddress
  {
    if configured.None? || Trim(configured.value) == [] then
      TrimKeeps(FallbackAddress);
      Trim(FallbackAddress)
    else
      TrimIdempotent(configured.value);
      Trim(configured.value)
  }

  const SubjectPrefix := "[Notification] "

  /** resolveSubject: a non-blank subject is used as given; otherwise a
      subject is built from the type (or "Update") and the event id. */
  function ResolveSubject(e: Event): (r: string)
    ensures e.subject.Some? && !IsBlank(e.subject.value) ==> r == e.subject.value
    ensures !(e.subject.Some? && !IsBlank(e.subject.value)) ==>
              r == SubjectPrefix + (if e.notificationType.Some? then e.notificationType.value else "Update")
                   + " | ID " + IntToString(e.id)
    ensures r != []
  {
    if e.subject.Some? && !IsBlank(e.subject.value) then
      assert e.subject.value != [];
      e.subject.value
    else
      var kind := if e.notificationType.Some? then e.notificationType.value else "Update";
      SubjectPrefix + kind + " | ID " + IntToString(e.id)
  }

  /** The values substituted into the HTML template; the message is escaped. */
  datatype TemplateFields = TemplateFields(notificationType: string, message: string, channel: string, eventId: string)

  /** The defaulting in buildHtmlEmail: "N/A" for a null type or id, "EMAIL"
      for a null channel, "" for a null message before escaping. `escape` is
      Spring's HTML escaping, left uninterpreted. */
  function HtmlFields(notificationType: Option<string>, message: Option<string>, channel: Option<string>,
                      id: Option<int>, escape: string -> string): TemplateFields
  {
    TemplateFields(
      if notificationType.Some? then notificationType.value else "N/A",
      escape(if message.Some? then message.value else ""),
      if channel.Some? then channel.value else "EMAIL",
      if id.Some? then IntToString(id.value) else "N/A")
  }

  /** The HTML message handed to the mail server. */
  datatype Mail = Mail(to: string, subject: string, from: string, replyTo: string, body: TemplateFields)

  /** The message sendHtmlEmail builds for an event. */
  function ComposeHtmlEmail(e: Event, fromAddress: Option<string>, replyTo: Option<string>,
                            escape: string -> string): (m: Mail)
    ensures m.to == e.recipient && m.subject == ResolveSubject(e)
    ensures m.from == ResolveAddress(fromAddress) && m.replyTo == ResolveAddress(replyTo)
    ensures m.from != [] && m.replyTo != []
    ensures m.body.notificationType == (if e.notificationType.Some? then e.notificationType.value else "N/A")
    ensures m.body.message == escape(e.message)
    ensures m.body.channel == e.channel && m.body.eventId == IntToString(e.id)
  {
    Mail(e.recipient, ResolveSubject(e), ResolveAddress(fromAddress), ResolveAddress(replyTo),
         HtmlFields(e.notificationType, Some(e.message), Some(e.channel), Some(e.id), escape))
  }

  /** sendHtmlEmail: any failure while building or sending is rethrown with a
      fixed message; the cause's own message is not carried. */
  function SendHtmlEmail(mailServer: Outcome): (r: Outcome)
    ensures r.Sent? <==> mailServer.Sent?
    ensures r.Failed? ==> r.reason == "Failed to send HTML email"
  {
    if mailServer.Sent? then Sent else Failed("Failed to send HTML email")
  }

  /** sendSimpleEmail: the same rule with its own message. This entry point
      of the sender is never called by deliver (`Delivery.Route` never picks
      it); it is modelled because the sender offers it. */
  function SendSimpleEmail(mailServer: Outcome): (r: Outcome)
    ensures r.Sent? <==> mailServer.Sent?
    ensures r.Failed? ==> r.reason == "Failed to send simple email"
  {
    if mailServer.Sent? then Sent else Failed("Failed to send simple email")
  }
}
