/** Channel routing: the delivery service picks a sender from the upper-cased
    channel and stamps the outcome on the event. */
module Delivery {
  import opened Common
  import opened Text
  import opened Events
  import Sms
  import Email

  /** The senders the services can reach. */
  datatype Sender = HtmlEmail | SimpleEmail | SmsGateway | PushGateway

  /** The switch in deliver. Only the upper-cased channel matters; anything
      other than EMAIL, SMS or PUSH has no sender, and the simple e-mail path
      is never chosen. */
  function Route(channel: string): (s: Option<Sender>)
    ensures s == Some(HtmlEmail) <==> ToUpper(channel) == "EMAIL"
    ensures s == Some(SmsGateway) <==> ToUpper(channel) == "SMS"
    ensures s == Some(PushGateway) <==> ToUpper(channel) == "PUSH"
    ensures s != Some(SimpleEmail)
  {
    var c := ToUpper(channel);
    if c == "EMAIL" then Some(HtmlEmail)
    else if c == "SMS" then Some(SmsGateway)
    else if c == "PUSH" then Some(PushGateway)
    else None
  }

  /** The event after the attempt, the sender invoked (if any), and what the
      attempt threw (if anything). */
  datatype Delivery = Delivery(event: Event, sender: Option<Sender>, outcome: Outcome)

  /** deliver with deliverEmail, deliverSms and deliverPush. `attempt` is what
      the chosen transport does on this attempt (mail server, SMS gateway or
      push gateway). A sender that returns stamps DELIVERED; one that throws
      stamps FAILED (a push failure also records "PUSH: " and the message)
      and the exception is rethrown. An unsupported channel invokes no sender
      and leaves the event as it was. */
  function Deliver(e: Event, attempt: Outcome): (d: Delivery)
    ensures d.sender == Route(e.channel)
    ensures d.sender.None? ==> d.event == e && d.outcome == Failed("Unsupported channel: " + e.channel)
    ensures d.sender.Some? ==> d.event.status == (if d.outcome.Sent? then DELIVERED else FAILED)
    ensures d.sender == Some(PushGateway) && d.outcome.Failed? ==>
              d.event.failureReason == Some("PUSH: " + d.outcome.reason)
    ensures !(d.sender == Some(PushGateway) && d.outcome.Failed?) ==> d.event.failureReason == e.failureReason
    ensures d.event == e.(status := d.event.status, failureReason := d.event.failureReason)
  {
    match Route(e.channel)
    case None => Delivery(e, None, Failed("Unsupported channel: " + e.channel))
    case Some(sender) =>
      var outcome := match sender
                     case HtmlEmail => Email.SendHtmlEmail(attempt)
                     case SmsGateway => Sms.SendSms(e.recipient, attempt)
                     case PushGateway => attempt
                     case SimpleEmail => Email.SendSimpleEmail(attempt);  // never routed to
      var stamped := match outcome
                     case Sent => e.(status := DELIVERED)
                     case Failed(m) =>
                       if sender == PushGateway then e.(status := FAILED, failureReason := Some("PUSH: " + m))
                       else e.(status := FAILED);
      Delivery(stamped, Some(sender), outcome)
  }

  /** A delivery succeeds exactly when the channel is routable, the transport
      accepts the attempt and, for SMS, the normalised number is valid. */
  lemma DeliverSucceeds(e: Event, attempt: Outcome)
    ensures Deliver(e, attempt).outcome.Sent? <==>
              && Route(e.channel).Some?
              && attempt.Sent?
              && (Route(e.channel) == Some(SmsGateway) ==> Sms.IsValidPhoneNumber(Some(Sms.Normalize(e.recipient))))
  {
  }

  /** deliverPush as written: it builds its own FirebasePushSender with `new`,
      so the sender's injected configuration is null and sendPush throws a
      NullPointerException (message `npe`) before the gateway is reached. */
  function DeliverPushAsWritten(e: Event, attempt: Outcome, npe: string): (d: Delivery)
    ensures d.outcome == Failed(npe)
    ensures d.event == e.(status := FAILED, failureReason := Some("PUSH: " + npe))
  {
    Delivery(e.(status := FAILED, failureReason := Some("PUSH: " + npe)), Some(PushGateway), Failed(npe))
  }

  /** As written, no PUSH event is ever delivered, whatever the gateway would
      have done; with the injected sender the gateway's success is delivered. */
  lemma PushAsWrittenNeverDelivers(e: Event, npe: string)
    requires ToUpper(e.channel) == "PUSH"
    ensures Deliver(e, Sent).outcome == Sent && Deliver(e, Sent).event.status == DELIVERED
    ensures DeliverPushAsWritten(e, Sent, npe).outcome.Failed?
    ensures DeliverPushAsWritten(e, Sent, npe).event.status == FAILED
  {
  }
}
