/**
  Where the back end's normalised e-mail meets the front end's scorer and
  classifier: the signals the scorer reads from a parsed message, and what
  the labels alone decide about the verdict.
 */
module Intake {
  import opened Text
  import opened Context
  import opened Classifier
  import opened Scorer
  import opened Gmail

  /** The fields of a parsed e-mail that `calculateEmailUrgency` reads. */
  function SignalsOf(e: ParsedEmail): (s: EmailSignals)
    ensures s.subject == e.subject && s.senderEmail == e.senderEmail
    ensures s.isImportant == e.isImportant && s.isUnread == e.isUnread
  {
    EmailSignals(e.subject, e.senderEmail, e.isImportant, e.isUnread)
  }

  /**
    A message labelled both IMPORTANT and UNREAD from an address that is not
    automated scores at least 80 and so is urgent in Deep Focus mode.
   */
  lemma ImportantUnreadMessageUrgent(msg: GmailMessage, id: nat)
    requires msg.labelIds.Some? && "IMPORTANT" in msg.labelIds.value && "UNREAD" in msg.labelIds.value
    ensures !IsAutomated(ParseGmailMessage(msg).senderEmail) ==>
              EmailUrgency(SignalsOf(ParseGmailMessage(msg))) >= DeepFocus.Threshold()
    ensures !IsAutomated(ParseGmailMessage(msg).senderEmail) ==>
              ClassifyAt(Notification(id, Email, "", "", EmailUrgency(SignalsOf(ParseGmailMessage(msg)))), DeepFocus.Threshold()) == Urgent
  {
  }

  /** A message without labels is scored as neither important nor unread. */
  lemma UnlabelledMessageScore(msg: GmailMessage)
    requires msg.labelIds.None?
    ensures EmailUrgency(SignalsOf(ParseGmailMessage(msg))) <= BaseScore + KeywordBonus
  {
  }
}
