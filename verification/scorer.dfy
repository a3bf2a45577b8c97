/**
  The additive urgency heuristic for e-mail, in two versions: the full scorer
  of the e-mail integration and the shorter inline copy used by the demo-mode
  generator. Scores are integer hundredths: base 30, +30 important, +20
  unread, +30 keyword, -30 automated sender, capped at 100.
 */
module Scorer {
  import opened Text
  import opened Context
  import opened Classifier

  /** The attributes of an e-mail that the scorers read. */
  datatype EmailSignals = EmailSignals(subject: string, senderEmail: string, isImportant: bool, isUnread: bool)

  const BaseScore: int := 30
  const ImportantBonus: int := 30
  const UnreadBonus: int := 20
  const KeywordBonus: int := 30
  const AutomatedPenalty: int := 30
  const MaxScore: int := 100

  const EmailKeywords: seq<string> := ["urgent", "asap", "important", "critical", "emergency", "re:", "fwd:"]

  /** The demo copy checks only the first four keywords. */
  const DemoKeywords: seq<string> := ["urgent", "asap", "important", "critical"]

  /** Some keyword occurs in the lower-cased subject (`keywords.some(k => lower.includes(k))`). */
  function MentionsAny(subject: string, keywords: seq<string>): (b: bool)
    ensures b <==> exists k :: k in keywords && Contains(Lower(subject), k)
  {
    if keywords == [] then false
    else Contains(Lower(subject), keywords[0]) || MentionsAny(subject, keywords[1..])
  }

  /** Keyword matching ignores the case of the subject. */
  lemma MentionsAnyIgnoresCase(s: string, t: string, keywords: seq<string>)
    requires SameUpToCase(s, t)
    ensures MentionsAny(s, keywords) == MentionsAny(t, keywords)
  {
    SameUpToCaseLower(s, t);
  }

  /** The full scorer's automated-sender test: a case-sensitive substring check. */
  predicate IsAutomated(senderEmail: string) {
    Contains(senderEmail, "noreply") || Contains(senderEmail, "no-reply")
  }

  /** The demo scorer's automated-sender test, which knows only `noreply`. */
  predicate IsAutomatedDemo(senderEmail: string) {
    Contains(senderEmail, "noreply")
  }

  /** The score before the cap, from the four signals. */
  function RawScore(important: bool, unread: bool, keyword: bool, automated: bool): int {
    BaseScore
    + (if important then ImportantBonus else 0)
    + (if unread then UnreadBonus else 0)
    + (if keyword then KeywordBonus else 0)
    - (if automated then AutomatedPenalty else 0)
  }

  function Cap(x: int): int {
    if x < MaxScore then x else MaxScore
  }

  /** The e-mail integration's scorer. */
  function EmailUrgency(e: EmailSignals): (r: int)
    ensures 0 <= r <= MaxScore
    ensures r == Cap(RawScore(e.isImportant, e.isUnread, MentionsAny(e.subject, EmailKeywords), IsAutomated(e.senderEmail)))
  {
    var score := BaseScore;
    var score := if e.isImportant then score + ImportantBonus else score;
    var score := if e.isUnread then score + UnreadBonus else score;
    var score := if MentionsAny(e.subject, EmailKeywords) then score + KeywordBonus else score;
    var score := if IsAutomated(e.senderEmail) then score - AutomatedPenalty else score;
    if score < MaxScore then score else MaxScore
  }

  /** The demo generator's inline scorer. */
  function DemoUrgency(e: EmailSignals): (r: int)
    ensures 0 <= r <= MaxScore
    ensures r == Cap(RawScore(e.isImportant, e.isUnread, MentionsAny(e.subject, DemoKeywords), IsAutomatedDemo(e.senderEmail)))
  {
    var score := BaseScore;
    var score := if e.isImportant then score + ImportantBonus else score;
    var score := if e.isUnread then score + UnreadBonus else score;
    var score := if MentionsAny(e.subject, DemoKeywords) then score + KeywordBonus else score;
    var score := if IsAutomatedDemo(e.senderEmail) then score - AutomatedPenalty else score;
    if score < MaxScore then score else MaxScore
  }

  /** The notification the demo generator builds from an e-mail. */
  function DemoNotification(id: nat, sender: string, e: EmailSignals): (n: Notification)
    ensures n.id == id && n.kind == Email && n.sender == sender && n.content == e.subject
    ensures n.urgency == DemoUrgency(e) && 0 <= n.urgency <= MaxScore
  {
    Notification(id, Email, sender, e.subject, DemoUrgency(e))
  }

  /** The demo notification is an e-mail, so only the mode's threshold decides its verdict. */
  lemma DemoNotificationVerdict(id: nat, sender: string, e: EmailSignals, mode: ContextMode)
    ensures Classify(DemoNotification(id, sender, e), mode) == Urgent <==> DemoUrgency(e) >= mode.Threshold()
  {
  }

  // ---------------------------------------------------------------------
  // Properties
  // ---------------------------------------------------------------------

  /** A positive signal never lowers the score; the automated-sender test never raises it. */
  lemma EmailUrgencyMonotone(e: EmailSignals, e': EmailSignals)
    requires e.isImportant ==> e'.isImportant
    requires e.isUnread ==> e'.isUnread
    requires MentionsAny(e.subject, EmailKeywords) ==> MentionsAny(e'.subject, EmailKeywords)
    requires IsAutomated(e'.senderEmail) ==> IsAutomated(e.senderEmail)
    ensures EmailUrgency(e) <= EmailUrgency(e')
  {
  }

  /** Every demo keyword is one of the full scorer's keywords. */
  lemma {:induction false} DemoKeywordIsEmailKeyword(subject: string)
    ensures MentionsAny(subject, DemoKeywords) ==> MentionsAny(subject, EmailKeywords)
  {
    if MentionsAny(subject, DemoKeywords) {
      var k :| k in DemoKeywords && Contains(Lower(subject), k);
      assert k in EmailKeywords;
    }
  }

  /** A keyword hit for the full scorer that is none of the three extras is a demo hit. */
  lemma {:induction false} EmailKeywordOutsideExtrasIsDemoKeyword(subject: string)
    requires !Contains(Lower(subject), "emergency")
    requires !Contains(Lower(subject), "re:")
    requires !Contains(Lower(subject), "fwd:")
    ensures MentionsAny(subject, EmailKeywords) ==> MentionsAny(subject, DemoKeywords)
  {
    if MentionsAny(subject, EmailKeywords) {
      var k :| k in EmailKeywords && Contains(Lower(subject), k);
      assert k in DemoKeywords;
    }
  }

  /** The two scorers agree unless the subject has an extra keyword or the sender says `no-reply`. */
  lemma ScorersAgree(e: EmailSignals)
    requires !Contains(Lower(e.subject), "emergency")
    requires !Contains(Lower(e.subject), "re:")
    requires !Contains(Lower(e.subject), "fwd:")
    requires !Contains(e.senderEmail, "no-reply")
    ensures DemoUrgency(e) == EmailUrgency(e)
  {
    DemoKeywordIsEmailKeyword(e.subject);
    EmailKeywordOutsideExtrasIsDemoKeyword(e.subject);
  }

  /** Without a `no-reply` sender, the demo copy never scores above the full scorer. */
  lemma DemoNeverAboveEmail(e: EmailSignals)
    requires !Contains(e.senderEmail, "no-reply")
    ensures DemoUrgency(e) <= EmailUrgency(e)
  {
    DemoKeywordIsEmailKeyword(e.subject);
  }

  /**
    A reply subject separates the two scorers: the full scorer counts `re:`
    as a keyword, the demo copy does not, so the demo score misses the
    keyword bonus unless the full score was already capped.
   */
  lemma ReplySubjectScoresLowerInDemo(e: EmailSignals)
    requires Contains(Lower(e.subject), "re:")
    requires !MentionsAny(e.subject, DemoKeywords) && !IsAutomated(e.senderEmail)
    ensures EmailUrgency(e) == Cap(RawScore(e.isImportant, e.isUnread, true, false))
    ensures DemoUrgency(e) == Cap(RawScore(e.isImportant, e.isUnread, false, false))
    ensures DemoUrgency(e) == EmailUrgency(e) - KeywordBonus || EmailUrgency(e) == MaxScore
  {
    assert "re:" in EmailKeywords;
  }

  /** An automated sender never reaches the In Meeting threshold. */
  lemma AutomatedSenderNeverUrgentInMeeting(id: nat, sender: string, e: EmailSignals)
    requires IsAutomated(e.senderEmail)
    ensures ClassifyAt(Notification(id, Email, sender, e.subject, EmailUrgency(e)), InMeeting.Threshold()) == Deferred
  {
  }

  /** An important, unread mail from a person always passes the Deep Focus threshold. */
  lemma ImportantUnreadUrgentInDeepFocus(id: nat, sender: string, e: EmailSignals)
    requires e.isImportant && e.isUnread && !IsAutomated(e.senderEmail)
    ensures ClassifyAt(Notification(id, Email, sender, e.subject, EmailUrgency(e)), DeepFocus.Threshold()) == Urgent
  {
  }

  /** Mail that is neither important nor keyword-bearing never passes the Deep Focus threshold. */
  lemma PlainMailDeferredInDeepFocus(id: nat, sender: string, e: EmailSignals)
    requires !e.isImportant && !MentionsAny(e.subject, EmailKeywords)
    ensures ClassifyAt(Notification(id, Email, sender, e.subject, EmailUrgency(e)), DeepFocus.Threshold()) == Deferred
  {
  }
}
