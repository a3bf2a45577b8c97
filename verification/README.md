# Clarity triage engine in Dafny

This project models the decision core of Clarity, a notification manager. Clarity sorts incoming notifications into an **urgent** lane, shown at once, and a **deferred** lane, kept for a later digest. The model covers five parts:

- **Context resolver.** A fixed catalog of three context modes: Deep Focus (threshold 0.8), In Meeting (0.9) and Available (0.5). A time-of-day rule maps a clock hour to a mode.
- **Classifier.** Urgent when the urgency reaches the mode's threshold; otherwise urgent when a calendar item's urgency is above 0.7; otherwise deferred.
- **Urgency scorer.** The additive heuristic for e-mail, in both copies the front end contains:
  - the full scorer of the e-mail integration;
  - the shorter inline copy used by the demo-mode generator.
- **Queue pipeline.** The notification manager's incoming, urgent and deferred FIFO queues and its `blocked` counter. Each timer callback is a separate event: the batch's staggered admission, the 1500 ms classification callback and the 250 ms routing callback. A step fires any pending event, so every interleaving of timers is covered. `Pipeline.Step` runs the callbacks as written. `Pipeline.StepCorrected` re-checks, when the routing callback runs, that the notification is still incoming (see Findings).
- **Gmail normaliser.** The back end's conversion of a Gmail API message into a flat e-mail record:
  - case-insensitive header lookup;
  - splitting `From` with the regular expression `(.*?)\s*<(.+?)>`, modelled exactly: leftmost match, lazy groups, `.` refusing line terminators;
  - flags derived from the label list.

Urgencies and thresholds are integer **hundredths** of the source's `[0, 1]` floats. So 0.95 is 95 and the Deep Focus threshold is 80. A notification's JavaScript object identity is an `id` field. The same sample object admitted again in a later batch keeps its id.

The classifier takes the mode as a parameter. In the source, the manager's detector holds Deep Focus from its constructor on (`Context.InitialMode`). The result of `detectContext` is never stored, so the hour rule is modelled on its own as `Context.DetectContext`.

Modules, one per component: `Wrappers` (optional fields), `Text` (the JavaScript string built-ins used), `Context`, `Classifier`, `Scorer`, `Pipeline`, `Gmail`, and `Intake` (where the parsed e-mail meets the scorer).

## Model

| member | source | states |
|---|---|---|
| Context.ContextMode.Threshold | app.js:29-45 | Every threshold of the catalog lies in [0, 100]. The verdicts each threshold produces are stated by `Classifier.ManagerVerdict` and `Classifier.CatalogVerdicts`. |
| Context.DetectContext | app.js:100-117 | Hours 9–12 give Deep Focus, 14–16 In Meeting, every other hour Available. Each clock hour lands in the mode whose written-out schedule holds it. The threshold is always one of 50, 80, 90. |
| Context.ScheduleCoversDay | app.js:108-116 | The three schedules split the day: an hour is in a mode's schedule exactly when the rule picks that mode. |
| Classifier.ClassifyAt | app.js:147-165 | An urgency at or above the threshold is urgent (equality included). A calendar item above 70 is urgent whatever the threshold. A non-calendar item is urgent exactly when it reaches the threshold. An urgent verdict always has one of those two reasons. |
| Classifier.Classify | app.js:147-165 | Under a mode, the verdict is urgent exactly when the urgency reaches the mode's threshold or the item is a calendar event above 70. |
| Classifier.ManagerVerdict | app.js:97 | The manager classifies under Deep Focus, the mode its detector holds from construction on. A calendar event is urgent exactly above 70; anything else exactly from 80 up. |
| Classifier.CatalogVerdicts | app.js:29-45 | In Meeting (0.9): a non-calendar item is urgent exactly from 90 up, and a calendar event exactly above 70. Available (0.5): anything is urgent exactly from 50 up. |
| Classifier.LowerThresholdKeepsUrgent | app.js:152-157 | Lowering the threshold never turns urgent into deferred. |
| Classifier.HigherUrgencyKeepsUrgent | app.js:155-162 | Raising the urgency never turns urgent into deferred. |
| Classifier.CalendarRuleIdleAtLowThresholds | app.js:160-162 | At thresholds up to 71 the calendar rule changes no verdict. |
| Classifier.StricterModeUrgentImpliesLaxerUrgent | app.js:152-157 | What a mode with a higher threshold lets through, a mode with a lower threshold lets through too. |
| Text.Lower | app.js:640 | Lower-casing keeps the length and maps each character. A capital A–Z becomes the small letter at the same place in the alphabet; every other character stays. |
| Text.SameUpToCaseLower | app.js:640 | Two strings that differ only in the case of ASCII letters lower-case to the same string. |
| Text.Contains | app.js:641 | `includes` is true exactly when the pattern occurs at some index. |
| Text.Trim | backend/server.js:164 | The result has no white space at either end. It is a slice of the input with only white space cut off on both sides. |
| Text.RemoveAll | backend/server.js:164 | `replace(/"/g, '')` removes every quote and keeps the count of every other character. |
| Scorer.MentionsAny | app.js:639-643 | True exactly when some listed keyword occurs in the lower-cased subject. |
| Scorer.MentionsAnyIgnoresCase | app.js:639-641 | Keyword matching ignores case: a subject and its case variants hit the same keywords, so `URGENT` counts as `urgent`. |
| Scorer.EmailUrgency | app.js:629-651 | The score always lies in [0, 100]. It equals min(30 + 30·important + 20·unread + 30·keyword − 30·automated, 100). Automated means the address contains `noreply` or `no-reply`, case-sensitively. |
| Scorer.DemoUrgency | app.js:354-359 | The demo copy also stays in [0, 100]. It uses the same formula over the first four keywords and `noreply` only. |
| Scorer.DemoNotification | app.js:361-366 | The demo builds an e-mail notification whose content is the subject and whose urgency is exactly the demo score. |
| Scorer.DemoNotificationVerdict | app.js:361-366 | The demo notification is an e-mail, so under any mode it is urgent exactly when the demo score reaches the threshold. |
| Scorer.EmailUrgencyMonotone | app.js:630-650 | Importance, unread status or a keyword never lower the score. An automated sender never raises it. |
| Scorer.ScorersAgree | app.js:354-359 | The two scorers agree unless the subject has `emergency`, `re:` or `fwd:`, or the sender contains `no-reply`. |
| Scorer.DemoNeverAboveEmail | app.js:354-359 | Without `no-reply` in the sender, the demo copy never scores above the full scorer. |
| Scorer.ReplySubjectScoresLowerInDemo | app.js:357 | Take a subject containing `re:` in any case but none of the four demo keywords, from a non-automated sender; the demo's own "Re: Project timeline update" (app.js:68) is one. The full scorer gives min(30 + 30·important + 20·unread + 30, 100). The demo copy gives the same without the keyword bonus. So the demo score is 30 lower unless the full score is at the cap. |
| Scorer.AutomatedSenderNeverUrgentInMeeting | app.js:646-650 | Mail from an automated address scores at most 80, so it is never urgent in In Meeting mode. |
| Scorer.ImportantUnreadUrgentInDeepFocus | app.js:630-636 | Important, unread mail from a non-automated address is always urgent in Deep Focus mode. |
| Scorer.PlainMailDeferredInDeepFocus | app.js:630-650 | Mail that is neither important nor carries a keyword is always deferred in Deep Focus mode. |
| Pipeline.Without | app.js:224 | The filter leaves no entry for the notification and keeps exactly the other entries, with their multiplicities. It shrinks the queue when an entry was removed and is the identity otherwise. |
| Pipeline.WithoutAppend | app.js:224 | The filter works piecewise, so the remaining entries keep their relative order. |
| Pipeline.AddToIncoming | app.js:207-213 | Admission appends the notification at the end of the incoming queue and touches nothing else. |
| Pipeline.AddToLane | app.js:226-231 | The verdict picks exactly one lane, which grows by the notification at its end. |
| Pipeline.MoveAsWritten | app.js:222-232 | The routing callback as written removes every incoming entry for the notification and appends it to the lane its verdict names, whether or not it was still incoming. The other lane and the counter stay as they were. |
| Pipeline.Route | app.js:215-233 | The corrected routing, with the presence check of app.js:217-218 re-evaluated when the move runs. Absent from incoming: nothing changes. Present: all of its incoming entries go and it joins the end of exactly one lane. The counter is unchanged and the total number of entries never grows. |
| Pipeline.Clear | app.js:281-283 | The reset empties all three queues and keeps the counter. |
| Pipeline.Fire | app.js:190-232 | The callbacks as the source runs them. Admission appends and schedules a decision. A decision raises `blocked` by exactly 1 when the verdict is deferred, even when nothing is routed. It schedules a transfer only if the notification is still incoming. A transfer removes the incoming entries and appends to the verdict's lane unconditionally. |
| Pipeline.FireCorrected | app.js:215-233 | The corrected callbacks agree with `Fire` on admissions, on decisions, and on transfers whose notification is still incoming. A transfer whose notification is gone changes nothing. |
| Pipeline.Step | app.js:190-232 | Firing a pending callback as the source runs it removes that callback and keeps the others in order. An admission schedules its decision. A decision schedules the transfer exactly when the notification is still incoming. A transfer schedules nothing. `blocked` never falls. A decision keeps the queue sizes. A transfer never grows them when its notification is incoming, and grows them by exactly one when it is not. |
| Pipeline.StepCorrected | app.js:215-233 | With the corrected transfer, the same callbacks are scheduled, and no step other than an admission grows the queues. |
| Pipeline.SimulateBatch | app.js:275-292 | A new batch clears the queues and schedules one admission per notification, in order. Callbacks already pending stay pending. |
| Pipeline.StaleCallbacksInert | app.js:215-233 | With the corrected transfer, a pending decision or transfer whose notification is not incoming leaves all three queues unchanged. This holds in any state, with any batch in between. |
| Pipeline.Lifecycle | app.js:190-232 | Fire an admission, then the decision it schedules, then the transfer that decision schedules. The notification is then out of incoming and ends the lane its verdict names. `blocked` rose by exactly one when the verdict is deferred, and is unchanged otherwise. |
| Pipeline.LifecycleCorrected | app.js:190-233 | The same three steps under the corrected transfer end the same way. |
| Pipeline.StaleTransferAppends | app.js:222-232 | As the source runs it, a transfer whose notification is not incoming leaves incoming as it is and appends the notification to its lane. |
| Pipeline.ResetThenLeftover | app.js:275-292 | Start a batch of any size, including the source's real batches, and let a callback left over from before fire first. Under the corrected step, a leftover decision or transfer leaves the queues empty, and a leftover admission leaves exactly its notification in incoming. Under the source's step, a leftover transfer puts its notification into a lane of the new batch. |
| Pipeline.PhantomAfterClear | app.js:215-233 | With the routing callback as written, a transfer pending across a reset puts the cleared notification back into a lane. The guarded route leaves the cleared queues alone. |
| Pipeline.StepKeepsSound | app.js:190-232 | Under a fixed mode, every entry in the urgent lane classifies urgent and every entry in the deferred lane classifies deferred. Every pending transfer carries its notification's verdict. Any step of the source keeps all of this. |
| Pipeline.StepCorrectedKeepsSound | app.js:215-233 | Any corrected step keeps the same soundness. |
| Pipeline.SimulateBatchKeepsSound | app.js:275-292 | Starting a batch keeps the lanes sound. |
| Gmail.GetHeader | backend/server.js:154-157 | The result is the value of the first header whose name equals the asked name ignoring case, or `''` when none does. |
| Gmail.NameMatchesUpToCase | backend/server.js:155 | A header whose name differs from the one asked for only in letter case matches, so a header named `from` answers a lookup of `From`. |
| Gmail.GetHeaderCaseInsensitive | backend/server.js:155 | Two names that differ only in letter case give the same header value. |
| Gmail.GetHeaderFirstWins | backend/server.js:155 | Headers after the first match never change the answer. |
| Gmail.MatchFrom | backend/server.js:163 | The reported span is a match of `(.*?)\s*<(.+?)>`, and the engine prefers it to every other match: leftmost start, then shortest group 1. The result is absent exactly when no match exists. |
| Gmail.ParseFrom | backend/server.js:163-165 | With a match, the address is group 2. The name is group 1 without quotes and trimmed, or group 2 when group 1 is empty. Without a match, the address is the whole value and the name its cleaned text. The address is empty only for an empty `From`. |
| Gmail.ParseFromNamed | backend/server.js:163-165 | For `Name <addr>` the address is `addr`. The name is `Name` with quotes removed and trimmed, or `addr` when `Name` is only white space. |
| Gmail.ParseFromAngleOnly | backend/server.js:163-164 | For `<addr>` both the name and the address are `addr`. |
| Gmail.ParseFromBare | backend/server.js:163-165 | Without `<`, the address is the whole value and the name is the value with quotes removed and trimmed. An empty `From` gives empty fields. |
| Gmail.ParseGmailMessage | backend/server.js:151-188 | The type is `email`. `id`, `threadId` and the labels are copied, and missing labels become the empty list. Each flag is true exactly when its label is present. A present snippet is copied and a missing one becomes `''`. The content is the subject, a space and the snippet. The subject and sender come from the header lookup and the `From` split. |
| Intake.ImportantUnreadMessageUrgent | backend/server.js:169-171 | A message labelled IMPORTANT and UNREAD from a non-automated address scores at least 80, so it is urgent in Deep Focus mode. |
| Intake.UnlabelledMessageScore | backend/server.js:169 | A message without labels scores at most 60. |

## Findings

| source | as written | input that shows it | evidently intended | confidence | as-written member | corrected member |
|---|---|---|---|---|---|---|
| app.js:222-232 | The 250 ms routing callback removes the notification from the incoming queue and appends it to a lane without checking that it is still there. The presence check at app.js:217-218 runs 250 ms earlier. | Admit `n`. Let its classification callback fire: `n` is found, and the transfer is scheduled. Start a new batch, which clears all queues. Then let the transfer fire: `n` reappears in the urgent or deferred lane of the new batch. | A notification the reset removed stays removed. The guard at app.js:218 shows that absent notifications are not meant to be routed. | medium; not executed | Pipeline.MoveAsWritten, Pipeline.Step, Pipeline.PhantomAfterClear, Pipeline.ResetThenLeftover | Pipeline.Route, Pipeline.StepCorrected, Pipeline.StaleCallbacksInert |

`Pipeline.Fire` and `Pipeline.Step` run the callbacks as the source writes them. `Pipeline.FireCorrected` and `Pipeline.StepCorrected` differ only in the transfer, which runs the guarded `Pipeline.Route`.

## Behaviour of the code worth knowing

- `simulateBatch` cancels no pending callback. It only clears the queues. Staggered admissions, decisions and transfers from an older batch all still fire after a reset. `Pipeline.SimulateBatch` keeps them pending, and `Pipeline.ResetThenLeftover` shows what a leftover callback does.
- A notification carries no stage field, and nothing keeps it to one live entry. The same object can be admitted twice, and the filter at app.js:224 removes every entry for it.
- The source kinds are email, slack, calendar, social and app.
- The scorers clamp only the top of the range. The lowest possible raw score is 0, so the result still lies in [0, 100].
- Classification always has a mode: the constructor's Deep Focus. There is no path on which the mode is missing.

## Left out

- DOM and UI: notification elements, list rendering, `updateDisplay`, `updateStats`, the `.moving` animation and every button handler. This includes the digest button that raises `decisionsHandled`. They are presentation only.
- Timer durations (1500, 250 and 800 ms): callbacks are events that may fire in any order. That is a superset of the orders real timers produce, so the lemmas about steps cover the real orders too.
- Random selection of batches (`Math.random` shuffles): the batch is a parameter of `Pipeline.SimulateBatch`.
- Network, OAuth and the Express routes (`fetch`, popups, message listeners, `googleapis`): these are I/O.
- Dates: `date` and `timestamp` of the parsed e-mail depend on the JavaScript date parser. The clock hour is a parameter of `Context.DetectContext`.
- `getReasoningExplanation`: an explanatory string formatted from floats.
- Statistics seed values (47, 3.2, 12) and `focusTime`: display constants with no update rule.
- `simulateDemoEmails` beyond its scorer and notification record: its clearing touches only the DOM lists, not the queues, and its scheduling repeats the batch pattern.
- Scorer.EmailUrgency: exact decimal hundredths, not IEEE doubles. In doubles, 0.3 + 0.3 + 0.3 is 0.8999999999999999. So an important mail with a keyword that is neither unread nor automated scores just below the In Meeting threshold of 0.9. The model gives it 90, which reaches that threshold, so the model finds it urgent in In Meeting mode where the source defers it. No other combination of signals crosses a threshold differently.
- Text.Lower: only ASCII letters are lower-cased. `toLowerCase` also maps other scripts. Every keyword and header name here is ASCII.
- Characters are Unicode scalar values, not UTF-16 code units. Nothing here depends on the difference for the ASCII patterns involved.
- Scorer.DemoUrgency: the same hundredths-for-doubles gap as the full scorer. An important demo mail with a keyword that is neither unread nor from a `noreply` address scores 0.8999999999999999 in the source and 90 in the model. So the source defers it in In Meeting mode, while the model finds it urgent there.
- Gmail.ParseGmailMessage: the source throws in two cases, and the model returns a record instead. First, a message without `payload.headers`, or a header without a name; the model's types always provide them. Second, a missing or unparseable Date header: `getHeader` returns `''`, and `new Date('').toISOString()` raises a RangeError at backend/server.js:180. The date fields are not modelled, so the model cannot tell these messages apart.
- Display strings of the mode catalog (name and filter label, app.js:29-45): only the thresholds take part in any decision.
- Gmail.ParseFromNamed: stated for names without `<` or line terminators. Other values are covered by the contract of `Gmail.ParseFrom`, which states the result in terms of `Gmail.MatchFrom`'s groups.
