/**
  The context-mode catalog and the time-of-day rule that picks a mode.
  Thresholds are integer hundredths of the source's [0, 1] urgency scale.
 */
module Context {

  /** The three fixed modes of the catalog, each with its urgency threshold. */
  datatype ContextMode = DeepFocus | InMeeting | Available {

    /** The urgency threshold, in hundredths. */
    function Threshold(): (t: int)
      ensures 0 <= t <= 100
    {
      match this
      case DeepFocus => 80
      case InMeeting => 90
      case Available => 50
    }
  }

  /** The mode the source's detector holds from construction on; classification reads it. */
  const InitialMode: ContextMode := DeepFocus

  /** The hours of the day each mode is meant for, written out as a schedule. */
  function ScheduledHours(m: ContextMode): set<int> {
    match m
    case DeepFocus => {9, 10, 11, 12}
    case InMeeting => {14, 15, 16}
    case Available => {0, 1, 2, 3, 4, 5, 6, 7, 8, 13, 17, 18, 19, 20, 21, 22, 23}
  }

  /** The time-of-day rule: the mode for a clock hour. */
  function DetectContext(hour: int): (m: ContextMode)
    ensures 0 <= hour < 24 ==> hour in ScheduledHours(m)
    ensures m.Threshold() == 80 || m.Threshold() == 90 || m.Threshold() == 50
  {
    if 9 <= hour <= 12 then DeepFocus
    else if 14 <= hour <= 16 then InMeeting
    else Available
  }

  /** Every clock hour belongs to the schedule of exactly one mode, the one detected. */
  lemma ScheduleCoversDay(hour: int, m: ContextMode)
    requires 0 <= hour < 24
    ensures hour in ScheduledHours(m) <==> DetectContext(hour) == m
  {
  }
}
