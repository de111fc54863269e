/** The three production shifts and the hour-of-day rule that picks the
    current one (the same rule appears in the simulator, the MQTT client and
    the MQTT ingestion service). */
module Shifts {

  datatype Shift = Matin | ApresMidi | Nuit

  /** The shift identifier as stored with production data. */
  function ShiftName(s: Shift): string {
    match s
    case Matin => "MATIN"
    case ApresMidi => "APRES_MIDI"
    case Nuit => "NUIT"
  }

  /** getCurrentShift, with `new Date().getHours()` passed in as hour. */
  function CurrentShift(hour: int): (s: Shift)
    ensures s == Matin <==> 6 <= hour < 14
    ensures s == ApresMidi <==> 14 <= hour < 22
    ensures s == Nuit <==> hour < 6 || 22 <= hour
  {
    if 6 <= hour < 14 then Matin
    else if 14 <= hour < 22 then ApresMidi
    else Nuit
  }

  /** Shift names are distinct. */
  lemma ShiftNameInjective(a: Shift, b: Shift)
    ensures ShiftName(a) == ShiftName(b) <==> a == b
  {
  }
}
