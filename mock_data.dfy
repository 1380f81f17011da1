/** Hourly time slots for one day, 6 AM up to (not including) 10 PM, with
    12-hour labels and per-day ids. Whether a slot is free is drawn at
    random by the program; here it is the input `available`. */
module MockData {
  import opened Text

  datatype TimeSlot = TimeSlot(id: string, time: string, available: bool)

  const StartHour: nat := 6
  const EndHour: nat := 22

  /** `${hour % 12 || 12}:00 ${hour < 12 ? 'AM' : 'PM'}` */
  function HourLabel(hour: nat): string {
    NatToString(if hour % 12 == 0 then 12 else hour % 12) + ":00 " + (if hour < 12 then "AM" else "PM")
  }

  /** `slot-<date>-<hour>`, with the date as `YYYY-MM-DD` text. */
  function SlotId(dateKey: string, hour: nat): string {
    "slot-" + dateKey + "-" + NatToString(hour)
  }

  /** The slot for one hour. */
  function SlotAt(dateKey: string, hour: nat, available: int -> bool): TimeSlot {
    TimeSlot(SlotId(dateKey, hour), HourLabel(hour), available(hour))
  }

  /** The day's slots, one per hour from 6 to 21, in order. */
  function SlotsFor(dateKey: string, available: int -> bool): (r: seq<TimeSlot>)
    ensures |r| == EndHour - StartHour
    ensures forall i :: 0 <= i < |r| ==> r[i] == SlotAt(dateKey, StartHour + i, available)
  {
    seq(EndHour - StartHour, i requires 0 <= i < EndHour - StartHour => SlotAt(dateKey, StartHour + i, available))
  }

  /** `generateTimeSlots`: one slot pushed per hour. */
  method GenerateTimeSlots(dateKey: string, available: int -> bool) returns (slots: seq<TimeSlot>)
    ensures slots == SlotsFor(dateKey, available)
  {
    slots := [];
    var hour := StartHour;
    while hour < EndHour
      invariant StartHour <= hour <= EndHour
      invariant |slots| == hour - StartHour
      invariant forall i :: 0 <= i < |slots| ==> slots[i] == SlotAt(dateKey, StartHour + i, available)
    {
      slots := slots + [TimeSlot(SlotId(dateKey, hour), HourLabel(hour), available(hour))];
      hour := hour + 1;
    }
  }

  /** Sixteen slots; slot `i` is hour `6 + i`, free exactly when the draw
      for that hour says so. */
  lemma SlotsShape(dateKey: string, available: int -> bool)
    ensures |SlotsFor(dateKey, available)| == 16
    ensures forall i :: 0 <= i < 16 ==>
              SlotsFor(dateKey, available)[i].id == SlotId(dateKey, 6 + i)
              && SlotsFor(dateKey, available)[i].time == HourLabel(6 + i)
              && SlotsFor(dateKey, available)[i].available == available(6 + i)
  {
  }

  /** The label reads as a 12-hour clock. */
  lemma HourLabelCases(hour: nat)
    requires StartHour <= hour < EndHour
    ensures hour < 12 ==> HourLabel(hour) == NatToString(hour) + ":00 AM"
    ensures hour == 12 ==> HourLabel(hour) == "12:00 PM"
    ensures hour > 12 ==> HourLabel(hour) == NatToString(hour - 12) + ":00 PM"
  {
    if hour < 12 {
      assert hour % 12 == hour;
    } else if hour == 12 {
      assert hour % 12 == 0;
    } else {
      assert hour % 12 == hour - 12;
    }
  }

  /** The first and last labels. */
  lemma FirstAndLastLabel()
    ensures HourLabel(6) == "6:00 AM" && HourLabel(21) == "9:00 PM"
  {
    assert NatToString(6) == "6";
    assert NatToString(9) == "9";
  }

  /** Two hours of the same day never share an id. */
  lemma SlotIdsDistinct(dateKey: string, h1: nat, h2: nat)
    requires h1 != h2
    ensures SlotId(dateKey, h1) != SlotId(dateKey, h2)
  {
    var prefix := "slot-" + dateKey + "-";
    if SlotId(dateKey, h1) == SlotId(dateKey, h2) {
      assert SlotId(dateKey, h1)[|prefix|..] == NatToString(h1);
      assert SlotId(dateKey, h2)[|prefix|..] == NatToString(h2);
      NatToStringInjective(h1, h2);
    }
  }

  /** The ids within one day's slots are pairwise distinct. */
  lemma SlotsHaveDistinctIds(dateKey: string, available: int -> bool)
    ensures forall i, j :: 0 <= i < j < |SlotsFor(dateKey, available)| ==>
              SlotsFor(dateKey, available)[i].id != SlotsFor(dateKey, available)[j].id
  {
    var s := SlotsFor(dateKey, available);
    forall i, j | 0 <= i < j < |s| ensures s[i].id != s[j].id {
      SlotIdsDistinct(dateKey, StartHour + i, StartHour + j);
    }
  }

  /** The date changes the ids and nothing else. */
  lemma DateAffectsOnlyIds(d1: string, d2: string, available: int -> bool)
    ensures |SlotsFor(d1, available)| == |SlotsFor(d2, available)|
    ensures forall i :: 0 <= i < |SlotsFor(d1, available)| ==>
              SlotsFor(d1, available)[i].(id := "") == SlotsFor(d2, available)[i].(id := "")
  {
  }
}
