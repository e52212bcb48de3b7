/** The reminder list and event form logic of client/src/pages/MaintenancePage.tsx:
    adding, removing and editing reminder overrides, the summary the page
    builds from the chosen vehicle and date, and the checks and payload of
    the calendar submit. Rendering, the fetch and its answer are not modelled;
    dates are opaque strings and times are minutes since midnight. */
module Maintenance {
  import opened Common
  import opened Text

  datatype Method = Email | Popup

  /** A reminder override as a value: what the payload carries. */
  datatype Reminder = Reminder(channel: Method, minutes: int)

  /** A reminder override object held in the page's list (`channel` is the
      source's `method` field, a reserved word here). The list is copied by
      spreading, so both copies share these objects. */
  class ReminderOverride {
    var channel: Method
    var minutes: int

    constructor (channel: Method, minutes: int)
      ensures this.channel == channel && this.minutes == minutes
    {
      this.channel := channel;
      this.minutes := minutes;
    }
  }

  /** The values the objects of a list currently hold. */
  function Values(reminders: seq<ReminderOverride>): (vs: seq<Reminder>)
    reads reminders
    ensures |vs| == |reminders|
    ensures forall k :: 0 <= k < |reminders| ==> vs[k] == Reminder(reminders[k].channel, reminders[k].minutes)
  {
    if reminders == [] then []
    else Values(reminders[..|reminders| - 1]) +
         [Reminder(reminders[|reminders| - 1].channel, reminders[|reminders| - 1].minutes)]
  }

  /** handleAddReminder: a new list with a fresh `{ method: 'popup', minutes: 30 }`
      at the end and the same objects before it. */
  method AddReminder(reminders: seq<ReminderOverride>) returns (r: seq<ReminderOverride>)
    ensures |r| == |reminders| + 1 && r[..|reminders|] == reminders
    ensures fresh(r[|reminders|])
    ensures r[|reminders|].channel == Popup && r[|reminders|].minutes == 30
  {
    var added := new ReminderOverride(Popup, 30);
    r := reminders + [added];
  }

  /** `prev.filter((_, i) => i !== index)`: the elements at every position but
      `index`, in order. */
  function RemoveAt<T>(s: seq<T>, index: int): (r: seq<T>)
    ensures 0 <= index < |s| ==> r == s[..index] + s[index + 1..]
    ensures !(0 <= index < |s|) ==> r == s
  {
    if s == [] then []
    else
      var init := RemoveAt(s[..|s| - 1], index);
      assert s[..|s| - 1] + [s[|s| - 1]] == s;
      if |s| - 1 == index then init else init + [s[|s| - 1]]
  }

  /** handleRemoveReminder on the values: one element fewer for an index in
      range, and every other value kept in order. */
  lemma {:induction false} RemoveAtKeepsOthers<T>(s: seq<T>, index: int)
    requires 0 <= index < |s|
    ensures |RemoveAt(s, index)| == |s| - 1
    ensures forall k :: 0 <= k < index ==> RemoveAt(s, index)[k] == s[k]
    ensures forall k :: index <= k < |s| - 1 ==> RemoveAt(s, index)[k] == s[k + 1]
  {
  }

  /** The field a change names, and the value it carries (the form passes
      text; a number is possible in the handler's type). */
  datatype Field = MethodField | MinutesField
  datatype ChangeValue = Text(text: string) | Number(number: int)

  /** `parseInt(value, 10) || 0`: NaN becomes 0. */
  function MinutesFrom(text: string): (m: int)
    ensures ParseInt(text).Some? ==> m == ParseInt(text).value
    ensures ParseInt(text).None? ==> m == 0
  {
    match ParseInt(text)
    case Some(n) => n
    case None => 0
  }

  /** Whether handleReminderChange writes anything: minutes given as text, or
      a method given as 'email' or 'popup'. */
  predicate Writes(field: Field, value: ChangeValue) {
    (field == MinutesField && value.Text?) ||
    (field == MethodField && value.Text? && (value.text == "email" || value.text == "popup"))
  }

  /** handleReminderChange(index, field, value): the list is copied and the
      object at `index` is changed in place, so the current list sees the
      change too. An index out of range makes the write fail (`threw`), and
      no new list is set. A change that writes nothing leaves every object as
      it was. */
  method ChangeReminder(reminders: seq<ReminderOverride>, index: int, field: Field, value: ChangeValue)
    returns (newReminders: seq<ReminderOverride>, threw: bool)
    modifies if 0 <= index < |reminders| then {reminders[index]} else {}
    ensures threw <==> Writes(field, value) && !(0 <= index < |reminders|)
    ensures newReminders == reminders
    ensures Writes(field, value) && field == MinutesField && 0 <= index < |reminders| ==>
              reminders[index].minutes == MinutesFrom(value.text) && reminders[index].channel == old(reminders[index].channel)
    ensures Writes(field, value) && field == MethodField && 0 <= index < |reminders| ==>
              reminders[index].channel == (if value.text == "email" then Email else Popup)
              && reminders[index].minutes == old(reminders[index].minutes)
    ensures !Writes(field, value) && 0 <= index < |reminders| ==> unchanged(reminders[index])
  {
    newReminders := reminders;
    threw := false;
    if field == MinutesField && value.Text? {
      if !(0 <= index < |newReminders|) {
        threw := true;
        return;
      }
      newReminders[index].minutes := MinutesFrom(value.text);
    } else if field == MethodField && value.Text? && (value.text == "email" || value.text == "popup") {
      if !(0 <= index < |newReminders|) {
        threw := true;
        return;
      }
      newReminders[index].channel := if value.text == "email" then Email else Popup;
    }
  }

  /** Minutes typed as the text of an integer are stored as that integer. */
  lemma TypedMinutesKept(n: int)
    ensures MinutesFrom(IntToString(n)) == n
  {
    ParseIntOfIntToString(n);
  }

  // ---------------------------------------------------------------- summary

  /** A vehicle of the `myVehicles` query. */
  datatype VehicleOption = VehicleOption(id: string, make: string, model: string, year: int)

  const ExampleSummary: string := "Example: Oil Change for Toyota Camry"

  /** `myVehicles.find(v => v._id === selectedId)`: the position of the first
      vehicle with that id. */
  function FindVehicle(vehicles: seq<VehicleOption>, selectedId: string): (r: Option<nat>)
    ensures r.Some? ==> r.value < |vehicles| && vehicles[r.value].id == selectedId
    ensures r.Some? ==> forall k :: 0 <= k < r.value ==> vehicles[k].id != selectedId
    ensures r.None? ==> forall k :: 0 <= k < |vehicles| ==> vehicles[k].id != selectedId
  {
    if vehicles == [] then None
    else if vehicles[0].id == selectedId then Some(0)
    else match FindVehicle(vehicles[1..], selectedId)
      case None => None
      case Some(i) => Some(i + 1)
  }

  /** The title the page's effect gives the event: the vehicle chosen from
      the list, else the vehicle type typed in, else the fixed example. */
  function Title(vehicles: seq<VehicleOption>, selectedId: string, vehicleType: string): string
  {
    match FindVehicle(vehicles, selectedId)
    case Some(i) => "Maintenance for " + IntToString(vehicles[i].year) + " " + vehicles[i].make + " " + vehicles[i].model
    case None => if vehicleType != "" then "Maintenance for " + vehicleType else ExampleSummary
  }

  /** The summary the page's effect builds: the title, followed by " on " and
      the formatted date when a date is set and `format` accepts it (None
      where it throws). */
  function Summary(vehicles: seq<VehicleOption>, selectedId: string, vehicleType: string, eventDate: string,
                   format: string -> Option<string>): (summary: string)
    ensures StartsWith(summary, Title(vehicles, selectedId, vehicleType))
    ensures summary == Title(vehicles, selectedId, vehicleType) <==> eventDate == "" || format(eventDate).None?
    ensures eventDate != "" && format(eventDate).Some? ==>
              summary[|Title(vehicles, selectedId, vehicleType)|..] == " on " + format(eventDate).value
  {
    var title := Title(vehicles, selectedId, vehicleType);
    if eventDate != "" then
      match format(eventDate)
      case Some(formatted) => title + " on " + formatted
      case None => title
    else title
  }

  /** The first listed vehicle with the chosen id names the event, whatever
      vehicle type was typed. */
  lemma ChosenVehicleNamesEvent(vehicles: seq<VehicleOption>, selectedId: string, i: nat, vehicleType: string,
                                format: string -> Option<string>)
    requires i < |vehicles| && vehicles[i].id == selectedId
    requires forall k :: 0 <= k < i ==> vehicles[k].id != selectedId
    ensures Summary(vehicles, selectedId, vehicleType, "", format) ==
            "Maintenance for " + IntToString(vehicles[i].year) + " " + vehicles[i].make + " " + vehicles[i].model
  {
    var found := FindVehicle(vehicles, selectedId);
    assert found == Some(i);
  }

  /** Without a matching vehicle, a typed vehicle type names the event. */
  lemma TypedVehicleNamesEvent(vehicles: seq<VehicleOption>, selectedId: string, vehicleType: string,
                               format: string -> Option<string>)
    requires forall k :: 0 <= k < |vehicles| ==> vehicles[k].id != selectedId
    requires vehicleType != ""
    ensures Summary(vehicles, selectedId, vehicleType, "", format) == "Maintenance for " + vehicleType
  {
    assert FindVehicle(vehicles, selectedId).None?;
  }

  /** With nothing chosen, nothing typed and no date, the summary is the
      example text. */
  lemma SummaryWithoutVehicle(vehicles: seq<VehicleOption>, selectedId: string,
                              format: string -> Option<string>)
    requires forall k :: 0 <= k < |vehicles| ==> vehicles[k].id != selectedId
    ensures Summary(vehicles, selectedId, "", "", format) == ExampleSummary
  {
    assert FindVehicle(vehicles, selectedId).None?;
  }

  /** A date `format` accepts appends " on " and the formatted date to the
      title; a date it throws on, like no date, leaves the title alone. */
  lemma DateSuffix(vehicles: seq<VehicleOption>, selectedId: string, vehicleType: string, eventDate: string,
                   format: string -> Option<string>)
    ensures var title := Summary(vehicles, selectedId, vehicleType, "", format);
      Summary(vehicles, selectedId, vehicleType, eventDate, format) ==
        if eventDate != "" && format(eventDate).Some? then title + " on " + format(eventDate).value else title
  {
  }

  // ---------------------------------------------------------------- submit

  datatype EventForm = EventForm(summary: string, description: string, eventDate: string,
                                 startTime: string, endTime: string)

  /** The body posted to /api/calendar/events: times as minutes since
      midnight of the event date. */
  datatype Payload = Payload(summary: string, description: string, eventDate: string, start: int, end: int,
                             useDefault: bool, overrides: Option<seq<Reminder>>)

  /** What a submit does: stop with a message, or post the payload. */
  datatype Submit = Rejected(message: string) | Send(payload: Payload)

  const MissingFieldsMessage: string :=
    "Please fill in all required fields for the calendar event: Summary, Date, Start Time, End Time."
  const EndBeforeStartMessage: string := "End time must be after start time for the calendar event."
  /** The message of the RangeError `toISOString` throws on an invalid date. */
  const InvalidTimeMessage: string := "Invalid time value"

  /** `time.split(':').map(Number)` read as hours and minutes: the minutes
      since midnight, None when either part is NaN or missing. */
  function MinuteOfDay(time: string): (m: Option<int>)
    ensures m.Some? ==> m.value >= 0
  {
    ClockMinutes(Split(time, ':'))
  }

  /** Minutes since midnight of an hour and a minute. */
  function Clock(hours: int, minutes: int): int { hours * 60 + minutes }

  /** The hour and minute pieces of a split time, each read by `Number`. */
  function ClockMinutes(parts: seq<string>): (m: Option<int>)
    ensures m.Some? ==> m.value >= 0
    ensures m.Some? <==> |parts| >= 2 && DecimalNumber(parts[0]).Some? && DecimalNumber(parts[1]).Some?
    ensures m.Some? ==> m.value == Clock(DecimalNumber(parts[0]).value, DecimalNumber(parts[1]).value)
  {
    if |parts| < 2 then None
    else
      var hours := DecimalNumber(parts[0]);
      var minutes := DecimalNumber(parts[1]);
      if hours.Some? && minutes.Some? then Some(Clock(hours.value, minutes.value)) else None
  }

  /** `HH:MM` written with digits reads back as HH*60+MM. */
  lemma {:induction false} MinuteOfDayOfDigits(hh: string, mm: string)
    requires AllDigits(hh) && AllDigits(mm)
    ensures MinuteOfDay(hh + [':'] + mm) == Some(Clock(DigitsValue(hh), DigitsValue(mm)))
  {
    DigitsHaveNoColon(hh);
    DigitsHaveNoColon(mm);
    SplitAfterPiece(hh, mm, ':');
    SplitWithoutSep(mm, ':');
    ClockMinutesOfDigits(hh, mm);
  }

  lemma DigitsHaveNoColon(s: string)
    requires AllDigits(s)
    ensures ':' !in s
  {
    assert forall k :: 0 <= k < |s| ==> s[k] != ':';
  }

  lemma ClockMinutesOfDigits(hh: string, mm: string)
    requires AllDigits(hh) && AllDigits(mm)
    ensures ClockMinutes([hh, mm]) == Some(Clock(DigitsValue(hh), DigitsValue(mm)))
  {
    var parts := [hh, mm];
    assert parts[0] == hh && parts[1] == mm;
  }

  /** handleCalendarSubmit up to the fetch. `dateValid` says whether
      `new Date(eventDate)` is a valid date. */
  function CheckSubmit(form: EventForm, dateValid: bool, useDefault: bool, reminders: seq<Reminder>): (s: Submit)
    ensures (form.summary == "" || form.eventDate == "" || form.startTime == "" || form.endTime == "") <==>
            s == Rejected(MissingFieldsMessage)
    ensures s.Send? ==> dateValid && MinuteOfDay(form.startTime).Some? && MinuteOfDay(form.endTime).Some?
    ensures s.Send? ==> s.payload.start == MinuteOfDay(form.startTime).value
                        && s.payload.end == MinuteOfDay(form.endTime).value
                        && s.payload.start < s.payload.end
    ensures s.Send? ==> s.payload.summary == form.summary && s.payload.description == form.description
                        && s.payload.useDefault == useDefault
    ensures s.Send? ==> (s.payload.overrides.Some? <==> !useDefault && |reminders| > 0)
    ensures s.Send? && s.payload.overrides.Some? ==> s.payload.overrides.value == reminders
    ensures s.Send? <==>
            form.summary != "" && form.eventDate != "" && form.startTime != "" && form.endTime != ""
            && dateValid && MinuteOfDay(form.startTime).Some? && MinuteOfDay(form.endTime).Some?
            && MinuteOfDay(form.startTime).value < MinuteOfDay(form.endTime).value
    ensures s == Rejected(InvalidTimeMessage) <==>
            form.summary != "" && form.eventDate != "" && form.startTime != "" && form.endTime != ""
            && (!dateValid || MinuteOfDay(form.startTime).None? || MinuteOfDay(form.endTime).None?)
    ensures s == Rejected(EndBeforeStartMessage) <==>
            form.summary != "" && form.eventDate != "" && form.startTime != "" && form.endTime != ""
            && dateValid && MinuteOfDay(form.startTime).Some? && MinuteOfDay(form.endTime).Some?
            && MinuteOfDay(form.startTime).value >= MinuteOfDay(form.endTime).value
  {
    if form.summary == "" || form.eventDate == "" || form.startTime == "" || form.endTime == "" then
      Rejected(MissingFieldsMessage)
    else
      var start := MinuteOfDay(form.startTime);
      var end := MinuteOfDay(form.endTime);
      // An invalid date compares false with everything, so it passes the
      // order check and fails later, when toISOString throws.
      if !dateValid || start.None? || end.None? then Rejected(InvalidTimeMessage)
      else if start.value >= end.value then Rejected(EndBeforeStartMessage)
      else
        var overrides := if !useDefault && |reminders| > 0 then Some(reminders) else None;
        Send(Payload(form.summary, form.description, form.eventDate, start.value, end.value, useDefault, overrides))
  }

  /** The form's own defaults (09:00 to 10:00) pass the order check. */
  lemma DefaultTimesInOrder(summary: string, description: string, eventDate: string, useDefault: bool,
                            reminders: seq<Reminder>)
    requires summary != "" && eventDate != ""
    ensures CheckSubmit(EventForm(summary, description, eventDate, "09:00", "10:00"), true, useDefault, reminders).Send?
  {
    DefaultStart();
    DefaultEnd();
  }

  lemma DefaultStart()
    ensures MinuteOfDay("09:00") == Some(540)
  {
    assert "09:00" == "09" + [':'] + "00";
    MinuteOfDayOfDigits("09", "00");
    assert DigitsValue("09") == 9 && DigitsValue("00") == 0;
  }

  lemma DefaultEnd()
    ensures MinuteOfDay("10:00") == Some(600)
  {
    assert "10:00" == "10" + [':'] + "00";
    MinuteOfDayOfDigits("10", "00");
    assert DigitsValue("10") == 10 && DigitsValue("00") == 0;
  }
}
