/** Booking a session with an expert (src/app/pages/ExpertConsultation.tsx):
    the booking calendar collects a date and a time, confirming prepends an
    appointment, and the success dialog leads to the appointments tab. The
    calendar's day labels come from the clock and the locale and are given to
    it; the appointment id that the page takes from the clock is a parameter. */
module ExpertConsultation {
  import opened Wrappers

  datatype Expert = Expert(
    id: int,
    name: string,
    role: string,
    specialties: seq<string>,
    rating: real,
    reviews: int,
    about: string,
    image: Option<string>,
    availability: seq<string>)

  datatype Status = Upcoming | Completed

  datatype Appointment = Appointment(
    id: int,
    expertId: int,
    expertName: string,
    date: string,
    time: string,
    status: Status,
    meetLink: string)

  datatype Tab = Browse | MyAppointments

  const MeetLink: string := "https://meet.google.com/abc-defg-hij"

  /** The calendar offers this many consecutive days, starting today. */
  const CalendarDays: nat := 14

  const TimeSlots: seq<string> := ["09:00 AM", "10:00 AM", "01:00 PM", "02:30 PM", "04:00 PM"]

  /** `BookingCalendar`: one is mounted each time the calendar opens. */
  class BookingCalendar {
    /** The `fullDate` label of each day offered. */
    const days: seq<string>
    var selectedDate: Option<int>
    var selectedTime: Option<string>

    /** A selected date is one of the days offered; a selected time is one of
        the slots offered, and only ever picked once a date is (the slots are
        shown only then). */
    ghost predicate Valid()
      reads this
    {
      && (selectedDate.Some? ==> 0 <= selectedDate.value < |days|)
      && (selectedTime.Some? ==> selectedTime.value in TimeSlots && selectedDate.Some?)
    }

    constructor(days: seq<string>)
      requires |days| == CalendarDays
      ensures Valid()
      ensures this.days == days && selectedDate == None && selectedTime == None
    {
      this.days := days;
      selectedDate := None;
      selectedTime := None;
    }

    /** A day button. */
    method PickDate(i: int)
      requires Valid() && 0 <= i < |days|
      modifies this`selectedDate
      ensures Valid() && selectedDate == Some(i)
    {
      selectedDate := Some(i);
    }

    /** A time-slot button; the slots are rendered once a date is selected. */
    method PickTime(time: string)
      requires Valid() && time in TimeSlots && selectedDate.Some?
      modifies this`selectedTime
      ensures Valid() && selectedTime == Some(time)
    {
      selectedTime := Some(time);
    }

    /** "Confirm Booking" is disabled while the date or the (non-empty) time
        is missing. */
    function ConfirmEnabled(): (b: bool)
      reads this
      ensures b <==> selectedDate.Some? && selectedTime.Some? && selectedTime.value != ""
    {
      !(selectedDate == None || selectedTime == None || selectedTime.value == "")
    }

    /** Pressing "Confirm Booking": `onConfirm` is called, with the chosen
        day's label and the chosen time, exactly when both a date and a time
        have been picked, which is exactly when the button is enabled. */
    method Confirm() returns (booking: Option<(string, string)>)
      requires Valid()
      ensures booking.Some? <==> selectedDate.Some? && selectedTime.Some?
      ensures booking.Some? <==> ConfirmEnabled()
      ensures booking.Some? ==> booking.value == (days[selectedDate.value], selectedTime.value)
    {
      if selectedTime.Some? {
        SlotsAreNonEmpty(selectedTime.value);
      }
      if selectedDate.Some? && selectedTime.Some? && selectedTime.value != "" {
        booking := Some((days[selectedDate.value], selectedTime.value));
      } else {
        booking := None;
      }
    }
  }

  /** Every offered time slot is a non-empty string. */
  lemma SlotsAreNonEmpty(time: string)
    requires time in TimeSlots
    ensures time != ""
  {
  }

  /** The page's state. */
  class Consultation {
    var activeTab: Tab
    var selectedExpert: Option<Expert>
    var showCalendar: bool
    var showSuccess: bool
    var appointments: seq<Appointment>

    /** Appointments are only ever added by a confirmation, so all are
        upcoming, carry the meeting link, and the success dialog is only shown
        when at least one exists. */
    ghost predicate Valid()
      reads this
    {
      && (forall i :: 0 <= i < |appointments| ==>
            appointments[i].status == Upcoming && appointments[i].meetLink == MeetLink)
      && (showSuccess ==> appointments != [])
    }

    constructor()
      ensures Valid()
      ensures activeTab == Browse && selectedExpert == None && !showCalendar && !showSuccess
      ensures appointments == []
    {
      activeTab := Browse;
      selectedExpert := None;
      showCalendar := false;
      showSuccess := false;
      appointments := [];
    }

    /** The calendar overlay is mounted while it is open and an expert is selected. */
    function CalendarVisible(): (b: bool)
      reads this
      ensures b ==> selectedExpert.Some?
    {
      showCalendar && selectedExpert.Some?
    }

    /** A tab button. */
    method SelectTab(tab: Tab)
      requires Valid()
      modifies this`activeTab
      ensures Valid() && activeTab == tab
    {
      activeTab := tab;
    }

    /** `handleBookClick`: selects the expert and opens the calendar. */
    method BookClick(expert: Expert)
      requires Valid()
      modifies this`selectedExpert, this`showCalendar
      ensures Valid()
      ensures selectedExpert == Some(expert) && showCalendar
    {
      selectedExpert := Some(expert);
      showCalendar := true;
    }

    /** The calendar's close button and backdrop: closes it, keeping the expert. */
    method CancelBooking()
      requires Valid()
      modifies this`showCalendar
      ensures Valid() && !showCalendar
    {
      showCalendar := false;
    }

    /** `handleConfirmBooking`. Without a selected expert nothing happens.
        Otherwise exactly one upcoming appointment with the expert's id and
        name and the given date and time goes on top of the list, the older
        appointments follow in their order, the calendar closes and the success
        dialog opens; the expert stays selected. */
    method ConfirmBooking(date: string, time: string, id: int) returns (booked: bool)
      requires Valid()
      modifies this`appointments, this`showCalendar, this`showSuccess
      ensures Valid()
      ensures booked <==> old(selectedExpert).Some?
      ensures !booked ==> appointments == old(appointments) && showCalendar == old(showCalendar)
                          && showSuccess == old(showSuccess)
      ensures booked ==>
        && appointments == [Appointment(id, selectedExpert.value.id, selectedExpert.value.name,
                                        date, time, Upcoming, MeetLink)] + old(appointments)
        && !showCalendar && showSuccess
    {
      if selectedExpert == None {
        return false;
      }
      var appointment := Appointment(id, selectedExpert.value.id, selectedExpert.value.name,
                                     date, time, Upcoming, MeetLink);
      appointments := [appointment] + appointments;
      showCalendar := false;
      showSuccess := true;
      booked := true;
    }

    /** `handleSuccessClose`: hides the dialog, forgets the expert and shows
        the appointments tab. */
    method SuccessClose()
      requires Valid()
      modifies this`showSuccess, this`selectedExpert, this`activeTab
      ensures Valid()
      ensures !showSuccess && selectedExpert == None && activeTab == MyAppointments
    {
      showSuccess := false;
      selectedExpert := None;
      activeTab := MyAppointments;
    }
  }

  /** One booking from start to finish: pick an expert, a day and a slot,
      confirm, close the dialog; the new appointment is listed first and the
      appointments tab is shown. */
  method BookingWalkThrough(page: Consultation, expert: Expert, days: seq<string>, id: int)
    requires page.Valid() && |days| == CalendarDays
    modifies page
  {
    page.BookClick(expert);
    var calendar := new BookingCalendar(days);
    assert page.CalendarVisible();
    calendar.PickDate(3);
    calendar.PickTime(TimeSlots[2]);
    var booking := calendar.Confirm();
    assert booking == Some((days[3], "01:00 PM"));
    var booked := page.ConfirmBooking(booking.value.0, booking.value.1, id);
    assert booked && page.showSuccess && !page.showCalendar;
    page.SuccessClose();
    assert page.appointments[0] == Appointment(id, expert.id, expert.name, days[3], "01:00 PM", Upcoming, MeetLink);
    assert page.activeTab == MyAppointments && page.selectedExpert == None;
  }
}
