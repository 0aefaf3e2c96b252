/** `pages/createMeeting.tsx`: the participant list editor and the required-field check
    before a meeting is created. The meeting code and the creation time are inputs:
    the page draws the code at random and reads the time from the clock. */
module CreateMeeting {
  import opened Options
  import opened Text

  datatype Meeting = Meeting(name: string, date: string, time: string, participants: seq<string>, code: string, createdAt: int)

  const IncompleteAlert: string := "Completa todos los campos."

  /** `meetingName && meetingDate && meetingTime`. */
  predicate FieldsComplete(name: string, date: string, time: string) {
    name != "" && date != "" && time != ""
  }

  class CreateMeetingPage {
    var meetingName: string
    var meetingDate: string
    var meetingTime: string
    var participants: seq<string>
    var newParticipant: string

    constructor ()
      ensures meetingName == "" && meetingDate == "" && meetingTime == ""
      ensures participants == [] && newParticipant == ""
    {
      meetingName, meetingDate, meetingTime := "", "", "";
      participants, newParticipant := [], "";
    }

    /** The meeting name input's `onChange`. */
    method SetMeetingName(value: string)
      modifies this
      ensures meetingName == value
      ensures meetingDate == old(meetingDate) && meetingTime == old(meetingTime)
      ensures participants == old(participants) && newParticipant == old(newParticipant)
    {
      meetingName := value;
    }

    /** The date input's `onChange`. */
    method SetMeetingDate(value: string)
      modifies this
      ensures meetingDate == value
      ensures meetingName == old(meetingName) && meetingTime == old(meetingTime)
      ensures participants == old(participants) && newParticipant == old(newParticipant)
    {
      meetingDate := value;
    }

    /** The time input's `onChange`. */
    method SetMeetingTime(value: string)
      modifies this
      ensures meetingTime == value
      ensures meetingName == old(meetingName) && meetingDate == old(meetingDate)
      ensures participants == old(participants) && newParticipant == old(newParticipant)
    {
      meetingTime := value;
    }

    /** The participant input's `onChange`. */
    method SetNewParticipant(value: string)
      modifies this
      ensures newParticipant == value
      ensures meetingName == old(meetingName) && meetingDate == old(meetingDate) && meetingTime == old(meetingTime)
      ensures participants == old(participants)
    {
      newParticipant := value;
    }

    /** `handleAddParticipant`: a blank entry changes nothing; otherwise the entry,
        untrimmed, is appended after every earlier participant and the input cleared. */
    method HandleAddParticipant()
      modifies this
      ensures IsBlank(old(newParticipant)) ==> participants == old(participants) && newParticipant == old(newParticipant)
      ensures !IsBlank(old(newParticipant)) ==>
        participants == old(participants) + [old(newParticipant)] && newParticipant == ""
      ensures meetingName == old(meetingName) && meetingDate == old(meetingDate) && meetingTime == old(meetingTime)
    {
      if IsBlank(newParticipant) {
        return;
      }
      participants := participants + [newParticipant];
      newParticipant := "";
    }

    /** `handleCreateMeeting` with the generated `code` and the clock reading `now`
        (milliseconds since the epoch, what `new Date()` holds): a missing name, date or time
        raises the alert and creates nothing; otherwise the meeting is built from the
        form and the page navigates to its room. */
    method HandleCreateMeeting(code: string, now: int) returns (alert: Option<string>, created: Option<Meeting>, nav: Option<string>)
      ensures !FieldsComplete(meetingName, meetingDate, meetingTime) ==>
        alert == Some(IncompleteAlert) && created.None? && nav.None?
      ensures FieldsComplete(meetingName, meetingDate, meetingTime) ==>
        && alert.None?
        && created == Some(Meeting(meetingName, meetingDate, meetingTime, participants, code, now))
        && nav == Some("/meeting/" + code)
    {
      if meetingName == "" || meetingDate == "" || meetingTime == "" {
        return Some(IncompleteAlert), None, None;
      }
      var meeting := Meeting(meetingName, meetingDate, meetingTime, participants, code, now);
      alert, created, nav := None, Some(meeting), Some("/meeting/" + meeting.code);
    }
  }
}
