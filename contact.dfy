/** A contact submission, backend/models/Contact.js: the save hook that derives
    the priority from the inquiry type and schedules the follow-up, and the two
    instance methods. Dates are milliseconds since the epoch. */
module ContactModel {
  import opened Basics

  datatype InquiryType = General | Quote | Samples | Consultation | Enquiry

  datatype ContactStatus = Pending | InProgress | Completed | Cancelled

  datatype Priority = PriorityLow | PriorityMedium | PriorityHigh | Urgent

  const HourMillis := 60 * 60 * 1000

  /** The hook's priority rule: quote, enquiry and consultation are high, samples
      medium, and a general inquiry keeps whatever priority it has. */
  function HookPriority(t: InquiryType, current: Priority): (r: Priority)
    ensures t == General ==> r == current
    ensures t in {Quote, Enquiry, Consultation} ==> r == PriorityHigh
    ensures t == Samples ==> r == PriorityMedium
  {
    match t
    case Quote => PriorityHigh
    case Enquiry => PriorityHigh
    case Samples => PriorityMedium
    case Consultation => PriorityHigh
    case General => current
  }

  /** The rule is idempotent, and outside general inquiries the stored priority
      plays no part: a priority set by hand on such a record does not survive
      the next save. */
  lemma HookPriorityLaws(t: InquiryType, p: Priority, q: Priority)
    ensures HookPriority(t, HookPriority(t, p)) == HookPriority(t, p)
    ensures t != General ==> HookPriority(t, p) == HookPriority(t, q)
  {
  }

  /** Hours until the follow-up: 24 for high or urgent, 48 otherwise. */
  function FollowUpHours(p: Priority): (r: nat)
    ensures r == 24 <==> p == PriorityHigh || p == Urgent
    ensures r == 24 || r == 48
  {
    if p == PriorityHigh || p == Urgent then 24 else 48
  }

  /** The values the route's `isIn` and the schema's enum accept for the type. */
  function ParseInquiryType(s: string): (r: Option<InquiryType>)
    ensures r.Some? <==> s in {"general", "quote", "samples", "consultation", "enquiry"}
  {
    if s == "general" then Some(General)
    else if s == "quote" then Some(Quote)
    else if s == "samples" then Some(Samples)
    else if s == "consultation" then Some(Consultation)
    else if s == "enquiry" then Some(Enquiry)
    else None
  }

  function ParseStatus(s: string): (r: Option<ContactStatus>)
    ensures r.Some? <==> s in {"pending", "in-progress", "completed", "cancelled"}
  {
    if s == "pending" then Some(Pending)
    else if s == "in-progress" then Some(InProgress)
    else if s == "completed" then Some(Completed)
    else if s == "cancelled" then Some(Cancelled)
    else None
  }

  class ContactRecord {
    var name: string
    var email: string
    var phone: Option<string>
    var message: string
    var inquiryType: InquiryType
    var status: ContactStatus
    var priority: Priority
    var notes: Option<string>
    var followUpDate: Option<int>
    var isRead: bool

    /** What a save leaves behind: a follow-up date, and the priority the inquiry
        type dictates. */
    predicate Saved()
      reads this
    {
      followUpDate.Some? && priority == HookPriority(inquiryType, priority)
    }

    /** `new Contact({...})` with the schema defaults, not yet saved. */
    constructor (name: string, email: string, phone: Option<string>, message: string, inquiryType: InquiryType)
      ensures this.name == name && this.email == email && this.phone == phone
      ensures this.message == message && this.inquiryType == inquiryType
      ensures status == Pending && priority == PriorityMedium && notes.None?
      ensures followUpDate.None? && !isRead
    {
      this.name := name;
      this.email := email;
      this.phone := phone;
      this.message := message;
      this.inquiryType := inquiryType;
      status := Pending;
      priority := PriorityMedium;
      notes := None;
      followUpDate := None;
      isRead := false;
    }

    /** The pre-save hook: it runs on every save, so the priority is re-derived
        each time, while the follow-up date is only ever set once. */
    method Save(now: int)
      modifies this
      ensures Saved()
      ensures priority == HookPriority(inquiryType, old(priority))
      ensures followUpDate == if old(followUpDate).Some? then old(followUpDate)
                              else Some(now + FollowUpHours(priority) * HourMillis)
      ensures name == old(name) && email == old(email) && phone == old(phone) && message == old(message)
      ensures inquiryType == old(inquiryType) && status == old(status) && notes == old(notes) && isRead == old(isRead)
    {
      priority := HookPriority(inquiryType, priority);
      if followUpDate.None? {
        followUpDate := Some(now + FollowUpHours(priority) * HourMillis);
      }
    }

    /** `markAsRead`: on a saved record only `isRead` changes. */
    method MarkAsRead(now: int)
      requires Saved()
      modifies this
      ensures Saved() && isRead
      ensures priority == old(priority) && followUpDate == old(followUpDate)
      ensures name == old(name) && email == old(email) && phone == old(phone)
      ensures message == old(message) && inquiryType == old(inquiryType)
      ensures status == old(status) && notes == old(notes)
    {
      isRead := true;
      Save(now);
    }

    /** `updateStatus(status, notes)`: the notes are replaced only when non-empty
        ones are given. */
    method UpdateStatus(newStatus: ContactStatus, newNotes: Option<string>, now: int)
      requires Saved()
      modifies this
      ensures Saved() && status == newStatus
      ensures notes == if newNotes.Some? && newNotes.value != "" then newNotes else old(notes)
      ensures priority == old(priority) && followUpDate == old(followUpDate) && isRead == old(isRead)
      ensures name == old(name) && email == old(email) && phone == old(phone)
      ensures message == old(message) && inquiryType == old(inquiryType)
    {
      status := newStatus;
      if newNotes.Some? && newNotes.value != "" {
        notes := newNotes;
      }
      Save(now);
    }
  }

  /** A new record saved at `now`: a quote, enquiry or consultation is followed up
      after a day, samples and general inquiries after two. */
  method CreateAndSave(name: string, email: string, phone: Option<string>, message: string,
                       inquiryType: InquiryType, now: int) returns (c: ContactRecord)
    ensures fresh(c) && c.Saved()
    ensures c.name == name && c.email == email && c.phone == phone
    ensures c.message == message && c.inquiryType == inquiryType
    ensures c.status == Pending && !c.isRead && c.notes.None?
    ensures c.priority == (if inquiryType in {Quote, Enquiry, Consultation} then PriorityHigh else PriorityMedium)
    ensures c.followUpDate == Some(now + (if inquiryType in {Quote, Enquiry, Consultation} then 24 else 48) * HourMillis)
  {
    c := new ContactRecord(name, email, phone, message, inquiryType);
    c.Save(now);
  }
}
