/** backend/routes/contact.js: the field rules of the general contact form and of
    the enquiry drawer, the enquiry text composer, and how each handler turns the
    outcomes of the database, email and SMS collaborators into its response.
    Each collaborator is reduced to its outcome, passed in as a parameter: whether
    the database connection is up, what the email send returned (`None` when it
    threw), and the SMS results (`None` when the call threw). */
module ContactRoutes {
  import opened Basics
  import opened Validators
  import opened ContactModel

  datatype ContactForm = ContactForm(name: string, email: string, phone: Option<string>,
                                     organization: Option<string>, category: Option<string>,
                                     message: string, inquiryType: string)

  /** The inquiry types the general form accepts: a subset of the schema's. */
  function FormInquiryType(s: string): (r: Option<InquiryType>)
    ensures r.Some? <==> s in {"general", "quote", "samples"}
    ensures r.Some? ==> ParseInquiryType(s) == r
  {
    if s == "general" then Some(General)
    else if s == "quote" then Some(Quote)
    else if s == "samples" then Some(Samples)
    else None
  }

  /** `contactValidation`. The e-mail address rule is not part of this model. */
  predicate ContactFormValid(f: ContactForm) {
    && ContactNameValid(f.name)
    && (f.phone.None? || PhoneValid(f.phone.value))
    && (f.organization.None? || |Trim(f.organization.value)| <= 200)
    && (f.category.None? || f.category.value in {"schools", "healthcare", "corporate", "accessories", "multiple"})
    && 10 <= |Trim(f.message)| <= 2000
    && FormInquiryType(f.inquiryType).Some?
  }

  /** The form refuses the enquiry and consultation types the schema knows, and
      any message shorter than ten characters. */
  lemma ContactFormExamples(f: ContactForm, shortMessage: string)
    requires ContactFormValid(f) && |shortMessage| < 10
    ensures !ContactFormValid(f.(inquiryType := "enquiry"))
    ensures !ContactFormValid(f.(inquiryType := "consultation"))
    ensures !ContactFormValid(f.(message := shortMessage))
  {
    SchemaOnlyTypes();
    assert |Trim(shortMessage)| < 10;
  }

  lemma SchemaOnlyTypes()
    ensures FormInquiryType("enquiry").None? && FormInquiryType("consultation").None?
  {
    assert "enquiry"[0] != "general"[0] && "enquiry"[0] != "quote"[0] && "enquiry"[0] != "samples"[0];
    assert "consultation"[0] != "general"[0] && "consultation"[0] != "quote"[0] && "consultation"[0] != "samples"[0];
  }

  datatype FormOutcome =
    | FormInvalid
    | FormAccepted(submission: Option<ContactRecord>, emailSent: bool, smsSent: bool)

  predicate AnySuccess(results: Option<seq<bool>>) {
    results.Some? && true in results.value
  }

  /** POST /. Once the fields pass, the answer is success whatever the
      collaborators do: a record is built and saved when the database is
      connected (a failing save is caught, and the unsaved record's id is still
      reported), `emailSent` is what the send returned, and `smsSent` holds when
      some SMS succeeded. `saveOk` is the outcome of the save: Mongoose validates
      the document before the hook runs, so a record the schema refuses keeps the
      defaults of `new Contact` and no follow-up date. */
  method HandleContactForm(f: ContactForm, dbReady: bool, saveOk: bool, emailResult: Option<bool>,
                           smsResults: Option<seq<bool>>, now: int) returns (out: FormOutcome)
    ensures out.FormInvalid? <==> !ContactFormValid(f)
    ensures out.FormAccepted? ==> && (out.submission.Some? <==> dbReady)
                                  && (out.emailSent <==> emailResult == Some(true))
                                  && (out.smsSent <==> AnySuccess(smsResults))
    ensures out.FormAccepted? && out.submission.Some? ==>
      var c := out.submission.value;
      && fresh(c)
      && c.name == Trim(f.name) && c.email == f.email && c.phone == f.phone && c.message == Trim(f.message)
      && Some(c.inquiryType) == FormInquiryType(f.inquiryType)
      && c.status == Pending && !c.isRead
      && (saveOk ==> c.Saved() && c.priority == HookPriority(c.inquiryType, PriorityMedium))
      && (!saveOk ==> c.followUpDate.None? && c.priority == PriorityMedium)
  {
    if !ContactFormValid(f) {
      return FormInvalid;
    }
    var t := FormInquiryType(f.inquiryType).value;
    var submission: Option<ContactRecord> := None;
    if dbReady {
      var c := new ContactRecord(Trim(f.name), f.email, f.phone, Trim(f.message), t);
      if saveOk {
        c.Save(now);
      }
      submission := Some(c);
    }
    var emailSent := emailResult == Some(true);
    var smsSent := smsResults.Some? && true in smsResults.value;
    return FormAccepted(submission, emailSent, smsSent);
  }

  // ---------------------------------------------------------------------------
  // Enquiries

  /** An item of the enquiry drawer; an empty string or an absent quantity (or a
      zero, which JavaScript treats the same) leaves its part out of the text. */
  datatype EnquiryItem = EnquiryItem(name: string, selectedSize: string, quantity: Option<int>, notes: string)

  datatype EnquiryRequest = EnquiryRequest(name: string, email: string, phone: string, message: string,
                                           items: seq<EnquiryItem>)

  predicate QuantityShown(q: Option<int>) { q.Some? && q.value != 0 }

  /** One line of the item list: the name, then the size, quantity and notes parts,
      each slot separated by one space whether or not it is filled. */
  function ItemLine(item: EnquiryItem): string {
    "• " + item.name + ItemParts(item)
  }

  function ItemParts(item: EnquiryItem): string {
    var size := if item.selectedSize != "" then "(Size: " + item.selectedSize + ")" else "";
    var qty := if QuantityShown(item.quantity) then "(Qty: " + IntToString(item.quantity.value) + ")" else "";
    var notes := if item.notes != "" then "- " + item.notes else "";
    " " + size + " " + qty + " " + notes
  }

  /** Every line starts with the bullet and the item's name, and a size, quantity
      or note shows up exactly when it is set. */
  lemma ItemLineShape(item: EnquiryItem)
    ensures var r := ItemLine(item);
      && |r| >= |item.name| + 5 && r[..2] == "• " && r[2..2 + |item.name|] == item.name
    ensures item.selectedSize == "" && !QuantityShown(item.quantity) && item.notes == "" ==>
      ItemLine(item) == "• " + item.name + "   "
  {
    var head := "• " + item.name;
    assert head[..2] == "• " && head[2..] == item.name;
    var r := head + ItemParts(item);
    assert r[..|head|] == head;
    assert r[..2] == head[..2];
    assert r[2..2 + |item.name|] == head[2..];
  }

  function ItemLines(items: seq<EnquiryItem>): (r: seq<string>)
    ensures |r| == |items|
    ensures forall i :: 0 <= i < |items| ==> r[i] == ItemLine(items[i])
  {
    if items == [] then [] else [ItemLine(items[0])] + ItemLines(items[1..])
  }

  const NoMessage := "No additional message provided."

  const EnquiryHeader := "ENQUIRY SUBMISSION:\n\nItems Requested:\n"

  /** The text the enquiry handler stores and mails. */
  function EnquiryText(items: seq<EnquiryItem>, message: string): string {
    EnquiryHeader + Join(ItemLines(items), "\n")
      + "\n\nCustomer Message:\n" + (if message == "" then NoMessage else message)
  }

  /** The item list holds one line per item in order, separated by newlines: a
      list of n + 1 items is the list of the first n, a newline, and the last
      item's line. */
  lemma {:induction false} ItemListAppend(items: seq<EnquiryItem>, last: EnquiryItem)
    requires items != []
    ensures Join(ItemLines(items + [last]), "\n") == Join(ItemLines(items), "\n") + "\n" + ItemLine(last)
  {
    var ls := ItemLines(items);
    assert ItemLines(items + [last]) == ls + [ItemLine(last)];
    JoinSnoc(ls, ItemLine(last), "\n");
  }

  lemma {:induction false} JoinSnoc(parts: seq<string>, x: string, sep: string)
    requires parts != []
    ensures Join(parts + [x], sep) == Join(parts, sep) + sep + x
  {
    if |parts| == 1 {
      assert (parts + [x])[1..] == [x];
    } else {
      assert (parts + [x])[1..] == parts[1..] + [x];
      JoinSnoc(parts[1..], x, sep);
    }
  }

  /** The text ends with the message, or with the fallback sentence when there is
      no message, and starts with the fixed header. */
  lemma EnquiryTextShape(items: seq<EnquiryItem>, message: string)
    ensures var t := EnquiryText(items, message);
      var tail := if message == "" then NoMessage else message;
      && |t| >= |tail| && t[|t| - |tail|..] == tail
      && |t| >= |EnquiryHeader| && t[..|EnquiryHeader|] == EnquiryHeader
  {
    var t := EnquiryText(items, message);
    var tail := if message == "" then NoMessage else message;
    var head := EnquiryHeader + Join(ItemLines(items), "\n") + "\n\nCustomer Message:\n";
    assert t == head + tail;
    assert t == EnquiryHeader + (Join(ItemLines(items), "\n") + "\n\nCustomer Message:\n" + tail);
  }

  lemma ItemLineExample()
    ensures ItemLine(EnquiryItem("Polo", "M", Some(0), "")) == "• Polo (Size: M)  "
    ensures ItemLine(EnquiryItem("Polo", "", None, "navy")) == "• Polo   - navy"
  {
  }

  /** The enquiry validators: a trimmed name of 2..100 characters, a phone that
      matches the pattern (required here), a trimmed message of 1..2000 characters
      and at least one item. */
  predicate EnquiryValid(r: EnquiryRequest) {
    && 2 <= |Trim(r.name)| <= 100
    && PhoneValid(r.phone)
    && 1 <= |Trim(r.message)| <= 2000
    && r.items != []
  }

  /** Since a valid request has a non-empty message, the fallback sentence never
      reaches a stored enquiry. */
  lemma FallbackUnreachable(r: EnquiryRequest)
    requires EnquiryValid(r)
    ensures EnquiryText(r.items, Trim(r.message)) ==
      EnquiryHeader + Join(ItemLines(r.items), "\n") + "\n\nCustomer Message:\n" + Trim(r.message)
  {
  }

  datatype EnquiryOutcome =
    | EnquiryInvalid
    | EnquiryFailed(submission: Option<ContactRecord>)
    | EnquiryAccepted(submission: Option<ContactRecord>, itemCount: nat, emailSent: bool, smsSent: bool)

  /** POST /enquiry, with the SMS notification the route evidently intends: its
      outcome is `smsResults`. Unlike the general form, a throwing email,
      auto-reply or SMS call is not caught and ends in a failure response, after
      the record has already been saved. As on the general form, a save the schema refuses is
      caught (`saveOk` false) and leaves an unsaved record whose id is still
      reported. */
  method HandleEnquiry(r: EnquiryRequest, dbReady: bool, saveOk: bool, emailResult: Option<bool>, autoReplyOk: bool,
                       smsResults: Option<seq<bool>>, now: int) returns (out: EnquiryOutcome)
    ensures out.EnquiryInvalid? <==> !EnquiryValid(r)
    ensures out.EnquiryFailed? <==> EnquiryValid(r) && (emailResult.None? || !autoReplyOk || smsResults.None?)
    ensures !out.EnquiryInvalid? ==> (out.submission.Some? <==> dbReady)
    ensures out.EnquiryAccepted? ==> && out.itemCount == |r.items|
                                     && (out.emailSent <==> emailResult == Some(true))
                                     && (out.smsSent <==> AnySuccess(smsResults))
    ensures !out.EnquiryInvalid? && out.submission.Some? ==>
      var c := out.submission.value;
      && fresh(c)
      && c.name == Trim(r.name) && c.email == r.email && c.phone == Some(r.phone)
      && c.inquiryType == Enquiry && c.message == EnquiryText(r.items, Trim(r.message))
      && (saveOk ==> c.Saved() && c.priority == PriorityHigh)
      && (!saveOk ==> c.followUpDate.None? && c.priority == PriorityMedium)
  {
    if !EnquiryValid(r) {
      return EnquiryInvalid;
    }
    var text := EnquiryText(r.items, Trim(r.message));
    var submission: Option<ContactRecord> := None;
    if dbReady {
      var c := new ContactRecord(Trim(r.name), r.email, Some(r.phone), text, Enquiry);
      if saveOk {
        c.Save(now);
      }
      submission := Some(c);
    }
    if emailResult.None? || !autoReplyOk || smsResults.None? {
      return EnquiryFailed(submission);
    }
    var smsSent := true in smsResults.value;
    return EnquiryAccepted(submission, |r.items|, emailResult.value, smsSent);
  }

  /** POST /enquiry as written: the route calls `sendEnquiryNotification`, which
      the SMS service does not define, so the call throws once both e-mails are
      out and every valid enquiry ends in the failure response, after the record
      was built and, when the save succeeds, stored. */
  method HandleEnquiryAsWritten(r: EnquiryRequest, dbReady: bool, saveOk: bool, emailResult: Option<bool>,
                                autoReplyOk: bool, now: int) returns (out: EnquiryOutcome)
    ensures out.EnquiryInvalid? <==> !EnquiryValid(r)
    ensures EnquiryValid(r) ==> out.EnquiryFailed?
    ensures !out.EnquiryInvalid? ==> (out.submission.Some? <==> dbReady)
    ensures !out.EnquiryInvalid? && out.submission.Some? ==>
      var c := out.submission.value;
      && fresh(c)
      && c.inquiryType == Enquiry && c.message == EnquiryText(r.items, Trim(r.message))
      && (saveOk ==> c.Saved() && c.priority == PriorityHigh)
  {
    out := HandleEnquiry(r, dbReady, saveOk, emailResult, autoReplyOk, None, now);
  }

  /** The failure of HandleEnquiryAsWritten is reached by ordinary requests: a
      name of 2..100 characters and a message of 1..2000 characters with no
      surrounding white space, a phone the pattern accepts and at least one item
      pass every validator of the route. */
  lemma ValidEnquiryWitness(name: string, email: string, phone: string, message: string,
                            items: seq<EnquiryItem>)
    requires 2 <= |name| <= 100 && !IsSpace(name[0]) && !IsSpace(name[|name| - 1])
    requires 1 <= |message| <= 2000 && !IsSpace(message[0]) && !IsSpace(message[|message| - 1])
    requires PhoneValid(phone) && items != []
    ensures EnquiryValid(EnquiryRequest(name, email, phone, message, items))
  {
    TrimUnpadded(name);
    TrimUnpadded(message);
  }
}
