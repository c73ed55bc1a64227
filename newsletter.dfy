/** A newsletter subscriber, backend/models/Newsletter.js: its counters, tags,
    preferences and the save hook that recomputes the engagement score. Dates
    are milliseconds since the epoch and every time-dependent operation takes the
    current time as `now`. */
module NewsletterModel {
  import opened Basics

  datatype SubscriptionStatus = Active | Unsubscribed | Bounced | Complained

  datatype Frequency = Daily | Weekly | Monthly

  datatype Preferences = Preferences(frequency: Frequency, productUpdates: bool, promotions: bool, industryNews: bool)

  /** The keys a request supplies; an absent key is `None`. */
  datatype PreferencePatch = PreferencePatch(frequency: Option<Frequency>, productUpdates: Option<bool>,
                                             promotions: Option<bool>, industryNews: Option<bool>)

  datatype EngagementLevel = High | Medium | Low | Inactive

  const DayMillis := 24 * 60 * 60 * 1000

  /** The five category names the schema and the routes accept. */
  const Categories: seq<string> := ["schools", "healthcare", "corporate", "accessories", "general"]

  /** `Object.assign(preferences, patch)` and `{ ...preferences, ...patch }`. */
  function ApplyPatch(p: Preferences, patch: PreferencePatch): (r: Preferences)
    ensures r.frequency == patch.frequency.GetOr(p.frequency)
    ensures r.productUpdates == patch.productUpdates.GetOr(p.productUpdates)
    ensures r.promotions == patch.promotions.GetOr(p.promotions)
    ensures r.industryNews == patch.industryNews.GetOr(p.industryNews)
  {
    Preferences(patch.frequency.GetOr(p.frequency), patch.productUpdates.GetOr(p.productUpdates),
                patch.promotions.GetOr(p.promotions), patch.industryNews.GetOr(p.industryNews))
  }

  /** Applying a patch twice is applying it once, and the empty patch changes
      nothing. */
  lemma ApplyPatchLaws(p: Preferences, patch: PreferencePatch)
    ensures ApplyPatch(ApplyPatch(p, patch), patch) == ApplyPatch(p, patch)
    ensures ApplyPatch(p, PreferencePatch(None, None, None, None)) == p
  {
  }

  /** `openRate` and `clickRate`: 0 before any email, otherwise the count as a
      percentage of the emails sent, rounded half up. */
  function Rate(count: nat, sent: nat): (r: int)
    ensures sent == 0 ==> r == 0
    ensures sent > 0 ==> 2 * sent * r <= 200 * count + sent < 2 * sent * r + 2 * sent
  {
    if sent == 0 then 0 else RoundDiv(100 * count, sent)
  }

  /** A count that does not exceed the emails sent gives a rate within 0..100,
      and every email counted gives exactly 100. */
  lemma RateBounds(count: nat, sent: nat)
    requires count <= sent
    ensures 0 <= Rate(count, sent) <= 100
    ensures sent > 0 && count == sent ==> Rate(count, sent) == 100
  {
    if sent > 0 {
      var r := Rate(count, sent);
      MulMonotone(2 * sent, r, -1);
      MulMonotone(2 * sent, 101, r);
      MulMonotone(2 * sent, r, 99);
    }
  }

  lemma MulMonotone(k: int, a: int, b: int)
    requires k >= 0
    ensures a <= b ==> k * a <= k * b
  {
  }

  /** `engagementLevel`. */
  function LevelOf(score: int): EngagementLevel {
    if score >= 80 then High else if score >= 50 then Medium else if score >= 20 then Low else Inactive
  }

  /** `recencyScore`: 100 less one per whole day since the last email, never
      below 0, and 0 when none was sent. */
  function Recency(lastEmailSent: Option<int>, now: int): (r: int)
    ensures r >= 0
    ensures lastEmailSent.Some? && lastEmailSent.value <= now ==> r <= 100
  {
    match lastEmailSent
    case None => 0
    case Some(t) => Max(0, 100 - (now - t) / DayMillis)
  }

  /** The score the save hook computes: 40% open rate, 40% click rate and 20%
      recency, rounded and capped at 100. */
  function Score(opens: nat, clicks: nat, sent: nat, lastEmailSent: Option<int>, now: int): (r: int)
    requires sent > 0
    ensures 0 <= r <= 100
  {
    var openRate := opens as real / sent as real * 100.0;
    var clickRate := clicks as real / sent as real * 100.0;
    var x := openRate * 0.4 + clickRate * 0.4 + Recency(lastEmailSent, now) as real * 0.2;
    assert x >= 0.0 by { NonNegativeRatio(opens, sent); NonNegativeRatio(clicks, sent); }
    Min(100, RoundReal(x))
  }

  lemma NonNegativeRatio(a: nat, b: nat)
    requires b > 0
    ensures a as real / b as real >= 0.0
  {
  }

  predicate TagsUnique(tags: seq<string>) {
    forall i, j :: 0 <= i < j < |tags| ==> tags[i] != tags[j]
  }

  /** `tags.filter(t => t !== tag)`. */
  function WithoutTag(tags: seq<string>, tag: string): (r: seq<string>)
    ensures forall t :: t in r <==> t in tags && t != tag
    ensures |r| <= |tags|
  {
    if tags == [] then []
    else if tags[0] == tag then WithoutTag(tags[1..], tag)
    else [tags[0]] + WithoutTag(tags[1..], tag)
  }

  /** Every stored field of a subscriber but its address, as one value. */
  datatype Record = Record(name: string, categories: seq<string>, preferences: Preferences,
                           status: SubscriptionStatus, subscriptionDate: int, unsubscriptionDate: Option<int>,
                           lastEmailSent: Option<int>, emailsSent: nat, emailsOpened: nat, emailsClicked: nat,
                           bounceCount: nat, complaintCount: nat, tags: seq<string>, score: int,
                           lastActivity: Option<int>, totalInteractions: nat)

  /** The score recomputation of the save hook: only once an email was sent. */
  function Rescored(r: Record, now: int): (s: Record)
    ensures s.score == if r.emailsSent > 0 then Score(r.emailsOpened, r.emailsClicked, r.emailsSent, r.lastEmailSent, now)
                       else r.score
    ensures s.(score := r.score) == r
  {
    if r.emailsSent > 0 then r.(score := Score(r.emailsOpened, r.emailsClicked, r.emailsSent, r.lastEmailSent, now))
    else r
  }

  class Subscriber {
    const email: string
    var name: string
    var categories: seq<string>
    var preferences: Preferences
    var status: SubscriptionStatus
    /** The status as last stored; differs from `status` exactly when Mongoose's
        `isModified('status')` would hold. */
    var persistedStatus: SubscriptionStatus
    var subscriptionDate: int
    var unsubscriptionDate: Option<int>
    var lastEmailSent: Option<int>
    var emailsSent: nat
    var emailsOpened: nat
    var emailsClicked: nat
    var bounceCount: nat
    var complaintCount: nat
    var tags: seq<string>
    var score: int
    var lastActivity: Option<int>
    var totalInteractions: nat

    /** What holds after every save: the score within the schema's 0..100, the
        status stored, and an unsubscribed record carrying its date. */
    predicate Valid()
      reads this
    {
      && 0 <= score <= 100
      && persistedStatus == status
      && (status == Unsubscribed ==> unsubscriptionDate.Some?)
    }

    /** The stored fields as a value. */
    function Fields(): Record
      reads this
    {
      Record(name, categories, preferences, status, subscriptionDate, unsubscriptionDate, lastEmailSent,
             emailsSent, emailsOpened, emailsClicked, bounceCount, complaintCount, tags, score,
             lastActivity, totalInteractions)
    }

    /** `Newsletter.create` with the schema defaults. */
    constructor (email: string, name: string, categories: seq<string>, preferences: Preferences, now: int)
      ensures Valid()
      ensures this.email == email && this.name == name && this.categories == categories
      ensures this.preferences == preferences && status == Active && subscriptionDate == now
      ensures unsubscriptionDate.None? && lastEmailSent.None? && lastActivity.None?
      ensures emailsSent == 0 && emailsOpened == 0 && emailsClicked == 0
      ensures bounceCount == 0 && complaintCount == 0 && tags == [] && score == 0 && totalInteractions == 0
    {
      this.email := email;
      this.name := name;
      this.categories := categories;
      this.preferences := preferences;
      status := Active;
      persistedStatus := Active;
      subscriptionDate := now;
      unsubscriptionDate := None;
      lastEmailSent := None;
      emailsSent := 0;
      emailsOpened := 0;
      emailsClicked := 0;
      bounceCount := 0;
      complaintCount := 0;
      tags := [];
      score := 0;
      lastActivity := None;
      totalInteractions := 0;
    }

    /** The pre-save hook followed by the write: the score is recomputed only once
        an email was sent, and a change to unsubscribed stamps the date when none
        is set. */
    method Save(now: int)
      modifies this
      requires 0 <= score <= 100
      requires status == Unsubscribed && status == persistedStatus ==> unsubscriptionDate.Some?
      ensures Valid()
      ensures score == if emailsSent > 0 then Score(emailsOpened, emailsClicked, emailsSent, lastEmailSent, now)
                       else old(score)
      ensures unsubscriptionDate ==
        if old(status) != old(persistedStatus) && status == Unsubscribed && old(unsubscriptionDate).None?
        then Some(now) else old(unsubscriptionDate)
      ensures status == old(status) && name == old(name) && categories == old(categories)
      ensures preferences == old(preferences) && subscriptionDate == old(subscriptionDate)
      ensures lastEmailSent == old(lastEmailSent) && emailsSent == old(emailsSent)
      ensures emailsOpened == old(emailsOpened) && emailsClicked == old(emailsClicked)
      ensures bounceCount == old(bounceCount) && complaintCount == old(complaintCount) && tags == old(tags)
      ensures lastActivity == old(lastActivity) && totalInteractions == old(totalInteractions)
    {
      if emailsSent > 0 {
        score := Score(emailsOpened, emailsClicked, emailsSent, lastEmailSent, now);
      }
      if status != persistedStatus && status == Unsubscribed && unsubscriptionDate.None? {
        unsubscriptionDate := Some(now);
      }
      persistedStatus := status;
    }

    /** `unsubscribe(reason)`: a given reason is recorded as a tag, without
        checking for an earlier copy. */
    method Unsubscribe(reason: string, now: int)
      requires Valid()
      modifies this
      ensures Valid()
      ensures status == Unsubscribed && unsubscriptionDate == Some(now)
      ensures tags == if reason == "" then old(tags) else old(tags) + ["unsubscribe-reason-" + reason]
      ensures Fields() == Rescored(old(Fields()).(status := Unsubscribed, unsubscriptionDate := Some(now),
                                   tags := if reason == "" then old(tags) else old(tags) + ["unsubscribe-reason-" + reason]), now)
    {
      status := Unsubscribed;
      unsubscriptionDate := Some(now);
      if reason != "" {
        tags := tags + ["unsubscribe-reason-" + reason];
      }
      Save(now);
    }

    /** `resubscribe`. */
    method Resubscribe(now: int)
      requires Valid()
      modifies this
      ensures Valid()
      ensures status == Active && unsubscriptionDate.None?
      ensures Fields() == Rescored(old(Fields()).(status := Active, unsubscriptionDate := None), now)
    {
      status := Active;
      unsubscriptionDate := None;
      Save(now);
    }

    /** `recordEmailSent`. */
    method RecordEmailSent(now: int)
      requires Valid()
      modifies this
      ensures Valid()
      ensures emailsSent == old(emailsSent) + 1 && lastEmailSent == Some(now)
      ensures score == Score(emailsOpened, emailsClicked, emailsSent, lastEmailSent, now)
      ensures Fields() == Rescored(old(Fields()).(emailsSent := old(emailsSent) + 1, lastEmailSent := Some(now)), now)
    {
      emailsSent := emailsSent + 1;
      lastEmailSent := Some(now);
      Save(now);
    }

    /** `recordEmailOpened`: one interaction. */
    method RecordEmailOpened(now: int)
      requires Valid()
      modifies this
      ensures Valid()
      ensures emailsOpened == old(emailsOpened) + 1 && lastActivity == Some(now)
      ensures totalInteractions == old(totalInteractions) + 1
      ensures Fields() == Rescored(old(Fields()).(emailsOpened := old(emailsOpened) + 1, lastActivity := Some(now),
                                   totalInteractions := old(totalInteractions) + 1), now)
    {
      emailsOpened := emailsOpened + 1;
      lastActivity := Some(now);
      totalInteractions := totalInteractions + 1;
      Save(now);
    }

    /** `recordEmailClicked`: a click counts as two interactions. */
    method RecordEmailClicked(now: int)
      requires Valid()
      modifies this
      ensures Valid()
      ensures emailsClicked == old(emailsClicked) + 1 && lastActivity == Some(now)
      ensures totalInteractions == old(totalInteractions) + 2
      ensures Fields() == Rescored(old(Fields()).(emailsClicked := old(emailsClicked) + 1, lastActivity := Some(now),
                                   totalInteractions := old(totalInteractions) + 2), now)
    {
      emailsClicked := emailsClicked + 1;
      lastActivity := Some(now);
      totalInteractions := totalInteractions + 2;
      Save(now);
    }

    /** `recordBounce`: the third bounce marks the address bounced. */
    method RecordBounce(now: int)
      requires Valid()
      modifies this
      ensures Valid()
      ensures bounceCount == old(bounceCount) + 1
      ensures status == if bounceCount >= 3 then Bounced else old(status)
      ensures Fields() == Rescored(old(Fields()).(bounceCount := old(bounceCount) + 1,
                                   status := if old(bounceCount) + 1 >= 3 then Bounced else old(status)), now)
    {
      bounceCount := bounceCount + 1;
      if bounceCount >= 3 {
        status := Bounced;
      }
      Save(now);
    }

    /** `recordComplaint`: always marks the address complained. */
    method RecordComplaint(now: int)
      requires Valid()
      modifies this
      ensures Valid()
      ensures complaintCount == old(complaintCount) + 1 && status == Complained
      ensures Fields() == Rescored(old(Fields()).(complaintCount := old(complaintCount) + 1, status := Complained), now)
    {
      complaintCount := complaintCount + 1;
      status := Complained;
      Save(now);
    }

    /** `addTag`: the lower-cased tag is present afterwards, exactly once if the
        tags were distinct before. */
    method AddTag(tag: string, now: int)
      requires Valid()
      modifies this
      ensures Valid()
      ensures Lower(tag) in tags
      ensures Lower(tag) in old(tags) ==> tags == old(tags)
      ensures Lower(tag) !in old(tags) ==> tags == old(tags) + [Lower(tag)]
      ensures TagsUnique(old(tags)) ==> TagsUnique(tags)
      ensures Fields() == Rescored(old(Fields()).(tags := tags), now)
    {
      var t := Lower(tag);
      if t !in tags {
        tags := tags + [t];
      }
      Save(now);
    }

    /** `removeTag`: every copy of the lower-cased tag goes, and nothing else. */
    method RemoveTag(tag: string, now: int)
      requires Valid()
      modifies this
      ensures Valid()
      ensures tags == WithoutTag(old(tags), Lower(tag))
      ensures forall t :: t in tags <==> t in old(tags) && t != Lower(tag)
      ensures Fields() == Rescored(old(Fields()).(tags := WithoutTag(old(tags), Lower(tag))), now)
    {
      tags := WithoutTag(tags, Lower(tag));
      Save(now);
    }

    /** `updatePreferences`: only the supplied keys change. */
    method UpdatePreferences(patch: PreferencePatch, now: int)
      requires Valid()
      modifies this
      ensures Valid()
      ensures preferences == ApplyPatch(old(preferences), patch)
      ensures Fields() == Rescored(old(Fields()).(preferences := ApplyPatch(old(preferences), patch)), now)
    {
      preferences := ApplyPatch(preferences, patch);
      Save(now);
    }
  }
}
