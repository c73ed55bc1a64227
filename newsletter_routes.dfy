/** The decision logic of backend/routes/newsletter.js over an in-memory store
    of subscribers keyed by (already normalised) email address. Address syntax,
    rate limiting and the confirmation email are not part of this model. */
module NewsletterRoutes {
  import opened Basics
  import opened NewsletterModel

  /** The store the handlers read and update. */
  type Store = map<string, Subscriber>

  predicate StoreValid(store: Store)
    reads store.Values
  {
    forall e :: e in store ==> store[e].email == e && store[e].Valid()
  }

  /** `isIn([...])` on each category. */
  predicate CategoriesValid(categories: seq<string>) {
    forall i :: 0 <= i < |categories| ==> categories[i] in Categories
  }

  /** Only the exact lower-case names pass, so the upper-case labels the footer
      sends are refused. */
  lemma CategoryExamples()
    ensures CategoriesValid(["schools", "general"])
    ensures !CategoriesValid(["SCHOOLS"])
    ensures forall c :: c in Categories ==> Lower(c) == c
  {
    assert "SCHOOLS"[0] != "schools"[0];
    assert "SCHOOLS" !in Categories by {
      assert "SCHOOLS"[0] == 'S';
    }
    assert !CategoriesValid(["SCHOOLS"]) by {
      assert ["SCHOOLS"][0] == "SCHOOLS";
    }
    forall c | c in Categories ensures Lower(c) == c {
      assert forall k :: 0 <= k < |c| ==> !IsUpper(c[k]);
    }
  }

  /** The optional name: 2..100 characters once trimmed. */
  predicate NameValid(name: Option<string>) {
    name.None? || 2 <= |Trim(name.value)| <= 100
  }

  const DefaultPreferences := Preferences(Weekly, true, true, false)

  /** The fields of a record `Newsletter.create` stores: active, with zeroed
      counters and score, no tags and no dates but the subscription date. */
  function InitialRecord(name: string, categories: seq<string>, preferences: Preferences, now: int): (r: Record)
    ensures r.status == Active && r.emailsSent == 0 && r.score == 0 && r.tags == []
    ensures Rescored(r, now) == r
  {
    Record(name, categories, preferences, Active, now, None, None, 0, 0, 0, 0, 0, [], 0, None, 0)
  }

  datatype SubscribeOutcome = SubscribeOutcome(code: int, store: Store)

  /** POST /subscribe. The categories default to ["general"]. An active record is
      refused and left alone; an inactive one is reactivated with the new
      categories and the patch merged over its preferences; an unknown address
      gets a new record with the default preferences under the patch. The
      confirmation e-mail is sent after the write: `confirmationSent` is false
      when that send throws, and the route then answers 500 with the record
      already written. */
  method Subscribe(store: Store, email: string, name: Option<string>, categories: Option<seq<string>>,
                   patch: PreferencePatch, confirmationSent: bool, now: int) returns (out: SubscribeOutcome)
    requires StoreValid(store)
    modifies store.Values
    ensures StoreValid(out.store)
    ensures out.code == 200 || out.code == 400 || out.code == 500
    ensures out.code == 400 <==>
      !NameValid(name) || !CategoriesValid(categories.GetOr(["general"]))
      || (email in store && old(store[email].status) == Active)
    ensures out.code != 400 ==> (out.code == 200 <==> confirmationSent)
    ensures out.code == 400 ==> out.store == store && forall s :: s in store.Values ==> unchanged(s)
    ensures out.code != 400 ==> && email in out.store
                                && out.store[email].status == Active
                                && out.store[email].categories == categories.GetOr(["general"])
                                && out.store[email].subscriptionDate == now
                                && out.store[email].unsubscriptionDate.None?
    ensures out.code != 400 && email in store ==>
      && out.store == store
      && out.store[email].preferences == ApplyPatch(old(store[email].preferences), patch)
      && out.store[email].Fields() ==
           Rescored(old(store[email].Fields()).(status := Active, categories := categories.GetOr(["general"]),
                                                preferences := ApplyPatch(old(store[email].preferences), patch),
                                                subscriptionDate := now, unsubscriptionDate := None), now)
    ensures out.code != 400 && email !in store ==>
      && out.store.Keys == store.Keys + {email}
      && fresh(out.store[email])
      && out.store[email].preferences == ApplyPatch(DefaultPreferences, patch)
      && out.store[email].name == (if name.Some? then Trim(name.value) else "")
      && out.store[email].tags == []
      && out.store[email].Fields() == InitialRecord(if name.Some? then Trim(name.value) else "",
                                                    categories.GetOr(["general"]),
                                                    ApplyPatch(DefaultPreferences, patch), now)
    ensures forall e :: e in store && e != email ==> unchanged(store[e])
  {
    var cats := categories.GetOr(["general"]);
    if !NameValid(name) || !CategoriesValid(cats) {
      return SubscribeOutcome(400, store);
    }
    var code := if confirmationSent then 200 else 500;
    if email in store {
      var s := store[email];
      if s.status == Active {
        return SubscribeOutcome(400, store);
      }
      ReactivateStored(store, email, cats, patch, now);
      return SubscribeOutcome(code, store);
    }
    var updated := AddSubscriber(store, email, if name.Some? then Trim(name.value) else "", cats, patch, now);
    return SubscribeOutcome(code, updated);
  }

  /** The new-address branch of POST /subscribe: a fresh active record with the
      default preferences under the patch, stored under its address. */
  method AddSubscriber(store: Store, email: string, name: string, categories: seq<string>,
                       patch: PreferencePatch, now: int) returns (updated: Store)
    requires StoreValid(store) && email !in store
    ensures StoreValid(updated)
    ensures updated.Keys == store.Keys + {email}
    ensures forall e :: e in store ==> updated[e] == store[e]
    ensures fresh(updated[email])
    ensures updated[email].status == Active && updated[email].categories == categories
    ensures updated[email].subscriptionDate == now && updated[email].unsubscriptionDate.None?
    ensures updated[email].preferences == ApplyPatch(DefaultPreferences, patch)
    ensures updated[email].name == name && updated[email].tags == []
    ensures updated[email].Fields() == InitialRecord(name, categories, ApplyPatch(DefaultPreferences, patch), now)
  {
    var s := new Subscriber(email, name, categories, ApplyPatch(DefaultPreferences, patch), now);
    updated := store[email := s];
    assert forall e :: e in updated && e != email ==> updated[e] == store[e];
  }

  /** The reactivation branch of POST /subscribe on the store: the record under
      `email` is reactivated and no other record changes. */
  method ReactivateStored(store: Store, email: string, categories: seq<string>, patch: PreferencePatch, now: int)
    requires StoreValid(store) && email in store
    modifies store[email]
    ensures StoreValid(store)
    ensures forall e :: e in store && e != email ==> unchanged(store[e])
    ensures var s := store[email];
      && s.status == Active && s.categories == categories && s.subscriptionDate == now
      && s.unsubscriptionDate.None?
      && s.preferences == ApplyPatch(old(s.preferences), patch)
      && s.Fields() == Rescored(old(s.Fields()).(status := Active, categories := categories,
                                                 preferences := ApplyPatch(old(s.preferences), patch),
                                                 subscriptionDate := now, unsubscriptionDate := None), now)
  {
    var s := store[email];
    assert forall e :: e in store && e != email ==> store[e] != s;
    Reactivate(s, categories, patch, now);
  }

  /** The reactivation of one record. */
  method Reactivate(s: Subscriber, categories: seq<string>, patch: PreferencePatch, now: int)
    requires s.Valid()
    modifies s
    ensures s.Valid()
    ensures s.status == Active && s.categories == categories && s.subscriptionDate == now
    ensures s.unsubscriptionDate.None?
    ensures s.preferences == ApplyPatch(old(s.preferences), patch)
    ensures s.Fields() == Rescored(old(s.Fields()).(status := Active, categories := categories,
                                                    preferences := ApplyPatch(old(s.preferences), patch),
                                                    subscriptionDate := now, unsubscriptionDate := None), now)
  {
    s.status := Active;
    s.categories := categories;
    s.preferences := ApplyPatch(s.preferences, patch);
    s.subscriptionDate := now;
    s.unsubscriptionDate := None;
    s.Save(now);
  }

  /** POST /unsubscribe. A reason longer than 200 characters after trimming is
      refused; an unknown address is 404 and one already unsubscribed 400; any
      other status, bounced and complained included, becomes unsubscribed. */
  method Unsubscribe(store: Store, email: string, reason: string, now: int) returns (code: int)
    requires StoreValid(store)
    modifies store.Values
    ensures StoreValid(store)
    ensures code == 400 <==> |Trim(reason)| > 200 || (email in store && old(store[email].status) == Unsubscribed)
    ensures code == 404 <==> |Trim(reason)| <= 200 && email !in store
    ensures code == 200 <==> |Trim(reason)| <= 200 && email in store && old(store[email].status) != Unsubscribed
    ensures code == 200 ==> && store[email].status == Unsubscribed
                            && store[email].unsubscriptionDate == Some(now)
                            && store[email].tags == (if Trim(reason) == "" then old(store[email].tags)
                                                     else old(store[email].tags) + ["unsubscribe-reason-" + Trim(reason)])
    ensures code == 200 ==>
      store[email].Fields() ==
        Rescored(old(store[email].Fields()).(status := Unsubscribed, unsubscriptionDate := Some(now),
                 tags := if Trim(reason) == "" then old(store[email].tags)
                         else old(store[email].tags) + ["unsubscribe-reason-" + Trim(reason)]), now)
    ensures forall e :: e in store && (e != email || code != 200) ==> unchanged(store[e])
  {
    if |Trim(reason)| > 200 {
      return 400;
    }
    if email !in store {
      return 404;
    }
    var s := store[email];
    if s.status == Unsubscribed {
      return 400;
    }
    s.Unsubscribe(Trim(reason), now);
    return 200;
  }

  /** PUT /preferences: only an active subscription may change; the categories
      are replaced only when given and the preferences patched only when given. */
  method UpdatePreferences(store: Store, email: string, categories: Option<seq<string>>,
                           patch: Option<PreferencePatch>, now: int) returns (code: int)
    requires StoreValid(store)
    modifies store.Values
    ensures StoreValid(store)
    ensures code == 400 <==> (categories.Some? && !CategoriesValid(categories.value))
                             || (email in store && old(store[email].status) != Active)
    ensures code == 404 <==> !(categories.Some? && !CategoriesValid(categories.value)) && email !in store
    ensures code == 200 ==> && email in store
                            && store[email].status == Active
                            && store[email].categories == categories.GetOr(old(store[email].categories))
                            && store[email].preferences ==
                                 (if patch.Some? then ApplyPatch(old(store[email].preferences), patch.value)
                                  else old(store[email].preferences))
                            && store[email].tags == old(store[email].tags)
    ensures code == 200 ==>
      store[email].Fields() ==
        Rescored(old(store[email].Fields()).(categories := categories.GetOr(old(store[email].categories)),
                 preferences := if patch.Some? then ApplyPatch(old(store[email].preferences), patch.value)
                                else old(store[email].preferences)), now)
    ensures code == 200 || code == 400 || code == 404
    ensures forall e :: e in store && (e != email || code != 200) ==> unchanged(store[e])
  {
    if categories.Some? && !CategoriesValid(categories.value) {
      return 400;
    }
    if email !in store {
      return 404;
    }
    var s := store[email];
    if s.status != Active {
      return 400;
    }
    if categories.Some? {
      s.categories := categories.value;
    }
    if patch.Some? {
      s.UpdatePreferences(patch.value, now);
    }
    s.Save(now);
    return 200;
  }

  /** The score range each `engagement` filter of GET /subscribers selects. */
  predicate InBand(level: EngagementLevel, score: int) {
    match level
    case High => score >= 80
    case Medium => 50 <= score < 80
    case Low => 20 <= score < 50
    case Inactive => score < 20
  }

  /** The four filter bands partition the scores and each selects exactly the
      subscribers whose `engagementLevel` names it. */
  lemma BandsAgreeWithLevel(level: EngagementLevel, score: int)
    ensures InBand(level, score) <==> LevelOf(score) == level
    ensures InBand(LevelOf(score), score)
  {
  }

  /** The growth rate of the stats route: the percentage change from the previous
      thirty days, rounded half up, and 0 when the previous period is empty. */
  function GrowthRate(current: nat, previous: nat): (r: int)
    ensures previous == 0 ==> r == 0
    ensures previous > 0 ==>
      2 * previous * r <= 200 * (current - previous) + previous < 2 * previous * r + 2 * previous
  {
    if previous > 0 then RoundDiv(100 * (current - previous), previous) else 0
  }

  /** Growth is positive, zero or negative with the change, never below -100, and
      a first period after an empty one reports 0. */
  lemma GrowthRateSign(current: nat, previous: nat)
    ensures current == previous ==> GrowthRate(current, previous) == 0
    ensures current >= previous ==> GrowthRate(current, previous) >= 0
    ensures current <= previous ==> -100 <= GrowthRate(current, previous) <= 0
    ensures GrowthRate(current, 0) == 0
  {
    if previous > 0 {
      var r := GrowthRate(current, previous);
      MulMonotone(2 * previous, r, -1);
      MulMonotone(2 * previous, 1, r);
      MulMonotone(2 * previous, r, -101);
    }
  }

  lemma GrowthRateExamples()
    ensures GrowthRate(15, 10) == 50 && GrowthRate(5, 10) == -50 && GrowthRate(12, 0) == 0
  {
  }
}
