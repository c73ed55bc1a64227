/** The newsletter strip of components/Footer.tsx: the category check boxes and
    the submit step. The subscription call is reduced to whether it reported
    success; the timer that clears the message is not part of this model. */
module Footer {
  import opened Basics
  import NewsletterModel
  import NewsletterRoutes

  /** The labels of the footer's check boxes. */
  const FooterCategories := ["SCHOOLS", "HEALTHCARE", "CORPORATE"]

  /** `prev.filter(c => c !== category)`. */
  function Without(selected: seq<string>, category: string): (r: seq<string>)
    ensures forall x :: x in r <==> x in selected && x != category
    ensures |r| <= |selected|
  {
    if selected == [] then []
    else
      var rest := Without(selected[..|selected| - 1], category);
      var last := selected[|selected| - 1];
      if last == category then rest else rest + [last]
  }

  /** `handleCategoryToggle`: a selected category is removed, every copy of it,
      and any other is appended at the end. */
  function Toggle(selected: seq<string>, category: string): (r: seq<string>)
    ensures category in selected ==> category !in r && forall x :: x != category ==> (x in r <==> x in selected)
    ensures category !in selected ==> r == selected + [category]
  {
    if category in selected then Without(selected, category) else selected + [category]
  }

  predicate NoDuplicates(s: seq<string>) {
    forall i, j :: 0 <= i < j < |s| ==> s[i] != s[j]
  }

  /** Removing an absent category changes nothing. */
  lemma {:induction false} WithoutAbsent(selected: seq<string>, category: string)
    requires category !in selected
    ensures Without(selected, category) == selected
  {
    if selected != [] {
      WithoutAbsent(selected[..|selected| - 1], category);
      assert selected == selected[..|selected| - 1] + [selected[|selected| - 1]];
    }
  }

  /** Removal keeps a duplicate-free selection duplicate free. */
  lemma {:induction false} WithoutNoDuplicates(selected: seq<string>, category: string)
    requires NoDuplicates(selected)
    ensures NoDuplicates(Without(selected, category))
  {
    if selected != [] {
      var init := selected[..|selected| - 1];
      var last := selected[|selected| - 1];
      assert NoDuplicates(init);
      WithoutNoDuplicates(init, category);
      assert last !in init;
    }
  }

  /** Toggling keeps the selection duplicate free, and toggling the same category
      twice gives back the same set of categories: exactly the same list when it
      was not selected, and the same list with it moved to the end when it was. */
  lemma ToggleTwice(selected: seq<string>, category: string)
    requires NoDuplicates(selected)
    ensures NoDuplicates(Toggle(selected, category))
    ensures forall x :: x in Toggle(Toggle(selected, category), category) <==> x in selected
    ensures category !in selected ==> Toggle(Toggle(selected, category), category) == selected
    ensures category in selected ==>
      Toggle(Toggle(selected, category), category) == Without(selected, category) + [category]
  {
    WithoutNoDuplicates(selected, category);
    if category !in selected {
      var once := selected + [category];
      assert once[..|once| - 1] == selected;
      WithoutAbsent(selected, category);
    }
  }

  /** The footer's own state: the address typed, the boxes ticked, the message. */
  datatype FooterState = FooterState(email: string, selected: seq<string>, message: string)

  const ThanksMessage := "Thank you for subscribing!"
  const FailedMessage := "Subscription failed. Please try again."

  /** `handleNewsletterSubmit` given whether the subscription reported success (a
      thrown error counts as failure). An empty address submits nothing. */
  function Submit(s: FooterState, subscribed: bool): (r: FooterState)
    ensures s.email == "" ==> r == s
    ensures s.email != "" && subscribed ==> r == FooterState("", [], ThanksMessage)
    ensures s.email != "" && !subscribed ==> r.email == s.email && r.selected == s.selected && r.message == FailedMessage
  {
    if s.email == "" then s
    else if subscribed then FooterState("", [], ThanksMessage)
    else s.(message := FailedMessage)
  }

  /** The request the footer sends: the address, the ticked labels, and the part
      of the address before '@' as the name. */
  datatype SubscribeRequest = SubscribeRequest(email: string, categories: seq<string>, name: string)

  function RequestOf(s: FooterState): (r: SubscribeRequest)
    ensures r.email == s.email && r.categories == s.selected
    ensures '@' !in r.name && |r.name| <= |s.email|
  {
    SubscribeRequest(s.email, s.selected, BeforeFirst(s.email, '@'))
  }

  /** The footer's labels are upper case while the subscribe route accepts only
      the lower-case names, so any request with a ticked box is refused. */
  lemma TickedBoxesRefused(s: FooterState)
    requires s.selected != [] && forall c :: c in s.selected ==> c in FooterCategories
    ensures !NewsletterRoutes.CategoriesValid(RequestOf(s).categories)
  {
    var c := s.selected[0];
    assert c in FooterCategories;
    assert IsUpper(c[0]) by {
      assert "SCHOOLS"[0] == 'S' && "HEALTHCARE"[0] == 'H' && "CORPORATE"[0] == 'C';
    }
    assert forall d :: d in NewsletterModel.Categories ==> |d| > 0 && !IsUpper(d[0]);
    assert c !in NewsletterModel.Categories;
  }
}
