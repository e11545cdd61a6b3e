/** The NGO's reported-animals page: the status and urgency filter buttons
    and the rows handed to the table. */
module ReportedAnimalsPage {
  import opened JsText
  import opened JsValues
  import opened Schema

  /** `statusFilter` and `urgencyFilter`; `None` is `null`. */
  datatype Filters = Filters(status: Option<string>, urgency: Option<string>)

  const Unfiltered := Filters(None, None)

  /** A filter takes effect only when it is truthy: `null` and `""` do not. */
  predicate Active(f: Option<string>) {
    f.Some? && f.value != ""
  }

  /** The `filter` callback: drop a report whose status or urgency differs
      from an active filter. */
  predicate Keeps(filters: Filters, animal: ReportedAnimal) {
    && !(Active(filters.status) && animal.status != filters.status.value)
    && !(Active(filters.urgency) && UrgencyName(animal.urgency) != filters.urgency.value)
  }

  /** `filteredAnimals || []`: the rows of the table. While nothing has been
      fetched the table gets no rows. */
  function TableRows(filters: Filters, fetched: Option<seq<ReportedAnimal>>): (rows: seq<ReportedAnimal>)
    ensures fetched.None? ==> rows == []
    ensures fetched.Some? ==> IsSubsequence(rows, fetched.value)
    ensures fetched.Some? ==>
      forall a :: multiset(rows)[a] == if Keeps(filters, a) then multiset(fetched.value)[a] else 0
  {
    if fetched.None? then []
    else
      var keep := a => Keeps(filters, a);
      FilterIsSubsequence(fetched.value, keep);
      FilterMultiset(fetched.value, keep);
      Filter(fetched.value, keep)
  }

  /** With both filters cleared every fetched report is shown, in order. */
  lemma UnfilteredShowsAll(fetched: seq<ReportedAnimal>)
    ensures TableRows(Unfiltered, Some(fetched)) == fetched
  {
    FilterKeepsAll(fetched, a => Keeps(Unfiltered, a));
  }

  /** A button's new filter value: pressing the selected value clears it,
      pressing another selects that one. */
  function Toggle(current: Option<string>, value: string): (r: Option<string>)
    ensures r.None? <==> current == Some(value)
    ensures r.Some? ==> r.value == value
  {
    if current == Some(value) then None else Some(value)
  }

  datatype Button = All | UrgencyButton(urgency: string) | StatusButton(status: string)

  /** The values behind the page's urgency and status buttons. */
  const UrgencyButtonValues: seq<string> := ["urgent", "non-urgent"]
  const StatusButtonValues: seq<string> := ["pending", "in-progress", "resolved", "adoptable"]

  predicate IsPageButton(b: Button) {
    match b
    case All => true
    case UrgencyButton(u) => u in UrgencyButtonValues
    case StatusButton(s) => s in StatusButtonValues
  }

  /** The filters after a click. "All" clears only the status filter; each
      button leaves the other filter as it was. */
  function Press(filters: Filters, b: Button): (r: Filters)
    ensures b.All? ==> r == Filters(None, filters.urgency)
    ensures b.UrgencyButton? ==> r.status == filters.status && r.urgency == Toggle(filters.urgency, b.urgency)
    ensures b.StatusButton? ==> r.urgency == filters.urgency && r.status == Toggle(filters.status, b.status)
  {
    match b
    case All => filters.(status := None)
    case UrgencyButton(u) => filters.(urgency := Toggle(filters.urgency, u))
    case StatusButton(s) => filters.(status := Toggle(filters.status, s))
  }

  /** Each filter is cleared or holds one of its buttons' values. */
  predicate Reachable(filters: Filters) {
    && (filters.status.None? || filters.status.value in StatusButtonValues)
    && (filters.urgency.None? || filters.urgency.value in UrgencyButtonValues)
  }

  /** The page starts unfiltered and its buttons keep the filters to the
      values they offer, so a filter is never the inactive `""`. */
  lemma {:induction false} ClicksStayReachable(clicks: seq<Button>)
    requires forall i :: 0 <= i < |clicks| ==> IsPageButton(clicks[i])
    ensures Reachable(PressAll(Unfiltered, clicks))
    ensures PressAll(Unfiltered, clicks).status.Some? ==> Active(PressAll(Unfiltered, clicks).status)
  {
    if |clicks| > 0 {
      var init := clicks[..|clicks| - 1];
      ClicksStayReachable(init);
      assert forall i :: 0 <= i < |init| ==> init[i] == clicks[i];
    }
  }

  /** The filters after a sequence of clicks. */
  function PressAll(filters: Filters, clicks: seq<Button>): Filters {
    if |clicks| == 0 then filters
    else Press(PressAll(filters, clicks[..|clicks| - 1]), clicks[|clicks| - 1])
  }

  /** After a status button selects a status, every row has that status. */
  lemma SelectedStatusShowsOnlyIt(filters: Filters, s: string, fetched: seq<ReportedAnimal>)
    requires s != "" && filters.status != Some(s)
    ensures forall a :: a in TableRows(Press(filters, StatusButton(s)), Some(fetched)) ==> a.status == s
  {
    var rows := TableRows(Press(filters, StatusButton(s)), Some(fetched));
    forall a | a in rows
      ensures a.status == s
    {
      assert multiset(rows)[a] > 0;
    }
  }
}
