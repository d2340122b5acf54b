/** The static action-plan catalogue of `PulseIndia` (`generateRecommendations`),
    the "Urgent Actions" filter and the `actionItems` headline figure. */
module Recommendations {
  import opened Calendar
  import opened HistoricalData
  import SeriesProperties

  datatype Priority = Critical | High | Medium | Low

  datatype Category = Staffing | Supply | Infrastructure | PublicHealth | Operations

  /** One catalogue entry. The icon component is presentation and left
      out, and so is the display text, which `CopyOf` holds by id; `cost`,
      a display string such as "1.2L" rupees, is held as a whole number of
      tenths of a lakh. */
  datatype Recommendation = Recommendation(
    id: nat,
    priority: Priority,
    category: Category,
    deadline: Date,
    costTenthsOfLakh: nat,
    confidence: int)

  /** The six entries, in declaration order. */
  function Catalogue(): seq<Recommendation> {
    [
      Recommendation(1, Critical, Staffing, Date(2024, 10, 28), 12, 92),
      Recommendation(2, High, Supply, Date(2024, 10, 25), 38, 89),
      Recommendation(3, High, Supply, Date(2024, 10, 26), 21, 87),
      Recommendation(4, Medium, Infrastructure, Date(2024, 10, 29), 5, 85),
      Recommendation(5, Medium, PublicHealth, Date(2024, 10, 27), 3, 78),
      Recommendation(6, Low, Operations, Date(2024, 10, 28), 8, 82)
    ]
  }

  /** The text a catalogue entry displays. */
  datatype Copy = Copy(title: string, description: string, action: string, impact: string)

  /** The text of the entry with id `id`, if there is one. */
  function CopyOf(id: nat): Copy {
    match id
    case 1 => Copy(
      "Immediate Staffing Alert",
      "Schedule 3 additional respiratory therapists and 5 ER nurses for night shifts from Oct 31 - Nov 5",
      "Contact HR by Oct 28",
      "Prevents 40% staff burnout, ensures <15min patient wait times")
    case 2 => Copy(
      "Supply Chain - Respiratory Equipment",
      "Predicted 88% increase in demand for nebulizers, oxygen concentrators, and corticosteroids",
      "Place procurement order by Oct 25",
      "Prevents stockouts, ensures continuous patient care")
    case 3 => Copy(
      "Trauma & Burn Care Supplies",
      "125% surge expected in firecracker-related injuries requiring burn dressings, antiseptics, and surgical supplies",
      "Stock 200% of normal inventory",
      "Ready for 45+ trauma cases")
    case 4 => Copy(
      "ICU & Emergency Bed Allocation",
      "Reserve 8 additional ICU beds and prepare 12 ER overflow spaces",
      "Coordinate with facilities management",
      "Accommodates 35% surge capacity")
    case 5 => Copy(
      "Public Health Advisory Campaign",
      "Launch community SMS/WhatsApp campaign on firecracker safety, asthma management, and when to seek care",
      "Coordinate with marketing & local authorities",
      "Reduces preventable ER visits by 15-20%")
    case 6 => Copy(
      "Extended Operating Hours",
      "Extend radiology and lab hours to 24/7 from Oct 31 - Nov 5",
      "Schedule additional technicians",
      "Faster diagnosis, reduced bottlenecks")
    case _ => Copy("", "", "", "")
  }

  /** `keyMetrics.actionItems`: the number of recommendations. */
  function ActionItems(): (n: nat)
    ensures n == |Catalogue()| == 6
  {
    |Catalogue()|
  }

  /** The predicate of the "Urgent Actions" badge. */
  predicate IsUrgent(r: Recommendation) {
    r.priority == Critical || r.priority == High
  }

  /** `recommendations.filter(r => r.priority === 'critical' || r.priority === 'high')`:
      a new list of the urgent entries, in their original order. */
  function UrgentActions(recs: seq<Recommendation>): (u: seq<Recommendation>)
    ensures |u| <= |recs|
  {
    if recs == [] then []
    else
      (if IsUrgent(recs[0]) then [recs[0]] else []) + UrgentActions(recs[1..])
  }

  /** The number shown on the "Urgent Actions" badge. */
  function UrgentCount(recs: seq<Recommendation>): nat {
    |UrgentActions(recs)|
  }

  /** Ids of a list of recommendations, in order. */
  function Ids(recs: seq<Recommendation>): seq<nat> {
    if recs == [] then [] else [recs[0].id] + Ids(recs[1..])
  }

  /** Sum of the costs, in tenths of a lakh. */
  function TotalCost(recs: seq<Recommendation>): nat {
    if recs == [] then 0 else recs[0].costTenthsOfLakh + TotalCost(recs[1..])
  }

  // ---------------------------------------------------------------------
  // Catalogue invariants

  /** Six entries with ids 1..6 in order, hence pairwise distinct, and
      `actionItems` equal to six. */
  lemma CatalogueIds()
    ensures |Catalogue()| == 6 == ActionItems()
    ensures forall k :: 0 <= k < |Catalogue()| ==> Catalogue()[k].id == k + 1
    ensures forall k, l :: 0 <= k < l < |Catalogue()| ==> Catalogue()[k].id != Catalogue()[l].id
  {
  }

  /** Every confidence is a percentage. */
  lemma ConfidenceIsPercentage()
    ensures forall r :: r in Catalogue() ==> 0 <= r.confidence <= 100
  {
  }

  /** Every deadline is a valid date on or before 29 October 2024. */
  lemma DeadlinesByOctober29()
    ensures forall r :: r in Catalogue() ==>
      ValidDate(r.deadline) && !Precedes(Date(2024, 10, 29), r.deadline)
  {
  }

  /** Every deadline falls strictly before the date of the first
      Diwali-window record of any generated series (index 30, 31 October). */
  lemma DeadlinesPrecedeAnomaly(s: seq<DailyRecord>)
    requires WellFormedSeries(s)
    ensures forall r :: r in Catalogue() ==> Precedes(r.deadline, s[AnomalyFirst].date)
  {
    SeriesProperties.SeriesCalendar(s);
  }

  /** The costs add up to 87 tenths of a lakh, the "8.7L" total proactive
      investment the action-plan summary states. */
  lemma CatalogueCost()
    ensures TotalCost(Catalogue()) == 87
  {
  }

  // ---------------------------------------------------------------------
  // The urgent filter on the catalogue

  /** The filter on a list with a head entry: the head is kept exactly when
      it is urgent, ahead of the filtered rest. */
  lemma UrgentActionsCons(r: Recommendation, rest: seq<Recommendation>)
    ensures UrgentActions([r] + rest) == (if IsUrgent(r) then [r] else []) + UrgentActions(rest)
  {
  }

  /** The filter keeps precisely the urgent entries: everything it returns
      is an urgent entry of its input, and no urgent entry is dropped. */
  lemma {:induction false} UrgentActionsMembers(recs: seq<Recommendation>)
    ensures forall r :: r in UrgentActions(recs) <==> r in recs && IsUrgent(r)
  {
    if recs != [] {
      UrgentActionsMembers(recs[1..]);
      assert recs == [recs[0]] + recs[1..];
    }
  }

  /** The filter keeps every urgent entry as many times as it occurs and
      drops every other entry, so the badge counts the urgent entries with
      their repetitions. */
  lemma {:induction false} UrgentMultiset(recs: seq<Recommendation>)
    ensures forall r :: multiset(UrgentActions(recs))[r] == if IsUrgent(r) then multiset(recs)[r] else 0
  {
    if recs != [] {
      UrgentMultiset(recs[1..]);
      assert recs == [recs[0]] + recs[1..];
      UrgentActionsCons(recs[0], recs[1..]);
    }
  }

  /** `u` can be obtained from `s` by deleting entries, keeping the order of the rest. */
  predicate SubsequenceOf(u: seq<Recommendation>, s: seq<Recommendation>)
    decreases |s|
  {
    if u == [] then true
    else if s == [] then false
    else if u[0] == s[0] then SubsequenceOf(u[1..], s[1..])
    else SubsequenceOf(u, s[1..])
  }

  /** The filter keeps the declaration order: its result is a subsequence of its input. */
  lemma {:induction false} UrgentActionsKeepOrder(recs: seq<Recommendation>)
    ensures SubsequenceOf(UrgentActions(recs), recs)
  {
    if recs != [] {
      var rest := recs[1..];
      UrgentActionsKeepOrder(rest);
      assert recs == [recs[0]] + rest;
      UrgentActionsCons(recs[0], rest);
      var u := UrgentActions(recs);
      if IsUrgent(recs[0]) {
        assert u == [recs[0]] + UrgentActions(rest);
        assert u[0] == recs[0] && u[1..] == UrgentActions(rest);
      } else if u != [] {
        assert u == UrgentActions(rest);
        UrgentActionsMembers(rest);
        assert u[0] in UrgentActions(rest);
        assert u[0] != recs[0];
      }
    }
  }

  /** On the catalogue the filter keeps exactly the first three entries
      (ids 1, 2 and 3: one critical, two high), so the badge reads 3. */
  lemma UrgentOfCatalogue()
    ensures UrgentActions(Catalogue()) == Catalogue()[..3]
    ensures Ids(UrgentActions(Catalogue())) == [1, 2, 3]
    ensures UrgentCount(Catalogue()) == 3
  {
  }

  /** Filtering twice keeps the same entries as filtering once. */
  lemma {:induction false} UrgentIdempotent(recs: seq<Recommendation>)
    ensures UrgentActions(UrgentActions(recs)) == UrgentActions(recs)
  {
    if recs != [] {
      UrgentIdempotent(recs[1..]);
      assert recs == [recs[0]] + recs[1..];
      UrgentActionsCons(recs[0], recs[1..]);
      var rest := UrgentActions(recs[1..]);
      if IsUrgent(recs[0]) {
        UrgentActionsCons(recs[0], rest);
      } else {
        assert UrgentActions(recs) == rest;
      }
    }
  }
}
