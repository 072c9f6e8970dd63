/** The case-study page (src/pages/CaseStudy.tsx): the two built-in case
    studies keyed by route id, the lookup of the `:id` route parameter with
    its fallback entry, the numbering of the design-process steps, and the
    split of each result line into a headline and a body. */
module CaseStudyPage {
  import opened Wrappers
  import opened Fields
  import opened Text
  import opened Lists

  datatype CaseStudyData = CaseStudyData(
    id: string,
    title: string,
    subtitle: string,
    hero_image: string,
    overview: string,
    problem: string,
    process: seq<string>,
    solution: string,
    results: seq<string>,
    images: seq<string>,
    tags: seq<string>,
    duration: string,
    team: string,
    impact: string)

  /** `caseStudyData`: the two built-in case studies, keyed by route id.
      Each field of an entry is a function of the key. */
  const EntryKeys: set<string> := {"fintech-dashboard", "food-delivery-app"}

  function Id(k: string): string
    requires k in EntryKeys
  {
    if k == "fintech-dashboard" then
      "fintech-dashboard"
    else
      "food-delivery-app"
  }

  function Title(k: string): string
    requires k in EntryKeys
  {
    if k == "fintech-dashboard" then
      "FinTech Dashboard"
    else
      "Food Delivery Mobile App"
  }

  function Subtitle(k: string): string
    requires k in EntryKeys
  {
    if k == "fintech-dashboard" then
      "Revolutionizing Investment Portfolio " + "Management"
    else
      "Connecting Local Restaurants with Hungry " + "Customers"
  }

  function HeroImage(k: string): string
    requires k in EntryKeys
  {
    if k == "fintech-dashboard" then
      "https://images.unsplash.com/photo-" + "1551288049-bebda4e38f71" + "?w=1200&h=600&fit=crop"
    else
      "https://images.unsplash.com/photo-" + "1565299624946-b28f40a0ca4b" + "?w=1200&h=600&fit=crop"
  }

  function Overview(k: string): string
    requires k in EntryKeys
  {
    if k == "fintech-dashboard" then
      "A comprehensive financial dashboard "
      + "designed to help investors track their "
      + "portfolios, analyze market trends, and "
      + "make informed investment decisions. The "
      + "platform needed to handle complex "
      + "financial data while maintaining an "
      + "intuitive user experience."
    else
      "A mobile-first food delivery application "
      + "designed to connect local restaurants "
      + "with customers. The app needed to "
      + "provide seamless ordering, real-time "
      + "tracking, and an engaging user "
      + "experience for both customers and "
      + "restaurant partners."
  }

  function Problem(k: string): string
    requires k in EntryKeys
  {
    if k == "fintech-dashboard" then
      "Existing financial platforms were either "
      + "too complex for average investors or "
      + "lacked the depth that serious traders "
      + "needed. Users struggled with information "
      + "overload, poor data visualization, and "
      + "unclear navigation paths."
    else
      "Local restaurants struggled to compete "
      + "with major delivery platforms due to "
      + "high commission fees. Customers wanted a "
      + "more personalized experience with local "
      + "favorites, but existing solutions were "
      + "generic and impersonal."
  }

  function Process(k: string): seq<string>
    requires k in EntryKeys
  {
    if k == "fintech-dashboard" then
      ["User Research & Interviews with 25+ investors",
       "Competitive Analysis of 10+ financial " + "platforms",
       "Information Architecture & User Flow Design",
       "Low-fidelity Wireframing & Prototyping",
       "High-fidelity UI Design & Design System",
       "Usability Testing with 15 participants",
       "Developer Handoff & Implementation Support"]
    else
      ["Market Research & Customer Journey Mapping",
       "Restaurant Partner Interviews",
       "Mobile-first Design Strategy",
       "Wireframing & User Flow Optimization",
       "Interactive Prototyping",
       "Usability Testing across iOS & Android",
       "Design System Creation for Scalability"]
  }

  function Solution(k: string): string
    requires k in EntryKeys
  {
    if k == "fintech-dashboard" then
      "Created a clean, data-driven dashboard "
      + "that prioritizes the most important "
      + "information while providing easy access "
      + "to detailed analytics. Implemented "
      + "progressive disclosure to reduce "
      + "cognitive load and designed custom data "
      + "visualizations for better comprehension."
    else
      "Designed a community-focused app that "
      + "highlights local restaurants and their "
      + "stories. Implemented features like "
      + "restaurant discovery, personalized "
      + "recommendations, real-time order "
      + "tracking, and a loyalty program to "
      + "encourage repeat usage."
  }

  function Results(k: string): seq<string>
    requires k in EntryKeys
  {
    if k == "fintech-dashboard" then
      ["45% increase in user engagement",
       "60% reduction in task completion time",
       "92% user satisfaction score",
       "30% increase in daily active users"]
    else
      ["200+ restaurant partnerships in first 6 " + "months",
       "4.8/5 app store rating",
       "40% month-over-month user growth",
       "25% higher order frequency vs competitors"]
  }

  function Images(k: string): seq<string>
    requires k in EntryKeys
  {
    if k == "fintech-dashboard" then
      ["https://images.unsplash.com/photo-" + "1551288049-bebda4e38f71" + "?w=800&h=500&fit=crop",
       "https://images.unsplash.com/photo-" + "1590283603385-17ffb3a7f29f" + "?w=800&h=500&fit=crop",
       "https://images.unsplash.com/photo-" + "1563013544-824ae1b704d3" + "?w=800&h=500&fit=crop"]
    else
      ["https://images.unsplash.com/photo-" + "1565299624946-b28f40a0ca4b" + "?w=800&h=500&fit=crop",
       "https://images.unsplash.com/photo-" + "1504674900247-0877df9cc836" + "?w=800&h=500&fit=crop",
       "https://images.unsplash.com/photo-" + "1571091718767-18b5b1457add" + "?w=800&h=500&fit=crop"]
  }

  function Tags(k: string): seq<string>
    requires k in EntryKeys
  {
    if k == "fintech-dashboard" then
      ["Dashboard", "FinTech", "Web App", "Data Visualization"]
    else
      ["Mobile App", "Food Tech", "iOS/Android", "Real-time"]
  }

  function Duration(k: string): string
    requires k in EntryKeys
  {
    if k == "fintech-dashboard" then
      "3 months"
    else
      "4 months"
  }

  function Team(k: string): string
    requires k in EntryKeys
  {
    if k == "fintech-dashboard" then
      "1 Designer, 2 Developers, 1 PM"
    else
      "2 Designers, 3 Developers, 1 PM"
  }

  function Impact(k: string): string
    requires k in EntryKeys
  {
    if k == "fintech-dashboard" then
      "45% increase in user engagement"
    else
      "200+ restaurant partnerships"
  }

  /** The `id` written in each entry is its key. */
  lemma IdIsKey(k: string)
    requires k in EntryKeys
    ensures Id(k) == k
  {
  }

  /** `caseStudyData[k]` for a key it holds: every built-in entry is stored
      under its own id. */
  function EntryFor(k: string): (d: CaseStudyData)
    requires k in EntryKeys
    ensures d.id == k
  {
    IdIsKey(k);
    CaseStudyData(Id(k), Title(k), Subtitle(k), HeroImage(k), Overview(k), Problem(k), Process(k),
      Solution(k), Results(k), Images(k), Tags(k), Duration(k), Team(k), Impact(k))
  }

  /** The entry shown for every id the table does not hold. */
  const FallbackKey := "fintech-dashboard"

  /** The names every plain JavaScript object inherits from
      `Object.prototype`, which an index expression `obj[key]` finds even
      though the object does not hold them. */
  const InheritedMembers: set<string> := {
    "constructor", "hasOwnProperty", "isPrototypeOf", "propertyIsEnumerable",
    "toLocaleString", "toString", "valueOf", "__proto__", "__defineGetter__",
    "__defineSetter__", "__lookupGetter__", "__lookupSetter__"}

  /** The fallback is one of the built-in entries, and no built-in key is
      the name of an inherited member. */
  lemma EntriesKeyedById()
    ensures FallbackKey in EntryKeys
    ensures EntryKeys !! InheritedMembers
  {
  }

  /** What the page's lookup expression yields: the built-in entry under a
      key, or an inherited member (a function, or the prototype object),
      which is truthy and so suppresses the fallback. */
  datatype Found =
    | Entry(key: string)
    | InheritedMember(name: string)

  /** `caseStudyData[id || ''] || caseStudyData['fintech-dashboard']` with
      JavaScript's property lookup. */
  function LookupAsWritten(id: Option<string>): (r: Found)
    ensures OrEmpty(id) in EntryKeys ==> r == Entry(OrEmpty(id))
    ensures OrEmpty(id) in InheritedMembers ==> r == InheritedMember(OrEmpty(id))
    ensures OrEmpty(id) !in EntryKeys && OrEmpty(id) !in InheritedMembers ==> r == Entry(FallbackKey)
    ensures r.Entry? ==> r.key in EntryKeys
  {
    var k := OrEmpty(id);
    if k in EntryKeys then Entry(k)
    else if k in InheritedMembers then InheritedMember(k)
    else Entry(FallbackKey)
  }

  /** The page renders only when the lookup gave a case study: on anything
      else `caseStudy.tags.map` throws, as `tags` is undefined. */
  predicate Renders(r: Found) {
    r.Entry?
  }

  /** The route `/case-study/constructor` does not fall back to the default
      case study: the lookup finds the inherited `constructor` function and
      the page fails to render. */
  lemma ConstructorRouteFailsAsWritten()
    ensures LookupAsWritten(Some("constructor")) == InheritedMember("constructor")
    ensures !Renders(LookupAsWritten(Some("constructor")))
  {
  }

  /** The intended lookup: the key of the entry held under the route id, and
      the fallback key for every other id, an absent or empty one included. */
  function Lookup(id: Option<string>): (k: string)
    ensures k in EntryKeys
    ensures id.Some? && id.value in EntryKeys ==> k == id.value
    ensures !(id.Some? && id.value in EntryKeys) ==> k == FallbackKey
  {
    var k := OrEmpty(id);
    if k in EntryKeys then k else FallbackKey
  }

  /** The case study the page shows for a route id: the entry whose own id
      is the looked-up key. */
  function ShownCaseStudy(id: Option<string>): (d: CaseStudyData)
    ensures d.id == Lookup(id)
    ensures id.Some? && id.value in EntryKeys ==> d.id == id.value
  {
    EntryFor(Lookup(id))
  }

  /** The intended lookup always yields a built-in entry, and it agrees with
      the page's expression on every id that is not an inherited member
      name. */
  lemma LookupAlwaysRenders(id: Option<string>)
    ensures Renders(Entry(Lookup(id)))
    ensures OrEmpty(id) !in InheritedMembers ==> LookupAsWritten(id) == Entry(Lookup(id))
  {
    EntriesKeyedById();
  }

  /** One numbered design-process step: the number in the circle and the step. */
  datatype NumberedStep = NumberedStep(badge: string, text: string)

  /** `process.map((step, index) => ...)` with the label `index + 1`: the
      steps in list order, labelled 1, 2, 3 and so on. */
  function NumberedSteps(process: seq<string>): (r: seq<NumberedStep>)
    ensures |r| == |process|
    ensures forall i :: 0 <= i < |r| ==> r[i].text == process[i] && ParseInt(r[i].badge) == Some(i + 1)
  {
    var r := seq(|process|, i requires 0 <= i < |process| => NumberedStep(Decimal(i + 1), process[i]));
    assert forall i :: 0 <= i < |r| ==> ParseInt(r[i].badge) == Some(i + 1) by {
      forall i | 0 <= i < |r| ensures ParseInt(r[i].badge) == Some(i + 1) {
        ParseDecimal(i + 1);
      }
    }
    r
  }

  /** No two steps carry the same label. */
  lemma StepLabelsDistinct(process: seq<string>)
    ensures forall i, j :: 0 <= i < j < |process| ==> NumberedSteps(process)[i].badge != NumberedSteps(process)[j].badge
  {
  }

  /** `result.split(' ')[0]`: the large headline of a result card. */
  function Headline(result: string): (h: string)
    ensures ' ' !in h
    ensures StartsWith(result, h)
  {
    var parts := Split(result, ' ');
    HeadIsPrefix(result);
    parts[0]
  }

  /** `result.split(' ').slice(1).join(' ')`: the text under the headline. */
  function Body(result: string): (b: string)
    ensures |b| < |result| || result == b == ""
  {
    var parts := Split(result, ' ');
    HeadlineAndBody(result);
    Join(parts[1..], ' ')
  }

  lemma HeadIsPrefix(s: string)
    ensures StartsWith(s, Split(s, ' ')[0])
  {
    if ' ' in s {
      var k := IndexOf(s, ' ');
      assert Split(s, ' ')[0] == s[..k];
    }
  }

  /** A result with a space is its headline, one space and its body; a
      result without one is all headline, with an empty body. */
  lemma {:induction false} HeadlineAndBody(result: string)
    ensures ' ' in result ==> Split(result, ' ')[0] + " " + Join(Split(result, ' ')[1..], ' ') == result
    ensures ' ' !in result ==> Split(result, ' ')[0] == result && Join(Split(result, ' ')[1..], ' ') == ""
  {
    var parts := Split(result, ' ');
    if ' ' in result {
      var k := IndexOf(result, ' ');
      var rest := Split(result[k + 1..], ' ');
      assert parts == [result[..k]] + rest;
      assert |parts| >= 2;
      assert parts[1..] == rest;
    }
  }

  /** The two halves put back together, for the result lines that have a
      space. */
  lemma HeadlineBodyRejoin(result: string)
    requires ' ' in result
    ensures Headline(result) + " " + Body(result) == result
  {
    HeadlineAndBody(result);
  }

  lemma HeadlineNoSpace(result: string)
    requires ' ' !in result
    ensures Headline(result) == result && Body(result) == ""
  {
    HeadlineAndBody(result);
  }
}
