/** The travel agent's deterministic parts: the fallback lists it builds from search results
    when the language model's answer cannot be used, and the caps it applies to the final
    plan. */
module Agent {
  import opened Wrappers
  import opened Text
  import opened Prompts

  datatype Activity = Activity(
    title: string,
    address: string,
    priceTier: string,
    duration: string,
    tags: seq<string>,
    wheelchairAccessible: bool,
    childFriendly: bool,
    description: string)

  datatype Restaurant = Restaurant(
    name: string,
    cuisine: string,
    address: string,
    dietaryOptions: seq<string>,
    priceTier: string,
    description: string)

  datatype DayPlan = DayPlan(day: nat, morning: string, afternoon: string, evening: string)

  /** The fallback activity built from one search result. */
  function FallbackActivity(result: SearchResult, partyType: string): Activity {
    Activity(result.title.GetOr("Activity"), "Address not available", "Information not available",
             "2-3 hours", ["sightseeing"], true, partyType == "family", Take(result.content.GetOr(""), 150))
  }

  /** `create_fallback_activities`: one activity per leading result, at most ten, in order;
      child-friendly exactly for a family party, always wheelchair accessible, the title or
      "Activity", and at most 150 characters of content as description. */
  method CreateFallbackActivities(results: seq<SearchResult>, partyType: string) returns (activities: seq<Activity>)
    ensures |activities| == Min(10, |results|)
    ensures forall i :: 0 <= i < |activities| ==> activities[i] == FallbackActivity(results[i], partyType)
    ensures forall i :: 0 <= i < |activities| ==>
      && (activities[i].childFriendly <==> partyType == "family")
      && activities[i].wheelchairAccessible
      && activities[i].title == results[i].title.GetOr("Activity")
      && |activities[i].description| <= 150
      && activities[i].description <= results[i].content.GetOr("")
  {
    var first := Take(results, 10);
    activities := [];
    var k := 0;
    while k < |first|
      invariant 0 <= k <= |first|
      invariant |activities| == k
      invariant forall i :: 0 <= i < k ==> activities[i] == FallbackActivity(results[i], partyType)
    {
      var result := first[k];
      activities := activities + [Activity(result.title.GetOr("Activity"), "Address not available",
        "Information not available", "2-3 hours", ["sightseeing"], true, partyType == "family",
        Take(result.content.GetOr(""), 150))];
      k := k + 1;
    }
  }

  function FallbackRestaurant(result: SearchResult, dietaryFilters: seq<string>): Restaurant {
    Restaurant(result.title.GetOr("Restaurant"), "Various", "Address not available", dietaryFilters, "$$",
               Take(result.content.GetOr(""), 150))
  }

  /** `create_fallback_restaurants`: one restaurant per leading result, at most eight, in
      order, each offering exactly the given dietary filters. */
  method CreateFallbackRestaurants(results: seq<SearchResult>, dietaryFilters: seq<string>)
    returns (restaurants: seq<Restaurant>)
    ensures |restaurants| == Min(8, |results|)
    ensures forall i :: 0 <= i < |restaurants| ==> restaurants[i] == FallbackRestaurant(results[i], dietaryFilters)
    ensures forall i :: 0 <= i < |restaurants| ==>
      restaurants[i].dietaryOptions == dietaryFilters && restaurants[i].name == results[i].title.GetOr("Restaurant")
      && |restaurants[i].description| <= 150 && restaurants[i].description <= results[i].content.GetOr("")
  {
    var first := Take(results, 8);
    restaurants := [];
    var k := 0;
    while k < |first|
      invariant 0 <= k <= |first|
      invariant |restaurants| == k
      invariant forall i :: 0 <= i < k ==> restaurants[i] == FallbackRestaurant(results[i], dietaryFilters)
    {
      var result := first[k];
      restaurants := restaurants + [Restaurant(result.title.GetOr("Restaurant"), "Various",
        "Address not available", dietaryFilters, "$$", Take(result.content.GetOr(""), 150))];
      k := k + 1;
    }
  }

  function PlanForDay(day: nat, location: string): DayPlan {
    DayPlan(day, "Morning exploration of " + location + ". Visit local attractions and landmarks.",
            "Afternoon activities and lunch at a local restaurant.",
            "Evening leisure time and dinner. Explore the neighborhood.")
  }

  /** `create_fallback_day_plan`: `range(1, nights + 1)` gives one plan per night, days 1 to
      `nights` in order, and none when `nights` is zero or negative. */
  method CreateFallbackDayPlan(nights: int, location: string, partyType: string) returns (plans: seq<DayPlan>)
    ensures |plans| == Max(nights, 0)
    ensures forall i :: 0 <= i < |plans| ==> plans[i] == PlanForDay(i + 1, location) && plans[i].day == i + 1
  {
    plans := [];
    var day := 1;
    while day < nights + 1
      invariant 1 <= day <= Max(nights, 0) + 1
      invariant |plans| == day - 1
      invariant forall i :: 0 <= i < |plans| ==> plans[i] == PlanForDay(i + 1, location)
    {
      plans := plans + [DayPlan(day, "Morning exploration of " + location + ". Visit local attractions and landmarks.",
        "Afternoon activities and lunch at a local restaurant.",
        "Evening leisure time and dinner. Explore the neighborhood.")];
      day := day + 1;
    }
  }

  const BaseChecklist: seq<string> := [
    "Comfortable walking shoes",
    "Weather-appropriate clothing",
    "Light jacket or sweater",
    "Sunscreen and sunglasses",
    "Reusable water bottle",
    "Phone charger and power adapter",
    "Camera or smartphone",
    "Travel documents and ID",
    "Medications and first aid kit",
    "Hand sanitizer and masks"]

  const FamilyExtras: seq<string> := [
    "Snacks for kids",
    "Entertainment for children",
    "Stroller or baby carrier (if needed)"]

  /** `create_fallback_checklist`: the ten fixed items, and for a family party exactly three
      more at the end. */
  method CreateFallbackChecklist(partyType: string) returns (checklist: seq<string>)
    ensures |checklist| == if partyType == "family" then 13 else 10
    ensures checklist[..10] == BaseChecklist
    ensures partyType == "family" ==> checklist[10..] == FamilyExtras
  {
    checklist := BaseChecklist;
    if partyType == "family" {
      checklist := checklist + FamilyExtras;
    }
  }

  // ---------------------------------------------------------------------------------------
  // The caps of create_travel_plan

  /** An event of the plan's local context. */
  datatype PlanEvent = PlanEvent(name: string, url: string, description: string)

  function EventOf(e: SearchResult): PlanEvent {
    PlanEvent(e.title.GetOr("Local Event"), e.url.GetOr(""), Take(e.content.GetOr(""), 200))
  }

  /** `[ {...} for event in events[:5] ]`. */
  function EventsOf(events: seq<SearchResult>): (r: seq<PlanEvent>)
    ensures |r| == |events|
    ensures forall i :: 0 <= i < |r| ==> r[i] == EventOf(events[i])
  {
    if events == [] then [] else [EventOf(events[0])] + EventsOf(events[1..])
  }

  /** The final plan; `weather` is what the weather search returned, kept as text. */
  datatype TravelPlan<A, R> = TravelPlan(
    dayByDayPlan: seq<DayPlan>,
    activities: seq<A>,
    restaurants: seq<R>,
    packingChecklist: seq<string>,
    weather: string,
    events: seq<PlanEvent>,
    transportation: string)

  /** The response `create_travel_plan` compiles: at most 20 activities, 15 restaurants and
      5 events, each a prefix of what it was given, events with descriptions of at most 200
      characters. */
  function CompilePlan<A, R>(dayPlan: seq<DayPlan>, activities: seq<A>, restaurants: seq<R>,
                             checklist: seq<string>, weather: string, events: seq<SearchResult>,
                             location: string): (plan: TravelPlan<A, R>)
    ensures |plan.activities| == Min(20, |activities|) && plan.activities == activities[..|plan.activities|]
    ensures |plan.restaurants| == Min(15, |restaurants|) && plan.restaurants == restaurants[..|plan.restaurants|]
    ensures |plan.events| == Min(5, |events|)
    ensures forall i :: 0 <= i < |plan.events| ==>
      plan.events[i] == EventOf(events[i]) && |plan.events[i].description| <= 200
    ensures plan.dayByDayPlan == dayPlan && plan.packingChecklist == checklist
  {
    TravelPlan(dayPlan, Take(activities, 20), Take(restaurants, 15), checklist, weather, EventsOf(Take(events, 5)),
      "Research public transportation options in " + location + ". Consider getting a local transit pass for convenience.")
  }

  /** A plan built entirely from fallbacks keeps all ten fallback activities and all eight
      fallback restaurants: the caps of the final plan never cut them. The activities come
      from the `pois` search results and the restaurants from the `restaurants` ones. */
  method FallbackPlan(pois: seq<SearchResult>, restaurantResults: seq<SearchResult>,
                      events: seq<SearchResult>, nights: int,
                      location: string, partyType: string, dietaryFilters: seq<string>)
    returns (plan: TravelPlan<Activity, Restaurant>)
    ensures |plan.activities| == Min(10, |pois|) && |plan.restaurants| == Min(8, |restaurantResults|)
    ensures |plan.dayByDayPlan| == Max(nights, 0)
    ensures |plan.packingChecklist| == if partyType == "family" then 13 else 10
    ensures |plan.events| <= 5
  {
    var activities := CreateFallbackActivities(pois, partyType);
    var restaurants := CreateFallbackRestaurants(restaurantResults, dietaryFilters);
    var days := CreateFallbackDayPlan(nights, location, partyType);
    var checklist := CreateFallbackChecklist(partyType);
    plan := CompilePlan(days, activities, restaurants, checklist, "", events, location);
  }
}
