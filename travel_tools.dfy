/**
 * The three mock travel tools of the ReAct agent and the registry that names
 * them. Each tool is a deterministic lookup in a fixed table.
 */
module TravelTools {
  import opened Text

  const WEATHER_DATA: map<string, string> := map[
    "Tokyo" := "Partly cloudy, 22\U{B0}C, high humidity",
    "Paris" := "Sunny, 18\U{B0}C, comfortable",
    "New York" := "Rainy, 15\U{B0}C, cool",
    "Sydney" := "Clear, 25\U{B0}C, warm"
  ]

  const HOTELS: map<string, map<string, seq<string>>> := map[
    "Tokyo" := map[
      "budget" := ["Capsule Hotel Tokyo", "Shinjuku Business Hotel"],
      "mid" := ["Shibuya Excel Hotel", "Mitsui Garden Hotel"],
      "luxury" := ["Four Seasons Tokyo", "Mandarin Oriental Tokyo"]
    ],
    "Paris" := map[
      "budget" := ["Ace Hotel Paris", "St Christopher Inn"],
      "mid" := ["Marais Boutique Hotel", "Le Meridien"],
      "luxury" := ["Plaza Ath\U{E9}n\U{E9}e", "Ritz Paris"]
    ]
  ]

  const ATTRACTIONS: map<string, string> := map[
    "Tokyo" := "Senso-ji Temple, Shibuya Crossing, Meiji Shrine, teamLab Borderless",
    "Paris" := "Eiffel Tower, Louvre Museum, Notre-Dame, Champs-\U{C9}lys\U{E9}es",
    "New York" := "Statue of Liberty, Central Park, Times Square, Empire State Building"
  ]

  const CITY_NOT_FOUND := "City not found"
  const DEFAULT_BUDGET := "mid"

  /** `check_weather(city)`: the city, a colon, then its weather or the not-found text. */
  function CheckWeather(city: string): string
  {
    city + ": " + (if city in WEATHER_DATA then WEATHER_DATA[city] else CITY_NOT_FOUND)
  }

  /** The (city, budget) pair `search_hotels` reads from its "city, budget" argument. */
  function HotelQuery(arg: string): (string, string)
  {
    var parts := Split(arg, ',');
    (Strip(parts[0]), if |parts| > 1 then Strip(parts[1]) else DEFAULT_BUDGET)
  }

  /** `search_hotels("city, budget")`. */
  function SearchHotels(arg: string): string
  {
    var (city, budget) := HotelQuery(arg);
    if city !in HOTELS then "No hotels found for " + city
    else
      var names := if budget in HOTELS[city] then HOTELS[city][budget] else [];
      Title(budget) + " hotels in " + city + ": " + Join(names, ", ")
  }

  /** `get_attractions(city)`. */
  function GetAttractions(city: string): string
  {
    if city in ATTRACTIONS then ATTRACTIONS[city] else "No attractions data for " + city
  }

  /** `available_tools`: the registry the automation loop dispatches on. */
  const AVAILABLE_TOOLS: map<string, string -> string> := map[
    "check_weather" := CheckWeather,
    "search_hotels" := SearchHotels,
    "get_attractions" := GetAttractions
  ]

  /** The registry holds exactly the three tools under their function names; any other name, such as `book_flight`, is unknown. */
  lemma AvailableToolsRegistry()
    ensures AVAILABLE_TOOLS.Keys == {"check_weather", "search_hotels", "get_attractions"}
    ensures AVAILABLE_TOOLS["check_weather"] == CheckWeather
    ensures AVAILABLE_TOOLS["search_hotels"] == SearchHotels
    ensures AVAILABLE_TOOLS["get_attractions"] == GetAttractions
    ensures "book_flight" !in AVAILABLE_TOOLS
  {
    var names := {"check_weather", "search_hotels", "get_attractions"};
    assert forall name :: name in AVAILABLE_TOOLS <==> name in names;
    assert "book_flight" !in names;
  }

  /** The weather report says "City not found" exactly for the cities missing from the table. */
  lemma CheckWeatherFound(city: string)
    ensures city in WEATHER_DATA <==> CheckWeather(city) != city + ": " + CITY_NOT_FOUND
  {
  }

  /** The attractions lookup falls back to its not-found sentence exactly for unknown cities. */
  lemma GetAttractionsFound(city: string)
    ensures city in ATTRACTIONS <==> GetAttractions(city) != "No attractions data for " + city
  {
  }

  /** The first comma field, trimmed, is the city; the second, trimmed, is the budget. */
  lemma HotelQueryFields(city: string, rest: string)
    requires ',' !in city
    ensures HotelQuery(city + [','] + rest) == (Strip(city), Strip(Split(rest, ',')[0]))
  {
    SplitCons(city, ',', rest);
  }

  /** Without a comma the whole argument, trimmed, is the city and the budget is "mid". */
  lemma HotelQueryDefaultBudget(arg: string)
    requires ',' !in arg
    ensures HotelQuery(arg) == (Strip(arg), DEFAULT_BUDGET)
  {
  }

  /** The documented argument form "<city>, <budget>" reads back as that city and budget. */
  lemma HotelQueryOf(city: string, budget: string)
    requires ',' !in city && ',' !in budget
    requires Trimmed(city) && Trimmed(budget)
    ensures HotelQuery(city + ", " + budget) == (city, budget)
  {
    var rest := " " + budget;
    assert city + ", " + budget == city + [','] + rest;
    assert Split(rest, ',') == [rest] by {
      assert ',' !in rest;
    }
    assert Strip(city) == city by {
      StripIdentity(city);
    }
    assert Strip(rest) == budget by {
      assert rest == " " + budget + "";
      StripPadded(" ", budget, "");
    }
    HotelQueryFields(city, rest);
  }

  /** Fields after the second comma are ignored. */
  lemma {:induction false} SearchHotelsIgnoresExtraFields(city: string, budget: string, extra: string)
    requires ',' !in city && ',' !in budget
    ensures SearchHotels(city + [','] + budget + [','] + extra) == SearchHotels(city + [','] + budget)
  {
    assert city + [','] + budget + [','] + extra == city + [','] + (budget + [','] + extra);
    HotelQueryFields(city, budget + [','] + extra);
    SplitCons(budget, ',', extra);
    HotelQueryFields(city, budget);
  }

  /** An unknown city gives the "No hotels found" sentence, whatever the budget. */
  lemma SearchHotelsUnknownCity(arg: string)
    requires HotelQuery(arg).0 !in HOTELS
    ensures SearchHotels(arg) == "No hotels found for " + HotelQuery(arg).0
  {
  }

  /** A known city with a budget level it does not list gives an empty hotel list. */
  lemma SearchHotelsUnknownBudget(arg: string)
    requires HotelQuery(arg).0 in HOTELS && HotelQuery(arg).1 !in HOTELS[HotelQuery(arg).0]
    ensures SearchHotels(arg) == Title(HotelQuery(arg).1) + " hotels in " + HotelQuery(arg).0 + ": "
  {
  }

  /** A well-formed "<city>, <budget>" request for a listed city and level gives that level's hotels. */
  lemma SearchHotelsListing(city: string, budget: string)
    requires ',' !in city && ',' !in budget && Trimmed(city) && Trimmed(budget)
    requires city in HOTELS && budget in HOTELS[city]
    ensures SearchHotels(city + ", " + budget) == Title(budget) + " hotels in " + city + ": " + Join(HOTELS[city][budget], ", ")
  {
    HotelQueryOf(city, budget);
  }

  /** The weather report for Paris, which the commented-out single-tool example
    (main.py:123-131) feeds back to the agent as its observation. */
  lemma CheckWeatherParis()
    ensures CheckWeather("Paris") == "Paris" + ": " + "Sunny, 18\U{B0}C, comfortable"
  {
    assert "Paris" in WEATHER_DATA && WEATHER_DATA["Paris"] == "Sunny, 18\U{B0}C, comfortable";
  }
}
