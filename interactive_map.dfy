/** The city map: a fixed list of cities in seven regions, the region buttons that narrow the
    markers shown, the colour a region is drawn in, and the centre that follows a clicked city.
    Coordinates are carried as given and never computed with. */
module InteractiveMap {
  import opened FlightTypes
  import Seqs

  datatype Region = Israel | Europe | America | Asia | MiddleEast | Africa | Oceania

  /** The region's id, as the buttons and the city records spell it. */
  function RegionId(r: Region): string
  {
    match r
    case Israel => "israel"
    case Europe => "europe"
    case America => "america"
    case Asia => "asia"
    case MiddleEast => "middle-east"
    case Africa => "africa"
    case Oceania => "oceania"
  }

  /** Distinct regions have distinct ids, and none is 'all'. */
  lemma RegionIdInjective(a: Region, b: Region)
    ensures RegionId(a) == RegionId(b) ==> a == b
    ensures RegionId(a) != "all"
  {
  }

  datatype City = City(name: string, code: string, country: string, lat: real, lng: real, category: Region)

  /** The cities in the order the component lists them. */
  function Cities(): seq<City>
  {
    IsraelCities() + EuropeCities() + AmericaCities() + AsiaCities() +
    MiddleEastCities() + AfricaCities() + OceaniaCities()
  }

  function IsraelCities(): (r: seq<City>)
    ensures forall i :: 0 <= i < |r| ==> r[i].category == Israel
  {
    [
      City("תל אביב", "TLV", "ישראל", 32.0853, 34.7818, Israel),
      City("ירושלים", "JRS", "ישראל", 31.7683, 35.2137, Israel),
      City("חיפה", "HFA", "ישראל", 32.7940, 34.9896, Israel),
      City("אילת", "ETH", "ישראל", 29.5577, 34.9519, Israel)
    ]
  }

  function EuropeCities(): (r: seq<City>)
    ensures forall i :: 0 <= i < |r| ==> r[i].category == Europe
  {
    [
      City("לונדון", "LON", "בריטניה", 51.5074, -0.1278, Europe),
      City("פריז", "PAR", "צרפת", 48.8566, 2.3522, Europe),
      City("רומא", "ROM", "איטליה", 41.9028, 12.4964, Europe),
      City("מילאנו", "MIL", "איטליה", 45.4642, 9.1900, Europe),
      City("מדריד", "MAD", "ספרד", 40.4168, -3.7038, Europe),
      City("ברצלונה", "BCN", "ספרד", 41.3851, 2.1734, Europe),
      City("אמסטרדם", "AMS", "הולנד", 52.3676, 4.9041, Europe),
      City("ברלין", "BER", "גרמניה", 52.5200, 13.4050, Europe),
      City("מינכן", "MUC", "גרמניה", 48.1351, 11.5820, Europe),
      City("פרנקפורט", "FRA", "גרמניה", 50.1109, 8.6821, Europe),
      City("וינה", "VIE", "אוסטריה", 48.2082, 16.3738, Europe),
      City("פראג", "PRG", "צ'כיה", 50.0755, 14.4378, Europe),
      City("בודפשט", "BUD", "הונגריה", 47.4979, 19.0402, Europe),
      City("ורשה", "WAW", "פולין", 52.2297, 21.0122, Europe)
    ]
  }

  function AmericaCities(): (r: seq<City>)
    ensures forall i :: 0 <= i < |r| ==> r[i].category == America
  {
    [
      City("ניו יורק", "NYC", "ארה\"ב", 40.7128, -74.0060, America),
      City("לוס אנג'לס", "LAX", "ארה\"ב", 34.0522, -118.2437, America),
      City("שיקגו", "CHI", "ארה\"ב", 41.8781, -87.6298, America),
      City("מיאמי", "MIA", "ארה\"ב", 25.7617, -80.1918, America),
      City("טורונטו", "YYZ", "קנדה", 43.6532, -79.3832, America),
      City("מונטריאול", "YUL", "קנדה", 45.5017, -73.5673, America),
      City("ונקובר", "YVR", "קנדה", 49.2827, -123.1207, America)
    ]
  }

  function AsiaCities(): (r: seq<City>)
    ensures forall i :: 0 <= i < |r| ==> r[i].category == Asia
  {
    [
      City("טוקיו", "TYO", "יפן", 35.6762, 139.6503, Asia),
      City("בנגקוק", "BKK", "תאילנד", 13.7563, 100.5018, Asia),
      City("סינגפור", "SIN", "סינגפור", 1.3521, 103.8198, Asia),
      City("הונג קונג", "HKG", "הונג קונג", 22.3193, 114.1694, Asia),
      City("סיאול", "SEL", "דרום קוריאה", 37.5665, 126.9780, Asia),
      City("בייג'ינג", "PEK", "סין", 39.9042, 116.4074, Asia),
      City("שנחאי", "SHA", "סין", 31.2304, 121.4737, Asia),
      City("מומבאי", "BOM", "הודו", 19.0760, 72.8777, Asia),
      City("דלהי", "DEL", "הודו", 28.7041, 77.1025, Asia)
    ]
  }

  function MiddleEastCities(): (r: seq<City>)
    ensures forall i :: 0 <= i < |r| ==> r[i].category == MiddleEast
  {
    [
      City("דובאי", "DXB", "איחוד האמירויות", 25.2048, 55.2708, MiddleEast),
      City("אבו דאבי", "AUH", "איחוד האמירויות", 24.4539, 54.3773, MiddleEast),
      City("דוחה", "DOH", "קטר", 25.2854, 51.5310, MiddleEast),
      City("ריאד", "RUH", "ערב הסעודית", 24.7136, 46.6753, MiddleEast),
      City("ג'דה", "JED", "ערב הסעודית", 21.4858, 39.1925, MiddleEast),
      City("איסטנבול", "IST", "טורקיה", 41.0082, 28.9784, MiddleEast),
      City("אנקרה", "ESB", "טורקיה", 39.9334, 32.8597, MiddleEast)
    ]
  }

  function AfricaCities(): (r: seq<City>)
    ensures forall i :: 0 <= i < |r| ==> r[i].category == Africa
  {
    [
      City("קהיר", "CAI", "מצרים", 30.0444, 31.2357, Africa),
      City("יוהנסבורג", "JNB", "דרום אפריקה", -26.2041, 28.0473, Africa),
      City("קזבלנקה", "CMN", "מרוקו", 33.5731, -7.5898, Africa)
    ]
  }

  function OceaniaCities(): (r: seq<City>)
    ensures forall i :: 0 <= i < |r| ==> r[i].category == Oceania
  {
    [
      City("סידני", "SYD", "אוסטרליה", -33.8688, 151.2093, Oceania),
      City("מלבורן", "MEL", "אוסטרליה", -37.8136, 144.9631, Oceania),
      City("אוקלנד", "AKL", "ניו זילנד", -36.8485, 174.7633, Oceania)
    ]
  }

  /** `category.id === selected`, the test the filter applies to each city. */
  function InCategory(selected: string): City -> bool
  {
    (c: City) => RegionId(c.category) == selected
  }

  /** `filteredCities`: every city for 'all', else the cities of the selected region in list order. */
  function FilteredCities(selected: string): (r: seq<City>)
    ensures selected == "all" ==> r == Cities()
    ensures selected != "all" ==> r == Seqs.Filter(InCategory(selected), Cities())
  {
    if selected == "all" then Cities() else Seqs.Filter(InCategory(selected), Cities())
  }

  /** A region button shows exactly that region's cities, in list order. */
  lemma RegionShowsItsCities(r: Region)
    ensures forall c :: c in FilteredCities(RegionId(r)) <==> c in Cities() && c.category == r
    ensures Seqs.SubseqOf(FilteredCities(RegionId(r)), Cities())
  {
    RegionIdInjective(r, r);
    forall c ensures c in FilteredCities(RegionId(r)) <==> c in Cities() && c.category == r {
      RegionIdInjective(c.category, r);
    }
    Seqs.FilterIsSubseq(InCategory(RegionId(r)), Cities());
  }

  /** An id that names no region shows no city. */
  lemma UnknownCategoryShowsNothing(selected: string)
    requires selected != "all"
    requires forall r: Region :: RegionId(r) != selected
    ensures FilteredCities(selected) == []
  {
    Seqs.FilterNone(InCategory(selected), Cities());
  }

  // ---------------------------------------------------------------------------
  // Region colours
  // ---------------------------------------------------------------------------

  datatype Category = Category(id: string, name: string, color: string)

  /** The region buttons, 'all' first, each with its background colour class. */
  function Categories(): seq<Category>
  {
    [
      Category("all", "כל הערים", "bg-slate-500"),
      Category("israel", "ישראל", "bg-blue-500"),
      Category("europe", "אירופה", "bg-green-500"),
      Category("america", "אמריקה", "bg-red-500"),
      Category("asia", "אסיה", "bg-yellow-500"),
      Category("middle-east", "המזרח התיכון", "bg-purple-500"),
      Category("africa", "אפריקה", "bg-orange-500"),
      Category("oceania", "אוקיאניה", "bg-pink-500")
    ]
  }

  /** `categories.find(c => c.id === id)`: the first category with that id, if any. */
  function Find(cats: seq<Category>, id: string): (r: Option<Category>)
    ensures r.None? <==> forall i :: 0 <= i < |cats| ==> cats[i].id != id
    ensures r.Some? ==> r.value in cats && r.value.id == id
  {
    if cats == [] then None
    else if cats[0].id == id then Some(cats[0])
    else Find(cats[1..], id)
  }

  /** The category found is the first one carrying the id. */
  lemma {:induction false} FindFirst(cats: seq<Category>, id: string, k: nat)
    requires k < |cats| && cats[k].id == id
    requires forall i :: 0 <= i < k ==> cats[i].id != id
    ensures Find(cats, id) == Some(cats[k])
  {
    if k > 0 {
      FindFirst(cats[1..], id, k - 1);
    }
  }

  /** `s.replace(pattern, '')` with a string pattern: the first occurrence goes. */
  function RemoveFirst(s: string, pattern: string): (r: string)
    requires pattern != []
    ensures |s| >= |pattern| && s[..|pattern|] == pattern ==> r == s[|pattern|..]
    decreases |s|
  {
    if |s| < |pattern| then s
    else if s[..|pattern|] == pattern then s[|pattern|..]
    else [s[0]] + RemoveFirst(s[1..], pattern)
  }

  /** A text that never holds the pattern's first character is kept as it is. */
  lemma {:induction false} RemoveFirstAbsent(s: string, pattern: string)
    requires pattern != [] && pattern[0] !in s
    ensures RemoveFirst(s, pattern) == s
    decreases |s|
  {
    if |s| >= |pattern| {
      assert s[0] != pattern[0];
      RemoveFirstAbsent(s[1..], pattern);
    }
  }

  /** `getCategoryColor`: the category's colour class without its 'bg-' prefix, or 'slate'.
      The component defines this helper but never calls it: the buttons use their class as is. */
  function CategoryColor(id: string): (r: string)
    ensures (forall i :: 0 <= i < |Categories()| ==> Categories()[i].id != id) ==> r == "slate"
    ensures forall k :: 0 <= k < |Categories()| && Categories()[k].id == id ==>
      Categories()[k].color == "bg-" + r
  {
    FindIsTheButton(id);
    match Find(Categories(), id)
    case Some(cat) =>
      ColourClasses();
      assert cat.color == cat.color[..3] + cat.color[3..];
      RemoveFirst(cat.color, "bg-")
    case None => "slate"
  }

  /** Every colour class starts with 'bg-'. */
  lemma ColourClasses()
    ensures forall c :: c in Categories() ==> |c.color| >= 3 && c.color[..3] == "bg-"
  {
    forall c | c in Categories()
      ensures |c.color| >= 3 && c.color[..3] == "bg-"
    {
    }
  }

  /** Looking up a button's id finds that button. */
  lemma FindIsTheButton(id: string)
    ensures forall k :: 0 <= k < |Categories()| && Categories()[k].id == id ==>
      Find(Categories(), id) == Some(Categories()[k])
  {
    forall k | 0 <= k < |Categories()| && Categories()[k].id == id
      ensures Find(Categories(), id) == Some(Categories()[k])
    {
      CategoryIdsDistinct();
      FindFirst(Categories(), id, k);
    }
  }

  /** No two buttons share an id. */
  lemma CategoryIdsDistinct()
    ensures forall i, j :: 0 <= i < j < |Categories()| ==> Categories()[i].id != Categories()[j].id
  {
  }

  /** Every button's colour class starts with 'bg-', and its id yields that class with the
      prefix cut off. */
  lemma CategoryColorOf(k: nat)
    requires k < |Categories()|
    ensures Categories()[k].color[..3] == "bg-"
    ensures CategoryColor(Categories()[k].id) == Categories()[k].color[3..]
  {
    var cats := Categories();
    CategoryIdsDistinct();
    assert |cats[k].color| >= 3 && cats[k].color[..3] == "bg-";
    FindFirst(cats, cats[k].id, k);
  }

  /** An id no button carries is drawn in slate. */
  lemma UnknownCategoryIsSlate(id: string)
    requires forall i :: 0 <= i < |Categories()| ==> Categories()[i].id != id
    ensures CategoryColor(id) == "slate"
  {
  }

  // ---------------------------------------------------------------------------
  // The map's state
  // ---------------------------------------------------------------------------

  /** The centre the map opens on: Jerusalem. */
  const JerusalemCenter: (real, real) := (31.7683, 35.2137)

  /** The initial centre is the listed position of Jerusalem. */
  lemma CenterIsJerusalem()
    ensures Cities()[1].name == "ירושלים"
    ensures (Cities()[1].lat, Cities()[1].lng) == JerusalemCenter
  {
  }

  class MapState {
    var selectedCategory: string
    var mapCenter: (real, real)

    /** All regions, centred on Jerusalem. */
    constructor ()
      ensures selectedCategory == "all" && mapCenter == JerusalemCenter
    {
      selectedCategory := "all";
      mapCenter := JerusalemCenter;
    }

    /** A region button. */
    method SelectCategory(id: string)
      modifies this
      ensures selectedCategory == id && mapCenter == old(mapCenter)
    {
      selectedCategory := id;
    }

    /** The markers shown. */
    function Shown(): (r: seq<City>)
      reads this
      ensures forall c :: c in r ==> c in Cities()
    {
      FilteredCities(selectedCategory)
    }

    /** `handleCityClick`: the city is handed to the selection callback (returned here) and
        the map recentres on it; the region choice is kept. */
    method HandleCityClick(city: City) returns (selected: City)
      modifies this
      ensures selected == city
      ensures mapCenter == (city.lat, city.lng) && selectedCategory == old(selectedCategory)
    {
      selected := city;
      mapCenter := (city.lat, city.lng);
    }
  }
}
