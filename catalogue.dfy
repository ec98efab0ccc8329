/** The platform catalogue of the backend (the SUPPORTED_PLATFORMS table of
    backend/server.py): each platform key maps to a display name, a base
    URL, a description, the content types it carries and the casting
    protocols it supports. */
module Catalogue {

  /** The three casting protocols the catalogue records per platform. */
  datatype Protocol = Chromecast | AirPlay | Dlna

  /** The protocols in the order the source writes them in each entry. */
  const Protocols: seq<Protocol> := [Chromecast, AirPlay, Dlna]

  datatype CastSupport = CastSupport(chromecast: bool, airplay: bool, dlna: bool) {
    function Supports(p: Protocol): bool {
      match p
      case Chromecast => chromecast
      case AirPlay => airplay
      case Dlna => dlna
    }

    /** This support record with the flag of `p` switched on. */
    function Grant(p: Protocol): (c: CastSupport)
      ensures c.Supports(p)
      ensures forall q :: q != p ==> c.Supports(q) == Supports(q)
    {
      match p
      case Chromecast => this.(chromecast := true)
      case AirPlay => this.(airplay := true)
      case Dlna => this.(dlna := true)
    }
  }

  const NoCastSupport := CastSupport(false, false, false)

  datatype PlatformInfo = PlatformInfo(
    name: string,
    baseUrl: string,
    description: string,
    contentTypes: seq<string>,
    castSupport: CastSupport)

  type Catalogue = map<string, PlatformInfo>

  const SupportedPlatforms: Catalogue :=
    map[
      "tubi" := PlatformInfo("Tubi", "https://tubitv.com",
        "Free movies and TV shows with ads",
        ["movie", "tv"], CastSupport(true, true, true)),
      "pluto" := PlatformInfo("Pluto TV", "https://pluto.tv",
        "Free streaming TV and movies",
        ["movie", "tv"], CastSupport(true, true, false)),
      "crackle" := PlatformInfo("Crackle", "https://crackle.com",
        "Sony Pictures free streaming",
        ["movie", "tv"], CastSupport(true, true, true)),
      "imdb" := PlatformInfo("IMDb TV", "https://imdb.com/tv",
        "Amazon's free streaming service",
        ["movie", "tv"], CastSupport(true, true, false)),
      "youtube" := PlatformInfo("YouTube Movies", "https://youtube.com/movies",
        "Free movies on YouTube",
        ["movie"], CastSupport(true, true, true)),
      "roku" := PlatformInfo("Roku Channel", "https://therokuchannel.roku.com",
        "Roku's free streaming platform",
        ["movie", "tv"], CastSupport(false, true, true)),
      "vudu" := PlatformInfo("Vudu Free", "https://vudu.com/content/movies/free",
        "Walmart's free movie section",
        ["movie", "tv"], CastSupport(true, true, false)),
      "peacock" := PlatformInfo("Peacock Free", "https://peacocktv.com/free",
        "NBCUniversal's free tier",
        ["movie", "tv"], CastSupport(true, true, false)),
      "plex" := PlatformInfo("Plex TV", "https://plex.tv/en-us/tv",
        "Free movies and TV shows on Plex",
        ["movie", "tv"], CastSupport(true, true, true)),
      "xumo" := PlatformInfo("Xumo Play", "https://xumo.com",
        "Comcast's free streaming service",
        ["movie", "tv"], CastSupport(true, false, true)),
      "philo" := PlatformInfo("Philo Free", "https://philo.com/free",
        "Free content from Philo",
        ["tv"], CastSupport(true, true, false)),
      "freevee" := PlatformInfo("Amazon Freevee", "https://freevee.com",
        "Amazon's ad-supported free service",
        ["movie", "tv"], CastSupport(true, true, false)),
      "kanopy" := PlatformInfo("Kanopy", "https://kanopy.com",
        "Free movies with library card",
        ["movie", "tv"], CastSupport(true, true, false)),
      "hoopla" := PlatformInfo("Hoopla Digital", "https://hoopladigital.com",
        "Library-based free streaming",
        ["movie", "tv"], CastSupport(true, true, false)),
      "cw" := PlatformInfo("The CW", "https://cwtv.com",
        "Free CW shows and episodes",
        ["tv"], CastSupport(true, true, false)),
      "cbssports" := PlatformInfo("CBS Sports HQ", "https://cbssports.com/live",
        "Free sports content",
        ["tv"], CastSupport(true, false, false)),
      "filmrise" := PlatformInfo("FilmRise", "https://filmrise.com",
        "Free classic and indie content",
        ["movie", "tv"], CastSupport(true, true, true)),
      "redbox" := PlatformInfo("Redbox Free", "https://redbox.com/free-live-tv-movies",
        "Redbox free streaming",
        ["movie", "tv"], CastSupport(true, false, true)),
      "stirr" := PlatformInfo("Stirr", "https://stirr.com",
        "Sinclair's free streaming platform",
        ["movie", "tv"], CastSupport(false, false, true)),
      "popcornflix" := PlatformInfo("Popcornflix", "https://popcornflix.com",
        "Free movies and web series",
        ["movie", "tv"], CastSupport(true, true, false)),
      "revtv" := PlatformInfo("Rev TV", "https://rev.tv",
        "Free streaming with ads",
        ["movie", "tv"], CastSupport(false, false, true)),
      "theitembiz" := PlatformInfo("The IT Crowd", "https://theitcrowd.com",
        "Tech and comedy content",
        ["tv"], CastSupport(false, false, false)),
      "newsy" := PlatformInfo("Newsy", "https://newsy.com",
        "Free news and documentaries",
        ["tv"], CastSupport(true, false, false)),
      "haystack" := PlatformInfo("Haystack News", "https://haystack.tv",
        "Local news and content",
        ["tv"], CastSupport(true, true, false)),
      "localish" := PlatformInfo("Localish", "https://localish.com",
        "ABC's local lifestyle content",
        ["tv"], CastSupport(true, true, false)),
      "accuweather" := PlatformInfo("AccuWeather", "https://accuweather.com/tv",
        "Weather and lifestyle content",
        ["tv"], CastSupport(true, false, false)),
      "gametv" := PlatformInfo("Game TV", "https://gametv.com",
        "Gaming and esports content",
        ["tv"], CastSupport(false, false, true)),
      "kidoodle" := PlatformInfo("Kidoodle TV", "https://kidoodle.tv",
        "Safe kids content",
        ["tv"], CastSupport(true, true, false)),
      "vevo" := PlatformInfo("Vevo", "https://vevo.com",
        "Music videos and concerts",
        ["tv"], CastSupport(true, true, true)),
      "retrocrush" := PlatformInfo("RetroCrush", "https://retrocrush.tv",
        "Classic anime and cartoons",
        ["tv"], CastSupport(true, false, false)),
      "dovechannel" := PlatformInfo("Dove Channel", "https://dovechannel.com/free",
        "Family-friendly movies",
        ["movie"], CastSupport(true, true, false)),
      "kocowa" := PlatformInfo("Kocowa TV", "https://kocowa.com/free",
        "Korean content with ads",
        ["tv"], CastSupport(true, false, false)),
      "asiantv" := PlatformInfo("Asian Crush", "https://asiancrush.com",
        "Asian movies and shows",
        ["movie", "tv"], CastSupport(true, true, false)),
      "screambox" := PlatformInfo("Screambox", "https://screambox.com/free",
        "Free horror content",
        ["movie"], CastSupport(false, false, true)),
      "docurama" := PlatformInfo("Docurama", "https://docurama.com/free",
        "Documentary films",
        ["movie"], CastSupport(true, true, false)),
      "stadium" := PlatformInfo("Stadium", "https://watchstadium.com",
        "Free sports programming",
        ["tv"], CastSupport(true, false, true)),
      "comedydynamics" := PlatformInfo("Comedy Dynamics", "https://comedydynamics.com/free",
        "Stand-up and comedy specials",
        ["movie", "tv"], CastSupport(false, true, false))
    ]

  /** The keys of the platforms that carry content of type `contentType`. */
  function EligibleKeys(cat: Catalogue, contentType: string): set<string> {
    set k | k in cat && contentType in cat[k].contentTypes
  }

  /** The catalogue restricted to the platforms that carry `contentType`. */
  function Eligible(cat: Catalogue, contentType: string): (m: Catalogue)
    ensures m.Keys == EligibleKeys(cat, contentType)
    ensures forall k :: k in m ==> m[k] == cat[k]
  {
    map k | k in EligibleKeys(cat, contentType) :: cat[k]
  }

  /** Two distinct platforms that carry a content type make at least two
      eligible keys. */
  lemma TwoEligible(cat: Catalogue, contentType: string, a: string, b: string)
    requires a != b
    requires a in cat && contentType in cat[a].contentTypes
    requires b in cat && contentType in cat[b].contentTypes
    ensures |EligibleKeys(cat, contentType)| >= 2
  {
    assert {a, b} <= EligibleKeys(cat, contentType);
    assert |{a, b}| == 2;
    SubsetCardinality({a, b}, EligibleKeys(cat, contentType));
  }

  lemma SubsetCardinality<T>(a: set<T>, b: set<T>)
    requires a <= b
    ensures |a| <= |b|
  {
    assert b == a + (b - a);
  }

  /** Both content types the backend serves have at least two eligible
      platforms in the shipped catalogue. */
  lemma SupportedPlatformsServeEachType(contentType: string)
    requires contentType == "movie" || contentType == "tv"
    ensures |EligibleKeys(SupportedPlatforms, contentType)| >= 2
  {
    TwoEligible(SupportedPlatforms, contentType, "tubi", "pluto");
  }
}
