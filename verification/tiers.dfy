/**
 * Cache-tier classification: which `apicache` middleware, if any, the
 * registration loop puts in front of a route. The decision looks at the
 * template string alone and takes the first branch that matches.
 */
module Tiers {
  import opened Values
  import opened Text
  import opened Routes

  datatype Tier = NoCache | TwelveHours | OneDay

  /** The duration string handed to `apicache.middleware`, if the tier caches. */
  function Duration(tier: Tier): (d: Option<string>)
    ensures d.None? <==> tier == NoCache
  {
    match tier
    case NoCache => None
    case TwelveHours => Some("12 hours")
    case OneDay => Some("1 day")
  }

  /** Different tiers hand the middleware different durations, so a registration's duration names its tier. */
  lemma DurationNamesTier(a: Tier, b: Tier)
    ensures Duration(a) == Duration(b) <==> a == b
  {
  }

  /** Identity-scoped namespaces: per-summoner and per-team data. */
  predicate IdentityScoped(t: string) {
    IsPrefix("/summoner", t) || IsPrefix("/team", t)
  }

  /** Reference and listing namespaces: static data, champions, leagues, matches. */
  predicate ReferenceData(t: string) {
    IsPrefix("/static", t) || IsPrefix("/champions", t) || IsPrefix("/leagues", t) || IsPrefix("/match", t)
  }

  /** The exclusion meant for the live-game endpoint: a summoner route ending in `/currentGame`. */
  predicate LiveExcluded(t: string) {
    IsPrefix("/summoner", t) && IsSuffix("/currentGame", t)
  }

  /**
   * No template lies in both namespace families, so the order of the second
   * and third branches of the classification does not matter.
   */
  lemma FamiliesDisjoint(t: string)
    ensures !(IdentityScoped(t) && ReferenceData(t))
  {
    if IsPrefix("/summoner", t) {
      assert t[1] == 's' && t[2] == 'u';
    } else if IsPrefix("/team", t) {
      assert t[1] == 't' && t[2] == 'e';
    }
  }

  /**
   * The registration loop's choice of cache middleware. Exactly one tier
   * per template, characterised independently of the branch order.
   */
  function Classify(t: string): (tier: Tier)
    ensures tier == NoCache <==> LiveExcluded(t) || (!IdentityScoped(t) && !ReferenceData(t))
    ensures tier == OneDay <==> IdentityScoped(t) && !LiveExcluded(t)
    ensures tier == TwelveHours <==> ReferenceData(t)
  {
    FamiliesDisjoint(t);
    if StartsWith(t, "/summoner") && EndsWith(t, "/currentGame") then NoCache
    else if StartsWith(t, "/summoner") || StartsWith(t, "/team") then OneDay
    else if StartsWith(t, "/static") || StartsWith(t, "/champions")
         || StartsWith(t, "/leagues") || StartsWith(t, "/match") then TwelveHours
    else NoCache
  }

  /** No key of the route table ends in `/currentGame`. */
  lemma NoLiveKey()
    ensures forall i :: 0 <= i < |Table| ==> !IsSuffix("/currentGame", Table[i].template)
  {
  }

  /**
   * Hence every summoner route in the table is cached for a day: the
   * live-game exclusion never fires on the table.
   */
  lemma SummonerRoutesCachedOneDay()
    ensures forall i :: 0 <= i < |Table| && IsPrefix("/summoner", Table[i].template) ==>
                          Classify(Table[i].template) == OneDay
  {
    NoLiveKey();
  }

  /** In particular the live-game route `/summoner/:id/activeGame` is cached for a day. */
  lemma ActiveGameCachedOneDay()
    ensures Classify("/summoner/:id/activeGame") == OneDay
  {
  }

  /**
   * Every template under `/static/`, `/leagues/` or `/match/` is cached for
   * twelve hours; this covers those table entries.
   */
  lemma ReferenceRoutesCachedTwelveHours(t: string)
    requires IsPrefix("/static/", t) || IsPrefix("/leagues/", t) || IsPrefix("/match/", t)
    ensures Classify(t) == TwelveHours
  {
    if IsPrefix("/static/", t) {
      PrefixOfPrefix("/static", "/", t);
    } else if IsPrefix("/leagues/", t) {
      PrefixOfPrefix("/leagues", "/", t);
    } else {
      PrefixOfPrefix("/match", "/", t);
    }
  }

  /** The league and match listings are reference data. */
  lemma ListingsTiers()
    ensures forall i :: 1 <= i < |Listings| ==> ReferenceData(Listings[i].template)
  {
  }

  /** The status and featured-games routes lie in no namespace family, so are never cached. */
  lemma UncachedRoutes(t: string)
    requires t == "/status" || t == "/featuredGames"
    ensures Classify(t) == NoCache
  {
    DiffersAt("/summoner", t, 2);
    DiffersAt("/team", t, 1);
    DiffersAt("/static", t, if t == "/status" then 5 else 1);
    DiffersAt("/champions", t, 1);
    DiffersAt("/leagues", t, 1);
    DiffersAt("/match", t, 1);
  }

  /** The tier of table entry `i`, by position. */
  lemma EntryTier(i: int)
    requires 0 <= i < |Table|
    ensures Classify(Table[i].template) ==
              (if i == FeaturedGamesIndex || i == StatusIndex then NoCache
               else if i < StatusIndex then TwelveHours else OneDay)
  {
    TableLayout();
    TableShape();
    var t := Table[i].template;
    if i == FeaturedGamesIndex || i == StatusIndex {
      assert t == "/featuredGames" || t == "/status";
      UncachedRoutes(t);
    } else if i < |Listings| {
      ListingsTiers();
    } else if i < StatusIndex {
      PrefixOfPrefix("/static", "/", t);
    } else {
      PrefixOfPrefix("/summoner", "/", t);
      NoLiveKey();
    }
  }

  /**
   * The tiers over the whole table: only `/featuredGames` (the first entry)
   * and `/status` are uncached, the nineteen static, league and match
   * entries get twelve hours, the twelve summoner entries get one day.
   */
  lemma TableTiers()
    ensures forall i :: 0 <= i < |Table| ==> (Classify(Table[i].template) == NoCache <==> i == FeaturedGamesIndex || i == StatusIndex)
    ensures forall i :: 0 <= i < |Table| ==> (Classify(Table[i].template) == TwelveHours <==> FeaturedGamesIndex < i < StatusIndex)
    ensures forall i :: 0 <= i < |Table| ==> (Classify(Table[i].template) == OneDay <==> SummonersStart <= i)
  {
    forall i | 0 <= i < |Table|
      ensures Classify(Table[i].template) ==
                (if i == FeaturedGamesIndex || i == StatusIndex then NoCache
               else if i < StatusIndex then TwelveHours else OneDay)
    {
      EntryTier(i);
    }
  }
}
