/**
 * The route table: each Express path template the gateway serves, paired
 * with the name of the upstream client method that answers it. The object
 * literal's insertion order is kept, because the registration loop walks
 * `Object.keys(routes)` in that order.
 */
module Routes {
  import opened Values
  import opened Text

  datatype Route = Route(template: string, operation: string)

  /** The featured-games, league-ladder and match routes (table entries 0-3). */
  const Listings: seq<Route> := [
    Route("/featuredGames", "getFeaturedGames"),
    Route("/leagues/challenger", "getChallengerLeague"),
    Route("/leagues/master", "getMasterLeague"),
    Route("/match/:id", "getMatchById")
  ]

  /** The static reference-data routes (table entries 4-19). */
  const StaticData: seq<Route> := [
    Route("/static/champions", "getChampionData"),
    Route("/static/champions/:id", "getChampionDataById"),
    Route("/static/items", "getItemData"),
    Route("/static/items/:id", "getItemDataById"),
    Route("/static/languages", "getLanguages"),
    Route("/static/languageStrings", "getLanguageStrings"),
    Route("/static/maps", "getMaps"),
    Route("/static/masteries", "getMasteryData"),
    Route("/static/masteries/:id", "getMasteryDataById"),
    Route("/static/profile-icons", "getProfileIcons"),
    Route("/static/realms", "getRealms"),
    Route("/static/runes", "getRuneData"),
    Route("/static/runes/:id", "getRuneDataById"),
    Route("/static/spells", "getSummonerSpellData"),
    Route("/static/spells/:id", "getSummonerSpellDataById"),
    Route("/static/versions", "getVersions")
  ]

  /** The upstream status route (table entry 20). */
  const StatusRoute: Route := Route("/status", "getStatus")

  /** The per-summoner routes (table entries 21-32). */
  const Summoners: seq<Route> := [
    Route("/summoner/:id/activeGame", "getActiveGameBySummonerId"),
    Route("/summoner/:id/matchList", "getMatchListBySummonerId"),
    Route("/summoner/:id/recentGames", "getRecentGamesBySummonerId"),
    Route("/summoner/:id/championMastery", "getChampionMastery"),
    Route("/summoner/:id/championMastery/score", "getChampionMasteryScore"),
    Route("/summoner/:id/championMastery/:champId", "getChampionMasteryById"),
    Route("/summoner/:id", "getSummonerById"),
    Route("/summoner/by-name/:name", "getSummonerByName"),
    Route("/summoner/:id/league", "getLeagueBySummonerId"),
    Route("/summoner/:id/league/entry", "getLeagueEntryBySummonerId"),
    Route("/summoner/:id/masteries", "getMasteriesBySummonerId"),
    Route("/summoner/:id/runes", "getRunesBySummonerId")
  ]

  /** The whole table, in the order its keys are written. */
  const Table: seq<Route> := Listings + StaticData + [StatusRoute] + Summoners

  /** Positions in the table: the first entry, `/status`, and the first summoner route. */
  const FeaturedGamesIndex: nat := 0
  const StatusIndex: nat := |Listings| + |StaticData|
  const SummonersStart: nat := StatusIndex + 1

  /** The one summoner route keyed by name rather than id. */
  const ByNameTemplate: string := "/summoner/by-name/:name"

  /** The template of the per-identity cache purge route, registered on its own. */
  const ClearTemplate: string := "/summoner/:id/clear"

  /** `t` is a key of the route table. */
  predicate IsKey(t: string) {
    exists i :: 0 <= i < |Table| && Table[i].template == t
  }

  /**
   * Searches `rs` back to front for the route whose template is `t`: of two
   * entries with the same key, an object literal keeps the later one.
   */
  function Find(rs: seq<Route>, t: string): (r: Option<string>)
    ensures r.None? <==> forall i :: 0 <= i < |rs| ==> rs[i].template != t
    ensures r.Some? ==> exists i :: 0 <= i < |rs| && rs[i] == Route(t, r.value)
    ensures r.Some? ==> forall i :: 0 <= i < |rs| && rs[i].template == t && r.value != rs[i].operation ==>
                          exists j :: i < j < |rs| && rs[j].template == t
  {
    if |rs| == 0 then None
    else if rs[|rs| - 1].template == t then Some(rs[|rs| - 1].operation)
    else Find(rs[..|rs| - 1], t)
  }

  /**
   * `routes[t]`: the upstream method named for template `t`, or `None`
   * (JavaScript's `undefined`) when `t` is not a key.
   */
  function Lookup(t: string): (r: Option<string>)
    ensures r.Some? <==> IsKey(t)
    ensures r.Some? ==> Route(t, r.value) in Table
  {
    Find(Table, t)
  }

  /** No two routes of `rs` share a template. */
  predicate Distinct(rs: seq<Route>) {
    forall i, j :: 0 <= i < j < |rs| ==> rs[i].template != rs[j].template
  }

  /** Each group's templates are distinct; checked group by group to keep the proofs small. */
  lemma ListingsDistinct()
    ensures Distinct(Listings)
  {
  }

  lemma StaticDataDistinct()
    ensures Distinct(StaticData)
  {
  }

  lemma SummonersDistinct()
    ensures Distinct(Summoners)
  {
  }

  /** Listing templates do not start with `/s`. */
  lemma ListingsShape()
    ensures forall i :: 0 <= i < |Listings| ==> |Listings[i].template| > 5 && Listings[i].template[1] != 's'
  {
  }

  /** Static templates lie under `/static/`. */
  lemma StaticDataShape()
    ensures forall i :: 0 <= i < |StaticData| ==> IsPrefix("/static/", StaticData[i].template)
  {
  }

  /** Summoner templates lie under `/summoner/`. */
  lemma SummonersShape()
    ensures forall i :: 0 <= i < |Summoners| ==> IsPrefix("/summoner/", Summoners[i].template)
  {
  }

  /** Where each group of routes sits in the table. */
  lemma TableLayout()
    ensures |Table| == SummonersStart + |Summoners|
    ensures forall i :: 0 <= i < |Listings| ==> Table[i] == Listings[i]
    ensures forall i :: |Listings| <= i < StatusIndex ==> Table[i] == StaticData[i - |Listings|]
    ensures Table[StatusIndex] == StatusRoute
    ensures forall i :: SummonersStart <= i < |Table| ==> Table[i] == Summoners[i - SummonersStart]
  {
  }

  /**
   * The table's templates by position: the listing templates, then
   * `/static/…`, `/status`, then `/summoner/…`.
   */
  lemma TableShape()
    ensures |Table| == SummonersStart + |Summoners|
    ensures forall i :: 0 <= i < |Listings| ==> |Table[i].template| > 5 && Table[i].template[1] != 's'
    ensures forall i :: |Listings| <= i < StatusIndex ==> IsPrefix("/static/", Table[i].template)
    ensures Table[StatusIndex].template == "/status"
    ensures forall i :: SummonersStart <= i < |Table| ==> IsPrefix("/summoner/", Table[i].template)
  {
    TableLayout();
    ListingsShape();
    StaticDataShape();
    SummonersShape();
  }

  /**
   * Joining the four groups keeps templates distinct: within a group they
   * already are, and across groups they differ in their first letters or
   * in the namespace word.
   */
  lemma DistinctJoin(a: seq<Route>, b: seq<Route>, c: Route, d: seq<Route>)
    requires Distinct(a) && Distinct(b) && Distinct(d)
    requires forall i :: 0 <= i < |a| ==> |a[i].template| > 5 && a[i].template[1] != 's'
    requires forall i :: 0 <= i < |b| ==> IsPrefix("/static/", b[i].template)
    requires c.template == "/status"
    requires forall i :: 0 <= i < |d| ==> IsPrefix("/summoner/", d[i].template)
    ensures Distinct(a + b + [c] + d)
  {
    var rs := a + b + [c] + d;
    forall i, j | 0 <= i < j < |rs|
      ensures rs[i].template != rs[j].template
    {
      var s, t := rs[i].template, rs[j].template;
      var nb := |a| + |b|;
      if i < |a| && |a| <= j {
        if j < nb {
          assert t[1] == "/static/"[1];
        } else if j > nb {
          assert t[1] == "/summoner/"[1];
        }
      } else if |a| <= i < nb && nb <= j {
        assert s[2] == "/static/"[2] && s[5] == "/static/"[5];
        if j > nb {
          assert t[2] == "/summoner/"[2];
        }
      } else if i == nb {
        assert t[2] == "/summoner/"[2];
      } else if |a| <= i < nb {
        assert s == b[i - |a|].template && t == b[j - |a|].template;
      } else if nb < i {
        assert s == d[i - nb - 1].template && t == d[j - nb - 1].template;
      }
    }
  }

  /** No two entries share a template, so the object literal loses no entry. */
  lemma KeysDistinct()
    ensures Distinct(Table)
  {
    ListingsDistinct();
    StaticDataDistinct();
    SummonersDistinct();
    ListingsShape();
    StaticDataShape();
    SummonersShape();
    DistinctJoin(Listings, StaticData, StatusRoute, Summoners);
  }

  /** Lookup is the function the table describes: each key yields its own method. */
  lemma LookupReturnsEntry(i: int)
    requires 0 <= i < |Table|
    ensures Lookup(Table[i].template) == Some(Table[i].operation)
  {
    KeysDistinct();
  }

  /** Any pair listed in the table is what lookup returns for its template. */
  lemma LookupOf(t: string, op: string)
    requires Route(t, op) in Table
    ensures Lookup(t) == Some(op)
  {
    var i :| 0 <= i < |Table| && Table[i] == Route(t, op);
    LookupReturnsEntry(i);
  }

  /** `/summoner/:id` is answered by `getSummonerById`. */
  lemma LookupSummonerById()
    ensures Lookup("/summoner/:id") == Some("getSummonerById")
  {
    assert Route("/summoner/:id", "getSummonerById") in Summoners;
    TableLayout();
    LookupOf("/summoner/:id", "getSummonerById");
  }

  /** `/static/champions/:id` is answered by `getChampionDataById`. */
  lemma LookupChampionById()
    ensures Lookup("/static/champions/:id") == Some("getChampionDataById")
  {
    assert Route("/static/champions/:id", "getChampionDataById") in StaticData;
    TableLayout();
    LookupOf("/static/champions/:id", "getChampionDataById");
  }

  /** `/summoner/by-name/:name` is answered by `getSummonerByName`. */
  lemma LookupSummonerByName()
    ensures Lookup("/summoner/by-name/:name") == Some("getSummonerByName")
  {
    assert Route("/summoner/by-name/:name", "getSummonerByName") in Summoners;
    TableLayout();
    LookupOf("/summoner/by-name/:name", "getSummonerByName");
  }

  /** The purge route's template and an unmapped path are not table keys. */
  lemma NotKeys()
    ensures !IsKey(ClearTemplate)
    ensures !IsKey("/nonexistent")
  {
  }

  /** So looking either up yields `undefined`. */
  lemma LookupMisses()
    ensures Lookup(ClearTemplate) == None
    ensures Lookup("/nonexistent") == None
  {
    NotKeys();
  }
}
