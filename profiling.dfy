/** The request profiler's path filter and the cache-backed store of its
    HTML reports. */
module Profiling {
  import opened Common
  import opened Text
  import opened Cache

  const DefaultExcludedPaths: seq<string> := [
    "/api/internal/static",
    "/api/health",
    "/api/profiling",
    "/api/metrics",
    "/api/internal/docs",
    "/api/internal/openapi.json"
  ]

  /** `excluded_paths or [...]`: None and the empty list both select the
      defaults. */
  function ExcludedPaths(given: Option<seq<string>>): (r: seq<string>)
    ensures given.None? || given.value == [] ==> r == DefaultExcludedPaths
    ensures given.Some? && given.value != [] ==> r == given.value
  {
    if given.Some? && given.value != [] then given.value else DefaultExcludedPaths
  }

  /** Some excluded prefix starts the path. */
  predicate Excluded(paths: seq<string>, path: string) {
    exists i :: 0 <= i < |paths| && StartsWith(path, paths[i])
  }

  class PyInstrumentMiddleware {
    const excludedPaths: seq<string>

    constructor (given: Option<seq<string>>)
      ensures excludedPaths == ExcludedPaths(given)
    {
      excludedPaths := ExcludedPaths(given);
    }

    /** `_should_profile`: scans the prefixes in order and stops at the first
        one the path starts with. */
    method ShouldProfile(path: string) returns (r: bool)
      ensures r <==> !Excluded(excludedPaths, path)
    {
      var i := 0;
      while i < |excludedPaths|
        invariant 0 <= i <= |excludedPaths|
        invariant forall j :: 0 <= j < i ==> !StartsWith(path, excludedPaths[j])
      {
        if StartsWith(path, excludedPaths[i]) {
          return false;
        }
        i := i + 1;
      }
      return true;
    }
  }

  /** The match is on prefixes, so a longer path that shares a default
      prefix is excluded too. */
  lemma HealthzIsExcluded()
    ensures Excluded(DefaultExcludedPaths, "/api/healthz")
  {
    assert StartsWith("/api/healthz", DefaultExcludedPaths[1]);
  }

  lemma UsersIsProfiled()
    ensures !Excluded(DefaultExcludedPaths, "/api/users/me")
  {
    var path := "/api/users/me";
    forall i | 0 <= i < |DefaultExcludedPaths| ensures !StartsWith(path, DefaultExcludedPaths[i]) {
      var p := DefaultExcludedPaths[i];
      if |p| <= |path| {
        assert p[5] != path[5];
        assert path[..|p|][5] == path[5];
      }
    }
  }

  const ProfilePrefix := "profile:"

  /** `_profile_cache_key`. */
  function ProfileCacheKey(profileId: string): (r: string)
    ensures StartsWith(r, ProfilePrefix) && r[|ProfilePrefix|..] == profileId
  {
    ProfilePrefix + profileId
  }

  /** What `get_stats` returns. */
  datatype Stats = Stats(keys: seq<string>, totalProfiles: int, ttlHours: int)

  /** The default `ttl_hours` of the store, the only value the program
      passes. */
  const DefaultTtlHours := 24

  class RedisProfilingStorage {
    const cache: CacheService<string>
    const ttlSeconds: int
    /** The `ttl_hours` the store was made with. */
    ghost const ttlHours: int

    constructor (cache: CacheService<string>, ttlHours: int)
      ensures this.cache == cache && this.ttlHours == ttlHours
      ensures ttlSeconds == ttlHours * 3600
    {
      this.cache := cache;
      this.ttlSeconds := ttlHours * 3600;
      this.ttlHours := ttlHours;
    }

    ghost predicate Valid() {
      ttlSeconds == ttlHours * 3600
    }

    method AddProfile(profileId: string, htmlContent: string)
      modifies cache
      ensures cache.entries == old(cache.entries)[ProfileCacheKey(profileId) := Entry(htmlContent, Some(ttlSeconds))]
    {
      cache.Set(ProfileCacheKey(profileId), htmlContent, Some(ttlSeconds));
    }

    function GetProfile(profileId: string): (r: Option<string>)
      reads cache
      ensures r.Some? <==> ProfileCacheKey(profileId) in cache.entries
      ensures r.Some? ==> r.value == cache.entries[ProfileCacheKey(profileId)].value
    {
      cache.Get(ProfileCacheKey(profileId))
    }

    method DeleteProfile(profileId: string)
      modifies cache
      ensures cache.entries == old(cache.entries) - {ProfileCacheKey(profileId)}
    {
      cache.Delete(ProfileCacheKey(profileId));
    }

    /** `get_stats` over the keys `get_keys_by_pattern("profile:*")` lists:
        one id per key, the number of keys, and the hours the store was
        made with. */
    function GetStats(keys: seq<string>): (r: Stats)
      requires Valid()
      requires forall i :: 0 <= i < |keys| ==> StartsWith(keys[i], ProfilePrefix)
      ensures |r.keys| == |keys| && r.totalProfiles == |keys|
      ensures forall i :: 0 <= i < |keys| ==>
                Contains(keys[i], ProfilePrefix) && r.keys[i] == SecondPiece(keys[i], ProfilePrefix)
      ensures r.ttlHours == ttlHours
    {
      forall i | 0 <= i < |keys| ensures Contains(keys[i], ProfilePrefix) {
        PrefixOccurs(keys[i], ProfilePrefix);
      }
      Stats(seq(|keys|, i requires 0 <= i < |keys| => SecondPiece(keys[i], ProfilePrefix)), |keys|, ttlSeconds / 3600)
    }
  }

  /** `get_profiling_storage`: a store over the given cache with the default
      TTL, so every report lives 86400 seconds and `get_stats` reports 24
      hours. */
  method GetProfilingStorage(cache: CacheService<string>) returns (s: RedisProfilingStorage)
    ensures fresh(s) && s.cache == cache && s.Valid()
    ensures s.ttlHours == DefaultTtlHours && s.ttlSeconds == 86400
  {
    s := new RedisProfilingStorage(cache, DefaultTtlHours);
  }

  /** The id `get_stats` lists for a profile stored under a `uuid4()` id is
      that id. */
  lemma {:induction false} ProfileIdFromKey(profileId: Uuid)
    ensures Contains(ProfileCacheKey(profileId), ProfilePrefix)
    ensures SecondPiece(ProfileCacheKey(profileId), ProfilePrefix) == profileId
  {
    var key := ProfileCacheKey(profileId);
    PrefixOccurs(key, ProfilePrefix);
    assert FindFrom(key, ProfilePrefix, 0) == 0;
    assert key[|ProfilePrefix|..] == profileId;
    forall j | 0 <= j ensures !OccursAt(profileId, ProfilePrefix, j) {
      if j + |ProfilePrefix| <= |profileId| {
        UuidHasNoColonOrSlash(profileId, j + 7);
        assert profileId[j..j + |ProfilePrefix|][7] == profileId[j + 7];
      }
    }
    assert FindFrom(profileId, ProfilePrefix, 0) == -1;
  }
}
