/** `get_twitter_keys`: the four Twitter credentials used to post a tweet as
    the shared "default" account or as a city's own account, and the guard of
    `post_twitter` that skips posting when the API key is missing.

    The environment is the parameter `env` (variable name to value). The
    city branch of the source builds its four names from string literals
    that lack the `f` prefix, so `{city}` is never substituted and the names
    themselves are returned as the credentials. `KeysFor` models that code
    as written; `IntendedKeysFor` models what the code evidently means (the
    upper-cased city substituted, the names read from the environment).
    `PostCredentials` is `post_twitter`'s guard over the code as written,
    `IntendedPostCredentials` the same guard over the intended keys. */
module TwitterKeys {
  import opened VaxTypes

  /** The four credentials, in the order the source returns them. A missing
      environment variable is `None` (Python's `os.environ.get`). */
  datatype Credentials = Credentials(apiKey: Option<string>, apiSecret: Option<string>,
                                     accessToken: Option<string>, accessSecret: Option<string>)

  /** Four environment-variable names (or, as written, four literal texts). */
  datatype KeyNames = KeyNames(apiKey: string, apiSecret: string, accessToken: string, accessSecret: string)

  const DefaultCity: string := "default"
  const SeniorAgeLimit: int := 45
  const SeniorSuffix: string := "_45"

  /** The variables holding the shared account's credentials. */
  const DefaultNames: KeyNames :=
    KeyNames("TWITTER_API_KEY", "TWITTER_API_SECRET", "TWITTER_ACCESS_TOKEN", "TWITTER_ACCESS_SECRET")

  /** The suffix of a city account: "_45" for a 45+ configuration, else nothing. */
  function AgeSuffix(cfg: Config): (r: string)
    ensures r == SeniorSuffix <==> AgeLimit(cfg) == SeniorAgeLimit
    ensures r == "" <==> AgeLimit(cfg) != SeniorAgeLimit
  {
    if AgeLimit(cfg) == SeniorAgeLimit then SeniorSuffix else ""
  }

  function WithSuffix(names: KeyNames, suffix: string): KeyNames {
    KeyNames(names.apiKey + suffix, names.apiSecret + suffix, names.accessToken + suffix, names.accessSecret + suffix)
  }

  /** Reading four variables from the environment. */
  function ReadEnv(env: map<string, string>, names: KeyNames): Credentials {
    Credentials(
      if names.apiKey in env then Some(env[names.apiKey]) else None,
      if names.apiSecret in env then Some(env[names.apiSecret]) else None,
      if names.accessToken in env then Some(env[names.accessToken]) else None,
      if names.accessSecret in env then Some(env[names.accessSecret]) else None)
  }

  /** The four texts of the city branch as written: plain literals with a
      literal `{city}` in them, plus the age suffix. */
  function LiteralCityNames(cfg: Config): KeyNames {
    WithSuffix(KeyNames("TWITTER_API_KEY_{city}", "TWITTER_API_SECRET_{city}",
                        "TWITTER_ACCESS_TOKEN_{city}", "TWITTER_ACCESS_SECRET_{city}"),
               AgeSuffix(cfg))
  }

  /** `get_twitter_keys` as written: the shared account's variables for
      "default", the literal texts themselves for any other city. */
  function KeysFor(city: string, cfg: Config, env: map<string, string>): (r: Credentials)
    ensures city == DefaultCity ==> r == ReadEnv(env, DefaultNames)
    ensures city != DefaultCity ==> r.apiKey.Some? && r.apiSecret.Some? && r.accessToken.Some? && r.accessSecret.Some?
  {
    if city == DefaultCity then ReadEnv(env, DefaultNames)
    else
      var n := LiteralCityNames(cfg);
      Credentials(Some(n.apiKey), Some(n.apiSecret), Some(n.accessToken), Some(n.accessSecret))
  }

  // ---------------------------------------------------------------------------
  // The intended city branch

  /** ASCII upper case of one character. */
  function UpperChar(c: char): char {
    if 'a' <= c <= 'z' then (c as int - 32) as char else c
  }

  /** `str.upper`, restricted to ASCII letters. */
  function Upper(s: string): (r: string)
    ensures |r| == |s|
    ensures forall i :: 0 <= i < |s| ==> r[i] == UpperChar(s[i])
  {
    if s == [] then [] else Upper(s[..|s| - 1]) + [UpperChar(s[|s| - 1])]
  }

  /** The variables of a city's own account: the upper-cased city after the
      shared names' prefix, then the age suffix. */
  function CityNames(city: string, cfg: Config): KeyNames {
    WithSuffix(KeyNames("TWITTER_API_KEY_" + Upper(city), "TWITTER_API_SECRET_" + Upper(city),
                        "TWITTER_ACCESS_TOKEN_" + Upper(city), "TWITTER_ACCESS_SECRET_" + Upper(city)),
               AgeSuffix(cfg))
  }

  /** `get_twitter_keys` as evidently intended: every account's credentials
      come from the environment. */
  function IntendedKeysFor(city: string, cfg: Config, env: map<string, string>): (r: Credentials)
    ensures city == DefaultCity ==> r == ReadEnv(env, DefaultNames)
    ensures city != DefaultCity ==> r == ReadEnv(env, CityNames(city, cfg))
  {
    ReadEnv(env, if city == DefaultCity then DefaultNames else CityNames(city, cfg))
  }

  /** `post_twitter`'s guard over the keys as written: nothing is posted
      unless the configuration enables Twitter and the account's API key is
      present; otherwise the four credentials the tweet is posted with. A
      city's literal key is always present, so a city account passes the
      guard whenever Twitter is enabled, whatever the environment holds. */
  function PostCredentials(cfg: Config, city: string, env: map<string, string>): (r: Option<Credentials>)
    ensures city == DefaultCity ==> (r.Some? <==> cfg.postToTwitter == Some(true) && "TWITTER_API_KEY" in env)
    ensures city != DefaultCity ==> (r.Some? <==> cfg.postToTwitter == Some(true))
    ensures r.Some? ==> r.value == KeysFor(city, cfg, env)
  {
    if !cfg.postToTwitter.GetOr(false) then None
    else
      var keys := KeysFor(city, cfg, env);
      if keys.apiKey.None? then None else Some(keys)
  }

  /** The same guard over the intended keys: an account posts only when its
      own API-key variable is set. */
  function IntendedPostCredentials(cfg: Config, city: string, env: map<string, string>): (r: Option<Credentials>)
    ensures r.Some? <==>
      (cfg.postToTwitter == Some(true) &&
       (if city == DefaultCity then DefaultNames.apiKey else CityNames(city, cfg).apiKey) in env)
    ensures r.Some? ==> r.value == IntendedKeysFor(city, cfg, env)
  {
    if !cfg.postToTwitter.GetOr(false) then None
    else
      var keys := IntendedKeysFor(city, cfg, env);
      if keys.apiKey.None? then None else Some(keys)
  }

  // ---------------------------------------------------------------------------
  // Properties of the code as written

  /** As written, every city other than "default" gets the same four texts:
      the city plays no part. */
  lemma KeysIgnoreCity(c1: string, c2: string, cfg: Config, env: map<string, string>)
    requires c1 != DefaultCity && c2 != DefaultCity
    ensures KeysFor(c1, cfg, env) == KeysFor(c2, cfg, env)
  {
  }

  /** As written, a city's credentials do not depend on the environment, so
      `post_twitter`'s missing-key guard never fires for a city account. */
  lemma KeysIgnoreEnvironment(city: string, cfg: Config, e1: map<string, string>, e2: map<string, string>)
    requires city != DefaultCity
    ensures KeysFor(city, cfg, e1) == KeysFor(city, cfg, e2)
    ensures KeysFor(city, cfg, e1).apiKey == Some(LiteralCityNames(cfg).apiKey)
  {
  }

  /** A concrete instance: Pune and Mumbai post with identical credentials,
      the literal text "TWITTER_API_KEY_{city}" as the API key, even with an
      empty environment. */
  lemma PuneAndMumbaiShareKeys(cfg: Config)
    requires cfg.minAgeLimit == None
    ensures KeysFor("Pune", cfg, map[]) == KeysFor("Mumbai", cfg, map[])
    ensures KeysFor("Pune", cfg, map[]).apiKey == Some("TWITTER_API_KEY_{city}")
  {
    assert AgeSuffix(cfg) == "";
    assert "TWITTER_API_KEY_{city}" + "" == "TWITTER_API_KEY_{city}";
  }

  /** The shared account's credentials are the environment's values of the
      four shared variable names, in both versions. */
  lemma DefaultKeysFromEnvironment(cfg: Config, env: map<string, string>)
    ensures KeysFor(DefaultCity, cfg, env) == IntendedKeysFor(DefaultCity, cfg, env)
    ensures KeysFor(DefaultCity, cfg, env).apiKey.Some? <==> "TWITTER_API_KEY" in env
    ensures "TWITTER_API_KEY" in env ==> KeysFor(DefaultCity, cfg, env).apiKey == Some(env["TWITTER_API_KEY"])
  {
  }

  // ---------------------------------------------------------------------------
  // Properties of the intended city branch

  lemma {:induction false} AppendCancel(a: string, b: string, s: string)
    requires a + s == b + s
    ensures a == b
  {
    assert |a| == |b|;
    assert forall i :: 0 <= i < |a| ==> a[i] == (a + s)[i] && b[i] == (b + s)[i];
  }

  lemma {:induction false} PrependCancel(p: string, a: string, b: string)
    requires p + a == p + b
    ensures a == b
  {
    assert forall i :: 0 <= i < |a| ==> a[i] == (p + a)[|p| + i] && b[i] == (p + b)[|p| + i];
  }

  /** Cities whose upper-cased names differ read different API-key
      variables; cities differing only in letter case share an account. */
  lemma CityNamesDistinguishCities(c1: string, c2: string, cfg: Config)
    ensures CityNames(c1, cfg).apiKey == CityNames(c2, cfg).apiKey <==> Upper(c1) == Upper(c2)
  {
    var p := "TWITTER_API_KEY_";
    var s := AgeSuffix(cfg);
    if CityNames(c1, cfg).apiKey == CityNames(c2, cfg).apiKey {
      assert (p + Upper(c1)) + s == (p + Upper(c2)) + s;
      AppendCancel(p + Upper(c1), p + Upper(c2), s);
      PrependCancel(p, Upper(c1), Upper(c2));
    }
  }

  /** A 45+ configuration and any other configuration of the same city use
      different accounts: their API keys differ in the "_45" suffix, both as
      written and as intended. */
  lemma AgeGroupsSeparateAccounts(city: string, senior: Config, other: Config)
    requires AgeLimit(senior) == SeniorAgeLimit && AgeLimit(other) != SeniorAgeLimit
    ensures CityNames(city, senior).apiKey != CityNames(city, other).apiKey
    ensures LiteralCityNames(senior).apiKey != LiteralCityNames(other).apiKey
  {
    assert |CityNames(city, senior).apiKey| == |CityNames(city, other).apiKey| + 3;
    assert |LiteralCityNames(senior).apiKey| == |LiteralCityNames(other).apiKey| + 3;
  }

  /** As intended, a city account posts only when its own API-key variable
      is set; a city without variables of its own posts nothing. As written,
      the same city posts with the literal texts whenever Twitter is enabled. */
  lemma CityPostsOnlyWithItsKey(cfg: Config, city: string, env: map<string, string>)
    requires city != DefaultCity
    ensures IntendedPostCredentials(cfg, city, env).Some? <==>
      cfg.postToTwitter == Some(true) && CityNames(city, cfg).apiKey in env
    ensures cfg.postToTwitter == Some(true) && CityNames(city, cfg).apiKey !in env ==>
      IntendedPostCredentials(cfg, city, env).None? && PostCredentials(cfg, city, env).Some?
  {
  }

  /** For the shared account both guards agree: the code as written and the
      intended code differ only for city accounts. */
  lemma DefaultPostAgrees(cfg: Config, env: map<string, string>)
    ensures PostCredentials(cfg, DefaultCity, env) == IntendedPostCredentials(cfg, DefaultCity, env)
  {
  }
}
