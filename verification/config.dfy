/** The backend's configuration (`config.Load`): each setting is read from
    the environment under a fixed name with a fixed default, and the CORS
    origin list is split from one setting and may gain the origin of the
    frontend's port. The environment is a parameter: a map from variable
    names to values, where a missing name reads as the empty string. */
module Config {
  import opened Text

  type Env = map<string, string>

  /** `getEnv(key, defaultValue)`: the variable's value unless it is unset
      or empty. */
  function GetEnv(env: Env, key: string, default: string): (v: string)
    ensures key in env && env[key] != "" ==> v == env[key]
    ensures v == default || (key in env && v == env[key])
    ensures v == default <== key !in env || env[key] == ""
    ensures v != "" <== default != ""
  {
    if key in env && env[key] != "" then env[key] else default
  }

  /** An empty variable reads as an unset one. */
  lemma EmptyIsUnset(env: Env, key: string, default: string)
    ensures GetEnv(env[key := ""], key, default) == GetEnv(env - {key}, key, default)
  {
  }

  datatype Config = Config(
    databaseUrl: string, dbHost: string, dbPort: string, dbUser: string, dbPassword: string,
    dbName: string, dbSslMode: string,
    serverPort: string, serverHost: string,
    appEnv: string, logLevel: string,
    jwtSecret: string,
    corsAllowedOrigins: seq<string>)

  const Localhost := "http://" + "localhost:"

  /** The comma-separated origins used when none are configured. */
  const DefaultOrigins := Localhost + "5173" + "," + (Localhost + "3000" + "," + (Localhost + "8080" + ","
                          + (Localhost + "8082" + "," + Localhost + "8081")))

  /** The variables the configuration reads. */
  const Keys := {"DATABASE_URL", "DB_HOST", "DB_PORT", "DB_USER", "DB_PASSWORD", "DB_NAME", "DB_SSLMODE",
                 "PORT", "SERVER_HOST", "APP_ENV", "LOG_LEVEL", "JWT_SECRET",
                 "CORS_ALLOWED_ORIGINS", "FRONTEND_PORT"}

  /** The origin of a frontend served on `port`. */
  function DynamicOrigin(port: string): (origin: string)
    ensures Localhost <= origin && origin[|Localhost|..] == port
  {
    Localhost + port
  }

  /** Whether some origin of the list trims to `origin`. */
  predicate Listed(list: seq<string>, origin: string) {
    exists i :: 0 <= i < |list| && Trim(list[i]) == origin
  }

  /** `getCORSOrigins()`: the configured (or default) origins split on
      commas, untrimmed, followed by the frontend port's origin when a port
      is set and no origin already trims to it. */
  function CORSOrigins(env: Env): (r: seq<string>)
    ensures var list := Split(GetEnv(env, "CORS_ALLOWED_ORIGINS", DefaultOrigins), ',');
            var port := GetEnv(env, "FRONTEND_PORT", "");
            && |list| <= |r| <= |list| + 1
            && r[..|list|] == list
            && (|r| == |list| + 1 <==> port != "" && !Listed(list, DynamicOrigin(port)))
            && (|r| == |list| + 1 ==> r[|list|] == DynamicOrigin(port))
  {
    var list := Split(GetEnv(env, "CORS_ALLOWED_ORIGINS", DefaultOrigins), ',');
    var port := GetEnv(env, "FRONTEND_PORT", "");
    if port != "" && !Listed(list, DynamicOrigin(port)) then list + [DynamicOrigin(port)] else list
  }

  /** The search loop of `getCORSOrigins`, which stops at the first origin
      that trims to the wanted one. */
  method Found(list: seq<string>, origin: string) returns (found: bool)
    ensures found <==> Listed(list, origin)
  {
    found := false;
    var i := 0;
    while i < |list|
      invariant 0 <= i <= |list|
      invariant !found
      invariant forall j :: 0 <= j < i ==> Trim(list[j]) != origin
    {
      if Trim(list[i]) == origin {
        found := true;
        return;
      }
      i := i + 1;
    }
  }

  /** `getCORSOrigins()` as the source writes it, with the loop. */
  method GetCORSOrigins(env: Env) returns (originList: seq<string>)
    ensures originList == CORSOrigins(env)
  {
    var origins := GetEnv(env, "CORS_ALLOWED_ORIGINS", DefaultOrigins);
    var frontendPort := GetEnv(env, "FRONTEND_PORT", "");
    originList := Split(origins, ',');
    if frontendPort != "" {
      var dynamicOrigin := DynamicOrigin(frontendPort);
      var found := Found(originList, dynamicOrigin);
      if !found {
        originList := originList + [dynamicOrigin];
      }
    }
  }

  /** `Load()` */
  function Load(env: Env): (c: Config)
    ensures c.databaseUrl == GetEnv(env, "DATABASE_URL", "")
    ensures c.dbHost == GetEnv(env, "DB_HOST", "localhost") && c.dbPort == GetEnv(env, "DB_PORT", "5432")
    ensures c.dbUser == GetEnv(env, "DB_USER", "postgres") && c.dbPassword == GetEnv(env, "DB_PASSWORD", "password")
    ensures c.dbName == GetEnv(env, "DB_NAME", "lucid_lists") && c.dbSslMode == GetEnv(env, "DB_SSLMODE", "disable")
    ensures c.serverPort == GetEnv(env, "PORT", "8080") && c.serverHost == GetEnv(env, "SERVER_HOST", "localhost")
    ensures c.appEnv == GetEnv(env, "APP_ENV", "development") && c.logLevel == GetEnv(env, "LOG_LEVEL", "info")
    ensures c.jwtSecret == GetEnv(env, "JWT_SECRET", "your-super-" + "secret-jwt-key-change-in-production")
    ensures c.corsAllowedOrigins == CORSOrigins(env)
  {
    Config(
      GetEnv(env, "DATABASE_URL", ""),
      GetEnv(env, "DB_HOST", "localhost"),
      GetEnv(env, "DB_PORT", "5432"),
      GetEnv(env, "DB_USER", "postgres"),
      GetEnv(env, "DB_PASSWORD", "password"),
      GetEnv(env, "DB_NAME", "lucid_lists"),
      GetEnv(env, "DB_SSLMODE", "disable"),
      GetEnv(env, "PORT", "8080"),
      GetEnv(env, "SERVER_HOST", "localhost"),
      GetEnv(env, "APP_ENV", "development"),
      GetEnv(env, "LOG_LEVEL", "info"),
      GetEnv(env, "JWT_SECRET", "your-super-" + "secret-jwt-key-change-in-production"),
      CORSOrigins(env))
  }

  /** The five origins of the default setting. */
  const DefaultOriginList := [Localhost + "5173", Localhost + "3000", Localhost + "8080", Localhost + "8082", Localhost + "8081"]

  /** With nothing set, every setting takes its default and the origins are
      the five local development ones. */
  lemma LoadDefaults()
    ensures var c := Load(map[]);
            && c.databaseUrl == "" && c.dbHost == "localhost" && c.dbPort == "5432" && c.dbUser == "postgres"
            && c.dbPassword == "password" && c.dbName == "lucid_lists" && c.dbSslMode == "disable"
            && c.serverPort == "8080" && c.serverHost == "localhost" && c.appEnv == "development" && c.logLevel == "info"
            && c.jwtSecret == "your-super-" + "secret-jwt-key-change-in-production"
            && c.corsAllowedOrigins == DefaultOriginList
  {
    DefaultSplits();
  }

  /** A local origin holds a comma only when its port does. */
  lemma LocalOriginComma(port: string)
    ensures ',' in DynamicOrigin(port) <==> ',' in port
  {
    var o := DynamicOrigin(port);
    if ',' in o {
      var i :| 0 <= i < |o| && o[i] == ',';
      assert i >= |Localhost|;
      assert port[i - |Localhost|] == ',';
    }
    if ',' in port {
      var i :| 0 <= i < |port| && port[i] == ',';
      assert o[|Localhost| + i] == ',';
    }
  }

  /** Joining two or more parts puts the separator after the first. */
  lemma JoinStep(a: string, rest: seq<string>, sep: string, tail: string)
    requires |rest| >= 1 && Join(rest, sep) == tail
    ensures Join([a] + rest, sep) == a + sep + tail
  {
    JoinCons(a, rest, sep);
  }

  /** The default setting is the five origins joined by commas. */
  lemma DefaultJoined()
    ensures Join(DefaultOriginList, ",") == DefaultOrigins
  {
    var a, b, c, d, e := Localhost + "5173", Localhost + "3000", Localhost + "8080", Localhost + "8082", Localhost + "8081";
    var t := d + "," + e;
    JoinStep(d, [e], ",", e);
    JoinStep(c, [d, e], ",", t);
    t := c + "," + t;
    JoinStep(b, [c, d, e], ",", t);
    t := b + "," + t;
    JoinStep(a, [b, c, d, e], ",", t);
    assert [a] + [b, c, d, e] == DefaultOriginList;
  }

  /** The default setting splits into its five origins. */
  lemma DefaultSplits()
    ensures Split(DefaultOrigins, ',') == DefaultOriginList
  {
    var parts := DefaultOriginList;
    LocalOriginComma("5173");
    LocalOriginComma("3000");
    LocalOriginComma("8080");
    LocalOriginComma("8082");
    LocalOriginComma("8081");
    DefaultJoined();
    JoinThenSplit(parts, ',');
  }

  /** A setting is read from its own variable: variables the configuration
      does not read change nothing. */
  lemma LoadReadsOnlyItsKeys(env: Env, key: string, value: string)
    requires key !in Keys
    ensures Load(env[key := value]) == Load(env)
  {
    var env' := env[key := value];
    forall k | k in Keys
      ensures (k in env' <==> k in env) && (k in env ==> env'[k] == env[k])
    {
    }
    assert GetEnv(env', "CORS_ALLOWED_ORIGINS", DefaultOrigins) == GetEnv(env, "CORS_ALLOWED_ORIGINS", DefaultOrigins);
    assert GetEnv(env', "FRONTEND_PORT", "") == GetEnv(env, "FRONTEND_PORT", "");
  }

  /** A port whose origin is already listed adds nothing. */
  lemma ListedOriginNotRepeated(env: Env)
    requires Listed(Split(GetEnv(env, "CORS_ALLOWED_ORIGINS", DefaultOrigins), ','), DynamicOrigin(GetEnv(env, "FRONTEND_PORT", "")))
    ensures CORSOrigins(env) == Split(GetEnv(env, "CORS_ALLOWED_ORIGINS", DefaultOrigins), ',')
  {
  }

  /** The computed origins hold no comma when the port holds none, and
      join to a non-empty setting. */
  lemma OriginsCommaFree(env: Env)
    requires ',' !in GetEnv(env, "FRONTEND_PORT", "")
    ensures var r := CORSOrigins(env);
            (forall k :: 0 <= k < |r| ==> ',' !in r[k]) && Join(r, ",") != ""
  {
    var origins := GetEnv(env, "CORS_ALLOWED_ORIGINS", DefaultOrigins);
    var list := Split(origins, ',');
    var r := CORSOrigins(env);
    SplitThenJoin(origins, ',');
    LocalOriginComma(GetEnv(env, "FRONTEND_PORT", ""));
    forall k | 0 <= k < |r| ensures ',' !in r[k] {
      if k < |list| {
        assert r[k] == list[k];
      }
    }
    if |r| == |list| {
      assert r == list;
    } else {
      assert |r| >= 2;
    }
  }

  /** The origin a port adds is recognised when the port does not end in
      whitespace. */
  lemma AddedOriginListed(env: Env)
    requires var port := GetEnv(env, "FRONTEND_PORT", "");
             port != "" && !IsSpace(port[|port| - 1])
    ensures Listed(CORSOrigins(env), DynamicOrigin(GetEnv(env, "FRONTEND_PORT", "")))
  {
    var port := GetEnv(env, "FRONTEND_PORT", "");
    var list := Split(GetEnv(env, "CORS_ALLOWED_ORIGINS", DefaultOrigins), ',');
    var r := CORSOrigins(env);
    var dyn := DynamicOrigin(port);
    if |r| == |list| + 1 {
      assert dyn[0] == 'h' && dyn[|dyn| - 1] == port[|port| - 1];
      TrimmedAlready(dyn);
      assert Trim(r[|list|]) == dyn;
    } else {
      assert r == list;
    }
  }

  /** Writing the computed origins back, comma-joined, as the setting
      yields the same origins, provided the port holds no comma (which
      would split its origin) and does not end in whitespace (which would
      stop its origin from being recognised and add it again). */
  lemma CORSStable(env: Env)
    requires var port := GetEnv(env, "FRONTEND_PORT", "");
             ',' !in port && (port == "" || !IsSpace(port[|port| - 1]))
    ensures var r := CORSOrigins(env);
            CORSOrigins(env["CORS_ALLOWED_ORIGINS" := Join(r, ",")]) == r
  {
    var port := GetEnv(env, "FRONTEND_PORT", "");
    var r := CORSOrigins(env);
    OriginsCommaFree(env);
    var env' := env["CORS_ALLOWED_ORIGINS" := Join(r, ",")];
    assert "CORS_ALLOWED_ORIGINS"[0] != "FRONTEND_PORT"[0];
    assert GetEnv(env', "FRONTEND_PORT", "") == port;
    JoinThenSplit(r, ',');
    if port != "" {
      AddedOriginListed(env);
    }
  }
}
