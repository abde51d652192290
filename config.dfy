/**
 * Configuration of the remoting layer (remote/config.go and
 * remote/config-opts.go): a Config record built once at start-up from the
 * defaults, then every functional option in argument order, then (for
 * Configure) the host and port.
 *
 * Config is a class because the source's options are closures that assign
 * fields of a *Config in place; Settings is its value, used to state what a
 * sequence of options produces. Durations are integer nanoseconds, as Go's
 * time.Duration is.
 */
module RemoteConfig {
  import opened Wrappers
  import Format

  const Nanosecond: int := 1
  const Second: int := 1_000_000_000 * Nanosecond
  const Minute: int := 60 * Second
  const Hour: int := 60 * Minute

  /** Foreign values the configuration only carries around: connect client
      and handler options, a *tls.Config and an *actor.Props. */
  datatype ClientOption = ClientOption(handle: nat)
  datatype HandlerOption = HandlerOption(handle: nat)
  datatype TLSConfig = TLSConfig(handle: nat)
  datatype Props = Props(handle: nat)

  /** The policy a *cors.Cors is built from. An origin predicate that
      accepts everything is recorded as allowAllOrigins. */
  datatype Cors = Cors(
    allowedMethods: seq<string>,
    allowAllOrigins: bool,
    allowedHeaders: seq<string>,
    exposedHeaders: seq<string>,
    maxAgeSeconds: int)

  datatype HTTPServerOptions = HTTPServerOptions(
    readHeaderTimeout: int,
    readTimeout: int,
    writeTimeout: int,
    maxHeaderBytes: int)

  datatype HTTPClientOptions = HTTPClientOptions(
    readIdleTimeout: int,
    pingTimeout: int,
    writeByteTimeout: int)

  /** A remote actor kind registered under a name. */
  datatype Kind = Kind(kind: string, props: Props)

  /** The value of a Config: one component per field of the Go struct. */
  datatype Settings = Settings(
    host: string,
    port: int,
    advertisedHost: string,
    connectClientOptions: seq<ClientOption>,
    connectHandlerOptions: seq<HandlerOption>,
    connectServerHTTPOptions: HTTPServerOptions,
    connectServerTLSConfig: Option<TLSConfig>,
    connectClientHTTPOptions: HTTPClientOptions,
    connectClientTLSConfig: Option<TLSConfig>,
    connectCorsOptions: Option<Cors>,
    endpointWriterBatchSize: int,
    endpointWriterQueueSize: int,
    endpointManagerBatchSize: int,
    endpointManagerQueueSize: int,
    kinds: map<string, Props>,
    maxRetryCount: int,
    scheme: string)

  /** The CORS policy of the default configuration: the six usual methods,
      every origin, every request header, the Connect/gRPC response headers,
      and a two-hour preflight cache. */
  function DefaultCors(): (c: Cors)
    ensures c.allowAllOrigins && c.allowedHeaders == ["*"]
    ensures |c.allowedMethods| == 6 && |c.exposedHeaders| == 11
    ensures c.maxAgeSeconds == 7200
  {
    Cors(
      ["HEAD", "GET", "POST", "PUT", "PATCH", "DELETE"],
      true,
      ["*"],
      ["Accept", "Accept-Encoding", "Accept-Post", "Connect-Accept-Encoding",
       "Connect-Content-Encoding", "Content-Encoding", "Grpc-Accept-Encoding",
       "Grpc-Encoding", "Grpc-Message", "Grpc-Status", "Grpc-Status-Details-Bin"],
      2 * Hour / Second)
  }

  /** defaultConfig: the value every configuration starts from. */
  function DefaultSettings(): (d: Settings)
    ensures d.host == "" && d.port == 0 && d.advertisedHost == ""
    ensures d.endpointWriterBatchSize == 1000 && d.endpointManagerBatchSize == 1000
    ensures d.endpointWriterQueueSize == 1000000 && d.endpointManagerQueueSize == 1000000
    ensures d.kinds == map[] && d.maxRetryCount == 5 && d.scheme == "http"
    ensures d.connectServerHTTPOptions.readHeaderTimeout == 1_000_000_000
    ensures d.connectServerHTTPOptions.readTimeout == 300_000_000_000
    ensures d.connectServerHTTPOptions.writeTimeout == 300_000_000_000
    ensures d.connectServerHTTPOptions.maxHeaderBytes == 8192
    ensures d.connectClientHTTPOptions == HTTPClientOptions(15_000_000_000, 0, 0)
    ensures d.connectServerTLSConfig.None? && d.connectClientTLSConfig.None?
    ensures d.connectCorsOptions == Some(DefaultCors())
  {
    Settings(
      "", 0, "", [], [],
      HTTPServerOptions(Second, 5 * Minute, 5 * Minute, 8 * 1024),
      None,
      HTTPClientOptions(15 * Second, 0, 0),
      None,
      Some(DefaultCors()),
      1000, 1000000, 1000, 1000000,
      map[], 5, "http")
  }

  /** Config.Address: "host:port", the port rendered in decimal. The
      result splits at its last ':' back into the host and the port, even
      when the host itself holds colons. */
  function Address(rc: Settings): (r: string)
    ensures SplitHostPort(r) == Some((rc.host, rc.port))
  {
    var portText := Format.IntString(rc.port);
    Format.LastIndexOfJoin(rc.host, ':', portText);
    var r := rc.host + ":" + portText;
    assert r == rc.host + [':'] + portText;
    assert r[|rc.host| + 1..] == portText && r[..|rc.host|] == rc.host;
    Format.ParseIntString(rc.port);
    r
  }

  /** The inverse of Address: the text before the last ':' and the integer
      after it. */
  function SplitHostPort(s: string): Option<(string, int)> {
    match Format.LastIndexOf(s, ':')
    case None => None
    case Some(k) =>
      match Format.ParseInt(s[k + 1..])
      case None => None
      case Some(p) => Some((s[..k], p))
  }

  /** A ConfigOption of config-opts.go built by one of the twelve With*
      functions: the closure is represented by the function that made it and
      that function's argument. Hand-written closures are not represented. */
  datatype ConfigOption =
    | WithEndpointWriterBatchSize(writerBatchSize: int)
    | WithEndpointWriterQueueSize(writerQueueSize: int)
    | WithEndpointManagerBatchSize(managerBatchSize: int)
    | WithEndpointManagerQueueSize(managerQueueSize: int)
    | WithAdvertisedHost(advertised: string)
    | WithHTTPScheme(httpScheme: string)
    | WithHTTPServeOptions(serverOptions: HTTPServerOptions)
    | WithCServerTlsConfig(serverTLS: Option<TLSConfig>)
    | WithHTTPClientOptions(clientOptions: HTTPClientOptions)
    | WithClientTlsConfig(clientTLS: Option<TLSConfig>)
    | WithCors(cors: Option<Cors>)
    | WithKinds(kindList: seq<Kind>)

  /** The field of Config an option writes. */
  datatype Field =
    | WriterBatchSize | WriterQueueSize | ManagerBatchSize | ManagerQueueSize
    | AdvertisedHostField | SchemeField | ServerHTTPOptions | ServerTLS
    | ClientHTTPOptions | ClientTLS | CorsField | KindsField

  function FieldOf(o: ConfigOption): Field {
    match o
    case WithEndpointWriterBatchSize(_) => WriterBatchSize
    case WithEndpointWriterQueueSize(_) => WriterQueueSize
    case WithEndpointManagerBatchSize(_) => ManagerBatchSize
    case WithEndpointManagerQueueSize(_) => ManagerQueueSize
    case WithAdvertisedHost(_) => AdvertisedHostField
    case WithHTTPScheme(_) => SchemeField
    case WithHTTPServeOptions(_) => ServerHTTPOptions
    case WithCServerTlsConfig(_) => ServerTLS
    case WithHTTPClientOptions(_) => ClientHTTPOptions
    case WithClientTlsConfig(_) => ClientTLS
    case WithCors(_) => CorsField
    case WithKinds(_) => KindsField
  }

  /** Every option but WithKinds overwrites its whole field. */
  predicate Overwrites(o: ConfigOption) {
    !o.WithKinds?
  }

  /** WithKinds' loop: Kinds[k.Kind] = k.Props for each kind in order. */
  function AddKinds(m: map<string, Props>, ks: seq<Kind>): map<string, Props>
    decreases |ks|
  {
    if ks == [] then m
    else AddKinds(m, ks[..|ks| - 1])[ks[|ks| - 1].kind := ks[|ks| - 1].props]
  }

  /** What running one option's closure does to a configuration value. */
  function Applied(c: Settings, o: ConfigOption): Settings {
    match o
    case WithEndpointWriterBatchSize(n) => c.(endpointWriterBatchSize := n)
    case WithEndpointWriterQueueSize(n) => c.(endpointWriterQueueSize := n)
    case WithEndpointManagerBatchSize(n) => c.(endpointManagerBatchSize := n)
    case WithEndpointManagerQueueSize(n) => c.(endpointManagerQueueSize := n)
    case WithAdvertisedHost(a) => c.(advertisedHost := a)
    case WithHTTPScheme(s) => c.(scheme := s)
    case WithHTTPServeOptions(h) => c.(connectServerHTTPOptions := h)
    case WithCServerTlsConfig(t) => c.(connectServerTLSConfig := t)
    case WithHTTPClientOptions(h) => c.(connectClientHTTPOptions := h)
    case WithClientTlsConfig(t) => c.(connectClientTLSConfig := t)
    case WithCors(x) => c.(connectCorsOptions := x)
    case WithKinds(ks) => c.(kinds := AddKinds(c.kinds, ks))
  }

  /** Options applied left to right. */
  function ApplyAll(c: Settings, opts: seq<ConfigOption>): Settings
    decreases |opts|
  {
    if opts == [] then c else Applied(ApplyAll(c, opts[..|opts| - 1]), opts[|opts| - 1])
  }

  /** What newConfig(options...) builds. */
  function NewSettings(opts: seq<ConfigOption>): Settings {
    ApplyAll(DefaultSettings(), opts)
  }

  /** What Configure(host, port, options...) builds: host and port are the
      arguments whatever the options did, and every other field is what
      newConfig(options...) gives. */
  function Configured(host: string, port: int, opts: seq<ConfigOption>): (r: Settings)
    ensures r.host == host && r.port == port
    ensures r.(host := "", port := 0) == NewSettings(opts)
  {
    OptionsKeepHostPort(DefaultSettings(), opts);
    NewSettings(opts).(host := host, port := port)
  }

  /** The Go struct, updated in place by the option closures. */
  class Config {
    var host: string
    var port: int
    var advertisedHost: string
    var connectClientOptions: seq<ClientOption>
    var connectHandlerOptions: seq<HandlerOption>
    var connectServerHTTPOptions: HTTPServerOptions
    var connectServerTLSConfig: Option<TLSConfig>
    var connectClientHTTPOptions: HTTPClientOptions
    var connectClientTLSConfig: Option<TLSConfig>
    var connectCorsOptions: Option<Cors>
    var endpointWriterBatchSize: int
    var endpointWriterQueueSize: int
    var endpointManagerBatchSize: int
    var endpointManagerQueueSize: int
    var kinds: map<string, Props>
    var maxRetryCount: int
    var scheme: string

    function Value(): Settings
      reads this
    {
      Settings(host, port, advertisedHost, connectClientOptions, connectHandlerOptions,
        connectServerHTTPOptions, connectServerTLSConfig, connectClientHTTPOptions,
        connectClientTLSConfig, connectCorsOptions, endpointWriterBatchSize,
        endpointWriterQueueSize, endpointManagerBatchSize, endpointManagerQueueSize,
        kinds, maxRetryCount, scheme)
    }

    /** defaultConfig: a fresh *Config holding the defaults. */
    constructor Default()
      ensures Value() == DefaultSettings()
    {
      host, port, advertisedHost := "", 0, "";
      connectClientOptions, connectHandlerOptions := [], [];
      connectServerHTTPOptions := HTTPServerOptions(Second, 5 * Minute, 5 * Minute, 8 * 1024);
      connectServerTLSConfig := None;
      connectClientHTTPOptions := HTTPClientOptions(15 * Second, 0, 0);
      connectClientTLSConfig := None;
      connectCorsOptions := Some(DefaultCors());
      endpointWriterBatchSize, endpointManagerBatchSize := 1000, 1000;
      endpointWriterQueueSize, endpointManagerQueueSize := 1000000, 1000000;
      kinds := map[];
      maxRetryCount := 5;
      scheme := "http";
    }
  }

  /** Runs an option's closure on config: a single-field option assigns
      exactly its field, and WithKinds inserts its kinds into the Kinds map
      one after the other. */
  method ApplyOption(config: Config, option: ConfigOption)
    modifies config
    ensures config.Value() == Applied(old(config.Value()), option)
  {
    match option
    case WithEndpointWriterBatchSize(n) => SetEndpointWriterBatchSize(config, n);
    case WithEndpointWriterQueueSize(n) => SetEndpointWriterQueueSize(config, n);
    case WithEndpointManagerBatchSize(n) => SetEndpointManagerBatchSize(config, n);
    case WithEndpointManagerQueueSize(n) => SetEndpointManagerQueueSize(config, n);
    case WithAdvertisedHost(a) => SetAdvertisedHost(config, a);
    case WithHTTPScheme(s) => SetScheme(config, s);
    case WithHTTPServeOptions(h) => SetServerHTTPOptions(config, h);
    case WithCServerTlsConfig(t) => SetServerTLSConfig(config, t);
    case WithHTTPClientOptions(h) => SetClientHTTPOptions(config, h);
    case WithClientTlsConfig(t) => SetClientTLSConfig(config, t);
    case WithCors(x) => SetCors(config, x);
    case WithKinds(ks) => InsertKinds(config, ks);
  }

  /** WithEndpointWriterBatchSize's closure: assigns endpointWriterBatchSize and nothing else. */
  method SetEndpointWriterBatchSize(config: Config, n: int)
    modifies config
    ensures config.Value() == old(config.Value()).(endpointWriterBatchSize := n)
  {
    config.endpointWriterBatchSize := n;
  }

  /** WithEndpointWriterQueueSize's closure: assigns endpointWriterQueueSize and nothing else. */
  method SetEndpointWriterQueueSize(config: Config, n: int)
    modifies config
    ensures config.Value() == old(config.Value()).(endpointWriterQueueSize := n)
  {
    config.endpointWriterQueueSize := n;
  }

  /** WithEndpointManagerBatchSize's closure: assigns endpointManagerBatchSize and nothing else. */
  method SetEndpointManagerBatchSize(config: Config, n: int)
    modifies config
    ensures config.Value() == old(config.Value()).(endpointManagerBatchSize := n)
  {
    config.endpointManagerBatchSize := n;
  }

  /** WithEndpointManagerQueueSize's closure: assigns endpointManagerQueueSize and nothing else. */
  method SetEndpointManagerQueueSize(config: Config, n: int)
    modifies config
    ensures config.Value() == old(config.Value()).(endpointManagerQueueSize := n)
  {
    config.endpointManagerQueueSize := n;
  }

  /** WithAdvertisedHost's closure: assigns advertisedHost and nothing else. */
  method SetAdvertisedHost(config: Config, a: string)
    modifies config
    ensures config.Value() == old(config.Value()).(advertisedHost := a)
  {
    config.advertisedHost := a;
  }

  /** WithHTTPScheme's closure: assigns scheme and nothing else. */
  method SetScheme(config: Config, s: string)
    modifies config
    ensures config.Value() == old(config.Value()).(scheme := s)
  {
    config.scheme := s;
  }

  /** WithHTTPServeOptions's closure: assigns connectServerHTTPOptions and nothing else. */
  method SetServerHTTPOptions(config: Config, h: HTTPServerOptions)
    modifies config
    ensures config.Value() == old(config.Value()).(connectServerHTTPOptions := h)
  {
    config.connectServerHTTPOptions := h;
  }

  /** WithCServerTlsConfig's closure: assigns connectServerTLSConfig and nothing else. */
  method SetServerTLSConfig(config: Config, t: Option<TLSConfig>)
    modifies config
    ensures config.Value() == old(config.Value()).(connectServerTLSConfig := t)
  {
    config.connectServerTLSConfig := t;
  }

  /** WithHTTPClientOptions's closure: assigns connectClientHTTPOptions and nothing else. */
  method SetClientHTTPOptions(config: Config, h: HTTPClientOptions)
    modifies config
    ensures config.Value() == old(config.Value()).(connectClientHTTPOptions := h)
  {
    config.connectClientHTTPOptions := h;
  }

  /** WithClientTlsConfig's closure: assigns connectClientTLSConfig and nothing else. */
  method SetClientTLSConfig(config: Config, t: Option<TLSConfig>)
    modifies config
    ensures config.Value() == old(config.Value()).(connectClientTLSConfig := t)
  {
    config.connectClientTLSConfig := t;
  }

  /** WithCors's closure: assigns connectCorsOptions and nothing else. */
  method SetCors(config: Config, x: Option<Cors>)
    modifies config
    ensures config.Value() == old(config.Value()).(connectCorsOptions := x)
  {
    config.connectCorsOptions := x;
  }

  /** WithKinds' closure: Kinds[k.Kind] = k.Props for each kind in turn. */
  method InsertKinds(config: Config, ks: seq<Kind>)
    modifies config
    ensures config.Value() == old(config.Value()).(kinds := AddKinds(old(config.kinds), ks))
  {
    for j := 0 to |ks|
      invariant config.kinds == AddKinds(old(config.kinds), ks[..j])
      invariant config.Value() == old(config.Value()).(kinds := config.kinds)
    {
      assert ks[..j + 1][..j] == ks[..j];
      config.kinds := config.kinds[ks[j].kind := ks[j].props];
    }
    assert ks[..|ks|] == ks;
  }

  /** newConfig: the defaults, then each option in argument order. */
  method NewConfig(options: seq<ConfigOption>) returns (config: Config)
    ensures fresh(config)
    ensures config.Value() == NewSettings(options)
  {
    config := new Config.Default();
    for i := 0 to |options|
      invariant config.Value() == ApplyAll(DefaultSettings(), options[..i])
    {
      assert options[..i + 1][..i] == options[..i];
      ApplyOption(config, options[i]);
    }
    assert options[..|options|] == options;
  }

  /** Configure: newConfig, then Host and Port from the arguments. */
  method Configure(host: string, port: int, options: seq<ConfigOption>) returns (config: Config)
    ensures fresh(config)
    ensures config.Value() == Configured(host, port, options)
  {
    config := NewConfig(options);
    config.host := host;
    config.port := port;
  }

  /** No option writes Host or Port, so only Configure sets them. */
  lemma {:induction false} OptionsKeepHostPort(c: Settings, opts: seq<ConfigOption>)
    ensures ApplyAll(c, opts).host == c.host && ApplyAll(c, opts).port == c.port
    decreases |opts|
  {
    if opts != [] {
      OptionsKeepHostPort(c, opts[..|opts| - 1]);
    }
  }

  /** newConfig() with no options is the default configuration. */
  lemma NoOptionsGiveDefaults()
    ensures NewSettings([]) == DefaultSettings()
  {
  }

  lemma {:induction false} ApplyAllConcat(c: Settings, s: seq<ConfigOption>, t: seq<ConfigOption>)
    ensures ApplyAll(c, s + t) == ApplyAll(ApplyAll(c, s), t)
    decreases |t|
  {
    if t == [] {
      assert s + t == s;
    } else {
      assert (s + t)[..|s + t| - 1] == s + t[..|t| - 1];
      ApplyAllConcat(c, s, t[..|t| - 1]);
    }
  }

  /** Kinds not named by any of ks keep their old entry (or stay absent). */
  lemma {:induction false} AddKindsFrame(m: map<string, Props>, ks: seq<Kind>, name: string)
    requires forall j :: 0 <= j < |ks| ==> ks[j].kind != name
    ensures name in AddKinds(m, ks) <==> name in m
    ensures name in m ==> AddKinds(m, ks)[name] == m[name]
    decreases |ks|
  {
    if ks != [] {
      AddKindsFrame(m, ks[..|ks| - 1], name);
    }
  }

  /** A kind named more than once keeps the Props of its last occurrence. */
  lemma {:induction false} AddKindsLastWins(m: map<string, Props>, ks: seq<Kind>, i: nat)
    requires i < |ks|
    requires forall j :: i < j < |ks| ==> ks[j].kind != ks[i].kind
    ensures ks[i].kind in AddKinds(m, ks) && AddKinds(m, ks)[ks[i].kind] == ks[i].props
    decreases |ks|
  {
    if i < |ks| - 1 {
      AddKindsLastWins(m, ks[..|ks| - 1], i);
    }
  }

  /** Inserting the kinds is the same as overriding m with the map the
      kinds alone build. */
  lemma {:induction false} AddKindsIsUnion(m: map<string, Props>, ks: seq<Kind>)
    ensures AddKinds(m, ks) == m + AddKinds(map[], ks)
    decreases |ks|
  {
    if ks != [] {
      AddKindsIsUnion(m, ks[..|ks| - 1]);
    }
  }

  /** WithKinds() with no kinds changes nothing. */
  lemma NoKindsChangeNothing(c: Settings)
    ensures Applied(c, WithKinds([])) == c
  {
  }

  /** Applying any option twice gives what applying it once gives. */
  lemma ApplyIdempotent(c: Settings, o: ConfigOption)
    ensures Applied(Applied(c, o), o) == Applied(c, o)
  {
    if o.WithKinds? {
      var once := AddKinds(c.kinds, o.kindList);
      var k := AddKinds(map[], o.kindList);
      AddKindsIsUnion(c.kinds, o.kindList);
      AddKindsIsUnion(once, o.kindList);
      assert once + k == once;
    }
  }

  /** When x and y already agree after o overwrites its field, one more
      option p before o keeps them in agreement. */
  lemma ShadowStep(x: Settings, y: Settings, p: ConfigOption, o: ConfigOption)
    requires Overwrites(o)
    requires Applied(x, o) == Applied(y, o)
    ensures Applied(Applied(x, p), o) == Applied(Applied(y, p), o)
  {
  }

  lemma {:induction false} Shadowed(x: Settings, y: Settings, mid: seq<ConfigOption>, o: ConfigOption)
    requires Overwrites(o)
    requires Applied(x, o) == Applied(y, o)
    ensures Applied(ApplyAll(x, mid), o) == Applied(ApplyAll(y, mid), o)
    decreases |mid|
  {
    if mid != [] {
      var init := mid[..|mid| - 1];
      Shadowed(x, y, init, o);
      ShadowStep(ApplyAll(x, init), ApplyAll(y, init), mid[|mid| - 1], o);
    }
  }

  lemma ApplyAllSnoc(c: Settings, s: seq<ConfigOption>, o: ConfigOption)
    ensures ApplyAll(c, s + [o]) == Applied(ApplyAll(c, s), o)
  {
    assert (s + [o])[..|s|] == s;
  }

  /** An option that overwrites a field erases an earlier write to it. */
  lemma OverwriteShadows(c: Settings, o1: ConfigOption, o2: ConfigOption)
    requires Overwrites(o2) && FieldOf(o1) == FieldOf(o2)
    ensures Applied(Applied(c, o1), o2) == Applied(c, o2)
  {
  }

  /** Last write wins: an option followed, however much later, by another
      option that overwrites the same field has no effect at all. */
  lemma EarlierWriteIsDead(c: Settings, pre: seq<ConfigOption>, o1: ConfigOption,
                           mid: seq<ConfigOption>, o2: ConfigOption)
    requires Overwrites(o2) && FieldOf(o1) == FieldOf(o2)
    ensures ApplyAll(c, pre + [o1] + mid + [o2]) == ApplyAll(c, pre + mid + [o2])
  {
    var base := ApplyAll(c, pre);
    ApplyAllSnoc(c, pre + [o1] + mid, o2);
    ApplyAllSnoc(c, pre + mid, o2);
    ApplyAllSnoc(c, pre, o1);
    ApplyAllConcat(c, pre + [o1], mid);
    ApplyAllConcat(c, pre, mid);
    OverwriteShadows(base, o1, o2);
    Shadowed(Applied(base, o1), base, mid, o2);
  }
}
