/** The Dune configuration: values read from the environment with their
    defaults, and the check that the required ones are set. */
module DuneConfig {
  import opened Wrappers
  import opened Errors

  const DEFAULT_SIM_BASE_URL := "https://api.sim.dune.com/v1"
  const DEFAULT_DUNE_BASE_URL := "https://api.dune.com/api/v1"
  const DEFAULT_CHAIN_ID_ETH := 1
  const DEFAULT_CHAIN_ID_POLYGON := 137

  /** The process environment after `.env` is loaded: the variables that are
      set, and the chain-id variables already parsed as integers. */
  datatype Environment = Environment(vars: map<string, string>, chainIds: map<string, int>)

  /** The module-level configuration values; None is Python's None (unset). */
  datatype Config = Config(
    apiKey: Option<string>,
    simBaseUrl: string,
    duneBaseUrl: string,
    chainIdEth: int,
    chainIdPolygon: int,
    copmTokenAddress: Option<string>,
    copwTokenAddress: Option<string>)

  /** `os.getenv(name)`. */
  function GetEnv(env: Environment, name: string): Option<string> {
    if name in env.vars then Some(env.vars[name]) else None
  }

  /** `int(os.getenv(name, str(default)))`, the parsing already done. */
  function GetChainId(env: Environment, name: string, default: int): int {
    if name in env.chainIds then env.chainIds[name] else default
  }

  /** The configuration module's top-level assignments. */
  function LoadConfig(env: Environment): (c: Config)
    ensures c.apiKey == GetEnv(env, "DUNE_API_KEY")
    ensures c.copmTokenAddress == GetEnv(env, "DUNE_COPM_TOKEN_ADDRESS")
    ensures c.copwTokenAddress == GetEnv(env, "DUNE_COPW_TOKEN_ADDRESS")
    ensures c.simBaseUrl == if "DUNE_SIM" in env.vars then env.vars["DUNE_SIM"] else DEFAULT_SIM_BASE_URL
    ensures c.duneBaseUrl == if "DUNE_DUNE" in env.vars then env.vars["DUNE_DUNE"] else DEFAULT_DUNE_BASE_URL
    ensures c.chainIdEth == if "DUNE_CHAIN_ID_ETH" in env.chainIds then env.chainIds["DUNE_CHAIN_ID_ETH"] else DEFAULT_CHAIN_ID_ETH
    ensures c.chainIdPolygon == if "DUNE_CHAIN_ID_POLYGON" in env.chainIds then env.chainIds["DUNE_CHAIN_ID_POLYGON"] else DEFAULT_CHAIN_ID_POLYGON
  {
    Config(
      GetEnv(env, "DUNE_API_KEY"),
      GetEnv(env, "DUNE_SIM").GetOr(DEFAULT_SIM_BASE_URL),
      GetEnv(env, "DUNE_DUNE").GetOr(DEFAULT_DUNE_BASE_URL),
      GetChainId(env, "DUNE_CHAIN_ID_ETH", DEFAULT_CHAIN_ID_ETH),
      GetChainId(env, "DUNE_CHAIN_ID_POLYGON", DEFAULT_CHAIN_ID_POLYGON),
      GetEnv(env, "DUNE_COPM_TOKEN_ADDRESS"),
      GetEnv(env, "DUNE_COPW_TOKEN_ADDRESS"))
  }

  /** The variables `validate_config` requires, in declaration order, with
      their values. */
  function RequiredVars(c: Config): seq<(string, Option<string>)> {
    [("DUNE_API_KEY", c.apiKey),
     ("DUNE_COPM_TOKEN_ADDRESS", c.copmTokenAddress),
     ("DUNE_COPW_TOKEN_ADDRESS", c.copwTokenAddress)]
  }

  /** `[name for name, value in required_vars.items() if value is None]`. */
  function MissingNames(vars: seq<(string, Option<string>)>): (names: seq<string>)
    ensures |names| <= |vars|
    ensures forall n :: n in names <==> exists i :: 0 <= i < |vars| && vars[i] == (n, None)
  {
    if |vars| == 0 then []
    else
      var rest := MissingNames(vars[1..]);
      assert forall i :: 0 < i < |vars| ==> vars[i] == vars[1..][i - 1];
      (if vars[0].1.None? then [vars[0].0] else []) + rest
  }

  /** The combined length of the strings. */
  function TotalLength(xs: seq<string>): nat {
    if |xs| == 0 then 0 else |xs[0]| + TotalLength(xs[1..])
  }

  /** `sep.join(xs)`: starts with the first string, and is as long as all the
      strings plus one separator between each two. */
  function Join(xs: seq<string>, sep: string): (r: string)
    ensures |xs| > 0 ==> |xs[0]| <= |r| && r[..|xs[0]|] == xs[0]
    ensures |r| == TotalLength(xs) + if |xs| == 0 then 0 else (|xs| - 1) * |sep|
  {
    if |xs| == 0 then ""
    else if |xs| == 1 then
      assert xs[1..] == [];
      xs[0]
    else
      var rest := Join(xs[1..], sep);
      assert (|xs| - 2) * |sep| + |sep| == (|xs| - 1) * |sep|;
      assert (xs[0] + sep + rest)[..|xs[0]|] == xs[0];
      xs[0] + sep + rest
  }

  const MISSING_MESSAGE_PREFIX := "Missing required environment variables: "

  /** `validate_config`: raises listing the unset required variables, or
      returns normally. */
  function ValidateConfig(c: Config): (r: Outcome<Error>)
    ensures r.Fail? <==> c.apiKey.None? || c.copmTokenAddress.None? || c.copwTokenAddress.None?
    ensures r.Fail? ==> r.error == ConfigError(MISSING_MESSAGE_PREFIX + Join(MissingNames(RequiredVars(c)), ", "))
  {
    var missing := MissingNames(RequiredVars(c));
    MissingNamesInOrder(c);
    if |missing| > 0 then Fail(ConfigError(MISSING_MESSAGE_PREFIX + Join(missing, ", "))) else Pass
  }

  /** The missing list is exactly the unset required names, in declaration
      order. */
  lemma {:induction false} MissingNamesInOrder(c: Config)
    ensures MissingNames(RequiredVars(c)) ==
      (if c.apiKey.None? then ["DUNE_API_KEY"] else []) +
      (if c.copmTokenAddress.None? then ["DUNE_COPM_TOKEN_ADDRESS"] else []) +
      (if c.copwTokenAddress.None? then ["DUNE_COPW_TOKEN_ADDRESS"] else [])
  {
    var vars := RequiredVars(c);
    assert vars[2..][1..] == [];
    assert MissingNames(vars[2..]) == if c.copwTokenAddress.None? then ["DUNE_COPW_TOKEN_ADDRESS"] else [];
    assert vars[1..][1..] == vars[2..];
    assert MissingNames(vars[1..]) ==
      (if c.copmTokenAddress.None? then ["DUNE_COPM_TOKEN_ADDRESS"] else []) + MissingNames(vars[2..]);
  }

  /** A single unset variable is named alone in the message. */
  lemma SingleMissingNamed(c: Config, name: string)
    requires MissingNames(RequiredVars(c)) == [name]
    ensures ValidateConfig(c) == Fail(ConfigError(MISSING_MESSAGE_PREFIX + name))
  {
  }

  /** Only None counts as missing: variables set to the empty string pass. */
  lemma EmptyValuesPass(c: Config)
    requires c.apiKey == Some("") && c.copmTokenAddress == Some("") && c.copwTokenAddress == Some("")
    ensures ValidateConfig(c) == Pass
  {
  }

  /** With nothing set, every default applies ... */
  lemma EmptyEnvironmentDefaults()
    ensures LoadConfig(Environment(map[], map[])) ==
      Config(None, DEFAULT_SIM_BASE_URL, DEFAULT_DUNE_BASE_URL, DEFAULT_CHAIN_ID_ETH, DEFAULT_CHAIN_ID_POLYGON, None, None)
  {
  }

  /** ... and all three required names are reported, in declaration order. */
  lemma NothingSetReportsAll(c: Config)
    requires c.apiKey.None? && c.copmTokenAddress.None? && c.copwTokenAddress.None?
    ensures ValidateConfig(c) == Fail(ConfigError(MISSING_MESSAGE_PREFIX +
      ("DUNE_API_KEY" + ", " + ("DUNE_COPM_TOKEN_ADDRESS" + ", " + "DUNE_COPW_TOKEN_ADDRESS"))))
  {
    MissingNamesInOrder(c);
    var names := ["DUNE_API_KEY", "DUNE_COPM_TOKEN_ADDRESS", "DUNE_COPW_TOKEN_ADDRESS"];
    assert MissingNames(RequiredVars(c)) == names;
    assert names[1..][1..] == ["DUNE_COPW_TOKEN_ADDRESS"];
    assert Join(names[1..], ", ") == "DUNE_COPM_TOKEN_ADDRESS" + ", " + "DUNE_COPW_TOKEN_ADDRESS";
    assert Join(names, ", ") == "DUNE_API_KEY" + ", " + ("DUNE_COPM_TOKEN_ADDRESS" + ", " + "DUNE_COPW_TOKEN_ADDRESS");
  }
}
