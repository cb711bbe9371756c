/** The keyword arguments each script passes to the warehouse connector,
    built from the parsed JSON configuration (modelled as a string map). */
module Config {
  import opened Wrappers

  type Settings = map<string, string>

  /** The connection arguments. `role` is absent for Bronze Setup, which does
      not pass one. */
  datatype Connection = Connection(
    user: string, password: string, account: string,
    warehouse: string, database: string, role: Option<string>, schema: string)

  /** Python's `KeyError(key)` from `cfg[key]`. */
  datatype ConfigError = MissingKey(key: string)

  const DefaultWarehouse := "DE_WH"
  const DefaultDatabase := "ECOMMERCE_ANALYTICS"

  /** The keys Bronze Setup looks up with `config[key]`, in argument order. */
  const SetupRequired: seq<string> := ["user", "password", "account"]

  /** The keys the other scripts look up with `cfg[key]`, in argument order. */
  const ScriptRequired: seq<string> := ["user", "password", "account", "warehouse", "database", "role"]

  /** The first key of `keys` missing from `cfg`: the `KeyError` Python raises
      while evaluating the arguments left to right. */
  function FirstMissing(keys: seq<string>, cfg: Settings): (r: Option<string>)
    ensures r.None? <==> forall i :: 0 <= i < |keys| ==> keys[i] in cfg
    ensures r.Some? ==> exists i :: 0 <= i < |keys| && keys[i] == r.value
                          && keys[i] !in cfg && forall j :: 0 <= j < i ==> keys[j] in cfg
  {
    if |keys| == 0 then None
    else if keys[0] !in cfg then Some(keys[0])
    else
      var r := FirstMissing(keys[1..], cfg);
      if r.Some? then
        var i :| 0 <= i < |keys[1..]| && keys[1..][i] == r.value
                 && keys[1..][i] !in cfg && forall j :: 0 <= j < i ==> keys[1..][j] in cfg;
        assert keys[i + 1] == r.value && keys[i + 1] !in cfg;
        assert forall j :: 0 <= j < i + 1 ==> keys[j] in cfg by {
          forall j | 0 <= j < i + 1
            ensures keys[j] in cfg
          {
            if j > 0 { assert keys[j] == keys[1..][j - 1]; }
          }
        }
        r
      else
        assert forall i :: 0 <= i < |keys| ==> keys[i] in cfg by {
          forall i | 0 <= i < |keys|
            ensures keys[i] in cfg
          {
            if i > 0 { assert keys[i] == keys[1..][i - 1]; }
          }
        }
        r
  }

  /** `config.get(key, default)`. */
  function GetOr(cfg: Settings, key: string, default: string): string
  {
    if key in cfg then cfg[key] else default
  }

  /** Bronze Setup's `connect`: `user`, `password` and `account` are required,
      `warehouse` and `database` fall back to defaults, no role is passed. */
  function SetupConnection(cfg: Settings): (r: Result<Connection, ConfigError>)
    ensures r.Success? <==> "user" in cfg && "password" in cfg && "account" in cfg
    ensures r.Failure? ==> r.error.key in SetupRequired && r.error.key !in cfg
    ensures r.Failure? && "user" !in cfg ==> r.error == MissingKey("user")
    ensures r.Success? ==> r.value.user == cfg["user"] && r.value.password == cfg["password"]
                           && r.value.account == cfg["account"]
    ensures r.Success? ==> r.value.warehouse == (if "warehouse" in cfg then cfg["warehouse"] else DefaultWarehouse)
    ensures r.Success? ==> r.value.database == (if "database" in cfg then cfg["database"] else DefaultDatabase)
    ensures r.Success? ==> r.value.role.None? && r.value.schema == "BRONZE"
  {
    match FirstMissing(SetupRequired, cfg)
    case Some(k) => Failure(MissingKey(k))
    case None =>
      assert SetupRequired[0] in cfg && SetupRequired[1] in cfg && SetupRequired[2] in cfg;
      Success(Connection(cfg["user"], cfg["password"], cfg["account"],
                         GetOr(cfg, "warehouse", DefaultWarehouse),
                         GetOr(cfg, "database", DefaultDatabase),
                         None, "BRONZE"))
  }

  /** The connection of Bronze Load and the three transforms: all six keys are
      required, and the schema is fixed by the script. */
  function ScriptConnection(cfg: Settings, schema: string): (r: Result<Connection, ConfigError>)
    ensures r.Success? <==> forall k :: k in ScriptRequired ==> k in cfg
    ensures r.Failure? ==> r.error.key in ScriptRequired && r.error.key !in cfg
    ensures r.Success? ==> r.value == Connection(cfg["user"], cfg["password"], cfg["account"],
                                                 cfg["warehouse"], cfg["database"], Some(cfg["role"]), schema)
  {
    match FirstMissing(ScriptRequired, cfg)
    case Some(k) => Failure(MissingKey(k))
    case None =>
      assert forall k :: k in ScriptRequired ==> k in cfg;
      Success(Connection(cfg["user"], cfg["password"], cfg["account"],
                         cfg["warehouse"], cfg["database"], Some(cfg["role"]), schema))
  }

  /** A configuration missing a key Bronze Setup needs fails with that key
      before anything is connected; the optional keys never cause a failure. */
  lemma SetupOptionalKeys(cfg: Settings, k: string)
    requires "user" in cfg && "password" in cfg && "account" in cfg
    ensures SetupConnection(cfg - {k}).Success? <==> k !in SetupRequired
  {
    assert SetupRequired == ["user", "password", "account"];
  }
}
