/** Start-up configuration: the ordered writes of environment and flags. */
module RuntimeConfig {
  import opened Prelude
  import opened Text
  import opened Address

  /** Each setting has a command-line flag, an environment variable and, mostly, a configuration key of its own. */
  datatype Setting =
    | DataDir | LogDir | PluginsDir | SchemasDir | SpecsDir | Host | Port | ApiHost | ApiPort
    | Storage | StorageDsn | SqlitePath | Role | MasterUrl | WorkerId | WorkerSlots | WorkerLabels
    | ApiToken | Profile | InsecureDev | RestoreStrict | TlsCert | TlsKey | TlsServerName | AuditEnabled | LoggerFormat

  datatype Key = Own(setting: Setting) | CheckpointDir | DlqDir | MysqlDsn | PostgresDsn | ServerAddress | ApiAddress

  /** The command line (flags seen, with their values) and the path join of the platform. */
  datatype Inputs = Inputs(given: map<Setting, string>, under: (string, string) -> string)

  datatype Store = Store(config: map<Key, string>, env: map<Setting, string>)

  function Look(c: map<Key, string>, k: Key): string { if k in c then c[k] else "" }

  predicate Seen(i: Inputs, s: Setting) { s in i.given }
  function Cli(i: Inputs, s: Setting): string { if s in i.given then i.given[s] else "" }

  /** A variable as it is read: not at all when its flag was seen, else trimmed. */
  function EnvOf(i: Inputs, env: map<Setting, string>, s: Setting): string {
    if Seen(i, s) || s !in env then "" else Trim(env[s], Go)
  }

  predicate IsPlain(s: Setting) {
    !s.DataDir? && !s.Host? && !s.Port? && !s.ApiHost? && !s.ApiPort? && !s.StorageDsn?
  }

  // ---------------------------------------------------------------- the writes

  /** The data directory fans out to six keys. */
  function ApplyDataDir(i: Inputs, c: map<Key, string>, dir: string): map<Key, string> {
    c[Own(DataDir) := dir]
     [CheckpointDir := i.under(dir, "checkpoint")]
     [DlqDir := i.under(dir, "dlq")]
     [Own(SqlitePath) := i.under(dir, "etl.db")]
     [Own(PluginsDir) := i.under(dir, "plugins")]
     [Own(SchemasDir) := i.under(dir, "schemas")]
  }

  function ApplyDsn(c: map<Key, string>, dsn: string): map<Key, string> {
    if Look(c, Own(Storage)) == "postgresql" then c[PostgresDsn := dsn] else c[MysqlDsn := dsn]
  }

  /** One variable of the first pass. */
  function EnvWrite(i: Inputs, st: Store, s: Setting): Store {
    var v := EnvOf(i, st.env, s);
    var c := st.config;
    if v == "" then st
    else st.(config :=
      match s
      case DataDir => ApplyDataDir(i, c, v)
      case Host => c[ServerAddress := Override(Look(c, ServerAddress), v, "", "8000")]
      case Port => c[ServerAddress := Override(Look(c, ServerAddress), "", v, "8000")]
      case ApiHost => c[ApiAddress := Override(Look(c, ApiAddress), v, "", "8001")]
      case ApiPort => c[ApiAddress := Override(Look(c, ApiAddress), "", v, "8001")]
      case StorageDsn => c // resolved in the second pass, by DsnWrite
      case _ => c[Own(s) := v])
  }

  /** The generic DSN: from the flag, else from the variable, by the storage type of that moment. */
  function DsnWrite(i: Inputs, st: Store): Store {
    if Cli(i, StorageDsn) != "" then
      Store(ApplyDsn(st.config, Cli(i, StorageDsn)), st.env[StorageDsn := Cli(i, StorageDsn)])
    else if EnvOf(i, st.env, StorageDsn) != "" then st.(config := ApplyDsn(st.config, EnvOf(i, st.env, StorageDsn)))
    else st
  }

  function DirWrite(i: Inputs, st: Store): Store {
    var dir := Cli(i, DataDir);
    if dir == "" then st
    else Store(ApplyDataDir(i, st.config, dir),
               st.env[DataDir := dir][PluginsDir := i.under(dir, "plugins")][SchemasDir := i.under(dir, "schemas")])
  }

  function AddressWrite(i: Inputs, st: Store, key: Key, host: Setting, port: Setting, default: string): Store {
    if Cli(i, host) == "" && Cli(i, port) == "" then st
    else st.(config := st.config[key := Override(Look(st.config, key), Cli(i, host), Cli(i, port), default)])
  }

  /** One flag of the second pass; host and port are written together. */
  function FlagWrite(i: Inputs, st: Store, s: Setting): Store {
    match s
    case DataDir => DirWrite(i, st)
    case StorageDsn => DsnWrite(i, st)
    case Host => AddressWrite(i, st, ServerAddress, Host, Port, "8000")
    case Port => st
    case ApiHost => AddressWrite(i, st, ApiAddress, ApiHost, ApiPort, "8001")
    case ApiPort => st
    case _ => if Cli(i, s) == "" then st else Store(st.config[Own(s) := Cli(i, s)], st.env[s := Cli(i, s)])
  }

  const ENV_ORDER: seq<Setting> :=
    [DataDir] + [LogDir, PluginsDir, SchemasDir, SpecsDir] + [Host, Port] + [ApiHost, ApiPort] + ENV_LATE

  const ENV_LATE: seq<Setting> :=
    [Storage, SqlitePath, Role, MasterUrl, WorkerId, WorkerSlots, WorkerLabels, ApiToken, Profile, InsecureDev,
     RestoreStrict, TlsCert, TlsKey, TlsServerName, AuditEnabled, LoggerFormat]

  const FLAG_ORDER: seq<Setting> :=
    [DataDir] + FLAG_EARLY + [StorageDsn] + FLAG_LATE + [Host] + [ApiHost]

  const FLAG_EARLY: seq<Setting> := [LogDir, PluginsDir, SchemasDir, SpecsDir, Storage]

  const FLAG_LATE: seq<Setting> :=
    [SqlitePath, ApiToken, Profile, InsecureDev, RestoreStrict, TlsCert, TlsKey, TlsServerName, Role, MasterUrl,
     WorkerId, WorkerLabels, AuditEnabled, LoggerFormat, WorkerSlots]

  function EnvPass(i: Inputs, st: Store, order: seq<Setting>): Store {
    if order == [] then st else EnvWrite(i, EnvPass(i, st, order[..|order| - 1]), order[|order| - 1])
  }

  function FlagPass(i: Inputs, st: Store, order: seq<Setting>): Store {
    if order == [] then st else FlagWrite(i, FlagPass(i, st, order[..|order| - 1]), order[|order| - 1])
  }

  function Applied(i: Inputs, st: Store): Store { FlagPass(i, EnvPass(i, st, ENV_ORDER), FLAG_ORDER) }

  // ---------------------------------------------------------------- the stores, written in place

  class Process {
    var config: map<Key, string>
    var env: map<Setting, string>

    function View(): Store
      reads this
    {
      Store(config, env)
    }

    method EnvString(i: Inputs, s: Setting)
      modifies this`config
      ensures View() == EnvWrite(i, old(View()), s)
    {
      if Seen(i, s) || s !in env { return; }
      var v := Trim(env[s], Go);
      if v == "" { return; }
      match s
      case DataDir => config := ApplyDataDir(i, config, v);
      case Host => config := config[ServerAddress := Override(Look(config, ServerAddress), v, "", "8000")];
      case Port => config := config[ServerAddress := Override(Look(config, ServerAddress), "", v, "8000")];
      case ApiHost => config := config[ApiAddress := Override(Look(config, ApiAddress), v, "", "8001")];
      case ApiPort => config := config[ApiAddress := Override(Look(config, ApiAddress), "", v, "8001")];
      case StorageDsn =>
      case _ => config := config[Own(s) := v];
    }

    method SetFlag(i: Inputs, s: Setting)
      modifies this
      ensures View() == FlagWrite(i, old(View()), s)
    {
      var v := Cli(i, s);
      match s
      case DataDir =>
        if v == "" { return; }
        config := ApplyDataDir(i, config, v);
        env := env[DataDir := v][PluginsDir := i.under(v, "plugins")][SchemasDir := i.under(v, "schemas")];
      case StorageDsn =>
        if v != "" {
          config := ApplyDsn(config, v);
          env := env[StorageDsn := v];
        } else if EnvOf(i, env, StorageDsn) != "" {
          config := ApplyDsn(config, EnvOf(i, env, StorageDsn));
        }
      case Host => SetAddress(i, ServerAddress, Host, Port, "8000");
      case Port =>
      case ApiHost => SetAddress(i, ApiAddress, ApiHost, ApiPort, "8001");
      case ApiPort =>
      case _ =>
        if v == "" { return; }
        config := config[Own(s) := v];
        env := env[s := v];
    }

    method SetAddress(i: Inputs, key: Key, host: Setting, port: Setting, default: string)
      modifies this`config
      ensures View() == AddressWrite(i, old(View()), key, host, port, default)
    {
      hide Override;
      if Cli(i, host) == "" && Cli(i, port) == "" { return; }
      config := config[key := Override(Look(config, key), Cli(i, host), Cli(i, port), default)];
    }

    /** The two passes, write by write. */
    method ApplyRuntimeFlags(i: Inputs)
      modifies this
      ensures View() == Applied(i, old(View()))
    {
      hide EnvWrite, FlagWrite, ENV_ORDER, FLAG_ORDER;
      var n := 0;
      while n < |ENV_ORDER|
        invariant 0 <= n <= |ENV_ORDER|
        invariant View() == EnvPass(i, old(View()), ENV_ORDER[..n])
      {
        EnvString(i, ENV_ORDER[n]);
        assert ENV_ORDER[..n + 1][..n] == ENV_ORDER[..n];
        n := n + 1;
      }
      assert ENV_ORDER[..n] == ENV_ORDER;
      ghost var first := View();
      n := 0;
      while n < |FLAG_ORDER|
        invariant 0 <= n <= |FLAG_ORDER|
        invariant View() == FlagPass(i, first, FLAG_ORDER[..n])
      {
        SetFlag(i, FLAG_ORDER[n]);
        assert FLAG_ORDER[..n + 1][..n] == FLAG_ORDER[..n];
        n := n + 1;
      }
      assert FLAG_ORDER[..n] == FLAG_ORDER;
    }
  }
}
