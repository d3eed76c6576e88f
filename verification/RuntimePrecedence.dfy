/** The start-up writes amount to a precedence, key by key. */
module RuntimePrecedence {
  import opened Prelude
  import opened Text
  import opened Address
  import opened RuntimeConfig

  // ---------------------------------------------------------------- the precedence they amount to

  /** The name below the data directory, for the keys it derives. */
  function Leaf(k: Key): Option<string> {
    match k
    case CheckpointDir => Some("checkpoint")
    case DlqDir => Some("dlq")
    case Own(SqlitePath) => Some("etl.db")
    case Own(PluginsDir) => Some("plugins")
    case Own(SchemasDir) => Some("schemas")
    case _ => None
  }

  /** The flag and variable that set a key directly. */
  function Specific(k: Key): Option<Setting> {
    if k.Own? && (IsPlain(k.setting) || k.setting == DataDir) then Some(k.setting) else None
  }

  /** Flag, else flag data directory, else variable, else variable data directory, else the file. */
  function Resolve(i: Inputs, st: Store, k: Key): string {
    var flag := if Specific(k).Some? then Cli(i, Specific(k).value) else "";
    var variable := if Specific(k).Some? then EnvOf(i, st.env, Specific(k).value) else "";
    if flag != "" then flag
    else if Cli(i, DataDir) != "" && Leaf(k).Some? then i.under(Cli(i, DataDir), Leaf(k).value)
    else if variable != "" then variable
    else if EnvOf(i, st.env, DataDir) != "" && Leaf(k).Some? then i.under(EnvOf(i, st.env, DataDir), Leaf(k).value)
    else Look(st.config, k)
  }

  /** What is left in the environment for the processes started later. */
  function ResolveEnv(i: Inputs, st: Store, s: Setting): Option<string> {
    if Cli(i, s) != "" && !s.Host? && !s.Port? && !s.ApiHost? && !s.ApiPort? then Some(Cli(i, s))
    else if Cli(i, DataDir) != "" && s == PluginsDir then Some(i.under(Cli(i, DataDir), "plugins"))
    else if Cli(i, DataDir) != "" && s == SchemasDir then Some(i.under(Cli(i, DataDir), "schemas"))
    else if s in st.env then Some(st.env[s])
    else None
  }

  // ---------------------------------------------------------------- passes as sequences of writes

  /** Keys a write of a setting can change. */
  predicate Touches(s: Setting, k: Key) {
    match s
    case DataDir => k == Own(DataDir) || Leaf(k).Some?
    case StorageDsn => k == MysqlDsn || k == PostgresDsn
    case Host => k == ServerAddress
    case Port => k == ServerAddress
    case ApiHost => k == ApiAddress
    case ApiPort => k == ApiAddress
    case _ => k == Own(s)
  }

  predicate Untouched(order: seq<Setting>, k: Key) { forall n :: 0 <= n < |order| ==> !Touches(order[n], k) }

  lemma {:induction false} EnvSplit(i: Inputs, st: Store, a: seq<Setting>, b: seq<Setting>)
    ensures EnvPass(i, st, a + b) == EnvPass(i, EnvPass(i, st, a), b)
  {
    if b == [] {
      assert a + b == a;
    } else {
      assert (a + b)[..|a + b| - 1] == a + b[..|b| - 1];
      EnvSplit(i, st, a, b[..|b| - 1]);
    }
  }

  lemma {:induction false} FlagSplit(i: Inputs, st: Store, a: seq<Setting>, b: seq<Setting>)
    ensures FlagPass(i, st, a + b) == FlagPass(i, FlagPass(i, st, a), b)
  {
    if b == [] {
      assert a + b == a;
    } else {
      assert (a + b)[..|a + b| - 1] == a + b[..|b| - 1];
      FlagSplit(i, st, a, b[..|b| - 1]);
    }
  }

  lemma EnvWriteFrame(i: Inputs, st: Store, s: Setting, k: Key)
    requires !Touches(s, k)
    ensures Look(EnvWrite(i, st, s).config, k) == Look(st.config, k) && EnvWrite(i, st, s).env == st.env
  {}

  lemma {:induction false} EnvFrame(i: Inputs, st: Store, order: seq<Setting>, k: Key)
    requires Untouched(order, k)
    ensures Look(EnvPass(i, st, order).config, k) == Look(st.config, k)
  {
    if order != [] {
      var front := order[..|order| - 1];
      EnvFrame(i, st, front, k);
      assert !Touches(order[|order| - 1], k);
      EnvWriteFrame(i, EnvPass(i, st, front), order[|order| - 1], k);
    }
  }

  lemma {:induction false} EnvKeepsEnv(i: Inputs, st: Store, order: seq<Setting>)
    ensures EnvPass(i, st, order).env == st.env
  {
    if order != [] { EnvKeepsEnv(i, st, order[..|order| - 1]); }
  }

  lemma FlagWriteFrame(i: Inputs, st: Store, s: Setting, k: Key)
    requires !Touches(s, k)
    ensures Look(FlagWrite(i, st, s).config, k) == Look(st.config, k)
  {}

  lemma {:induction false} FlagFrame(i: Inputs, st: Store, order: seq<Setting>, k: Key)
    requires Untouched(order, k)
    ensures Look(FlagPass(i, st, order).config, k) == Look(st.config, k)
  {
    if order != [] {
      var front := order[..|order| - 1];
      FlagFrame(i, st, front, k);
      assert !Touches(order[|order| - 1], k);
      FlagWriteFrame(i, FlagPass(i, st, front), order[|order| - 1], k);
    }
  }

  lemma WritePlain(i: Inputs, st: Store, written: Setting, s: Setting)
    requires IsPlain(s) && written != DataDir
    ensures Look(EnvWrite(i, st, written).config, Own(s)) ==
            if s == written && EnvOf(i, st.env, s) != "" then EnvOf(i, st.env, s) else Look(st.config, Own(s))
    ensures Look(FlagWrite(i, st, written).config, Own(s)) ==
            if s == written && Cli(i, s) != "" then Cli(i, s) else Look(st.config, Own(s))
  {
    if s != written {
      EnvWriteFrame(i, st, written, Own(s));
      FlagWriteFrame(i, st, written, Own(s));
    }
  }

  /** A plain setting in a pass without the data directory: written there, or left. */
  lemma {:induction false} EnvPlain(i: Inputs, st: Store, order: seq<Setting>, s: Setting)
    requires IsPlain(s) && DataDir !in order
    ensures Look(EnvPass(i, st, order).config, Own(s)) ==
            if s in order && EnvOf(i, st.env, s) != "" then EnvOf(i, st.env, s) else Look(st.config, Own(s))
  {
    hide EnvWrite, Look, EnvOf;
    if order != [] {
      var front, last := order[..|order| - 1], order[|order| - 1];
      assert order == front + [last];
      EnvPlain(i, st, front, s);
      EnvKeepsEnv(i, st, front);
      WritePlain(i, EnvPass(i, st, front), last, s);
    }
  }

  lemma {:induction false} FlagPlain(i: Inputs, st: Store, order: seq<Setting>, s: Setting)
    requires IsPlain(s) && DataDir !in order
    ensures Look(FlagPass(i, st, order).config, Own(s)) ==
            if s in order && Cli(i, s) != "" then Cli(i, s) else Look(st.config, Own(s))
  {
    hide FlagWrite, Look, Cli;
    if order != [] {
      var front, last := order[..|order| - 1], order[|order| - 1];
      assert order == front + [last];
      FlagPlain(i, st, front, s);
      WritePlain(i, FlagPass(i, st, front), last, s);
    }
  }

  lemma PassLists()
    ensures ENV_ORDER == [DataDir] + ENV_ORDER[1..] && DataDir !in ENV_ORDER[1..]
    ensures FLAG_ORDER == [DataDir] + FLAG_ORDER[1..] && DataDir !in FLAG_ORDER[1..]
  {}

  lemma PlainInEnv(s: Setting)
    requires IsPlain(s)
    ensures s in [LogDir, PluginsDir, SchemasDir, SpecsDir] || s in ENV_LATE
  {
    match s
    case Storage => assert ENV_LATE[0] == s;
    case SqlitePath => assert ENV_LATE[1] == s;
    case Role => assert ENV_LATE[2] == s;
    case MasterUrl => assert ENV_LATE[3] == s;
    case WorkerId => assert ENV_LATE[4] == s;
    case WorkerSlots => assert ENV_LATE[5] == s;
    case WorkerLabels => assert ENV_LATE[6] == s;
    case ApiToken => assert ENV_LATE[7] == s;
    case Profile => assert ENV_LATE[8] == s;
    case InsecureDev => assert ENV_LATE[9] == s;
    case RestoreStrict => assert ENV_LATE[10] == s;
    case TlsCert => assert ENV_LATE[11] == s;
    case TlsKey => assert ENV_LATE[12] == s;
    case TlsServerName => assert ENV_LATE[13] == s;
    case AuditEnabled => assert ENV_LATE[14] == s;
    case LoggerFormat => assert ENV_LATE[15] == s;
    case _ =>
  }

  lemma PlainInFlags(s: Setting)
    requires IsPlain(s)
    ensures s in FLAG_EARLY || s in FLAG_LATE
  {
    match s
    case SqlitePath => assert FLAG_LATE[0] == s;
    case ApiToken => assert FLAG_LATE[1] == s;
    case Profile => assert FLAG_LATE[2] == s;
    case InsecureDev => assert FLAG_LATE[3] == s;
    case RestoreStrict => assert FLAG_LATE[4] == s;
    case TlsCert => assert FLAG_LATE[5] == s;
    case TlsKey => assert FLAG_LATE[6] == s;
    case TlsServerName => assert FLAG_LATE[7] == s;
    case Role => assert FLAG_LATE[8] == s;
    case MasterUrl => assert FLAG_LATE[9] == s;
    case WorkerId => assert FLAG_LATE[10] == s;
    case WorkerLabels => assert FLAG_LATE[11] == s;
    case AuditEnabled => assert FLAG_LATE[12] == s;
    case LoggerFormat => assert FLAG_LATE[13] == s;
    case WorkerSlots => assert FLAG_LATE[14] == s;
    case _ =>
  }

  lemma RestOfPasses(s: Setting)
    requires IsPlain(s)
    ensures s in ENV_ORDER[1..] && s in FLAG_ORDER[1..]
  {
    PlainInEnv(s);
    PlainInFlags(s);
    hide ENV_LATE, FLAG_EARLY, FLAG_LATE;
    assert ENV_ORDER[1..] == [LogDir, PluginsDir, SchemasDir, SpecsDir] + [Host, Port] + [ApiHost, ApiPort] + ENV_LATE;
    assert FLAG_ORDER[1..] == FLAG_EARLY + [StorageDsn] + FLAG_LATE + [Host] + [ApiHost];
  }

  // ---------------------------------------------------------------- the theorems

  /** Directories, as the first write of each pass leaves them. */
  lemma DataDirFirst(i: Inputs, st: Store, k: Key)
    ensures Look(EnvWrite(i, st, DataDir).config, k) ==
            if k == Own(DataDir) && EnvOf(i, st.env, DataDir) != "" then EnvOf(i, st.env, DataDir)
            else if Leaf(k).Some? && EnvOf(i, st.env, DataDir) != "" then i.under(EnvOf(i, st.env, DataDir), Leaf(k).value)
            else Look(st.config, k)
    ensures Look(FlagWrite(i, st, DataDir).config, k) ==
            if k == Own(DataDir) && Cli(i, DataDir) != "" then Cli(i, DataDir)
            else if Leaf(k).Some? && Cli(i, DataDir) != "" then i.under(Cli(i, DataDir), Leaf(k).value)
            else Look(st.config, k)
  {}

  /** A pass is its data directory followed by the rest. */
  lemma PassesBegin(i: Inputs, st: Store)
    ensures EnvPass(i, st, ENV_ORDER) == EnvPass(i, EnvWrite(i, st, DataDir), ENV_ORDER[1..])
    ensures FlagPass(i, st, FLAG_ORDER) == FlagPass(i, FlagWrite(i, st, DataDir), FLAG_ORDER[1..])
  {
    PassLists();
    hide ENV_ORDER, FLAG_ORDER, EnvWrite, FlagWrite;
    EnvSplit(i, st, [DataDir], ENV_ORDER[1..]);
    FlagSplit(i, st, [DataDir], FLAG_ORDER[1..]);
    assert EnvPass(i, st, [DataDir]) == EnvWrite(i, EnvPass(i, st, []), DataDir);
    assert FlagPass(i, st, [DataDir]) == FlagWrite(i, FlagPass(i, st, []), DataDir);
  }

  lemma PlainResolves(i: Inputs, st: Store, s: Setting)
    requires IsPlain(s)
    ensures Look(Applied(i, st).config, Own(s)) == Resolve(i, st, Own(s))
  {
    PassLists();
    RestOfPasses(s);
    hide ENV_ORDER, FLAG_ORDER, EnvWrite, FlagWrite, EnvPass, FlagPass;
    var first := EnvPass(i, st, ENV_ORDER);
    PassesBegin(i, st);
    PassesBegin(i, first);
    DataDirFirst(i, st, Own(s));
    DataDirFirst(i, first, Own(s));
    EnvWriteKeepsEnv(i, st, DataDir);
    EnvPlain(i, EnvWrite(i, st, DataDir), ENV_ORDER[1..], s);
    FlagPlain(i, FlagWrite(i, first, DataDir), FLAG_ORDER[1..], s);
  }

  lemma EnvWriteKeepsEnv(i: Inputs, st: Store, s: Setting)
    ensures EnvWrite(i, st, s).env == st.env
  {}

  lemma DirectoryUntouched(k: Key)
    requires k in [Own(DataDir), CheckpointDir, DlqDir]
    ensures Untouched(ENV_ORDER[1..], k) && Untouched(FLAG_ORDER[1..], k)
  {
    assert forall s: Setting :: Touches(s, k) ==> s == DataDir;
    PassLists();
    hide ENV_ORDER, FLAG_ORDER, Touches;
    forall n | 0 <= n < |ENV_ORDER[1..]| ensures !Touches(ENV_ORDER[1..][n], k) { assert ENV_ORDER[1..][n] in ENV_ORDER[1..]; }
    forall n | 0 <= n < |FLAG_ORDER[1..]| ensures !Touches(FLAG_ORDER[1..][n], k) { assert FLAG_ORDER[1..][n] in FLAG_ORDER[1..]; }
  }

  lemma DirectoryResolves(i: Inputs, st: Store, k: Key)
    requires k in [Own(DataDir), CheckpointDir, DlqDir]
    ensures Look(Applied(i, st).config, k) == Resolve(i, st, k)
  {
    DirectoryUntouched(k);
    hide ENV_ORDER, FLAG_ORDER, EnvWrite, FlagWrite, EnvPass, FlagPass, Untouched;
    var first := EnvPass(i, st, ENV_ORDER);
    PassesBegin(i, st);
    PassesBegin(i, first);
    DataDirFirst(i, st, k);
    DataDirFirst(i, first, k);
    EnvFrame(i, EnvWrite(i, st, DataDir), ENV_ORDER[1..], k);
    FlagFrame(i, FlagWrite(i, first, DataDir), FLAG_ORDER[1..], k);
  }

  /** Every key that is not an address or a DSN ends up with the value the precedence names. */
  lemma KeyResolves(i: Inputs, st: Store, k: Key)
    requires Specific(k).Some? || Leaf(k).Some?
    ensures Look(Applied(i, st).config, k) == Resolve(i, st, k)
  {
    hide Applied, Resolve, Look;
    if k.Own? && IsPlain(k.setting) { PlainResolves(i, st, k.setting); } else { DirectoryResolves(i, st, k); }
  }

  // ---------------------------------------------------------------- the storage DSN

  const TO_DSN: seq<Setting> := [DataDir] + FLAG_EARLY
  const PAST_DSN: seq<Setting> := FLAG_LATE + [Host] + [ApiHost]

  lemma AroundDsn(i: Inputs, st: Store)
    ensures FlagPass(i, st, FLAG_ORDER) == FlagPass(i, DsnWrite(i, FlagPass(i, st, TO_DSN)), PAST_DSN)
  {
    hide FLAG_EARLY, FLAG_LATE, DsnWrite, DirWrite, AddressWrite;
    assert FLAG_ORDER == (TO_DSN + [StorageDsn]) + PAST_DSN;
    FlagSplit(i, st, TO_DSN + [StorageDsn], PAST_DSN);
    FlagSplit(i, st, TO_DSN, [StorageDsn]);
    hide TO_DSN, PAST_DSN, FLAG_ORDER;
    OneFlag(i, FlagPass(i, st, TO_DSN), StorageDsn);
  }

  lemma OneFlag(i: Inputs, st: Store, s: Setting)
    ensures FlagPass(i, st, [s]) == FlagWrite(i, st, s)
  {
    assert FlagPass(i, st, [s]) == FlagWrite(i, FlagPass(i, st, []), s);
  }

  lemma PastDsn(k: Key)
    requires k in [MysqlDsn, PostgresDsn, Own(Storage)]
    ensures Untouched(PAST_DSN, k)
  {}

  lemma ToDsn(k: Key)
    requires k in [MysqlDsn, PostgresDsn]
    ensures Untouched(TO_DSN, k) && Untouched(ENV_ORDER, k)
  {
    assert forall s: Setting :: Touches(s, k) ==> s == StorageDsn;
    assert StorageDsn !in TO_DSN && StorageDsn !in ENV_ORDER;
    hide TO_DSN, ENV_ORDER, Touches;
    forall n | 0 <= n < |ENV_ORDER| ensures !Touches(ENV_ORDER[n], k) { assert ENV_ORDER[n] in ENV_ORDER; }
    forall n | 0 <= n < |TO_DSN| ensures !Touches(TO_DSN[n], k) { assert TO_DSN[n] in TO_DSN; }
  }

  lemma {:induction false} EnvVariableKept(i: Inputs, st: Store, order: seq<Setting>, s: Setting)
    requires s !in order && s != PluginsDir && s != SchemasDir
    ensures EnvOf(i, FlagPass(i, st, order).env, s) == EnvOf(i, st.env, s)
  {
    if order != [] { EnvVariableKept(i, st, order[..|order| - 1], s); }
  }

  lemma NotBeforeDsn()
    ensures StorageDsn !in TO_DSN
  {}

  lemma DsnWriteLands(i: Inputs, st: Store)
    ensures var dsn := Else(Cli(i, StorageDsn), EnvOf(i, st.env, StorageDsn));
            var pg := Look(st.config, Own(Storage)) == "postgresql";
            var c := DsnWrite(i, st).config;
            && Look(c, PostgresDsn) == (if dsn != "" && pg then dsn else Look(st.config, PostgresDsn))
            && Look(c, MysqlDsn) == (if dsn != "" && !pg then dsn else Look(st.config, MysqlDsn))
            && Look(c, Own(Storage)) == Look(st.config, Own(Storage))
  {}

  /** Flag or variable, the DSN lands in the key of the storage type that is finally chosen, and in no other. */
  lemma DsnLandsByFinalType(i: Inputs, st: Store)
    ensures var dsn := Else(Cli(i, StorageDsn), EnvOf(i, st.env, StorageDsn));
            var c := Applied(i, st).config;
            var pg := Look(c, Own(Storage)) == "postgresql";
            && Look(c, PostgresDsn) == (if dsn != "" && pg then dsn else Look(st.config, PostgresDsn))
            && Look(c, MysqlDsn) == (if dsn != "" && !pg then dsn else Look(st.config, MysqlDsn))
            && Look(c, Own(Storage)) == Resolve(i, st, Own(Storage))
  {
    hide ENV_ORDER, FLAG_ORDER, TO_DSN, PAST_DSN, EnvPass, FlagPass, DsnWrite, Untouched, Look, EnvOf, Cli, Resolve;
    var first := EnvPass(i, st, ENV_ORDER);
    NotBeforeDsn();
    var before := FlagPass(i, first, TO_DSN);
    var after := DsnWrite(i, before);
    AroundDsn(i, first);
    DsnWriteLands(i, before);
    EnvKeepsEnv(i, st, ENV_ORDER);
    EnvVariableKept(i, first, TO_DSN, StorageDsn);
    PastDsn(MysqlDsn);
    PastDsn(PostgresDsn);
    PastDsn(Own(Storage));
    ToDsn(MysqlDsn);
    ToDsn(PostgresDsn);
    FlagFrame(i, after, PAST_DSN, MysqlDsn);
    FlagFrame(i, after, PAST_DSN, PostgresDsn);
    FlagFrame(i, after, PAST_DSN, Own(Storage));
    FlagFrame(i, first, TO_DSN, MysqlDsn);
    FlagFrame(i, first, TO_DSN, PostgresDsn);
    EnvFrame(i, st, ENV_ORDER, MysqlDsn);
    EnvFrame(i, st, ENV_ORDER, PostgresDsn);
    PlainResolves(i, st, Storage);
  }

  // ---------------------------------------------------------------- the addresses

  /** An address as the passes compute it. */
  function Chained(i: Inputs, st: Store, key: Key, host: Setting, port: Setting, default: string): string {
    Chain(Look(st.config, key), EnvOf(i, st.env, host), EnvOf(i, st.env, port), Cli(i, host), Cli(i, port), default)
  }

  predicate IsAddress(key: Key, host: Setting, port: Setting, default: string) {
    || (key == ServerAddress && host == Host && port == Port && default == "8000")
    || (key == ApiAddress && host == ApiHost && port == ApiPort && default == "8001")
  }

  lemma OnlyTouchedBy(order: seq<Setting>, key: Key, host: Setting, port: Setting, default: string)
    requires IsAddress(key, host, port, default) && host !in order && port !in order
    ensures Untouched(order, key)
  {
    forall n | 0 <= n < |order| ensures !Touches(order[n], key) { assert order[n] in order; }
  }

  const DIRS: seq<Setting> := [DataDir] + [LogDir, PluginsDir, SchemasDir, SpecsDir]
  const FLAGS: seq<Setting> := [DataDir] + FLAG_EARLY + [StorageDsn] + FLAG_LATE

  lemma NoAddressIn(s: Setting)
    requires s in [Host, Port, ApiHost, ApiPort]
    ensures s !in DIRS && s !in FLAGS && s !in ENV_LATE
  {}

  /** The orders before and after the writes of an address. */
  lemma AddressWrites(key: Key, host: Setting, port: Setting, default: string)
      returns (a: seq<Setting>, b: seq<Setting>, c: seq<Setting>, d: seq<Setting>)
    requires IsAddress(key, host, port, default)
    ensures ENV_ORDER == a + [host, port] + b && Untouched(a, key) && Untouched(b, key)
    ensures FLAG_ORDER == c + [host] + d && Untouched(c, key) && Untouched(d, key)
  {
    NoAddressIn(host);
    NoAddressIn(port);
    assert ENV_ORDER == DIRS + [Host, Port] + [ApiHost, ApiPort] + ENV_LATE;
    assert FLAG_ORDER == FLAGS + [Host] + [ApiHost];
    hide ENV_LATE, DIRS, FLAGS, ENV_ORDER, FLAG_ORDER, Untouched;
    if key == ServerAddress {
      a, b, c, d := DIRS, [ApiHost, ApiPort] + ENV_LATE, FLAGS, [ApiHost];
      assert DIRS + [Host, Port] + [ApiHost, ApiPort] + ENV_LATE == a + [host, port] + b;
    } else {
      a, b, c, d := DIRS + [Host, Port], ENV_LATE, FLAGS + [Host], [];
      assert FLAGS + [Host] + [ApiHost] == c + [host] + d;
    }
    OnlyTouchedBy(a, key, host, port, default);
    OnlyTouchedBy(b, key, host, port, default);
    OnlyTouchedBy(c, key, host, port, default);
    OnlyTouchedBy(d, key, host, port, default);
  }

  lemma EnvAddressPair(i: Inputs, st: Store, key: Key, host: Setting, port: Setting, default: string)
    requires IsAddress(key, host, port, default)
    ensures Look(EnvPass(i, st, [host, port]).config, key) ==
            Override(Override(Look(st.config, key), EnvOf(i, st.env, host), "", default), "", EnvOf(i, st.env, port), default)
  {
    hide Override;
    assert [host, port][..1] == [host];
    assert EnvPass(i, st, [host]) == EnvWrite(i, EnvPass(i, st, []), host);
    OverrideByNothing(Look(st.config, key), default);
    OverrideByNothing(Override(Look(st.config, key), EnvOf(i, st.env, host), "", default), default);
  }

  lemma OverrideByNothing(a: string, default: string)
    ensures Override(a, "", "", default) == a
  {}

  lemma FlagAddress(i: Inputs, st: Store, key: Key, host: Setting, port: Setting, default: string)
    requires IsAddress(key, host, port, default)
    ensures Look(FlagWrite(i, st, host).config, key) == Override(Look(st.config, key), Cli(i, host), Cli(i, port), default)
  {
    OverrideByNothing(Look(st.config, key), default);
    hide Override;
  }

  lemma AddressComputed(i: Inputs, st: Store, key: Key, host: Setting, port: Setting, default: string)
    requires IsAddress(key, host, port, default)
    ensures Look(Applied(i, st).config, key) == Chained(i, st, key, host, port, default)
  {
    var a, b, c, d := AddressWrites(key, host, port, default);
    hide ENV_ORDER, FLAG_ORDER, EnvPass, FlagPass, FlagWrite, EnvWrite, Override, Untouched, Look, EnvOf, Cli;
    EnvSplit(i, st, a + [host, port], b);
    EnvSplit(i, st, a, [host, port]);
    EnvFrame(i, st, a, key);
    EnvKeepsEnv(i, st, a);
    EnvAddressPair(i, EnvPass(i, st, a), key, host, port, default);
    EnvFrame(i, EnvPass(i, st, a + [host, port]), b, key);
    var first := EnvPass(i, st, ENV_ORDER);
    FlagSplit(i, first, c + [host], d);
    FlagSplit(i, first, c, [host]);
    FlagFrame(i, first, c, key);
    var before := FlagPass(i, first, c);
    OneFlag(i, before, host);
    FlagAddress(i, before, key, host, port, default);
    FlagFrame(i, FlagPass(i, first, c + [host]), d, key);
  }

  /** The host and the port an address should have: flag over variable over file, and over the default port. */
  function ChosenHost(i: Inputs, st: Store, key: Key, host: Setting): string {
    Else(Cli(i, host), Else(EnvOf(i, st.env, host), HostOf(Look(st.config, key))))
  }

  function ChosenPort(i: Inputs, st: Store, key: Key, port: Setting, default: string): string {
    Else(Cli(i, port), Else(EnvOf(i, st.env, port), PortOf(Look(st.config, key), default)))
  }

  predicate Overridden(i: Inputs, st: Store, host: Setting, port: Setting) {
    Cli(i, host) != "" || Cli(i, port) != "" || EnvOf(i, st.env, host) != "" || EnvOf(i, st.env, port) != ""
  }

  /**
   * Host and port are chosen independently, through all the splitting and joining in between, exactly when the texts
   * given for them fit; an address nothing overrides is left as the file has it.
   */
  lemma AddressResolves(i: Inputs, st: Store, key: Key, host: Setting, port: Setting, default: string)
    requires IsAddress(key, host, port, default)
    ensures ChosenPort(i, st, key, port, default) != ""
    ensures var final := Look(Applied(i, st).config, key);
            if !Overridden(i, st, host, port) then final == Look(st.config, key)
            else SplitAddress(final) == Parts(ChosenHost(i, st, key, host), ChosenPort(i, st, key, port, default))
                 <==> Fits(Look(st.config, key), EnvOf(i, st.env, host), EnvOf(i, st.env, port), Cli(i, host), Cli(i, port), default)
  {
    hide SplitAddress, Applied, Look, EnvOf, Cli, HostOf, PortOf, Chain, Fits;
    PortNotEmpty(Look(st.config, key), default);
    FlagOrVariable(i, st.env, host);
    FlagOrVariable(i, st.env, port);
    AddressComputed(i, st, key, host, port, default);
    ChainResolves(Look(st.config, key), EnvOf(i, st.env, host), EnvOf(i, st.env, port), Cli(i, host), Cli(i, port), default);
  }

  /** When both flags are given they decide alone, and the address splits into them if and only if they are Splittable. */
  lemma BothFlagsDecide(i: Inputs, st: Store, key: Key, host: Setting, port: Setting, default: string)
    requires IsAddress(key, host, port, default) && Cli(i, host) != "" && Cli(i, port) != ""
    ensures SplitAddress(Look(Applied(i, st).config, key)) == Parts(Cli(i, host), Cli(i, port))
            <==> Splittable(Cli(i, host), Cli(i, port))
  {
    hide Splittable, SplitAddress, JoinAddress, Applied, EnvOf, Cli, Look, HostOf, PortOf, Override;
    AddressComputed(i, st, key, host, port, default);
    var file := Look(st.config, key);
    var afterHost := Override(file, EnvOf(i, st.env, host), "", default);
    var afterPort := Override(afterHost, "", EnvOf(i, st.env, port), default);
    OverrideResolves(afterPort, Cli(i, host), Cli(i, port), default);
  }

  /** A space in front of the host flag is lost: the address resolves to another host than the one given. */
  lemma LeadingSpaceIsLost(i: Inputs, st: Store)
    requires Cli(i, Host) == " db" && Cli(i, Port) == "80"
    ensures SplitAddress(Look(Applied(i, st).config, ServerAddress)) != Parts(" db", "80")
  {
    BothFlagsDecide(i, st, ServerAddress, Host, Port, "8000");
  }

  /** A stray bracket in the file's host loses the port variable when the host comes from a flag. */
  lemma StrayBracketLosesPort(i: Inputs, st: Store)
    requires Look(st.config, ServerAddress) == "[db" && Cli(i, Host) == "web" && EnvOf(i, st.env, Port) == "9000"
    ensures SplitAddress(Look(Applied(i, st).config, ServerAddress)) != Parts("web", "9000")
  {
    hide SplitAddress, Applied, Look, EnvOf, HostOf, PortOf, Splittable, CarriesPort;
    StrayBracket();
    FlagOrVariable(i, st.env, Port);
    AddressResolves(i, st, ServerAddress, Host, Port, "8000");
  }

  lemma FlagOrVariable(i: Inputs, env: map<Setting, string>, s: Setting)
    ensures EnvOf(i, env, s) == "" || Cli(i, s) == ""
  {}

  lemma StrayBracket()
    ensures HostOf("[db") == "[db" && !CarriesPort("[db", "9000", "8000")
  {
    hide Trim, IsSpace;
    assert Trimmed("[db", Go) by { assert !IsSpace('[', Go) && !IsSpace('b', Go) by { NoSpaces(); } }
    TrimTrims("[db", Go);
    assert "[db"[0] == '[' && "[db"[2] == 'b' && ':' !in "[db";
  }

  lemma NoSpaces()
    ensures !IsSpace('[', Go) && !IsSpace('b', Go)
  {}

  lemma PortNotEmpty(a: string, default: string)
    requires default != ""
    ensures PortOf(a, default) != ""
  {}

  // ---------------------------------------------------------------- the environment left behind

  function Variable(env: map<Setting, string>, s: Setting): Option<string> { if s in env then Some(env[s]) else None }

  predicate Exported(s: Setting) { !s.Host? && !s.Port? && !s.ApiHost? && !s.ApiPort? }

  lemma {:induction false} FlagEnv(i: Inputs, st: Store, order: seq<Setting>, s: Setting)
    requires DataDir !in order
    ensures Variable(FlagPass(i, st, order).env, s) ==
            if s in order && Cli(i, s) != "" && Exported(s) then Some(Cli(i, s)) else Variable(st.env, s)
  {
    hide FlagWrite, Variable, Cli, Exported;
    if order != [] {
      var front, last := order[..|order| - 1], order[|order| - 1];
      assert order == front + [last];
      FlagEnv(i, st, front, s);
      FlagWriteEnv(i, FlagPass(i, st, front), last, s);
    }
  }

  lemma FlagWriteEnv(i: Inputs, st: Store, written: Setting, s: Setting)
    requires written != DataDir
    ensures Variable(FlagWrite(i, st, written).env, s) ==
            if s == written && Cli(i, s) != "" && Exported(s) then Some(Cli(i, s)) else Variable(st.env, s)
  {}

  lemma ExportedInPass(s: Setting)
    requires Exported(s) && s != DataDir
    ensures s in FLAG_ORDER[1..]
  {
    if IsPlain(s) { RestOfPasses(s); } else { assert FLAG_ORDER[|[DataDir] + FLAG_EARLY|] == StorageDsn; }
  }

  lemma DataDirEnv(i: Inputs, st: Store, s: Setting)
    ensures Variable(FlagWrite(i, st, DataDir).env, s) ==
            if Cli(i, DataDir) == "" then Variable(st.env, s)
            else if s == DataDir then Some(Cli(i, DataDir))
            else if s == PluginsDir then Some(i.under(Cli(i, DataDir), "plugins"))
            else if s == SchemasDir then Some(i.under(Cli(i, DataDir), "schemas"))
            else Variable(st.env, s)
  {}

  /** Every variable left to child processes: the flag's value, else below the flag's data directory, else as it was. */
  lemma EnvironmentResolves(i: Inputs, st: Store, s: Setting)
    ensures Variable(Applied(i, st).env, s) == ResolveEnv(i, st, s)
  {
    PassLists();
    if Exported(s) && s != DataDir { ExportedInPass(s); }
    hide ENV_ORDER, FLAG_ORDER, EnvPass, FlagPass, FlagWrite;
    var first := EnvPass(i, st, ENV_ORDER);
    EnvKeepsEnv(i, st, ENV_ORDER);
    PassesBegin(i, first);
    DataDirEnv(i, first, s);
    FlagEnv(i, FlagWrite(i, first, DataDir), FLAG_ORDER[1..], s);
  }
}
