/** What the start-up configuration holds in the end, in terms of the flags and variables as they were given. */
module RuntimeOutcomes {
  import opened Prelude
  import opened Text
  import opened Address
  import opened RuntimeConfig
  import opened RuntimePrecedence

  // ---------------------------------------------------------------- texts with blanks around them

  predicate Blank(s: string) { forall k :: 0 <= k < |s| ==> IsSpace(s[k], Go) }

  /** The text t with blanks before and after it, and none at its own ends. */
  predicate Padded(whole: string, before: string, t: string, after: string) {
    && whole == before + t + after && Blank(before) && Blank(after)
    && t != "" && !IsSpace(t[0], Go) && !IsSpace(t[|t| - 1], Go)
  }

  lemma {:induction false} BlankTrimsLeft(before: string, t: string)
    requires Blank(before) && (t == "" || !IsSpace(t[0], Go))
    ensures TrimLeft(before + t, Go) == t
  {
    if before == "" {
      assert before + t == t;
    } else {
      assert (before + t)[1..] == before[1..] + t;
      BlankTrimsLeft(before[1..], t);
    }
  }

  lemma {:induction false} BlankTrimsRight(t: string, after: string)
    requires Blank(after) && (t == "" || !IsSpace(t[|t| - 1], Go))
    ensures TrimRight(t + after, Go) == t
  {
    if after == "" {
      assert t + after == t;
    } else {
      assert (t + after)[..|t + after| - 1] == t + after[..|after| - 1];
      BlankTrimsRight(t, after[..|after| - 1]);
    }
  }

  lemma PaddedTrims(whole: string, before: string, t: string, after: string)
    requires Padded(whole, before, t, after)
    ensures Trim(whole, Go) == t
  {
    hide TrimLeft, TrimRight;
    assert whole == before + (t + after);
    assert (t + after)[0] == t[0];
    BlankTrimsLeft(before, t + after);
    BlankTrimsRight(t, after);
  }

  lemma BlankTrims(whole: string)
    requires Blank(whole)
    ensures Trim(whole, Go) == ""
  {
    assert whole + "" == whole;
    BlankTrimsLeft(whole, "");
  }

  // ---------------------------------------------------------------- what was given

  /** A flag with a text. */
  predicate FlagGiven(i: Inputs, s: Setting) { s in i.given && i.given[s] != "" }

  /** Neither a flag with a text nor a variable that counts: it is absent, blank, or its flag was given. */
  predicate NotGiven(i: Inputs, st: Store, s: Setting) {
    !FlagGiven(i, s) && (s in i.given || s !in st.env || Blank(st.env[s]))
  }

  /** A variable with text t, without its blanks, whose flag was not given. */
  predicate VariableGiven(i: Inputs, st: Store, s: Setting, before: string, t: string, after: string) {
    s !in i.given && s in st.env && Padded(st.env[s], before, t, after)
  }

  lemma ReadsNothing(i: Inputs, st: Store, s: Setting)
    requires NotGiven(i, st, s)
    ensures Cli(i, s) == "" && EnvOf(i, st.env, s) == ""
  {
    hide Trim;
    if s !in i.given && s in st.env { BlankTrims(st.env[s]); }
  }

  lemma ReadsVariable(i: Inputs, st: Store, s: Setting, before: string, t: string, after: string)
    requires VariableGiven(i, st, s, before, t, after)
    ensures Cli(i, s) == "" && EnvOf(i, st.env, s) == t
  {
    hide Trim;
    PaddedTrims(st.env[s], before, t, after);
  }

  // ---------------------------------------------------------------- single keys

  /** A flag with a text decides its key. */
  lemma FlagDecides(i: Inputs, st: Store, s: Setting)
    requires (IsPlain(s) || s == DataDir) && FlagGiven(i, s)
    ensures Look(Applied(i, st).config, Own(s)) == i.given[s]
  {
    hide Applied, Look;
    KeyResolves(i, st, Own(s));
  }

  /** Without its flag, and without a data directory among the flags that its key derives from, a variable decides. */
  lemma VariableDecides(i: Inputs, st: Store, s: Setting, before: string, t: string, after: string)
    requires (IsPlain(s) || s == DataDir) && VariableGiven(i, st, s, before, t, after)
    requires Leaf(Own(s)).Some? ==> !FlagGiven(i, DataDir)
    ensures Look(Applied(i, st).config, Own(s)) == t
  {
    hide Applied, Look, EnvOf;
    ReadsVariable(i, st, s, before, t, after);
    KeyResolves(i, st, Own(s));
  }

  /** With neither, and no data directory its key derives from, the file decides: a flag given empty hides its variable. */
  lemma FileDecides(i: Inputs, st: Store, k: Key)
    requires Specific(k).Some? || Leaf(k).Some?
    requires Specific(k).Some? ==> NotGiven(i, st, Specific(k).value)
    requires Leaf(k).Some? ==> NotGiven(i, st, DataDir)
    ensures Look(Applied(i, st).config, k) == Look(st.config, k)
  {
    hide Applied, Look, EnvOf, Cli, NotGiven;
    if Specific(k).Some? { ReadsNothing(i, st, Specific(k).value); }
    if Leaf(k).Some? { ReadsNothing(i, st, DataDir); }
    KeyResolves(i, st, k);
  }

  /** The flag of the data directory moves the keys below it, over their variables and the file. */
  lemma FlagDirectoryDecides(i: Inputs, st: Store, k: Key)
    requires Leaf(k).Some? && FlagGiven(i, DataDir) && (Specific(k).Some? ==> !FlagGiven(i, Specific(k).value))
    ensures Look(Applied(i, st).config, k) == i.under(i.given[DataDir], Leaf(k).value)
  {
    hide Applied, Look, EnvOf;
    KeyResolves(i, st, k);
  }

  /** Its variable moves them over the file. */
  lemma VariableDirectoryDecides(i: Inputs, st: Store, k: Key, before: string, t: string, after: string)
    requires Leaf(k).Some? && VariableGiven(i, st, DataDir, before, t, after)
    requires Specific(k).Some? ==> NotGiven(i, st, Specific(k).value)
    ensures Look(Applied(i, st).config, k) == i.under(t, Leaf(k).value)
  {
    hide Applied, Look, EnvOf, Cli, NotGiven;
    ReadsVariable(i, st, DataDir, before, t, after);
    if Specific(k).Some? { ReadsNothing(i, st, Specific(k).value); }
    KeyResolves(i, st, k);
  }

  /** An address for which neither host nor port was given, by a flag or a variable that counts, is the file's. */
  lemma FileAddressDecides(i: Inputs, st: Store, key: Key, host: Setting, port: Setting, default: string)
    requires IsAddress(key, host, port, default) && NotGiven(i, st, host) && NotGiven(i, st, port)
    ensures Look(Applied(i, st).config, key) == Look(st.config, key)
  {
    hide Applied, Look, EnvOf, Cli, NotGiven, Fits, SplitAddress, HostOf, PortOf;
    ReadsNothing(i, st, host);
    ReadsNothing(i, st, port);
    AddressResolves(i, st, key, host, port, default);
  }

  lemma FileDsnDecides(i: Inputs, st: Store)
    requires NotGiven(i, st, StorageDsn)
    ensures Look(Applied(i, st).config, MysqlDsn) == Look(st.config, MysqlDsn)
    ensures Look(Applied(i, st).config, PostgresDsn) == Look(st.config, PostgresDsn)
  {
    hide Applied, Look, EnvOf, Cli, NotGiven, Resolve;
    ReadsNothing(i, st, StorageDsn);
    DsnLandsByFinalType(i, st);
  }

  // ---------------------------------------------------------------- addresses and the DSN

  /** The texts a setting has by its flag and by its variable, at most one of which counts. */
  ghost predicate Given(i: Inputs, st: Store, s: Setting, flag: string, variable: string) {
    && flag == (if s in i.given then i.given[s] else "")
    && if s in i.given || s !in st.env || Blank(st.env[s]) then variable == ""
       else exists before, after :: Padded(st.env[s], before, variable, after)
  }

  lemma ReadsGiven(i: Inputs, st: Store, s: Setting, flag: string, variable: string)
    requires Given(i, st, s, flag, variable)
    ensures Cli(i, s) == flag && EnvOf(i, st.env, s) == variable
  {
    hide Trim;
    if s !in i.given && s in st.env {
      if Blank(st.env[s]) {
        BlankTrims(st.env[s]);
      } else {
        var before, after :| Padded(st.env[s], before, variable, after);
        PaddedTrims(st.env[s], before, variable, after);
      }
    }
  }

  /** The address splits into the host and the port given, by flag, else by variable, else by the file, exactly when they
      fit together. */
  lemma AddressDecided(i: Inputs, st: Store, key: Key, host: Setting, port: Setting, default: string,
                       h: string, vh: string, p: string, vp: string)
    requires IsAddress(key, host, port, default) && Given(i, st, host, h, vh) && Given(i, st, port, p, vp)
    requires h != "" || vh != "" || p != "" || vp != ""
    ensures var file := Look(st.config, key);
            SplitAddress(Look(Applied(i, st).config, key))
              == Parts(Else(h, Else(vh, HostOf(file))), Else(p, Else(vp, PortOf(file, default))))
            <==> Fits(file, vh, vp, h, p, default)
  {
    hide Applied, Look, EnvOf, Cli, Given, Fits, SplitAddress, HostOf, PortOf;
    ReadsGiven(i, st, host, h, vh);
    ReadsGiven(i, st, port, p, vp);
    AddressResolves(i, st, key, host, port, default);
  }

  /** The DSN, by flag, else by variable, is in the key of the storage type finally chosen, and the other key is the
      file's. */
  lemma DsnDecided(i: Inputs, st: Store, flag: string, variable: string)
    requires Given(i, st, StorageDsn, flag, variable) && (flag != "" || variable != "")
    ensures var c := Applied(i, st).config;
            if Look(c, Own(Storage)) == "postgresql"
            then Look(c, PostgresDsn) == Else(flag, variable) && Look(c, MysqlDsn) == Look(st.config, MysqlDsn)
            else Look(c, MysqlDsn) == Else(flag, variable) && Look(c, PostgresDsn) == Look(st.config, PostgresDsn)
  {
    hide Applied, Look, EnvOf, Cli, Given, Resolve;
    ReadsGiven(i, st, StorageDsn, flag, variable);
    DsnLandsByFinalType(i, st);
  }

  // ---------------------------------------------------------------- a flag hides its variable

  /** Two environments that agree on every variable but one. */
  predicate Alike(env: map<Setting, string>, other: map<Setting, string>, s: Setting) {
    forall t: Setting :: t != s ==> (t in env <==> t in other) && (t in env && t in other ==> env[t] == other[t])
  }

  lemma AlikeRead(i: Inputs, env: map<Setting, string>, other: map<Setting, string>, s: Setting, t: Setting)
    requires s in i.given && Alike(env, other, s)
    ensures EnvOf(i, env, t) == EnvOf(i, other, t)
  {
    hide Trim;
  }

  lemma {:induction false} EnvAlike(i: Inputs, a: Store, b: Store, order: seq<Setting>, s: Setting)
    requires s in i.given && a.config == b.config && Alike(a.env, b.env, s)
    ensures var a', b' := EnvPass(i, a, order), EnvPass(i, b, order); a'.config == b'.config && Alike(a'.env, b'.env, s)
  {
    hide EnvOf, Alike, Override, ApplyDataDir;
    if order != [] {
      var front, last := order[..|order| - 1], order[|order| - 1];
      EnvAlike(i, a, b, front, s);
      AlikeRead(i, EnvPass(i, a, front).env, EnvPass(i, b, front).env, s, last);
    }
  }

  lemma FlagWriteAlike(i: Inputs, a: Store, b: Store, t: Setting, s: Setting)
    requires s in i.given && a.config == b.config && Alike(a.env, b.env, s)
    ensures var a', b' := FlagWrite(i, a, t), FlagWrite(i, b, t); a'.config == b'.config && Alike(a'.env, b'.env, s)
  {
    hide EnvOf, Override, ApplyDataDir, ApplyDsn, Alike, Look, Cli;
    if t == DataDir {
      var dir := Cli(i, DataDir);
      AlikeSet(a.env, b.env, s, DataDir, dir);
      AlikeSet(a.env[DataDir := dir], b.env[DataDir := dir], s, PluginsDir, i.under(dir, "plugins"));
      AlikeSet(a.env[DataDir := dir][PluginsDir := i.under(dir, "plugins")],
               b.env[DataDir := dir][PluginsDir := i.under(dir, "plugins")], s, SchemasDir, i.under(dir, "schemas"));
    } else {
      AlikeRead(i, a.env, b.env, s, StorageDsn);
      AlikeSet(a.env, b.env, s, t, Cli(i, t));
    }
  }

  lemma AlikeSet(env: map<Setting, string>, other: map<Setting, string>, s: Setting, t: Setting, v: string)
    requires Alike(env, other, s)
    ensures Alike(env[t := v], other[t := v], s)
  {}

  lemma {:induction false} FlagAlike(i: Inputs, a: Store, b: Store, order: seq<Setting>, s: Setting)
    requires s in i.given && a.config == b.config && Alike(a.env, b.env, s)
    ensures var a', b' := FlagPass(i, a, order), FlagPass(i, b, order); a'.config == b'.config && Alike(a'.env, b'.env, s)
  {
    hide FlagWrite, Alike;
    if order != [] {
      var front, last := order[..|order| - 1], order[|order| - 1];
      FlagAlike(i, a, b, front, s);
      FlagWriteAlike(i, FlagPass(i, a, front), FlagPass(i, b, front), last, s);
    }
  }

  /** A flag that was given, be it empty, makes the whole configuration independent of its variable. */
  lemma FlagHidesVariable(i: Inputs, a: Store, b: Store, s: Setting)
    requires s in i.given && a.config == b.config && Alike(a.env, b.env, s)
    ensures Applied(i, a).config == Applied(i, b).config
  {
    hide Alike, EnvPass, FlagPass, ENV_ORDER, FLAG_ORDER;
    EnvAlike(i, a, b, ENV_ORDER, s);
    FlagAlike(i, EnvPass(i, a, ENV_ORDER), EnvPass(i, b, ENV_ORDER), FLAG_ORDER, s);
  }
}
