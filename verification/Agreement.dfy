/** The two halves the reconciler writes, config file and pod template, agree for every spec. */
module Agreement {
  import opened Types
  import opened Webhook
  import opened Text
  import opened ConfigPrinter
  import opened ConfigParser
  import opened PodTemplate

  const MAIN_FILE := "prometheus.yml"

  function InlineOf(spec: ClusterSpec): string {
    if spec.additionalScrape.Some? then spec.additionalScrape.value.inline else ""
  }

  /** What reconcileConfigMap's mutate function does to the data. */
  function PutFiles(data: map<string, string>, main: string, extra: Option<string>): map<string, string> {
    var d := data[MAIN_FILE := main];
    if extra.Some? then d[EXTRA_FILE := extra.value] else d - {EXTRA_FILE}
  }

  function ExtraText(spec: ClusterSpec): Option<string> {
    if InlineOf(spec) != "" then Some(Wrapped(InlineOf(spec))) else None
  }

  function ConfigData(table: char -> bool, c: Cluster, data: map<string, string>): map<string, string> {
    PutFiles(data, Config(table, c), ExtraText(c.spec))
  }

  // ---------------------------------------------------------------- keys over a history of specs

  function AfterHistory(table: char -> bool, cs: seq<Cluster>, data: map<string, string>): map<string, string> {
    if cs == [] then data
    else ConfigData(table, cs[|cs| - 1], AfterHistory(table, cs[..|cs| - 1], data))
  }

  predicate Owned(key: string) {
    key == MAIN_FILE || key == EXTRA_FILE
  }

  function Lookup(data: map<string, string>, key: string): Option<string> {
    if key in data then Some(data[key]) else None
  }

  lemma {:induction false} ForeignKeysKept(table: char -> bool, cs: seq<Cluster>, data: map<string, string>,
                                         key: string)
    requires !Owned(key)
    ensures Lookup(AfterHistory(table, cs, data), key) == Lookup(data, key)
    decreases |cs|
  {
    if cs != [] {
      ForeignKeysKept(table, cs[..|cs| - 1], data, key);
    }
  }

  /** After any history of specs the operator's own keys are those of the latest spec on an empty
      ConfigMap, and every other key is as it was before the history. */
  lemma {:induction false} OwnedKeysAreTheLatest(table: char -> bool, cs: seq<Cluster>, data: map<string, string>,
                                               key: string)
    requires cs != []
    ensures Lookup(AfterHistory(table, cs, data), key) ==
      Lookup(if Owned(key) then ConfigData(table, cs[|cs| - 1], map[]) else data, key)
  {
    if !Owned(key) {
      ForeignKeysKept(table, cs, data, key);
    }
  }

  /** Written out: what the two files hold for a cluster. The extra file is there exactly for an inline
      text and is a scrape_configs document of it; the main file reads back as the cluster's view. */
  ghost predicate HoldsFiles(c: Cluster, data: map<string, string>) {
    && "prometheus.yml" in data
    && (ViewOneLine(ViewOf(c)) ==> ParseConfig(data["prometheus.yml"]) == Some(ViewOf(c)))
    && ("additional-scrape-configs.yml" in data <==>
          c.spec.additionalScrape.Some? && c.spec.additionalScrape.value.inline != "")
    && ("additional-scrape-configs.yml" in data ==>
          && Split(data["additional-scrape-configs.yml"])[0] == "scrape_configs:"
          && Unwrap(data["additional-scrape-configs.yml"]) == TrimNewlines(c.spec.additionalScrape.value.inline))
  }

  lemma FilesHeld(table: char -> bool, c: Cluster, data: map<string, string>)
    requires Lookup(data, MAIN_FILE) == Some(Config(table, c)) && Lookup(data, EXTRA_FILE) == ExtraText(c.spec)
    ensures HoldsFiles(c, data)
  {
    if ViewOneLine(ViewOf(c)) {
      ParseRendered(table, c);
    }
    var inline := InlineOf(c.spec);
    WrapKeepsShape(inline);
    UnwrapWrap(inline);
  }

  lemma ConfigDataLookup(table: char -> bool, c: Cluster, data: map<string, string>)
    ensures Lookup(ConfigData(table, c, data), MAIN_FILE) == Some(Config(table, c))
    ensures Lookup(ConfigData(table, c, data), EXTRA_FILE) == ExtraText(c.spec)
    ensures forall key :: key != "prometheus.yml" && key != "additional-scrape-configs.yml" ==>
      Lookup(ConfigData(table, c, data), key) == Lookup(data, key)
  {
    assert MAIN_FILE[0] == 'p' && EXTRA_FILE[0] == 'a';
  }

  /** After any history of specs the stored files are those of the latest. */
  lemma LatestFilesHeld(table: char -> bool, cs: seq<Cluster>, data: map<string, string>)
    requires cs != []
    ensures HoldsFiles(cs[|cs| - 1], AfterHistory(table, cs, data))
  {
    var last, before := cs[|cs| - 1], AfterHistory(table, cs[..|cs| - 1], data);
    ConfigDataLookup(table, last, before);
    FilesHeld(table, last, ConfigData(table, last, before));
  }

  // ---------------------------------------------------------------- the extra scrape file

  /** `path` names a file `file` below mount `m` of the Prometheus container, which volume `v` of the
      template provides: a key the operator wrote into its ConfigMap, or the referenced Secret key. */
  ghost predicate Provides(c: Cluster, data: map<string, string>, path: string, m: Mount, v: Volume, file: string) {
    && m in Prometheus(c.spec).mounts
    && v in DesiredPod(c).volumes && v.name == m.name
    && path == m.path + "/" + file
    && match v.source
       case FromConfigMap(n) => n == ConfigMapName(c) && file in data
       case FromSecret(n) => ExtraSecret(c.spec) == Some(SecretKey(n, file))
  }

  /** Whatever the spec, the file named under scrape_config_files is mounted where it is named. */
  lemma ScrapeFileProvided(table: char -> bool, c: Cluster, data: map<string, string>)
    returns (m: Mount, v: Volume, file: string)
    requires ExtraPath(c.spec) != ""
    ensures Provides(c, ConfigData(table, c, data), ExtraPath(c.spec), m, v, file)
  {
    if InlineOf(c.spec) != "" {
      m, v, file := Mount("config", CONFIG_DIR, false), Volume("config", FromConfigMap(ConfigMapName(c))), EXTRA_FILE;
      assert m == Prometheus(c.spec).mounts[1] && v == DesiredPod(c).volumes[0];
      assert ExtraPath(c.spec) == "/etc/prometheus/" + EXTRA_FILE;
      assert "/etc/prometheus/" == CONFIG_DIR + "/";
    } else {
      var key := ExtraSecret(c.spec).value;
      m, v, file := EXTRA_SECRET_MOUNT, Volume("extra-scrape-secret", FromSecret(key.name)), key.key;
      assert m == Prometheus(c.spec).mounts[2];
      var vs := DesiredPod(c).volumes;
      assert v == vs[|vs| - 1];
      assert ExtraPath(c.spec) == EXTRA_MOUNT + "/" + key.key;
    }
  }

  // ---------------------------------------------------------------- mounts and volumes

  ghost predicate Declared(c: Cluster, name: string) {
    || (exists i :: 0 <= i < |DesiredPod(c).volumes| && DesiredPod(c).volumes[i].name == name)
    || (exists i :: 0 <= i < |DesiredStatefulSet(c).claims| && DesiredStatefulSet(c).claims[i].name == name)
  }

  lemma DataDeclared(c: Cluster)
    ensures Declared(c, "data")
  {
    assert DesiredStatefulSet(c).claims[0].name == "data";
  }

  lemma ConfigDeclared(c: Cluster)
    ensures Declared(c, "config")
  {
    assert DesiredPod(c).volumes[0].name == "config";
  }

  lemma ExtraDeclared(c: Cluster)
    requires ExtraSecret(c.spec).Some?
    ensures Declared(c, "extra-scrape-secret")
  {
    var vs := DesiredPod(c).volumes;
    assert vs[|vs| - 1].name == "extra-scrape-secret";
  }

  lemma ObjstoreDeclared(c: Cluster)
    requires c.spec.thanos.enabled && c.spec.thanos.objstoreSecret.Some?
    ensures Declared(c, "thanos-objstore")
  {
    assert DesiredPod(c).volumes[1].name == "thanos-objstore";
  }

  lemma PrometheusMountsDeclared(c: Cluster, m: Mount)
    requires m in Prometheus(c.spec).mounts
    ensures Declared(c, m.name)
  {
    DataDeclared(c);
    ConfigDeclared(c);
    if ExtraSecret(c.spec).Some? {
      ExtraDeclared(c);
    }
  }

  lemma SidecarMountsDeclared(c: Cluster, m: Mount)
    requires c.spec.thanos.enabled && m in Sidecar(c.spec.thanos).mounts
    ensures Declared(c, m.name)
  {
    DataDeclared(c);
    if c.spec.thanos.objstoreSecret.Some? {
      ObjstoreDeclared(c);
    }
  }

  lemma ContainersOf(c: Cluster, k: Container)
    requires k in DesiredPod(c).containers
    ensures k == Reloader() || k == Prometheus(c.spec) || (c.spec.thanos.enabled && k == Sidecar(c.spec.thanos))
  {
    var x, y, z := Reloader(), Prometheus(c.spec), Sidecar(c.spec.thanos);
    assert DesiredPod(c).containers == if c.spec.thanos.enabled then [x, y, z] else [x, y];
  }

  /** Every mount of every container names a volume or a claim of the StatefulSet. */
  lemma EveryMountDeclared(c: Cluster, k: Container, m: Mount)
    requires k in DesiredPod(c).containers && m in k.mounts
    ensures Declared(c, m.name)
  {
    ContainersOf(c, k);
    if k == Reloader() {
      ConfigDeclared(c);
    } else if k == Prometheus(c.spec) {
      PrometheusMountsDeclared(c, m);
    } else {
      SidecarMountsDeclared(c, m);
    }
  }

  // ---------------------------------------------------------------- flags

  lemma RetentionIsNoFlag(spec: ClusterSpec, flag: string)
    requires |flag| > 2 && flag[2] != 's'
    ensures "--storage.tsdb.retention.time=" + OrElse(spec.retention, DEFAULT_RETENTION) != flag
  {
    var arg := "--storage.tsdb.retention.time=" + OrElse(spec.retention, DEFAULT_RETENTION);
    assert arg[2] == 's';
  }

  lemma FlagsInArgs(spec: ClusterSpec)
    ensures ADMIN_API in PrometheusArgs(spec) <==> spec.backup.enabled
    ensures EXPAND_LABELS in PrometheusArgs(spec) <==> spec.thanos.enabled
  {
    var args := PrometheusArgs(spec);
    RetentionIsNoFlag(spec, ADMIN_API);
    RetentionIsNoFlag(spec, EXPAND_LABELS);
    assert args[0][2] == 'c' && args[1][2] == 's' && args[3][6] == 'e' && args[3][13] == 'l';
    assert ADMIN_API[2] == 'w' && ADMIN_API[13] == 'a' && EXPAND_LABELS[2] == 'e';
    if spec.backup.enabled {
      assert args[4] == ADMIN_API;
    }
    if spec.thanos.enabled {
      assert args[|args| - 1] == EXPAND_LABELS;
      assert args[|args| - 2][2] == 's' && args[|args| - 3][2] == 's';
    }
  }

  lemma {:induction false} EntriesHaveNoReplica(rws: seq<RemoteWrite>)
    ensures ReplicaLabel !in EntriesLines(rws)
  {
    if rws != [] {
      EntriesHaveNoReplica(rws[1..]);
      assert ReplicaLabel !in EntryLines(rws[0]);
    }
  }

  lemma ReplicaLine(c: Cluster)
    ensures ReplicaLabel in ConfigLines(c) <==> c.spec.thanos.enabled
  {
    EntriesHaveNoReplica(c.spec.remoteWrite);
    if c.spec.thanos.enabled {
      assert HeadLines(c)[5] == ReplicaLabel;
      assert ConfigLines(c)[5] == ReplicaLabel;
    }
  }

  const REPLICA := "    replica: ${POD_NAME:-unknown}"

  /** The replica line stands inside a text of the spec that is printed unquoted: after a newline in the
      scrape path, or between two newlines in the name of a credential Secret. */
  predicate Smuggled(spec: ClusterSpec) {
    || REPLICA in Later(ExtraPath(spec))
    || exists i :: 0 <= i < |spec.remoteWrite| && EntrySmuggles(spec.remoteWrite[i])
  }

  predicate EntrySmuggles(rw: RemoteWrite) {
    || (rw.basicAuth.Some? && REPLICA in Inner(rw.basicAuth.value))
    || (rw.bearerToken.Some? && REPLICA in Inner(rw.bearerToken.value))
  }

  predicate LineSmuggles(l: Line) {
    match l
    case File(path) => REPLICA in Later(path)
    case UserFile(n) => REPLICA in Inner(n)
    case PassFile(n) => REPLICA in Inner(n)
    case Bearer(n) => REPLICA in Inner(n)
    case _ => false
  }

  lemma OnlyReplicaShowsReplica(table: char -> bool, l: Line)
    requires RawOneLine(l) && !l.File?
    ensures REPLICA in Split(Show(table, l)) <==> l.ReplicaLabel?
  {
    ShowOneLine(table, l);
    SplitOneLine(Show(table, l));
    ParseShow(table, l);
    ParseShow(table, ReplicaLabel);
  }

  lemma FramedHolds(prefix: string, dir: string, n: string, file: string, x: string)
    requires OneLine(prefix) && OneLine(dir) && OneLine(file)
    requires |prefix| > 4 && |x| > 4 && prefix[4] != x[4]
    requires file != "" && file[|file| - 1] != x[|x| - 1]
    ensures x in Split(prefix + (dir + n + file)) <==> x in Inner(n)
  {
    ConcatOneLine(prefix, dir);
    assert prefix + (dir + n + file) == (prefix + dir) + (n + file);
    LineBetween(prefix + dir, n, file, x, 4);
  }

  lemma SecretHolds(prefix: string, n: string, file: string)
    requires OneLine(prefix) && |prefix| > 4 && prefix[4] != 'r'
    requires OneLine(file) && file != "" && file[|file| - 1] != '}'
    ensures REPLICA in Split(prefix + SecretFile(n, file)) <==> REPLICA in Inner(n)
  {
    ReplicaEnds();
    assert OneLine(SECRETS);
    FramedHolds(prefix, SECRETS, n, file, REPLICA);
  }

  lemma ReplicaEnds()
    ensures |REPLICA| > 4 && REPLICA[2] == ' ' && REPLICA[4] == 'r' && REPLICA[|REPLICA| - 1] == '}'
  {
  }

  /** A line of the file holds the replica line if it is that line, or its payload smuggles it in. */
  lemma HoldsReplica(table: char -> bool, l: Line)
    ensures REPLICA in Split(Show(table, l)) <==> l.ReplicaLabel? || LineSmuggles(l)
  {
    PrefixesOneLine();
    ReplicaEnds();
    match l
    case File(path) => LineAfter(ITEM, path, REPLICA, 2);
    case UserFile(n) => SecretHolds(USER_FILE, n, "/username");
    case PassFile(n) => SecretHolds(PASS_FILE, n, "/password");
    case Bearer(n) => SecretHolds(BEARER, n, "/token");
    case _ => OnlyReplicaShowsReplica(table, l);
  }

  ghost predicate SomeSmuggles(ls: seq<Line>) {
    exists l :: l in ls && LineSmuggles(l)
  }

  lemma SmugglesEither(a: seq<Line>, b: seq<Line>)
    ensures SomeSmuggles(a + b) <==> SomeSmuggles(a) || SomeSmuggles(b)
  {
    assert forall l :: l in a + b <==> l in a || l in b;
  }

  lemma EntryLinesSmuggle(rw: RemoteWrite)
    ensures SomeSmuggles(EntryLines(rw)) <==> EntrySmuggles(rw)
  {
    if rw.basicAuth.Some? {
      assert UserFile(rw.basicAuth.value) in EntryLines(rw);
    }
    if rw.bearerToken.Some? {
      assert Bearer(rw.bearerToken.value) in EntryLines(rw);
    }
  }

  lemma {:induction false} EntriesSmuggle(rws: seq<RemoteWrite>)
    ensures SomeSmuggles(EntriesLines(rws)) <==> exists i :: 0 <= i < |rws| && EntrySmuggles(rws[i])
  {
    if rws != [] {
      EntriesSmuggle(rws[1..]);
      EntryLinesSmuggle(rws[0]);
      SmugglesEither(EntryLines(rws[0]), EntriesLines(rws[1..]));
      assert forall i :: 0 < i < |rws| ==> rws[i] == rws[1..][i - 1];
      if i :| 0 <= i < |rws[1..]| && EntrySmuggles(rws[1..][i]) {
        assert EntrySmuggles(rws[i + 1]);
      }
    }
  }

  lemma HeadSmuggles(c: Cluster)
    ensures SomeSmuggles(HeadLines(c)) <==> REPLICA in Later(ExtraPath(c.spec))
  {
    var labels, files := LabelLines(LabelOf(c)), FileLines(ExtraPath(c.spec));
    FileSmuggles(ExtraPath(c.spec));
    SmugglesEither(GLOBAL, labels);
    SmugglesEither(GLOBAL + labels, SCRAPE);
    SmugglesEither(GLOBAL + labels + SCRAPE, files);
  }

  lemma FileSmuggles(path: string)
    ensures SomeSmuggles(FileLines(path)) <==> REPLICA in Later(path)
  {
    if path == "" {
      OneLineInner(path);
    } else {
      assert File(path) in FileLines(path);
    }
  }

  lemma ConfigSmuggles(c: Cluster)
    ensures SomeSmuggles(ConfigLines(c)) <==> Smuggled(c.spec)
  {
    HeadSmuggles(c);
    EntriesSmuggle(c.spec.remoteWrite);
    SmugglesEither(HeadLines(c), [Remote]);
    SmugglesEither(HeadLines(c) + [Remote], EntriesLines(c.spec.remoteWrite));
  }

  lemma ReplicaInFile(table: char -> bool, c: Cluster)
    ensures REPLICA in Split(Config(table, c)) <==> c.spec.thanos.enabled || Smuggled(c.spec)
  {
    var ls := ConfigLines(c);
    var ss := Shown(Printer(table), ls);
    LineComesFrom(ss, REPLICA);
    ReplicaLine(c);
    ConfigSmuggles(c);
    forall i | 0 <= i < |ls| ensures REPLICA in Split(ss[i]) <==> ls[i].ReplicaLabel? || LineSmuggles(ls[i]) {
      HoldsReplica(table, ls[i]);
    }
    if l :| l in ls && (l.ReplicaLabel? || LineSmuggles(l)) {
      var i :| 0 <= i < |ls| && ls[i] == l;
      assert REPLICA in Split(ss[i]);
    }
  }

  /** The line with ${POD_NAME} stands in the file exactly when Prometheus is told to expand it, if and
      only if Thanos is on or no unquoted text of the spec smuggles the line in. The variable is always
      there. */
  lemma PodNameExpandedExactlyWhenRendered(table: char -> bool, c: Cluster)
    ensures
      (REPLICA in Split(Config(table, c)) <==> EXPAND_LABELS in Prometheus(c.spec).args)
      <==> c.spec.thanos.enabled || !Smuggled(c.spec)
    ensures "POD_NAME" in Prometheus(c.spec).env
  {
    FlagsInArgs(c.spec);
    ReplicaInFile(table, c);
  }

  /** Nothing is smuggled in by newline-free texts. */
  lemma OneLineSmugglesNothing(c: Cluster)
    requires ViewOneLine(ViewOf(c))
    ensures !Smuggled(c.spec)
  {
    var path := ExtraPath(c.spec);
    OneLineInner(path);
    forall i | 0 <= i < |c.spec.remoteWrite| ensures !EntrySmuggles(c.spec.remoteWrite[i]) {
      var rw := c.spec.remoteWrite[i];
      assert EntryOneLine(rw);
      if rw.basicAuth.Some? { OneLineInner(rw.basicAuth.value); }
      if rw.bearerToken.Some? { OneLineInner(rw.bearerToken.value); }
    }
  }

  /** Secret keys that do: the webhook's rules on the block let them through, the file has the line
      and Prometheus lacks the flag. */
  lemma SmugglingSecretKey(p: Parsers, table: char -> bool, c: Cluster, secret: SecretKey, k: string)
    requires !c.spec.thanos.enabled && secret.name != "" && secret.key == k + "\n" + REPLICA
    requires c.spec.additionalScrape == Some(ScrapeConfigs("", Some(secret)))
    ensures forall e: FieldError :: AboutScrape(e) ==> !Violates(p, c.spec, e)
    ensures REPLICA in Split(Config(table, c)) && EXPAND_LABELS !in Prometheus(c.spec).args
  {
    AdmittedSecret(p, c.spec, secret);
    SecretPath(c.spec, secret);
    SecondLine(EXTRA_MOUNT + "/", k, REPLICA);
    ReplicaInFile(table, c);
    FlagsInArgs(c.spec);
  }

  lemma AdmittedSecret(p: Parsers, spec: ClusterSpec, secret: SecretKey)
    requires secret.name != "" && secret.key != ""
    requires spec.additionalScrape == Some(ScrapeConfigs("", Some(secret)))
    ensures forall e: FieldError :: AboutScrape(e) ==> !Violates(p, spec, e)
  {
  }

  lemma SecretPath(spec: ClusterSpec, key: SecretKey)
    requires spec.additionalScrape == Some(ScrapeConfigs("", Some(key)))
    ensures ExtraPath(spec) == EXTRA_MOUNT + "/" + key.key && ExtraPath(spec) != ""
  {
  }

  lemma SecondLine(dir: string, a: string, b: string)
    requires OneLine(b)
    ensures b in Later(dir + (a + "\n" + b))
  {
    assert dir + (a + "\n" + b) == (dir + a) + "\n" + b;
    SplitConcat(dir + a, b);
    SplitOneLine(b);
    var first := Split(dir + a);
    assert (first + [b])[1..][|first| - 1] == b;
  }
}
