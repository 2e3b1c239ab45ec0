/** A line parser for the generated prometheus.yml, and the proof that it undoes renderConfig. */
module ConfigParser {
  import opened Types
  import opened Text
  import opened Quoting
  import opened ConfigPrinter

  /** What can be read back from the file. */
  datatype View = View(cluster: Option<string>, path: Option<string>, remoteWrite: seq<RemoteWrite>)

  function PathOf(path: string): Option<string> {
    if path == "" then None else Some(path)
  }

  function ViewOf(c: Cluster): View {
    View(LabelOf(c), PathOf(ExtraPath(c.spec)), c.spec.remoteWrite)
  }

  /** The view, written out. */
  lemma ViewExactly(c: Cluster)
    ensures ViewOf(c).cluster == (if c.spec.thanos.enabled then Some(c.name) else None)
    ensures ViewOf(c).remoteWrite == c.spec.remoteWrite
    ensures ViewOf(c).path ==
      match c.spec.additionalScrape
      case None => None
      case Some(asc) =>
        if asc.inline != "" then Some("/etc/prometheus/" + "additional-scrape-configs.yml")
        else if asc.secretRef.Some? then Some("/etc/prometheus/extra-secret" + "/" + asc.secretRef.value.key)
        else None
  {
  }

  // ---------------------------------------------------------------- one line

  function At(s: string, i: nat): char {
    if i < |s| then s[i] else '\n'
  }

  function Exactly(s: string, text: string, l: Line): Option<Line> {
    if s == text then Some(l) else None
  }

  /** The part of `s` between `prefix` and `suffix`. */
  function Between(prefix: string, s: string, suffix: string): Option<string> {
    if |prefix| + |suffix| <= |s| && s[..|prefix|] == prefix && s[|s| - |suffix|..] == suffix
    then Some(s[|prefix|..|s| - |suffix|])
    else None
  }

  function Quoted(prefix: string, s: string): Option<string> {
    var q := Between(prefix, s, "");
    if q.Some? then Unquote(q.value) else None
  }

  function SecretAt(prefix: string, s: string, file: string): Option<string> {
    var path := Between(prefix, s, "");
    if path.Some? then Between(SECRETS, path.value, file) else None
  }

  function Lift(payload: Option<string>, build: string -> Line): Option<Line> {
    if payload.Some? then Some(build(payload.value)) else None
  }

  function ParseItem(s: string): Option<Line> {
    if At(s, 4) == 'j' then Exactly(s, "  - job_name: prometheus", JobName)
    else if At(s, 4) == 'u' then Lift(Quoted(URL, s), n => Url(n))
    else Lift(Between(ITEM, s, ""), n => File(n))
  }

  function ParseDeep(s: string): Option<Line> {
    if At(s, 6) == '-' then Exactly(s, "      - targets: ['localhost:9090']", Targets)
    else if At(s, 6) == 'u' then Lift(SecretAt(USER_FILE, s, "/username"), n => UserFile(n))
    else Lift(SecretAt(PASS_FILE, s, "/password"), n => PassFile(n))
  }

  function ParseField(s: string): Option<Line> {
    if At(s, 4) == 'c' then Lift(Quoted(CLUSTER, s), n => ClusterLabel(n))
    else if At(s, 4) == 'r' then Exactly(s, "    replica: ${POD_NAME:-unknown}", ReplicaLabel)
    else if At(s, 4) == 's' then Exactly(s, "    static_configs:", StaticConfigs)
    else if At(s, 4) == 'n' then Lift(Quoted(NAME, s), n => Name(n))
    else if At(s, 4) == 'b' && At(s, 5) == 'a' then Exactly(s, "    basic_auth:", BasicAuth)
    else if At(s, 4) == 'b' then Lift(SecretAt(BEARER, s, "/token"), n => Bearer(n))
    else ParseDeep(s)
  }

  function ParseKey(s: string): Option<Line> {
    if At(s, 0) == 'g' then Exactly(s, "global:", Global)
    else if At(s, 0) == 'r' then Exactly(s, "remote_write:", Remote)
    else if At(s, 13) == 's' then Exactly(s, "scrape_configs:", Scrape)
    else Exactly(s, "scrape_config_files:", Files)
  }

  function ParseLine(s: string): Option<Line> {
    if At(s, 0) != ' ' then ParseKey(s)
    else if At(s, 2) == '-' then ParseItem(s)
    else if At(s, 2) == ' ' then ParseField(s)
    else if At(s, 2) == 's' then Exactly(s, "  scrape_interval: 30s", ScrapeInterval)
    else if At(s, 3) == 'v' then Exactly(s, "  evaluation_interval: 30s", EvalInterval)
    else Exactly(s, "  external_labels:", Labels)
  }

  /** File lines carry absolute paths; that keeps them apart from the other list items. */
  predicate Proper(l: Line) {
    l.File? ==> l.path != "" && l.path[0] == '/'
  }

  lemma BetweenConcat(prefix: string, x: string, suffix: string)
    ensures Between(prefix, prefix + x + suffix, suffix) == Some(x)
  {
    var s := prefix + x + suffix;
    assert s[..|prefix|] == prefix;
    assert s[|s| - |suffix|..] == suffix;
    assert s[|prefix|..|s| - |suffix|] == x;
  }

  lemma QuotedConcat(table: char -> bool, prefix: string, x: string)
    ensures Quoted(prefix, prefix + Quote(table, x)) == Some(x)
  {
    BetweenConcat(prefix, Quote(table, x), "");
    assert prefix + Quote(table, x) + "" == prefix + Quote(table, x);
    UnquoteQuote(table, x);
  }

  lemma ParseShowKey(table: char -> bool, l: Line)
    requires IsKey(l)
    ensures ParseLine(Show(table, l)) == Some(l)
  {
    var s := Show(table, l);
    match l
    case Global => assert s[0] == 'g';
    case Remote => assert s[0] == 'r';
    case Scrape => assert s[0] == 's' && s[13] == 's';
    case Files => assert s[0] == 's' && s[13] == '_';
  }

  lemma ParseShowSetting(table: char -> bool, l: Line)
    requires l.ScrapeInterval? || l.EvalInterval? || l.Labels? || l.JobName?
    ensures ParseLine(Show(table, l)) == Some(l)
  {
    var s := Show(table, l);
    match l
    case ScrapeInterval => assert s[2] == 's';
    case EvalInterval => assert s[2] == 'e' && s[3] == 'v';
    case Labels => assert s[2] == 'e' && s[3] == 'x';
    case JobName => assert s[2] == '-' && s[4] == 'j';
  }

  lemma ParseShowField(table: char -> bool, l: Line)
    requires l.ReplicaLabel? || l.StaticConfigs? || l.BasicAuth?
    ensures ParseLine(Show(table, l)) == Some(l)
  {
    var s := Show(table, l);
    match l
    case ReplicaLabel => assert s[2] == ' ' && s[4] == 'r';
    case StaticConfigs => assert s[2] == ' ' && s[4] == 's';
    case BasicAuth => assert s[2] == ' ' && s[4] == 'b' && s[5] == 'a';
  }

  lemma ParseShowTargets(table: char -> bool)
    ensures ParseLine(Show(table, Targets)) == Some(Targets)
  {
    var s := Show(table, Targets);
    assert s[2] == ' ' && s[4] == ' ' && s[6] == '-';
  }

  lemma PrefixChar(prefix: string, x: string, i: nat)
    requires i < |prefix|
    ensures At(prefix + x, i) == prefix[i]
  {
  }

  lemma ParseFieldAt(s: string)
    requires At(s, 0) == ' ' && At(s, 2) == ' '
    ensures ParseLine(s) == ParseField(s)
  {
  }

  lemma ParseDeepAt(s: string)
    requires At(s, 0) == ' ' && At(s, 2) == ' ' && At(s, 4) == ' '
    ensures ParseLine(s) == ParseDeep(s)
  {
  }

  lemma ParseClusterAt(s: string, n: string)
    requires At(s, 4) == 'c' && Quoted(CLUSTER, s) == Some(n)
    ensures ParseField(s) == Some(ClusterLabel(n))
  {
  }

  lemma ParseShowCluster(table: char -> bool, n: string)
    ensures ParseLine(Show(table, ClusterLabel(n))) == Some(ClusterLabel(n))
  {
    QuotedConcat(table, CLUSTER, n);
    PrefixChar(CLUSTER, Quote(table, n), 0);
    PrefixChar(CLUSTER, Quote(table, n), 2);
    PrefixChar(CLUSTER, Quote(table, n), 4);
    ParseFieldAt(CLUSTER + Quote(table, n));
    ParseClusterAt(CLUSTER + Quote(table, n), n);
  }

  lemma ParseShowUrl(table: char -> bool, n: string)
    ensures ParseLine(Show(table, Url(n))) == Some(Url(n))
  {
    QuotedConcat(table, URL, n);
    PrefixChar(URL, Quote(table, n), 0);
    PrefixChar(URL, Quote(table, n), 2);
    PrefixChar(URL, Quote(table, n), 4);
  }

  lemma ParseShowName(table: char -> bool, n: string)
    ensures ParseLine(Show(table, Name(n))) == Some(Name(n))
  {
    QuotedConcat(table, NAME, n);
    PrefixChar(NAME, Quote(table, n), 0);
    PrefixChar(NAME, Quote(table, n), 2);
    PrefixChar(NAME, Quote(table, n), 4);
  }

  lemma ParseShowFile(table: char -> bool, path: string)
    requires path != "" && path[0] == '/'
    ensures ParseLine(Show(table, File(path))) == Some(File(path))
  {
    BetweenConcat(ITEM, path, "");
    assert ITEM + path + "" == ITEM + path;
    assert (ITEM + path)[4] == '/';
  }

  lemma SecretAtBack(prefix: string, n: string, file: string)
    ensures SecretAt(prefix, prefix + SecretFile(n, file), file) == Some(n)
  {
    BetweenConcat(prefix, SecretFile(n, file), "");
    assert prefix + SecretFile(n, file) + "" == prefix + SecretFile(n, file);
    BetweenConcat(SECRETS, n, file);
  }

  lemma ParseShowUserFile(table: char -> bool, n: string)
    ensures ParseLine(Show(table, UserFile(n))) == Some(UserFile(n))
  {
    var f := SecretFile(n, "/username");
    SecretAtBack(USER_FILE, n, "/username");
    PrefixChar(USER_FILE, f, 0);
    PrefixChar(USER_FILE, f, 2);
    PrefixChar(USER_FILE, f, 4);
    PrefixChar(USER_FILE, f, 6);
    ParseDeepAt(USER_FILE + f);
  }

  lemma ParseShowPassFile(table: char -> bool, n: string)
    ensures ParseLine(Show(table, PassFile(n))) == Some(PassFile(n))
  {
    var f := SecretFile(n, "/password");
    SecretAtBack(PASS_FILE, n, "/password");
    PrefixChar(PASS_FILE, f, 0);
    PrefixChar(PASS_FILE, f, 2);
    PrefixChar(PASS_FILE, f, 4);
    PrefixChar(PASS_FILE, f, 6);
    ParseDeepAt(PASS_FILE + f);
  }

  lemma ParseShowBearer(table: char -> bool, n: string)
    ensures ParseLine(Show(table, Bearer(n))) == Some(Bearer(n))
  {
    var f := SecretFile(n, "/token");
    SecretAtBack(BEARER, n, "/token");
    PrefixChar(BEARER, f, 0);
    PrefixChar(BEARER, f, 2);
    PrefixChar(BEARER, f, 4);
    PrefixChar(BEARER, f, 5);
  }

  /** Every proper line is read back as itself. */
  lemma ParseShow(table: char -> bool, l: Line)
    requires Proper(l)
    ensures ParseLine(Show(table, l)) == Some(l)
  {
    if l.ClusterLabel? {
      ParseShowCluster(table, l.cluster);
    } else if l.Url? {
      ParseShowUrl(table, l.url);
    } else if l.Name? {
      ParseShowName(table, l.name);
    } else if l.File? {
      ParseShowFile(table, l.path);
    } else if l.UserFile? {
      ParseShowUserFile(table, l.secret);
    } else if l.PassFile? {
      ParseShowPassFile(table, l.secret);
    } else if l.Bearer? {
      ParseShowBearer(table, l.secret);
    } else if IsKey(l) {
      ParseShowKey(table, l);
    } else if l.ScrapeInterval? || l.EvalInterval? || l.Labels? || l.JobName? {
      ParseShowSetting(table, l);
    } else if l.Targets? {
      ParseShowTargets(table);
    } else {
      ParseShowField(table, l);
    }
  }

  // ---------------------------------------------------------------- the whole file

  function ParseLines(ss: seq<string>): Option<seq<Line>> {
    if ss == [] then Some([])
    else
      var l, rest := ParseLine(ss[0]), ParseLines(ss[1..]);
      if l.Some? && rest.Some? then Some([l.value] + rest.value) else None
  }

  /** The optional parts of one remote_write entry, off the front of `ls`. */
  function TakeName(ls: seq<Line>): (string, seq<Line>) {
    if ls != [] && ls[0].Name? then (ls[0].name, ls[1..]) else ("", ls)
  }

  function TakeBasic(ls: seq<Line>): (Option<string>, seq<Line>) {
    if |ls| >= 3 && ls[0].BasicAuth? && ls[1].UserFile? && ls[2] == PassFile(ls[1].secret)
    then (Some(ls[1].secret), ls[3..])
    else (None, ls)
  }

  function TakeBearer(ls: seq<Line>): (Option<string>, seq<Line>) {
    if ls != [] && ls[0].Bearer? then (Some(ls[0].secret), ls[1..]) else (None, ls)
  }

  function TakeEntry(ls: seq<Line>): (RemoteWrite, seq<Line>)
    requires ls != [] && ls[0].Url?
  {
    var (name, r1) := TakeName(ls[1..]);
    var (basic, r2) := TakeBasic(r1);
    var (bearer, r3) := TakeBearer(r2);
    (RemoteWrite(ls[0].url, name, basic, bearer), r3)
  }

  function ParseEntries(ls: seq<Line>): Option<seq<RemoteWrite>>
    decreases |ls|
  {
    if ls == [] then Some([])
    else if !ls[0].Url? then None
    else
      var (rw, rest) := TakeEntry(ls);
      var more := ParseEntries(rest);
      if more.None? then None else Some([rw] + more.value)
  }

  function TakeLabels(ls: seq<Line>): (Option<string>, seq<Line>) {
    if |ls| >= 3 && ls[0].Labels? && ls[1].ClusterLabel? && ls[2].ReplicaLabel?
    then (Some(ls[1].cluster), ls[3..])
    else (None, ls)
  }

  function TakeFile(ls: seq<Line>): (Option<string>, seq<Line>) {
    if |ls| >= 2 && ls[0].Files? && ls[1].File? then (Some(ls[1].path), ls[2..]) else (None, ls)
  }

  function ParseDoc(ls: seq<Line>): Option<View> {
    if |ls| < 3 || ls[..3] != GLOBAL then None
    else
      var (cluster, r1) := TakeLabels(ls[3..]);
      if |r1| < 4 || r1[..4] != SCRAPE then None
      else
        var (path, r2) := TakeFile(r1[4..]);
        if r2 == [] then Some(View(cluster, path, []))
        else if r2[0] != Remote then None
        else
          var rws := ParseEntries(r2[1..]);
          if rws.None? then None else Some(View(cluster, path, rws.value))
  }

  /** The text must end in a newline. */
  function ParseConfig(text: string): Option<View> {
    var ss := Split(text);
    if ss[|ss| - 1] != "" then None
    else
      var ls := ParseLines(ss[..|ss| - 1]);
      if ls.None? then None else ParseDoc(ls.value)
  }

  // ---------------------------------------------------------------- reading back the lines

  lemma ShownCons(show: Line -> string, l: Line, ls: seq<Line>)
    ensures Shown(show, [l] + ls) == [show(l)] + Shown(show, ls)
  {
  }

  lemma ParseLinesCons(s: string, ss: seq<string>, l: Line, ls: seq<Line>)
    requires ParseLine(s) == Some(l) && ParseLines(ss) == Some(ls)
    ensures ParseLines([s] + ss) == Some([l] + ls)
  {
    assert ([s] + ss)[1..] == ss;
  }

  lemma {:induction false} ParseShown(table: char -> bool, ls: seq<Line>)
    requires forall i :: 0 <= i < |ls| ==> Proper(ls[i])
    ensures ParseLines(Shown(Printer(table), ls)) == Some(ls)
  {
    if ls != [] {
      var l, rest := ls[0], ls[1..];
      ParseShow(table, l);
      ParseShown(table, rest);
      assert ls == [l] + rest;
      ShownCons(Printer(table), l, rest);
      ParseLinesCons(Show(table, l), Shown(Printer(table), rest), l, rest);
    }
  }

  lemma TakeNameBack(name: string, rest: seq<Line>)
    requires rest != [] ==> !rest[0].Name?
    ensures TakeName(NameLines(name) + rest) == (name, rest)
  {
    var ls := NameLines(name) + rest;
    assert if name == "" then ls == rest else ls[1..] == rest;
  }

  lemma TakeBasicBack(secret: Option<string>, rest: seq<Line>)
    requires rest != [] ==> !rest[0].BasicAuth?
    ensures TakeBasic(BasicLines(secret) + rest) == (secret, rest)
  {
    var ls := BasicLines(secret) + rest;
    assert if secret.None? then ls == rest else ls[3..] == rest;
  }

  lemma TakeBearerBack(secret: Option<string>, rest: seq<Line>)
    requires rest != [] ==> !rest[0].Bearer?
    ensures TakeBearer(BearerLines(secret) + rest) == (secret, rest)
  {
    var ls := BearerLines(secret) + rest;
    assert if secret.None? then ls == rest else ls[1..] == rest;
  }

  lemma TakeEntryBack(rw: RemoteWrite, rest: seq<Line>)
    requires rest != [] ==> rest[0].Url?
    ensures EntryLines(rw) + rest != [] && (EntryLines(rw) + rest)[0] == Url(rw.url)
    ensures TakeEntry(EntryLines(rw) + rest) == (rw, rest)
  {
    var r3 := BearerLines(rw.bearerToken) + rest;
    var r2 := BasicLines(rw.basicAuth) + r3;
    var r1 := NameLines(rw.name) + r2;
    assert EntryLines(rw) + rest == [Url(rw.url)] + r1;
    assert ([Url(rw.url)] + r1)[1..] == r1;
    TakeBearerBack(rw.bearerToken, rest);
    TakeBasicBack(rw.basicAuth, r3);
    TakeNameBack(rw.name, r2);
  }

  lemma EntriesStart(rws: seq<RemoteWrite>)
    ensures EntriesLines(rws) != [] ==> EntriesLines(rws)[0].Url?
  {
  }

  lemma ParseEntriesCons(rw: RemoteWrite, rest: seq<Line>, more: seq<RemoteWrite>)
    requires rest != [] ==> rest[0].Url?
    requires ParseEntries(rest) == Some(more)
    ensures ParseEntries(EntryLines(rw) + rest) == Some([rw] + more)
  {
    TakeEntryBack(rw, rest);
  }

  lemma {:induction false} ParseEntriesBack(rws: seq<RemoteWrite>)
    ensures ParseEntries(EntriesLines(rws)) == Some(rws)
  {
    if rws != [] {
      EntriesStart(rws[1..]);
      ParseEntriesBack(rws[1..]);
      ParseEntriesCons(rws[0], EntriesLines(rws[1..]), rws[1..]);
      assert rws == [rws[0]] + rws[1..];
    }
  }

  lemma TakeLabelsBack(cluster: Option<string>, rest: seq<Line>)
    requires rest != [] && !rest[0].Labels?
    ensures TakeLabels(LabelLines(cluster) + rest) == (cluster, rest)
  {
    var ls := LabelLines(cluster) + rest;
    assert if cluster.None? then ls == rest else ls[3..] == rest;
  }

  lemma TakeFileBack(path: string, rest: seq<Line>)
    requires rest == [] || rest[0] == Remote
    ensures TakeFile(FileLines(path) + rest) == (PathOf(path), rest)
  {
    var ls := FileLines(path) + rest;
    assert if path == "" then ls == rest else ls[2..] == rest;
  }

  lemma ParseHead(cluster: Option<string>, path: string, rest: seq<Line>)
    requires rest == [] || rest[0] == Remote
    ensures
      var ls := HeadOf(cluster, path) + rest;
      && |ls| >= 3 && ls[..3] == GLOBAL
      && var (found, r1) := TakeLabels(ls[3..]);
      && found == cluster && |r1| >= 4 && r1[..4] == SCRAPE
      && TakeFile(r1[4..]) == (PathOf(path), rest)
  {
    var r2 := FileLines(path) + rest;
    var r1 := SCRAPE + r2;
    var r0 := LabelLines(cluster) + r1;
    assert HeadOf(cluster, path) + rest == GLOBAL + r0;
    assert (GLOBAL + r0)[3..] == r0 && (GLOBAL + r0)[..3] == GLOBAL;
    assert r1[4..] == r2 && r1[..4] == SCRAPE && r1[0] == Scrape;
    TakeLabelsBack(cluster, r1);
    TakeFileBack(path, rest);
  }

  /** The line sequence determines the view. */
  lemma ParseDocBack(c: Cluster)
    ensures ParseDoc(ConfigLines(c)) == Some(ViewOf(c))
  {
    if c.spec.remoteWrite == [] {
      ParseHead(LabelOf(c), ExtraPath(c.spec), []);
      assert HeadLines(c) + [] == HeadLines(c);
    } else {
      var rest := [Remote] + EntriesLines(c.spec.remoteWrite);
      ParseHead(LabelOf(c), ExtraPath(c.spec), rest);
      assert ConfigLines(c) == HeadLines(c) + rest;
      assert rest[1..] == EntriesLines(c.spec.remoteWrite);
      ParseEntriesBack(c.spec.remoteWrite);
    }
  }

  // ---------------------------------------------------------------- newlines

  /** The unquoted payloads; everything else is fixed text or quoted. */
  predicate RawOneLine(l: Line) {
    match l
    case File(path) => OneLine(path)
    case UserFile(n) => OneLine(n)
    case PassFile(n) => OneLine(n)
    case Bearer(n) => OneLine(n)
    case _ => true
  }

  predicate EntryOneLine(rw: RemoteWrite) {
    && (rw.basicAuth.Some? ==> OneLine(rw.basicAuth.value))
    && (rw.bearerToken.Some? ==> OneLine(rw.bearerToken.value))
  }

  predicate ViewOneLine(v: View) {
    && (v.path.Some? ==> OneLine(v.path.value))
    && (forall i :: 0 <= i < |v.remoteWrite| ==> EntryOneLine(v.remoteWrite[i]))
  }

  lemma ConcatOneLine(a: string, b: string)
    requires OneLine(a) && OneLine(b)
    ensures OneLine(a + b)
  {
  }

  lemma QuotedOneLine(table: char -> bool, prefix: string, n: string)
    requires OneLine(prefix)
    ensures OneLine(prefix + Quote(table, n))
  {
    QuoteOneLine(table, n);
  }

  lemma SecretFileOneLine(prefix: string, n: string, file: string)
    requires OneLine(prefix) && OneLine(n) && OneLine(file)
    ensures OneLine(prefix + SecretFile(n, file))
  {
    assert OneLine(SECRETS);
    ConcatOneLine(SECRETS, n);
    ConcatOneLine(SECRETS + n, file);
  }

  lemma KeyOneLine(table: char -> bool, l: Line)
    requires IsKey(l)
    ensures OneLine(Show(table, l))
  {
  }

  lemma ShortOneLine(table: char -> bool, l: Line)
    requires l.ScrapeInterval? || l.EvalInterval? || l.Labels? || l.BasicAuth? || l.StaticConfigs?
    ensures OneLine(Show(table, l))
  {
  }

  lemma LongOneLine(table: char -> bool, l: Line)
    requires l.ReplicaLabel? || l.JobName? || l.Targets?
    ensures OneLine(Show(table, l))
  {
  }

  lemma PrefixesOneLine()
    ensures OneLine(CLUSTER) && OneLine(URL) && OneLine(NAME) && OneLine(ITEM)
    ensures OneLine(USER_FILE) && OneLine(PASS_FILE) && OneLine(BEARER)
    ensures OneLine("/username") && OneLine("/password") && OneLine("/token")
  {
  }

  lemma ShowOneLine(table: char -> bool, l: Line)
    requires RawOneLine(l)
    ensures OneLine(Show(table, l))
  {
    PrefixesOneLine();
    match l
    case ClusterLabel(n) => QuotedOneLine(table, CLUSTER, n);
    case Url(u) => QuotedOneLine(table, URL, u);
    case Name(n) => QuotedOneLine(table, NAME, n);
    case File(path) => ConcatOneLine(ITEM, path);
    case UserFile(n) => SecretFileOneLine(USER_FILE, n, "/username");
    case PassFile(n) => SecretFileOneLine(PASS_FILE, n, "/password");
    case Bearer(n) => SecretFileOneLine(BEARER, n, "/token");
    case ReplicaLabel => LongOneLine(table, l);
    case JobName => LongOneLine(table, l);
    case Targets => LongOneLine(table, l);
    case _ => if IsKey(l) { KeyOneLine(table, l); } else { ShortOneLine(table, l); }
  }

  lemma {:induction false} EntriesRaw(rws: seq<RemoteWrite>)
    requires forall i :: 0 <= i < |rws| ==> EntryOneLine(rws[i])
    ensures forall i :: 0 <= i < |EntriesLines(rws)| ==>
      RawOneLine(EntriesLines(rws)[i]) && Proper(EntriesLines(rws)[i])
  {
    if rws != [] {
      EntriesRaw(rws[1..]);
      assert EntryOneLine(rws[0]);
      var e := EntryLines(rws[0]);
      forall i | 0 <= i < |e| ensures RawOneLine(e[i]) && Proper(e[i]) {
      }
    }
  }

  lemma ExtraPathAbsolute(spec: ClusterSpec)
    ensures ExtraPath(spec) != "" ==> ExtraPath(spec)[0] == '/'
  {
  }

  lemma ConfigRaw(c: Cluster)
    requires ViewOneLine(ViewOf(c))
    ensures forall i :: 0 <= i < |ConfigLines(c)| ==> RawOneLine(ConfigLines(c)[i]) && Proper(ConfigLines(c)[i])
  {
    EntriesRaw(c.spec.remoteWrite);
    ExtraPathAbsolute(c.spec);
    var h := HeadLines(c);
    forall i | 0 <= i < |h| ensures RawOneLine(h[i]) && Proper(h[i]) {
      assert h[i].File? ==> h[i].path == ExtraPath(c.spec) && ExtraPath(c.spec) != "";
    }
  }

  lemma ConfigSplits(table: char -> bool, c: Cluster)
    requires ViewOneLine(ViewOf(c))
    ensures Split(Config(table, c)) == Shown(Printer(table), ConfigLines(c)) + [""]
  {
    ConfigRaw(c);
    var ls := ConfigLines(c);
    var ss := Shown(Printer(table), ls);
    forall i | 0 <= i < |ss| ensures OneLine(ss[i]) {
      ShowOneLine(table, ls[i]);
    }
    SplitLines(ss);
  }

  lemma BetweenOneLine(prefix: string, s: string, suffix: string)
    requires OneLine(s)
    ensures Between(prefix, s, suffix).Some? ==> OneLine(Between(prefix, s, suffix).value)
  {
  }

  lemma SecretAtOneLine(prefix: string, s: string, file: string)
    requires OneLine(s)
    ensures SecretAt(prefix, s, file).Some? ==> OneLine(SecretAt(prefix, s, file).value)
  {
    BetweenOneLine(prefix, s, "");
    if Between(prefix, s, "").Some? {
      BetweenOneLine(SECRETS, Between(prefix, s, "").value, file);
    }
  }

  lemma ParseItemRaw(s: string)
    requires OneLine(s)
    ensures ParseItem(s).Some? ==> RawOneLine(ParseItem(s).value)
  {
    BetweenOneLine(ITEM, s, "");
  }

  lemma ParseDeepRaw(s: string)
    requires OneLine(s)
    ensures ParseDeep(s).Some? ==> RawOneLine(ParseDeep(s).value)
  {
    SecretAtOneLine(USER_FILE, s, "/username");
    SecretAtOneLine(PASS_FILE, s, "/password");
  }

  lemma ParseBearerRaw(s: string)
    requires OneLine(s) && At(s, 4) == 'b'
    ensures ParseField(s).Some? ==> RawOneLine(ParseField(s).value)
  {
    SecretAtOneLine(BEARER, s, "/token");
  }

  lemma ParseFieldRaw(s: string)
    requires OneLine(s)
    ensures ParseField(s).Some? ==> RawOneLine(ParseField(s).value)
  {
    if At(s, 4) == 'b' {
      ParseBearerRaw(s);
    } else {
      ParseDeepRaw(s);
    }
  }

  lemma ParseKeyRaw(s: string)
    ensures ParseKey(s).Some? ==> RawOneLine(ParseKey(s).value)
  {
  }

  lemma ParseLineRaw(s: string)
    requires OneLine(s) && ParseLine(s).Some?
    ensures RawOneLine(ParseLine(s).value)
  {
    if At(s, 0) != ' ' {
      ParseKeyRaw(s);
    } else if At(s, 2) == '-' {
      ParseItemRaw(s);
    } else if At(s, 2) == ' ' {
      ParseFieldAt(s);
      ParseFieldRaw(s);
    }
  }

  lemma {:induction false} ParseLinesRaw(ss: seq<string>)
    requires (forall i :: 0 <= i < |ss| ==> OneLine(ss[i])) && ParseLines(ss).Some?
    ensures forall i :: 0 <= i < |ParseLines(ss).value| ==> RawOneLine(ParseLines(ss).value[i])
  {
    if ss != [] {
      ParseLineRaw(ss[0]);
      ParseLinesRaw(ss[1..]);
    }
  }

  predicate AllRaw(ls: seq<Line>) {
    forall i :: 0 <= i < |ls| ==> RawOneLine(ls[i])
  }

  lemma TakeEntryRaw(ls: seq<Line>)
    requires AllRaw(ls) && ls != [] && ls[0].Url?
    ensures EntryOneLine(TakeEntry(ls).0) && AllRaw(TakeEntry(ls).1)
  {
    assert AllRaw(ls[1..]);
    var r1 := TakeName(ls[1..]).1;
    assert AllRaw(r1);
    var r2 := TakeBasic(r1).1;
    assert AllRaw(r2);
  }

  lemma {:induction false} ParseEntriesRaw(ls: seq<Line>)
    requires AllRaw(ls) && ParseEntries(ls).Some?
    ensures forall i :: 0 <= i < |ParseEntries(ls).value| ==> EntryOneLine(ParseEntries(ls).value[i])
    decreases |ls|
  {
    if ls != [] {
      TakeEntryRaw(ls);
      ParseEntriesRaw(TakeEntry(ls).1);
    }
  }

  lemma ParseDocRaw(ls: seq<Line>)
    requires AllRaw(ls) && ParseDoc(ls).Some?
    ensures ViewOneLine(ParseDoc(ls).value)
  {
    var r1 := TakeLabels(ls[3..]).1;
    assert AllRaw(r1);
    var r2 := TakeFile(r1[4..]).1;
    assert AllRaw(r2);
    if r2 != [] {
      ParseEntriesRaw(r2[1..]);
    }
  }

  lemma ParseRendered(table: char -> bool, c: Cluster)
    requires ViewOneLine(ViewOf(c))
    ensures ParseConfig(Config(table, c)) == Some(ViewOf(c))
  {
    ConfigSplits(table, c);
    ConfigRaw(c);
    ParseShown(table, ConfigLines(c));
    ParseDocBack(c);
    var ss := Split(Config(table, c));
    assert ss[..|ss| - 1] == Shown(Printer(table), ConfigLines(c));
  }

  /** Whatever text is parsed, what comes out of a line holds no newline. */
  lemma ParsedOneLine(text: string)
    ensures ParseConfig(text).Some? ==> ViewOneLine(ParseConfig(text).value)
  {
    if ParseConfig(text).Some? {
      var ss := Split(text);
      ParseLinesRaw(ss[..|ss| - 1]);
      ParseDocRaw(ParseLines(ss[..|ss| - 1]).value);
    }
  }

  /** renderConfig can be undone exactly when the unquoted texts (the Secret key in the scrape path,
      the credential Secret names) hold no newline: then the Thanos flag, the cluster name, the extra
      path and the whole remote_write list, in order, come back from the text. */
  lemma RenderInvertible(table: char -> bool, c: Cluster)
    ensures ParseConfig(Config(table, c)) == Some(ViewOf(c)) <==> ViewOneLine(ViewOf(c))
  {
    if ViewOneLine(ViewOf(c)) {
      ParseRendered(table, c);
    }
    ParsedOneLine(Config(table, c));
  }

  // ---------------------------------------------------------------- top-level keys

  /** The non-blank lines at column 0. */
  function TopLevel(ss: seq<string>): seq<string> {
    if ss == [] then []
    else (if ss[0] != "" && ss[0][0] != ' ' then [ss[0]] else []) + TopLevel(ss[1..])
  }

  predicate IsKey(l: Line) {
    l.Global? || l.Scrape? || l.Files? || l.Remote?
  }

  function Keys(ls: seq<Line>): seq<Line> {
    if ls == [] then [] else (if IsKey(ls[0]) then [ls[0]] else []) + Keys(ls[1..])
  }

  lemma KeyColumn(table: char -> bool, l: Line)
    ensures Show(table, l) != "" && (Show(table, l)[0] != ' ' <==> IsKey(l))
  {
  }

  lemma {:induction false} TopLevelShown(table: char -> bool, ls: seq<Line>)
    ensures TopLevel(Shown(Printer(table), ls) + [""]) == Shown(Printer(table), Keys(ls))
  {
    var show := Printer(table);
    if ls == [] {
      assert Shown(show, ls) + [""] == [""];
      assert TopLevel([""][1..]) == [];
    } else {
      var l, rest := ls[0], ls[1..];
      KeyColumn(table, l);
      TopLevelShown(table, rest);
      assert ls == [l] + rest;
      ShownCons(show, l, rest);
      ShownCons(show, l, Keys(rest));
      assert (Shown(show, ls) + [""])[1..] == Shown(show, rest) + [""];
    }
  }

  lemma KeysCons(l: Line, ls: seq<Line>)
    ensures Keys([l] + ls) == (if IsKey(l) then [l] else []) + Keys(ls)
  {
    assert ([l] + ls)[1..] == ls;
  }

  lemma {:induction false} KeysAppend(a: seq<Line>, b: seq<Line>)
    ensures Keys(a + b) == Keys(a) + Keys(b)
  {
    if a == [] {
      assert a + b == b;
    } else {
      var l, rest := a[0], a[1..];
      KeysAppend(rest, b);
      KeysCons(l, rest + b);
      KeysCons(l, rest);
      assert [l] + (rest + b) == a + b;
      assert [l] + rest == a;
    }
  }

  lemma {:induction false} NoKeys(ls: seq<Line>)
    requires forall i :: 0 <= i < |ls| ==> !IsKey(ls[i])
    ensures Keys(ls) == []
  {
    if ls != [] {
      NoKeys(ls[1..]);
    }
  }

  lemma {:induction false} EntriesHaveNoKeys(rws: seq<RemoteWrite>)
    ensures Keys(EntriesLines(rws)) == []
  {
    if rws != [] {
      EntriesHaveNoKeys(rws[1..]);
      KeysAppend(EntryLines(rws[0]), EntriesLines(rws[1..]));
      NoKeys(EntryLines(rws[0]));
    }
  }

  function FileKeys(path: string): seq<Line> {
    if path == "" then [] else [Files]
  }

  lemma KeysOfFile(path: string)
    ensures Keys(FileLines(path)) == FileKeys(path)
  {
    if path != "" {
      assert FileLines(path) == [Files] + ([File(path)] + []);
      KeysCons(Files, [File(path)] + []);
      KeysCons(File(path), []);
    }
  }

  lemma KeysOfGlobal()
    ensures Keys(GLOBAL) == [Global]
  {
    NoKeys([ScrapeInterval, EvalInterval]);
    assert GLOBAL == [Global] + [ScrapeInterval, EvalInterval];
    KeysCons(Global, [ScrapeInterval, EvalInterval]);
  }

  lemma KeysOfScrape()
    ensures Keys(SCRAPE) == [Scrape]
  {
    NoKeys([JobName, StaticConfigs, Targets]);
    assert SCRAPE == [Scrape] + [JobName, StaticConfigs, Targets];
    KeysCons(Scrape, [JobName, StaticConfigs, Targets]);
  }

  lemma LabelsHaveNoKeys(cluster: Option<string>)
    ensures Keys(LabelLines(cluster)) == []
  {
    NoKeys(LabelLines(cluster));
  }

  lemma KeysOfFour(a: seq<Line>, b: seq<Line>, c: seq<Line>, d: seq<Line>)
    ensures Keys(a + b + c + d) == Keys(a) + Keys(b) + Keys(c) + Keys(d)
  {
    KeysAppend(a, b);
    KeysAppend(a + b, c);
    KeysAppend(a + b + c, d);
  }

  lemma KeysOfParts(a: seq<Line>, b: seq<Line>, c: seq<Line>, d: seq<Line>, all: seq<Line>)
    requires all == a + b + c + d
    requires Keys(a) == [Global] && Keys(b) == [] && Keys(c) == [Scrape]
    ensures Keys(all) == [Global] + [Scrape] + Keys(d)
  {
    KeysOfFour(a, b, c, d);
    assert [Global] + [] == [Global];
  }

  lemma KeysOfThree(a: seq<Line>, b: seq<Line>, c: seq<Line>)
    ensures Keys(a + b + c) == Keys(a) + Keys(b) + Keys(c)
  {
    KeysAppend(a, b);
    KeysAppend(a + b, c);
  }

  lemma KeysOfHead(cluster: Option<string>, path: string)
    ensures Keys(HeadOf(cluster, path)) == [Global] + [Scrape] + FileKeys(path)
  {
    KeysOfGlobal();
    KeysOfScrape();
    KeysOfFile(path);
    LabelsHaveNoKeys(cluster);
    KeysOfParts(GLOBAL, LabelLines(cluster), SCRAPE, FileLines(path), HeadOf(cluster, path));
  }

  function ConfigKeys(spec: ClusterSpec): seq<Line> {
    [Global] + [Scrape] + FileKeys(ExtraPath(spec)) + if spec.remoteWrite == [] then [] else [Remote]
  }

  lemma KeysOfSections(head: seq<Line>, rws: seq<RemoteWrite>)
    ensures Keys(head + [Remote] + EntriesLines(rws)) == Keys(head) + [Remote]
  {
    EntriesHaveNoKeys(rws);
    KeysOfThree(head, [Remote], EntriesLines(rws));
    assert [Remote] + [] == [Remote];
    KeysCons(Remote, []);
  }

  lemma KeysOfConfig(c: Cluster)
    ensures Keys(ConfigLines(c)) == ConfigKeys(c.spec)
  {
    KeysOfHead(LabelOf(c), ExtraPath(c.spec));
    KeysOfSections(HeadLines(c), c.spec.remoteWrite);
  }

  lemma KeysDiffer(table: char -> bool, spec: ClusterSpec)
    ensures forall i, j :: 0 <= i < j < |ConfigKeys(spec)| ==>
      Show(table, ConfigKeys(spec)[i]) != Show(table, ConfigKeys(spec)[j])
  {
    var ks := ConfigKeys(spec);
    forall i, j | 0 <= i < j < |ks| ensures Show(table, ks[i]) != Show(table, ks[j]) {
      ParseShow(table, ks[i]);
      ParseShow(table, ks[j]);
    }
  }

  /** Each top-level key occurs at most once: the column-0 lines of the file are exactly the keys of
      the sections the spec asks for. */
  lemma TopLevelKeysOnce(table: char -> bool, c: Cluster)
    requires ViewOneLine(ViewOf(c))
    ensures TopLevel(Split(Config(table, c))) == Shown(Printer(table), ConfigKeys(c.spec))
    ensures forall i, j :: 0 <= i < j < |TopLevel(Split(Config(table, c)))| ==>
      TopLevel(Split(Config(table, c)))[i] != TopLevel(Split(Config(table, c)))[j]
  {
    ConfigSplits(table, c);
    TopLevelShown(table, ConfigLines(c));
    KeysOfConfig(c);
    KeysDiffer(table, c.spec);
  }
}
