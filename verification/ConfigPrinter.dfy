/** renderConfig and wrapScrapeConfigs (internal/controller/prometheuscluster_controller.go), with the
    parsers that undo them. */
module ConfigPrinter {
  import opened Types
  import opened Text
  import opened Quoting

  // ---------------------------------------------------------------- wrapScrapeConfigs

  const HEADER := "scrape_configs:"

  /** strings.TrimRight(s, "\n"). */
  function TrimNewlines(s: string): string {
    if s != "" && s[|s| - 1] == '\n' then TrimNewlines(s[..|s| - 1]) else s
  }

  /** What is trimmed is newlines, all of them at the end and nothing else. */
  lemma {:induction false} TrimTakesNewlines(s: string)
    ensures TrimNewlines(s) <= s && forall i :: |TrimNewlines(s)| <= i < |s| ==> s[i] == '\n'
    ensures TrimNewlines(s) != "" ==> TrimNewlines(s)[|TrimNewlines(s)| - 1] != '\n'
    decreases |s|
  {
    if s != "" && s[|s| - 1] == '\n' {
      TrimTakesNewlines(s[..|s| - 1]);
    }
  }

  function Indent(l: string): string {
    if l == "" then "" else "  " + l
  }

  function Unindent(l: string): string {
    if |l| < 2 then "" else l[2..]
  }

  function Indented(ls: seq<string>): seq<string> {
    seq(|ls|, i requires 0 <= i < |ls| => Indent(ls[i]))
  }

  function Wrapped(s: string): string {
    Lines([HEADER] + Indented(Split(TrimNewlines(s))))
  }

  method WrapScrapeConfigs(s: string) returns (b: string)
    ensures b == Wrapped(s)
  {
    b := "scrape_configs:\n";
    var lines := Split(TrimNewlines(s));
    assert Lines([HEADER] + Indented(lines[..0])) == b by {
      assert [HEADER] + Indented(lines[..0]) == [HEADER];
      assert Lines([HEADER][1..]) == "";
    }
    for i := 0 to |lines|
      invariant b == Lines([HEADER] + Indented(lines[..i]))
    {
      var line := lines[i];
      ghost var was := [HEADER] + Indented(lines[..i]);
      assert [HEADER] + Indented(lines[..i + 1]) == was + [Indent(line)];
      LinesAppend(was, [Indent(line)]);
      assert Lines([Indent(line)]) == Indent(line) + "\n" by {
        assert Lines([Indent(line)][1..]) == "";
      }
      if line == "" {
        b := b + "\n";
        continue;
      }
      b := b + "  ";
      b := b + line;
      b := b + "\n";
      assert b == Lines(was) + ("  " + line + "\n");
    }
    assert lines[..|lines|] == lines;
  }

  /** Drop the header and two spaces from each non-empty line. */
  function Unwrap(t: string): string {
    var ls := Split(t);
    if |ls| < 3 then ""
    else
      var body := ls[1..|ls| - 1];
      Join(seq(|body|, i requires 0 <= i < |body| => Unindent(body[i])))
  }

  lemma WrappedLines(s: string)
    ensures Split(Wrapped(s)) == [HEADER] + Indented(Split(TrimNewlines(s))) + [""]
  {
    SplitLines([HEADER] + Indented(Split(TrimNewlines(s))));
  }

  /** Wrapping loses only trailing newlines. */
  lemma UnwrapWrap(s: string)
    ensures Unwrap(Wrapped(s)) == TrimNewlines(s)
  {
    WrappedLines(s);
    var ls := Split(TrimNewlines(s));
    var all := Split(Wrapped(s));
    assert all[1..|all| - 1] == Indented(ls);
    assert seq(|ls|, i requires 0 <= i < |ls| => Unindent(Indented(ls)[i])) == ls;
    JoinSplit(TrimNewlines(s));
  }

  function LeadingSpaces(l: string): nat {
    if l != "" && l[0] == ' ' then 1 + LeadingSpaces(l[1..]) else 0
  }

  lemma IndentSpaces(l: string)
    requires l != ""
    ensures LeadingSpaces(Indent(l)) == LeadingSpaces(l) + 2
  {
    assert Indent(l)[1..] == " " + l && Indent(l)[1..][1..] == l;
  }

  /** One line out per line in, plus the header; non-empty lines move right by two, so their relative
      indentation is kept; and the header is the only non-blank line at column 0. */
  lemma WrapKeepsShape(s: string)
    ensures |Split(Wrapped(s))| == |Split(TrimNewlines(s))| + 2
    ensures Split(Wrapped(s))[0] == HEADER && LeadingSpaces(HEADER) == 0
    ensures forall i :: 0 <= i < |Split(TrimNewlines(s))| ==>
      if Split(TrimNewlines(s))[i] == "" then Split(Wrapped(s))[i + 1] == ""
      else LeadingSpaces(Split(Wrapped(s))[i + 1]) == LeadingSpaces(Split(TrimNewlines(s))[i]) + 2
  {
    WrappedLines(s);
    var before, after := Split(TrimNewlines(s)), Split(Wrapped(s));
    forall i | 0 <= i < |before|
      ensures after[i + 1] == Indent(before[i])
      ensures before[i] != "" ==> LeadingSpaces(after[i + 1]) == LeadingSpaces(before[i]) + 2
    {
      if before[i] != "" {
        IndentSpaces(before[i]);
      }
    }
  }

  // ---------------------------------------------------------------- renderConfig

  const EXTRA_FILE := "additional-scrape-configs.yml"
  const EXTRA_MOUNT := "/etc/prometheus/extra-secret"

  /** additionalScrapePath. */
  function ExtraPath(spec: ClusterSpec): string {
    match spec.additionalScrape
    case None => ""
    case Some(asc) =>
      if asc.inline != "" then "/etc/prometheus/" + EXTRA_FILE
      else if asc.secretRef.Some? then EXTRA_MOUNT + "/" + asc.secretRef.value.key
      else ""
  }

  /** The lines of prometheus.yml the operator writes. */
  datatype Line =
    | Global | ScrapeInterval | EvalInterval
    | Labels | ClusterLabel(cluster: string) | ReplicaLabel
    | Scrape | JobName | StaticConfigs | Targets
    | Files | File(path: string)
    | Remote | Url(url: string) | Name(name: string)
    | BasicAuth | UserFile(secret: string) | PassFile(secret: string) | Bearer(secret: string)

  const CLUSTER := "    cluster: "
  const ITEM := "  - "
  const URL := "  - url: "
  const NAME := "    name: "
  const USER_FILE := "      username_file: "
  const PASS_FILE := "      password_file: "
  const BEARER := "    bearer_token_file: "
  const SECRETS := "/etc/prometheus/secrets/"

  /** Where a remote_write credential is expected inside the container. */
  function SecretFile(secret: string, file: string): string {
    SECRETS + secret + file
  }

  function Show(table: char -> bool, l: Line): string {
    match l
    case Global => "global:"
    case ScrapeInterval => "  scrape_interval: 30s"
    case EvalInterval => "  evaluation_interval: 30s"
    case Labels => "  external_labels:"
    case ClusterLabel(n) => CLUSTER + Quote(table, n)
    case ReplicaLabel => "    replica: ${POD_NAME:-unknown}"
    case Scrape => "scrape_configs:"
    case JobName => "  - job_name: prometheus"
    case StaticConfigs => "    static_configs:"
    case Targets => "      - targets: ['localhost:9090']"
    case Files => "scrape_config_files:"
    case File(path) => ITEM + path
    case Remote => "remote_write:"
    case Url(u) => URL + Quote(table, u)
    case Name(n) => NAME + Quote(table, n)
    case BasicAuth => "    basic_auth:"
    case UserFile(n) => USER_FILE + SecretFile(n, "/username")
    case PassFile(n) => PASS_FILE + SecretFile(n, "/password")
    case Bearer(n) => BEARER + SecretFile(n, "/token")
  }

  function Printer(table: char -> bool): Line -> string {
    (l: Line) => Show(table, l)
  }

  function NameLines(name: string): seq<Line> {
    if name == "" then [] else [Name(name)]
  }

  function BasicLines(secret: Option<string>): seq<Line> {
    match secret case None => [] case Some(n) => [BasicAuth, UserFile(n), PassFile(n)]
  }

  function BearerLines(secret: Option<string>): seq<Line> {
    match secret case None => [] case Some(n) => [Bearer(n)]
  }

  function EntryLines(rw: RemoteWrite): seq<Line> {
    [Url(rw.url)] + NameLines(rw.name) + BasicLines(rw.basicAuth) + BearerLines(rw.bearerToken)
  }

  function EntriesLines(rws: seq<RemoteWrite>): seq<Line> {
    if rws == [] then [] else EntryLines(rws[0]) + EntriesLines(rws[1..])
  }

  function LabelLines(cluster: Option<string>): seq<Line> {
    match cluster case None => [] case Some(n) => [Labels, ClusterLabel(n), ReplicaLabel]
  }

  function FileLines(path: string): seq<Line> {
    if path == "" then [] else [Files, File(path)]
  }

  const GLOBAL := [Global, ScrapeInterval, EvalInterval]
  const SCRAPE := [Scrape, JobName, StaticConfigs, Targets]

  function HeadOf(cluster: Option<string>, path: string): seq<Line> {
    GLOBAL + LabelLines(cluster) + SCRAPE + FileLines(path)
  }

  /** The Thanos cluster label, if there is one. */
  function LabelOf(c: Cluster): Option<string> {
    if c.spec.thanos.enabled then Some(c.name) else None
  }

  function HeadLines(c: Cluster): seq<Line> {
    HeadOf(LabelOf(c), ExtraPath(c.spec))
  }

  function ConfigLines(c: Cluster): seq<Line> {
    if c.spec.remoteWrite == [] then HeadLines(c)
    else HeadLines(c) + [Remote] + EntriesLines(c.spec.remoteWrite)
  }

  function Shown(show: Line -> string, ls: seq<Line>): seq<string> {
    seq(|ls|, i requires 0 <= i < |ls| => show(ls[i]))
  }

  function Printed(show: Line -> string, ls: seq<Line>): string {
    Lines(Shown(show, ls))
  }

  /** The prometheus.yml of a cluster. */
  function Config(table: char -> bool, c: Cluster): string {
    Printed(Printer(table), ConfigLines(c))
  }

  /** A whole remote_write entry as text. */
  lemma EntryTexts(table: char -> bool, rw: RemoteWrite)
    requires rw.name != "" && rw.basicAuth.Some? && rw.bearerToken.Some?
    ensures Shown(Printer(table), EntryLines(rw)) ==
      ["  - url: " + Quote(table, rw.url),
       "    name: " + Quote(table, rw.name),
       "    basic_auth:",
       "      username_file: " + ("/etc/prometheus/secrets/" + rw.basicAuth.value + "/username"),
       "      password_file: " + ("/etc/prometheus/secrets/" + rw.basicAuth.value + "/password"),
       "    bearer_token_file: " + ("/etc/prometheus/secrets/" + rw.bearerToken.value + "/token")]
  {
  }

  /** The head of the file as text, with all its parts. */
  lemma HeadTexts(table: char -> bool, name: string, path: string)
    requires path != ""
    ensures Shown(Printer(table), HeadOf(Some(name), path)) ==
      ["global:",
       "  scrape_interval: 30s",
       "  evaluation_interval: 30s",
       "  external_labels:",
       "    cluster: " + Quote(table, name),
       "    replica: ${POD_NAME:-unknown}",
       "scrape_configs:",
       "  - job_name: prometheus",
       "    static_configs:",
       "      - targets: ['localhost:9090']",
       "scrape_config_files:",
       "  - " + path]
  {
  }

  lemma PrintedAppend(show: Line -> string, a: seq<Line>, b: seq<Line>)
    ensures Printed(show, a + b) == Printed(show, a) + Printed(show, b)
  {
    assert Shown(show, a + b) == Shown(show, a) + Shown(show, b);
    LinesAppend(Shown(show, a), Shown(show, b));
  }

  lemma {:induction false} EntriesAppend(a: seq<RemoteWrite>, rw: RemoteWrite)
    ensures EntriesLines(a + [rw]) == EntriesLines(a) + EntryLines(rw)
  {
    if a == [] {
      assert a + [rw] == [rw];
      assert EntriesLines([rw][1..]) == [];
    } else {
      EntriesAppend(a[1..], rw);
      assert (a + [rw])[1..] == a[1..] + [rw];
    }
  }

  lemma EntriesGrow(head: seq<Line>, rws: seq<RemoteWrite>, i: nat)
    requires i < |rws|
    ensures head + EntriesLines(rws[..i]) + EntryLines(rws[i]) == head + EntriesLines(rws[..i + 1])
  {
    EntriesAppend(rws[..i], rws[i]);
    assert rws[..i + 1] == rws[..i] + [rws[i]];
  }

  /** A strings.Builder that is written line by line. */
  class Builder {
    const show: Line -> string
    var text: string
    ghost var lines: seq<Line>

    ghost predicate Valid()
      reads this
    {
      text == Printed(show, lines)
    }

    constructor (show: Line -> string)
      ensures Valid() && lines == [] && this.show == show
    {
      this.show, text, lines := show, "", [];
    }

    method Write(ls: seq<Line>)
      requires Valid()
      modifies this
      ensures Valid() && lines == old(lines) + ls
    {
      PrintedAppend(show, lines, ls);
      text := text + Printed(show, ls);
      lines := lines + ls;
    }
  }

  /** renderConfig up to the remote_write list. */
  method WriteHead(b: Builder, c: Cluster)
    requires b.Valid() && b.lines == []
    modifies b
    ensures b.Valid() && b.lines == HeadLines(c)
  {
    b.Write(GLOBAL);
    if c.spec.thanos.enabled {
      b.Write([Labels, ClusterLabel(c.name), ReplicaLabel]);
    }
    b.Write(SCRAPE);
    var path := ExtraPath(c.spec);
    if path != "" {
      b.Write([Files, File(path)]);
    }
  }

  /** The body of the remote_write loop. */
  method WriteEntry(b: Builder, rw: RemoteWrite)
    requires b.Valid()
    modifies b
    ensures b.Valid() && b.lines == old(b.lines) + EntryLines(rw)
  {
    b.Write([Url(rw.url)]);
    if rw.name != "" {
      b.Write([Name(rw.name)]);
    }
    if rw.basicAuth.Some? {
      b.Write([BasicAuth]);
      b.Write([UserFile(rw.basicAuth.value)]);
      b.Write([PassFile(rw.basicAuth.value)]);
    }
    if rw.bearerToken.Some? {
      b.Write([Bearer(rw.bearerToken.value)]);
    }
  }

  method WriteEntries(b: Builder, rws: seq<RemoteWrite>)
    requires b.Valid()
    modifies b
    ensures b.Valid() && b.lines == old(b.lines) + EntriesLines(rws)
  {
    ghost var head := b.lines;
    assert EntriesLines(rws[..0]) == [];
    for i := 0 to |rws|
      invariant b.Valid() && b.lines == head + EntriesLines(rws[..i])
    {
      WriteEntry(b, rws[i]);
      EntriesGrow(head, rws, i);
    }
    assert rws[..|rws|] == rws;
  }

  /** renderConfig. */
  method RenderConfig(table: char -> bool, c: Cluster) returns (text: string)
    ensures text == Config(table, c)
  {
    var b := new Builder(Printer(table));
    WriteHead(b, c);
    if |c.spec.remoteWrite| == 0 {
      return b.text;
    }
    b.Write([Remote]);
    WriteEntries(b, c.spec.remoteWrite);
    return b.text;
  }
}
