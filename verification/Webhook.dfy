/** internal/webhook: the validating admission webhook of PrometheusCluster. */
module Webhook {
  import opened Types

  datatype FieldError =
    | ReplicasTooFew
    | BucketRequired
    | BadSchedule
    | UrlRequired(index: nat)
    | ScrapeExclusive
    | ScrapeRequired
    | InlineNotAList
    | SecretNameRequired
    | SecretKeyRequired

  /** The rule behind each error, one at a time. */
  predicate Violates(p: Parsers, s: ClusterSpec, e: FieldError) {
    match e
    case ReplicasTooFew => s.replicas < 1
    case BucketRequired => s.backup.enabled && s.backup.bucket == ""
    case BadSchedule => s.backup.enabled && s.backup.schedule != "" && !p.cron(s.backup.schedule)
    case UrlRequired(i) => i < |s.remoteWrite| && s.remoteWrite[i].url == ""
    case ScrapeExclusive =>
      s.additionalScrape.Some? && s.additionalScrape.value.inline != "" && s.additionalScrape.value.secretRef.Some?
    case ScrapeRequired =>
      s.additionalScrape.Some? && s.additionalScrape.value.inline == "" && s.additionalScrape.value.secretRef.None?
    case InlineNotAList =>
      s.additionalScrape.Some? && s.additionalScrape.value.inline != "" && s.additionalScrape.value.secretRef.None?
      && !p.yamlList(s.additionalScrape.value.inline)
    case SecretNameRequired =>
      s.additionalScrape.Some? && s.additionalScrape.value.inline == "" && s.additionalScrape.value.secretRef.Some?
      && s.additionalScrape.value.secretRef.value.name == ""
    case SecretKeyRequired =>
      s.additionalScrape.Some? && s.additionalScrape.value.inline == "" && s.additionalScrape.value.secretRef.Some?
      && s.additionalScrape.value.secretRef.value.key == ""
  }

  /** A spec the webhook admits: no rule is violated. */
  ghost predicate Valid(p: Parsers, s: ClusterSpec) {
    forall e: FieldError :: !Violates(p, s, e)
  }

  /** The rules together, written out. */
  lemma AdmittedExactly(p: Parsers, s: ClusterSpec)
    ensures Valid(p, s) <==>
      && s.replicas >= 1
      && (s.backup.enabled ==> s.backup.bucket != "" && (s.backup.schedule == "" || p.cron(s.backup.schedule)))
      && (forall i :: 0 <= i < |s.remoteWrite| ==> s.remoteWrite[i].url != "")
      && (s.additionalScrape.Some? ==>
            var asc := s.additionalScrape.value;
            || (asc.inline != "" && asc.secretRef.None? && p.yamlList(asc.inline))
            || (asc.inline == "" && asc.secretRef.Some?
                && asc.secretRef.value.name != "" && asc.secretRef.value.key != ""))
  {
    if Valid(p, s) {
      RulesHold(p, s);
    }
  }

  lemma RulesHold(p: Parsers, s: ClusterSpec)
    requires Valid(p, s)
    ensures !Violates(p, s, ReplicasTooFew) && !Violates(p, s, BucketRequired) && !Violates(p, s, BadSchedule)
    ensures !Violates(p, s, ScrapeExclusive) && !Violates(p, s, ScrapeRequired) && !Violates(p, s, InlineNotAList)
    ensures !Violates(p, s, SecretNameRequired) && !Violates(p, s, SecretKeyRequired)
    ensures forall i :: 0 <= i < |s.remoteWrite| ==> s.remoteWrite[i].url != ""
  {
    forall i | 0 <= i < |s.remoteWrite| ensures s.remoteWrite[i].url != "" {
      assert !Violates(p, s, UrlRequired(i));
    }
  }

  /** Switching an admitted cluster's backup to a template is admitted exactly for a bucket and a schedule
      that parses or is empty. */
  lemma TemplateAdmittedExactly(p: Parsers, s: ClusterSpec, template: BackupSpec)
    requires Valid(p, s)
    ensures Valid(p, s.(backup := template.(enabled := true))) <==>
      template.bucket != "" && (template.schedule == "" || p.cron(template.schedule))
  {
    AdmittedExactly(p, s);
    AdmittedExactly(p, s.(backup := template.(enabled := true)));
  }

  predicate NoRepeats(errs: seq<FieldError>) {
    forall i, j :: 0 <= i < j < |errs| ==> errs[i] != errs[j]
  }

  predicate AboutScrape(e: FieldError) {
    e.ScrapeExclusive? || e.ScrapeRequired? || e.InlineNotAList? || e.SecretNameRequired? || e.SecretKeyRequired?
  }

  /** The switch over additionalScrapeConfigs. */
  method ValidateScrape(p: Parsers, s: ClusterSpec) returns (errs: seq<FieldError>)
    ensures forall e: FieldError :: e in errs <==> Violates(p, s, e) && AboutScrape(e)
    ensures NoRepeats(errs)
  {
    errs := [];
    if s.additionalScrape.None? {
      return;
    }
    var asc := s.additionalScrape.value;
    var hasInline, hasSecret := asc.inline != "", asc.secretRef.Some?;
    if hasInline && hasSecret {
      errs := errs + [ScrapeExclusive];
    } else if !hasInline && !hasSecret {
      errs := errs + [ScrapeRequired];
    } else if hasInline {
      if !p.yamlList(asc.inline) {
        errs := errs + [InlineNotAList];
      }
    } else {
      if asc.secretRef.value.name == "" {
        errs := errs + [SecretNameRequired];
      }
      if asc.secretRef.value.key == "" {
        errs := errs + [SecretKeyRequired];
      }
    }
  }

  /** validate: the error list names exactly the violated rules, each once, so admission is `errs == []`. */
  method Validate(p: Parsers, s: ClusterSpec) returns (errs: seq<FieldError>)
    ensures forall e: FieldError :: e in errs <==> Violates(p, s, e)
    ensures NoRepeats(errs)
    ensures errs == [] <==> Valid(p, s)
  {
    errs := [];
    if s.replicas < 1 {
      errs := errs + [ReplicasTooFew];
    }
    if s.backup.enabled {
      if s.backup.bucket == "" {
        errs := errs + [BucketRequired];
      }
      if s.backup.schedule != "" && !p.cron(s.backup.schedule) {
        errs := errs + [BadSchedule];
      }
    }
    for i := 0 to |s.remoteWrite|
      invariant forall e: FieldError :: e in errs <==>
        Violates(p, s, e) && !AboutScrape(e) && (e.UrlRequired? ==> e.index < i)
      invariant NoRepeats(errs)
    {
      if s.remoteWrite[i].url == "" {
        errs := errs + [UrlRequired(i)];
      }
    }
    var scrape := ValidateScrape(p, s);
    JoinedErrors(p, s, errs, scrape);
    errs := errs + scrape;
  }

  lemma JoinedErrors(p: Parsers, s: ClusterSpec, errs: seq<FieldError>, scrape: seq<FieldError>)
    requires NoRepeats(errs) && NoRepeats(scrape)
    requires forall e: FieldError :: e in errs <==> Violates(p, s, e) && !AboutScrape(e)
    requires forall e: FieldError :: e in scrape <==> Violates(p, s, e) && AboutScrape(e)
    ensures NoRepeats(errs + scrape)
    ensures forall e: FieldError :: e in errs + scrape <==> Violates(p, s, e)
    ensures errs + scrape == [] <==> Valid(p, s)
  {
    var all := errs + scrape;
    forall i, j | 0 <= i < |errs| && 0 <= j < |scrape| ensures errs[i] != scrape[j] {
      assert errs[i] in errs && scrape[j] in scrape;
    }
    assert all != [] ==> all[0] in all;
  }
}
