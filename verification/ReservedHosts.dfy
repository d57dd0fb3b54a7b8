/** ReservedHostRule: the matcher, its SQL prefilter, and the conflicts report built on both. */
module ReservedHosts {
  import opened Text
  import opened Hostnames

  datatype MatchType = Exact | Suffix | Label | Unknown

  datatype Rule = Rule(kind: MatchType, value: string, base: string)

  predicate UnderOrAt(host: string, base: string) {
    host == base || EndsWith(host, "." + base)
  }

  predicate Matches(rule: Rule, domain: string) {
    var host, val := NormalizeHost(domain), NormalizeHost(rule.value);
    match rule.kind
    case Exact => host == val
    case Suffix => UnderOrAt(host, val)
    case Label =>
      var base := NormalizeHost(rule.base);
      Split(host)[0] == val && (base == "" || UnderOrAt(host, base))
    case Unknown => false
  }

  /** candidate_q, evaluated on the column as it stands. */
  predicate Candidate(rule: Rule, domain: string) {
    var val := NormalizeHost(rule.value);
    match rule.kind
    case Exact => domain == val
    case Suffix => UnderOrAt(domain, val)
    case Label => domain == val || StartsWith(domain, val + ".")
    case Unknown => false
  }

  // ---------------------------------------------------------------------------------------
  // What the string tests mean for labels.
  // ---------------------------------------------------------------------------------------

  predicate LabelSuffix(host: seq<string>, base: seq<string>) {
    |base| <= |host| && host[|host|-|base|..] == base
  }

  lemma UnderGivesLabels(front: string, base: string)
    ensures LabelSuffix(Split(front + "." + base), Split(base))
  {
    SplitConcat(front, base);
  }

  lemma TailUnder(front: string, base: string)
    ensures UnderOrAt(front + "." + base, base)
  {
    var host, tail := front + "." + base, "." + base;
    assert host == front + tail;
    assert host[|host|-|tail|..] == tail;
  }

  lemma JoinUnder(h: seq<string>, b: seq<string>)
    requires LabelSuffix(h, b) && b != []
    ensures UnderOrAt(Join(h), Join(b))
  {
    var front := h[..|h|-|b|];
    assert h == front + b;
    if front == [] {
      assert h == b;
    } else {
      JoinConcat(front, b);
      TailUnder(Join(front), Join(b));
    }
  }

  lemma LabelsGiveUnder(host: string, base: string)
    requires LabelSuffix(Split(host), Split(base))
    ensures UnderOrAt(host, base)
  {
    JoinUnder(Split(host), Split(base));
    JoinSplit(host);
    JoinSplit(base);
  }

  /** A host is at or under a base exactly when its labels end with the base's labels. */
  lemma UnderMeansLabels(host: string, base: string)
    ensures UnderOrAt(host, base) <==> LabelSuffix(Split(host), Split(base))
  {
    if EndsWith(host, "." + base) {
      var front := host[..|host|-|base|-1];
      assert host == front + "." + base;
      UnderGivesLabels(front, base);
    }
    if LabelSuffix(Split(host), Split(base)) {
      LabelsGiveUnder(host, base);
    }
  }

  lemma FirstPart(host: string)
    ensures host == Split(host)[0] || StartsWith(host, Split(host)[0] + ".")
  {
    var h := Split(host);
    JoinSplit(host);
    if |h| > 1 {
      assert host == h[0] + "." + Join(h[1..]);
    }
  }

  /** The labels a rule reserves: a host's labels against the rule's. */
  predicate Reserves(rule: Rule, host: seq<string>)
    requires host != []
  {
    var val, base := Split(NormalizeHost(rule.value)), NormalizeHost(rule.base);
    match rule.kind
    case Exact => host == val
    case Suffix => LabelSuffix(host, val)
    case Label => [host[0]] == val && (base == "" || LabelSuffix(host, Split(base)))
    case Unknown => false
  }

  /** matches() is a test on labels: no host is reserved by a coincidence inside a label. */
  lemma MatchesByLabels(rule: Rule, domain: string)
    ensures Matches(rule, domain) <==> Reserves(rule, Split(NormalizeHost(domain)))
  {
    var host, val, base := NormalizeHost(domain), NormalizeHost(rule.value), NormalizeHost(rule.base);
    UnderMeansLabels(host, val);
    UnderMeansLabels(host, base);
    JoinSplit(host);
    JoinSplit(val);
    SplitDotFree(host, 0);
    SplitOne(Split(host)[0]);
  }

  // ---------------------------------------------------------------------------------------
  // The prefilter.
  // ---------------------------------------------------------------------------------------

  /** On a canonical domain the prefilter keeps every match; for exact and suffix rules it keeps nothing else. */
  lemma PrefilterSound(rule: Rule, domain: string)
    requires NormalizeHost(domain) == domain
    ensures Matches(rule, domain) ==> Candidate(rule, domain)
    ensures !rule.kind.Label? ==> (Candidate(rule, domain) <==> Matches(rule, domain))
    ensures rule.kind.Label? && DotFree(NormalizeHost(rule.value)) && NormalizeHost(rule.base) == "" ==>
              (Candidate(rule, domain) <==> Matches(rule, domain))
  {
    FirstPart(domain);
    var val := NormalizeHost(rule.value);
    if DotFree(val) && (domain == val || StartsWith(domain, val + ".")) {
      PartFirst(domain, val);
    }
  }

  lemma PartFirst(host: string, val: string)
    requires DotFree(val) && (host == val || StartsWith(host, val + "."))
    ensures Split(host)[0] == val
  {
    SplitOne(val);
    if host != val {
      var rest := host[|val|+1..];
      assert host == val + "." + rest;
      SplitConcat(val, rest);
    }
  }

  /** The prefilter keeps a domain for all the rules that reserve it exactly when the domain is canonical. */
  lemma PrefilterSoundIff(domain: string)
    ensures (forall rule :: Matches(rule, domain) ==> Candidate(rule, domain)) <==> NormalizeHost(domain) == domain
  {
    if NormalizeHost(domain) == domain {
      forall rule | Matches(rule, domain)
        ensures Candidate(rule, domain)
      {
        PrefilterSound(rule, domain);
      }
    } else {
      assert Matches(Rule(Exact, domain, ""), domain) && !Candidate(Rule(Exact, domain, ""), domain);
    }
  }

  /**
   * The CHECK constraint does not make every row canonical: Domain.save turns this input into a row
   * with a trailing tab that passes it, and the prefilter drops a match on that row.
   */
  lemma ConstraintLetsTabThrough()
    ensures var d := NormalizeHost("acme.com\t.");
            && d == "acme.com\t" && SqlCanonical(d) && NormalizeHost(d) != d
            && Matches(Rule(Exact, "acme.com", ""), d) && !Candidate(Rule(Exact, "acme.com", ""), d)
  {
    StripSpec("acme.com\t.");
    assert Lower("acme.com\t.") == "acme.com\t.";
    assert "acme.com\t."[..9] == "acme.com\t";
    assert DropLeft("acme.com\t", IsSpace) == "acme.com\t";
    assert "acme.com\t"[..8] == "acme.com";
    assert Strip("acme.com\t") == "acme.com";
    assert Lower("acme.com") == "acme.com" && Lower("acme.com\t") == "acme.com\t";
    StripSpec("acme.com");
    DropRightSpec("acme.com", IsDot);
    assert TrimBlanks("acme.com\t") == "acme.com\t";
  }

  // ---------------------------------------------------------------------------------------
  // conflicts
  // ---------------------------------------------------------------------------------------

  const CONFLICTS_SAMPLE := 200

  /** The reserved ones among the domains, in order. */
  function Reserved(rule: Rule, domains: seq<string>): seq<string> {
    if domains == [] then []
    else
      var n := |domains| - 1;
      Reserved(rule, domains[..n]) + (if Matches(rule, domains[n]) then [domains[n]] else [])
  }

  predicate Canonical(domains: seq<string>) {
    forall i :: 0 <= i < |domains| ==> NormalizeHost(domains[i]) == domains[i]
  }

  function Sample(found: seq<string>): seq<string> {
    if |found| <= CONFLICTS_SAMPLE then found else found[..CONFLICTS_SAMPLE]
  }

  lemma SampleAppend(found: seq<string>, d: string)
    ensures Sample(found + [d]) == if |found| < CONFLICTS_SAMPLE then Sample(found) + [d] else Sample(found)
  {
  }

  /** The domains that the prefilter lets through and the matcher confirms. */
  function Confirmed(rule: Rule, domains: seq<string>): seq<string> {
    if domains == [] then []
    else
      var n := |domains| - 1;
      Confirmed(rule, domains[..n])
          + (if Candidate(rule, domains[n]) && Matches(rule, domains[n]) then [domains[n]] else [])
  }

  lemma {:induction false} ConfirmedSpec(rule: Rule, domains: seq<string>)
    ensures |Confirmed(rule, domains)| <= |Reserved(rule, domains)|
    ensures forall d :: d in Confirmed(rule, domains) ==> d in domains && Matches(rule, d)
    ensures Canonical(domains) ==> Confirmed(rule, domains) == Reserved(rule, domains)
  {
    if domains != [] {
      var n := |domains| - 1;
      ConfirmedSpec(rule, domains[..n]);
      if Canonical(domains) {
        PrefilterSound(rule, domains[n]);
      }
    }
  }

  lemma ConfirmedStep(rule: Rule, domains: seq<string>, n: nat)
    requires n < |domains|
    ensures Confirmed(rule, domains[..n+1]) ==
              Confirmed(rule, domains[..n])
                  + (if Candidate(rule, domains[n]) && Matches(rule, domains[n]) then [domains[n]] else [])
  {
    assert domains[..n+1][..n] == domains[..n];
  }

  lemma SampleSpec(rule: Rule, domains: seq<string>)
    ensures var sample := Sample(Confirmed(rule, domains));
            && |sample| <= CONFLICTS_SAMPLE
            && forall i :: 0 <= i < |sample| ==> sample[i] in domains && Matches(rule, sample[i])
  {
    ConfirmedSpec(rule, domains);
    var found := Confirmed(rule, domains);
    forall i | 0 <= i < |Sample(found)|
      ensures Sample(found)[i] in found
    {
      assert Sample(found)[i] == found[i];
    }
  }

  /** Reserved lists exactly the matching domains, in order: it is built domain by domain. */
  lemma {:induction false} ReservedConcat(rule: Rule, a: seq<string>, b: seq<string>)
    ensures Reserved(rule, a + b) == Reserved(rule, a) + Reserved(rule, b)
    decreases |b|
  {
    if b == [] {
      assert a + b == a;
    } else {
      assert (a + b)[..|a + b|-1] == a + b[..|b|-1];
      ReservedConcat(rule, a, b[..|b|-1]);
    }
  }

  /** Over canonical rows the count is exact and the sample is its first part, although only candidates are read. */
  method Conflicts(rule: Rule, domains: seq<string>) returns (count: nat, sample: seq<string>)
    ensures Canonical(domains) ==> count == |Reserved(rule, domains)| && sample == Sample(Reserved(rule, domains))
    ensures count <= |Reserved(rule, domains)| && |sample| == (if count < 200 then count else 200)
    ensures forall i :: 0 <= i < |sample| ==> sample[i] in domains && Matches(rule, sample[i])
  {
    count, sample := CountConfirmed(rule, domains);
    ConfirmedSpec(rule, domains);
    SampleSpec(rule, domains);
  }

  /** The loop over the candidates. */
  method CountConfirmed(rule: Rule, domains: seq<string>) returns (count: nat, sample: seq<string>)
    ensures count == |Confirmed(rule, domains)| && sample == Sample(Confirmed(rule, domains))
  {
    count, sample := 0, [];
    for n := 0 to |domains|
      invariant count == |Confirmed(rule, domains[..n])| && sample == Sample(Confirmed(rule, domains[..n]))
      invariant |sample| == if count < CONFLICTS_SAMPLE then count else CONFLICTS_SAMPLE
    {
      ConfirmedStep(rule, domains, n);
      if Candidate(rule, domains[n]) && Matches(rule, domains[n]) {
        SampleAppend(Confirmed(rule, domains[..n]), domains[n]);
        count := count + 1;
        if |sample| < CONFLICTS_SAMPLE {
          sample := sample + [domains[n]];
        }
      }
    }
    assert domains[..|domains|] == domains;
  }

  // ---------------------------------------------------------------------------------------
  // Rules as they are stored.
  // ---------------------------------------------------------------------------------------

  function ValidateLabel(v: string): Checked {
    var s := Lower(Strip(v));
    if IsLabel(s) then Ok(s) else Err(BadLabel)
  }

  datatype Stored = Stored(value: string, base: string) | Refused

  /** ReservedHostRule.normalize */
  function Normalized(kind: MatchType, value: string, base: string): Stored {
    match kind
    case Label =>
      var v := ValidateLabel(value);
      var b := if Strip(base) == "" then Ok("") else ValidateHostname(base);
      if v.Ok? && b.Ok? then Stored(v.value, b.value) else Refused
    case Unknown => Refused
    case _ =>
      var v := ValidateHostname(value);
      if v.Ok? then Stored(v.value, "") else Refused
  }

  /** What is stored, by kind: one label and a base, or a host name without a base. */
  lemma StoredRuleIff(kind: MatchType, value: string, base: string, v: string, b: string)
    ensures Normalized(kind, value, base) == Stored(v, b) <==>
              match kind
              case Label =>
                && IsDnsLabel(v) && v == Lower(Strip(value))
                && (if Strip(base) == "" then b == "" else ValidateHostname(base) == Ok(b))
              case Unknown => false
              case _ => ValidateHostname(value) == Ok(v) && b == ""
  {
    LabelIsDns(Lower(Strip(value)));
  }

  lemma LabelFixed(s: string)
    requires IsLabel(s)
    ensures NormalizeHost(s) == s && Strip(s) == s && Lower(s) == s
  {
    StripSpec(s);
    LowerFixed(s);
    DropRightSpec(s, IsDot);
  }

  /** A stored rule is canonical and stays what it is when it is saved again. */
  lemma StoredRuleCanonical(kind: MatchType, value: string, base: string)
    requires Normalized(kind, value, base).Stored?
    ensures var r := Normalized(kind, value, base);
            && NormalizeHost(r.value) == r.value && NormalizeHost(r.base) == r.base
            && Normalized(kind, r.value, r.base) == r
  {
    StripSpec("");
    DropRightSpec("", IsDot);
    if kind.Label? {
      LabelFixed(ValidateLabel(value).value);
      if Strip(base) != "" {
        ValidatedIsNormalized(base);
        NonEmptyHost(base);
      }
    } else {
      ValidatedIsNormalized(value);
    }
  }

  lemma NonEmptyHost(v: string)
    requires ValidateHostname(v).Ok?
    ensures Strip(ValidateHostname(v).value) != ""
  {
    var h := ValidateHostname(v).value;
    AcceptsExactly(v, h);
    var labels :| IsHost(h, labels);
    HostFixed(h, labels);
  }
}
