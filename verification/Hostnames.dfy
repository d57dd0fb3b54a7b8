/** The hostname canonicaliser, the validator and the column's CHECK constraint. */
module Hostnames {
  import opened Text

  datatype Reason = Required | TooLong | BadLabel | NumericTop
  datatype Checked = Ok(value: string) | Err(why: Reason)

  const HOSTNAME_MAX := 253

  /** strip().lower().rstrip(".") */
  function NormalizeHost(v: string): string {
    RstripDots(Lower(Strip(v)))
  }

  predicate IsLabelChar(c: char) {
    'a' <= c <= 'z' || '0' <= c <= '9' || c == '-'
  }

  predicate AllLabelChars(s: string) {
    forall i :: 0 <= i < |s| ==> IsLabelChar(s[i])
  }

  /** 1 to 63 letters, digits and hyphens, with no hyphen at either end. */
  predicate IsLabel(s: string) {
    1 <= |s| <= 63 && AllLabelChars(s) && s[0] != '-' && s[|s|-1] != '-'
  }

  predicate AllDigits(s: string) {
    s != "" && forall i :: 0 <= i < |s| ==> '0' <= s[i] <= '9'
  }

  predicate AllLabels(labels: seq<string>) {
    forall i :: 0 <= i < |labels| ==> IsLabel(labels[i])
  }

  /** host without one trailing dot. */
  function DropRoot(host: string): string {
    if EndsWith(host, ".") then host[..|host|-1] else host
  }

  function ValidateHostname(v: string): Checked {
    var host := DropRoot(Lower(Strip(v)));
    if host == "" then Err(Required)
    else if |host| > HOSTNAME_MAX then Err(TooLong)
    else
      var labels := Split(host);
      if !AllLabels(labels) then Err(BadLabel)
      else if AllDigits(labels[|labels|-1]) then Err(NumericTop)
      else Ok(host)
  }

  /**
   * The host names of section 2.1 of RFC 1123 within 253 characters, in lower case, with a top label
   * that is no number.
   */
  ghost predicate IsHost(h: string, labels: seq<string>) {
    && labels != [] && h == Join(labels) && |h| <= 253
    && (forall i :: 0 <= i < |labels| ==> IsDnsLabel(labels[i]))
    && HasNonDigit(labels[|labels|-1])
  }

  predicate LetterOrDigit(c: char) {
    'a' <= c <= 'z' || '0' <= c <= '9'
  }

  /** 1 to 63 letters, digits and inner hyphens. */
  predicate IsDnsLabel(s: string) {
    && 1 <= |s| <= 63 && LetterOrDigit(s[0]) && LetterOrDigit(s[|s|-1])
    && forall i :: 0 <= i < |s| ==> LetterOrDigit(s[i]) || s[i] == '-'
  }

  predicate HasNonDigit(s: string) {
    exists i :: 0 <= i < |s| && !('0' <= s[i] <= '9')
  }

  lemma LabelIsDns(s: string)
    ensures IsLabel(s) <==> IsDnsLabel(s)
    ensures s != "" ==> (AllDigits(s) <==> !HasNonDigit(s))
  {
  }

  lemma HostLabels(h: string, labels: seq<string>)
    ensures IsHost(h, labels) <==>
              && labels != [] && AllLabels(labels) && h == Join(labels)
              && |h| <= HOSTNAME_MAX && !AllDigits(labels[|labels|-1])
  {
    forall i | 0 <= i < |labels|
      ensures IsLabel(labels[i]) <==> IsDnsLabel(labels[i])
      ensures labels[i] != "" ==> (AllDigits(labels[i]) <==> !HasNonDigit(labels[i]))
    {
      LabelIsDns(labels[i]);
    }
  }

  // ---------------------------------------------------------------------------------------

  predicate IsHostChar(c: char) {
    IsLabelChar(c) || c == '.'
  }

  /** A non-empty join of labels starts and ends with a letter or digit, and holds host characters only. */
  lemma {:induction false} JoinShape(labels: seq<string>)
    requires labels != [] && AllLabels(labels)
    ensures var h := Join(labels);
            && h != "" && IsLabelChar(h[0]) && IsLabelChar(h[|h|-1])
            && forall i :: 0 <= i < |h| ==> IsHostChar(h[i])
  {
    if |labels| > 1 {
      JoinShape(labels[1..]);
    }
  }

  lemma DropRootSpec(host: string)
    ensures host == DropRoot(host) || host == DropRoot(host) + "."
  {
  }

  lemma DropRootBack(h: string, host: string)
    requires h != "" && h[|h|-1] != '.' && (host == h || host == h + ".")
    ensures DropRoot(host) == h
  {
  }

  lemma HostSplits(h: string, labels: seq<string>)
    requires IsHost(h, labels)
    ensures Split(h) == labels && h != "" && h[|h|-1] != '.'
  {
    HostLabels(h, labels);
    JoinShape(labels);
    forall i | 0 <= i < |labels|
      ensures DotFree(labels[i])
    {
      assert IsLabel(labels[i]);
    }
    SplitJoin(labels);
  }

  lemma AcceptedIsHost(v: string, h: string)
    requires ValidateHostname(v) == Ok(h)
    ensures IsHost(h, Split(h)) && (Lower(Strip(v)) == h || Lower(Strip(v)) == h + ".")
  {
    JoinSplit(h);
    HostLabels(h, Split(h));
    DropRootSpec(Lower(Strip(v)));
  }

  lemma HostAccepted(v: string, h: string, labels: seq<string>)
    requires IsHost(h, labels) && (Lower(Strip(v)) == h || Lower(Strip(v)) == h + ".")
    ensures ValidateHostname(v) == Ok(h)
  {
    HostSplits(h, labels);
    HostLabels(h, labels);
    DropRootBack(h, Lower(Strip(v)));
  }

  /** Exactly the host names are accepted, with at most one trailing dot, surrounding whitespace and any case. */
  lemma AcceptsExactly(v: string, h: string)
    ensures ValidateHostname(v) == Ok(h) <==>
              (exists labels :: IsHost(h, labels)) && (Lower(Strip(v)) == h || Lower(Strip(v)) == h + ".")
  {
    if ValidateHostname(v) == Ok(h) {
      AcceptedIsHost(v, h);
    }
    if labels :| IsHost(h, labels) && (Lower(Strip(v)) == h || Lower(Strip(v)) == h + ".") {
      HostAccepted(v, h, labels);
    }
  }

  lemma HostFixed(h: string, labels: seq<string>)
    requires IsHost(h, labels)
    ensures NormalizeHost(h) == h && Strip(h) == h && Lower(h) == h && RstripDots(h + ".") == h
  {
    HostLabels(h, labels);
    JoinShape(labels);
    StripSpec(h);
    LowerFixed(h);
    OneDot(h);
  }

  lemma OneDot(h: string)
    requires h != "" && h[|h|-1] != '.'
    ensures RstripDots(h) == h && RstripDots(h + ".") == h
  {
    DropRightSpec(h, IsDot);
    assert (h + ".")[..|h|] == h;
  }

  /** What the validator returns is what the canonicaliser makes of the input, and both leave it alone. */
  lemma ValidatedIsNormalized(v: string)
    requires ValidateHostname(v).Ok?
    ensures var h := ValidateHostname(v).value;
            h == NormalizeHost(v) && NormalizeHost(h) == h && ValidateHostname(h) == Ok(h)
  {
    var h := ValidateHostname(v).value;
    AcceptsExactly(v, h);
    var labels :| IsHost(h, labels);
    HostFixed(h, labels);
    AcceptsExactly(h, h);
  }

  // ---------------------------------------------------------------------------------------
  // Case does not matter.
  // ---------------------------------------------------------------------------------------

  /** The same but for case. */
  predicate Alike(v: string, w: string) {
    |v| == |w| && forall i :: 0 <= i < |v| ==> LowerChar(v[i]) == LowerChar(w[i])
  }

  lemma SpaceAlike(c: char, d: char)
    requires LowerChar(c) == LowerChar(d)
    ensures IsSpace(c) <==> IsSpace(d)
  {
  }

  lemma {:induction false} AlikeLeft(v: string, w: string)
    requires Alike(v, w)
    ensures Alike(DropLeft(v, IsSpace), DropLeft(w, IsSpace))
  {
    if v != "" {
      SpaceAlike(v[0], w[0]);
      if IsSpace(v[0]) {
        AlikeLeft(v[1..], w[1..]);
      }
    }
  }

  lemma {:induction false} AlikeRight(v: string, w: string)
    requires Alike(v, w)
    ensures Alike(DropRight(v, IsSpace), DropRight(w, IsSpace))
  {
    if v != "" {
      var n := |v| - 1;
      SpaceAlike(v[n], w[n]);
      if IsSpace(v[n]) {
        AlikeRight(v[..n], w[..n]);
      }
    }
  }

  /** Inputs that differ in case only get the same verdict and the same normal form. */
  lemma CaseInsensitive(v: string, w: string)
    requires Alike(v, w)
    ensures ValidateHostname(v) == ValidateHostname(w) && NormalizeHost(v) == NormalizeHost(w)
  {
    AlikeLeft(v, w);
    AlikeRight(DropLeft(v, IsSpace), DropLeft(w, IsSpace));
    assert Lower(Strip(v)) == Lower(Strip(w));
  }

  lemma StripsOne(h: string, c: char)
    requires h != "" && !IsSpace(h[0]) && !IsSpace(h[|h|-1]) && IsSpace(c)
    ensures Strip(h + [c]) == h
  {
    var v := h + [c];
    DropLeftSpec(v, IsSpace);
    assert v[..|v|-1] == h;
    DropRightSpec(h, IsSpace);
  }

  /** Whitespace of any kind after a host name is dropped, not only the ASCII one. */
  lemma TrailingSpaceAccepted(h: string, labels: seq<string>, c: char)
    requires IsHost(h, labels) && IsSpace(c)
    ensures ValidateHostname(h + [c]) == Ok(h)
  {
    HostLabels(h, labels);
    JoinShape(labels);
    StripsOne(h, c);
    HostFixed(h, labels);
    HostAccepted(h + [c], h, labels);
  }

  lemma NormalizedShape(v: string)
    ensures var n := NormalizeHost(v);
            && Lower(n) == n && RstripDots(n) == n && (n != "" ==> !IsSpace(n[0]))
  {
    var x := Lower(Strip(v));
    StripSpec(v);
    DropRightSpec(x, IsDot);
    var n := NormalizeHost(v);
    DropRightSpec(n, IsDot);
    LowerFixed(n);
  }

  lemma FixedIff(n: string)
    requires Lower(n) == n && RstripDots(n) == n && (n != "" ==> !IsSpace(n[0]))
    ensures NormalizeHost(n) == n <==> n == "" || !IsSpace(n[|n|-1])
  {
    StripSpec(n);
    DropRightSpec(Lower(Strip(n)), IsDot);
  }

  /**
   * A second normalisation changes nothing exactly when the trimmed input, without its trailing dots, does
   * not end in whitespace.
   */
  lemma NormalizeTwice(v: string)
    ensures var y := RstripDots(Strip(v));
            NormalizeHost(NormalizeHost(v)) == NormalizeHost(v) <==> y == "" || !IsSpace(y[|y|-1])
  {
    RstripLower(Strip(v));
    NormalizedShape(v);
    FixedIff(NormalizeHost(v));
  }

  /** Whitespace before a trailing dot survives the first normalisation. */
  lemma NormalizeTwiceDiffers()
    ensures NormalizeHost("acme.com .") == "acme.com " && NormalizeHost("acme.com ") == "acme.com"
  {
    StripSpec("acme.com .");
    assert Lower("acme.com .") == "acme.com .";
    assert "acme.com ."[..9] == "acme.com ";
    assert DropLeft("acme.com ", IsSpace) == "acme.com ";
    assert "acme.com "[..8] == "acme.com";
    assert Strip("acme.com ") == "acme.com";
    assert Lower("acme.com") == "acme.com";
  }

  // ---------------------------------------------------------------------------------------
  // The CHECK constraint on the domain column: RTRIM(LOWER(TRIM(domain)), '.'), where SQL's
  // TRIM removes spaces only.
  // ---------------------------------------------------------------------------------------

  predicate IsBlank(c: char) {
    c == ' '
  }

  function TrimBlanks(s: string): string {
    DropRight(DropLeft(s, IsBlank), IsBlank)
  }

  predicate SqlCanonical(d: string) {
    RstripDots(Lower(TrimBlanks(d))) == d
  }

  lemma SqlCanonicalShape(d: string)
    requires SqlCanonical(d)
    ensures Lower(d) == d && RstripDots(d) == d
    ensures d != "" ==> d[0] != ' ' && d[|d|-1] != ' '
  {
    var l := DropLeft(d, IsBlank);
    var t := TrimBlanks(d);
    DropLeftSpec(d, IsBlank);
    DropRightSpec(l, IsBlank);
    DropRightSpec(Lower(t), IsDot);
    assert t == d;
    LowerFixed(d);
  }

  /** A row that passes the constraint is canonical exactly when no other whitespace stands at an end of it. */
  lemma ConstraintVersusCanonical(d: string)
    requires SqlCanonical(d)
    ensures NormalizeHost(d) == d <==> d == "" || (!IsSpace(d[0]) && !IsSpace(d[|d|-1]))
  {
    SqlCanonicalShape(d);
    StripSpec(d);
    DropRightSpec(Lower(Strip(d)), IsDot);
  }
}
