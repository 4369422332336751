/** The e-mail format check shared by registration and the profile form:
    `/^[^\s@]+@[^\s@]+\.[^\s@]+$/`. */
module EmailFormat {
  import opened Strings

  /** Every character is in `[^\s@]`. */
  predicate NoSpaceOrAt(s: string) {
    forall j :: 0 <= j < |s| ==> !IsSpace(s[j]) && s[j] != '@'
  }

  /** What the regular expression accepts: a non-empty local part and a
      domain, both in `[^\s@]+`, separated by the only `@`, with a `.` in
      the domain that has a character on each side. (The `.` itself is in
      `[^\s@]`, so the domain with its dot is one `[^\s@]+` run.) */
  ghost predicate MatchesEmailRegex(e: string) {
    exists i, k :: 0 < i && i + 1 < k < |e| - 1 && e[i] == '@' && e[k] == '.'
      && NoSpaceOrAt(e[..i]) && NoSpaceOrAt(e[i + 1..])
  }

  /** A dot with a character on each side. */
  predicate HasInnerDot(d: string) {
    exists k :: 0 < k < |d| - 1 && d[k] == '.'
  }

  /** The check by splitting on `@`: exactly two parts, a non-empty local
      part, no white space, and an inner dot in the domain. */
  predicate IsValidEmail(e: string) {
    var parts := Split(e, '@');
    |parts| == 2 && parts[0] != "" && !HasSpace(parts[0]) && !HasSpace(parts[1]) && HasInnerDot(parts[1])
  }

  /** The split check accepts exactly what the regular expression accepts. */
  lemma EmailCheckMatchesRegex(e: string)
    ensures IsValidEmail(e) <==> MatchesEmailRegex(e)
  {
    if MatchesEmailRegex(e) {
      RegexImpliesCheck(e);
    }
    if IsValidEmail(e) {
      CheckImpliesRegex(e);
    }
  }

  lemma RegexImpliesCheck(e: string)
    requires MatchesEmailRegex(e)
    ensures IsValidEmail(e)
  {
    var i, k :| 0 < i && i + 1 < k < |e| - 1 && e[i] == '@' && e[k] == '.'
                && NoSpaceOrAt(e[..i]) && NoSpaceOrAt(e[i + 1..]);
    var l, r := e[..i], e[i + 1..];
    assert e == l + ['@'] + r;
    assert r[k - i - 1] == '.';
    assert HasInnerDot(r);
    EmailFromParts(l, r);
  }

  lemma NoAt(s: string)
    requires NoSpaceOrAt(s)
    ensures '@' !in s && !HasSpace(s)
  {
  }

  lemma CheckImpliesRegex(e: string)
    requires IsValidEmail(e)
    ensures MatchesEmailRegex(e)
  {
    var parts := Split(e, '@');
    JoinSplit(e, '@');
    var l, r := parts[0], parts[1];
    assert parts[1..] == [r];
    assert e == l + ['@'] + r;
    var i := |l|;
    var k' :| 0 < k' < |r| - 1 && r[k'] == '.';
    assert e[..i] == l && e[i + 1..] == r;
    assert '@' !in l && '@' !in r;
    assert e[i] == '@' && e[i + 1 + k'] == '.';
  }

  /** A local part and a domain joined by `@` pass the check when both are
      free of white space and `@`, the local part is non-empty and the
      domain has an inner dot. */
  lemma {:induction false} EmailFromParts(l: string, r: string)
    requires l != "" && NoSpaceOrAt(l) && NoSpaceOrAt(r) && HasInnerDot(r)
    ensures IsValidEmail(l + ['@'] + r)
  {
    NoAt(l);
    NoAt(r);
    SplitPrefix(l, r, '@');
    SplitNoSeparator(r, '@');
  }

  /** Printable ASCII other than the blank and `@` is in `[^\s@]`. */
  lemma PrintableNoSpaceOrAt(s: string)
    requires forall j :: 0 <= j < |s| ==> '!' <= s[j] <= '~' && s[j] != '@'
    ensures NoSpaceOrAt(s)
  {
  }

  /** An address the registration tests use is accepted. */
  lemma EmailAccepted()
    ensures IsValidEmail("test@test.com")
  {
    var l, r := "test", "test.com";
    PrintableNoSpaceOrAt(l);
    PrintableNoSpaceOrAt(r);
    assert r[4] == '.';
    EmailFromParts(l, r);
    assert l + ['@'] + r == "test@test.com";
  }

  /** An input without `@` is refused. */
  lemma EmailRefused()
    ensures !IsValidEmail("invalid-email")
  {
    SplitNoSeparator("invalid-email", '@');
  }
}
