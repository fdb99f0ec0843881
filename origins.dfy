/**
 * The two development origin patterns of the request filter (middleware.ts,
 * lines 10-11), written as string predicates instead of regular expressions:
 *
 *   /^https?:\/\/(localhost|127\.0\.0\.1)(:\d+)?$/
 *   /^https?:\/\/.*\.replit\.(dev|app)$/
 *
 * Neither pattern has flags, so matching is case-sensitive, `^` and `$`
 * anchor at the ends of the whole string, `\d` is an ASCII digit and `.`
 * is any character except a line terminator.
 *
 * Each pattern is given twice: as a deterministic matcher that reads the
 * string at fixed offsets (the predicates the filter uses), and as the
 * language the regular expression denotes, where concatenation means "there
 * are split points such that each piece matches its part". The lemmas
 * `LocalMatchIff` and `PreviewMatchIff` show the two agree on every string.
 */
module Origins {
  import opened Wrappers

  predicate HasPrefix(s: string, p: string) {
    |p| <= |s| && s[..|p|] == p
  }

  predicate IsDigit(c: char) {
    '0' <= c <= '9'
  }

  predicate AllDigits(s: string) {
    forall i :: 0 <= i < |s| ==> IsDigit(s[i])
  }

  /** The characters `.` does not match without the `s` flag. */
  predicate IsLineTerminator(c: char) {
    c == '\n' || c == '\r' || c == '\U{2028}' || c == '\U{2029}'
  }

  predicate NoLineTerminator(s: string) {
    forall i :: 0 <= i < |s| ==> !IsLineTerminator(s[i])
  }

  // ---------------------------------------------------------------------
  // The regular expressions' languages, piece by piece.

  /** `^https?:\/\/` */
  predicate SchemePart(s: string) {
    s == "http://" || s == "https://"
  }

  /** `(localhost|127\.0\.0\.1)` */
  predicate LocalHostPart(s: string) {
    s == "localhost" || s == "127.0.0.1"
  }

  /** `(:\d+)?$`: nothing, or a colon and one or more digits. */
  predicate PortPart(s: string) {
    s == [] || (|s| >= 2 && s[0] == ':' && AllDigits(s[1..]))
  }

  /** `.*` */
  predicate AnyPart(s: string) {
    NoLineTerminator(s)
  }

  /** `\.replit\.(dev|app)$` */
  predicate ReplitPart(s: string) {
    s == ".replit.dev" || s == ".replit.app"
  }

  /** The strings the local-development pattern accepts. */
  ghost predicate InLocalLanguage(s: string) {
    exists i, j :: 0 <= i <= j <= |s| &&
      SchemePart(s[..i]) && LocalHostPart(s[i..j]) && PortPart(s[j..])
  }

  /** The strings the preview-domain pattern accepts. */
  ghost predicate InPreviewLanguage(s: string) {
    exists i, j :: 0 <= i <= j <= |s| &&
      SchemePart(s[..i]) && AnyPart(s[i..j]) && ReplitPart(s[j..])
  }

  // ---------------------------------------------------------------------
  // The matchers.

  /** What follows `http://` or `https://`, if the string starts with one. */
  function AfterScheme(s: string): Option<string> {
    if HasPrefix(s, "http://") then Some(s[7..])
    else if HasPrefix(s, "https://") then Some(s[8..])
    else None
  }

  /** Both local host names are nine characters long. */
  predicate MatchesLocal(s: string) {
    match AfterScheme(s)
    case None => false
    case Some(rest) =>
      (HasPrefix(rest, "localhost") || HasPrefix(rest, "127.0.0.1")) && PortPart(rest[9..])
  }

  /** Both suffixes are eleven characters long. */
  predicate MatchesPreview(s: string) {
    match AfterScheme(s)
    case None => false
    case Some(rest) =>
      |rest| >= 11 && ReplitPart(rest[|rest| - 11..]) && NoLineTerminator(rest[..|rest| - 11])
  }

  // ---------------------------------------------------------------------
  // The matchers accept exactly the patterns' languages.

  /** A scheme piece of a split is the start of the string, and the matcher strips exactly it. */
  lemma SchemeSplit(s: string, i: nat)
    requires i <= |s| && SchemePart(s[..i])
    ensures i == 7 || i == 8
    ensures AfterScheme(s) == Some(s[i..])
  {
    if i == 8 {
      assert s[4] == s[..i][4] == 's';
      assert !HasPrefix(s, "http://") by {
        assert "http://"[4] == ':';
      }
      assert s[..8] == s[..i];
    } else {
      assert |s[..i]| == 7;
      assert s[..7] == s[..i];
    }
  }

  /** Whatever the matcher strips is a scheme piece at offset 7 or 8. */
  lemma SchemeStripped(s: string) returns (i: nat)
    requires AfterScheme(s).Some?
    ensures i <= |s| && SchemePart(s[..i]) && AfterScheme(s).value == s[i..]
  {
    i := if HasPrefix(s, "http://") then 7 else 8;
  }

  lemma {:induction false} LocalMatchIff(s: string)
    ensures MatchesLocal(s) <==> InLocalLanguage(s)
  {
    if MatchesLocal(s) {
      var i := SchemeStripped(s);
      var rest := s[i..];
      assert rest[..9] == s[i..i + 9] && rest[9..] == s[i + 9..];
      assert LocalHostPart(s[i..i + 9]) && PortPart(s[i + 9..]);
    }
    if InLocalLanguage(s) {
      var i, j :| 0 <= i <= j <= |s| &&
        SchemePart(s[..i]) && LocalHostPart(s[i..j]) && PortPart(s[j..]);
      SchemeSplit(s, i);
      var rest := s[i..];
      assert j == i + 9;
      assert rest[..9] == s[i..j] && rest[9..] == s[j..];
    }
  }

  lemma {:induction false} PreviewMatchIff(s: string)
    ensures MatchesPreview(s) <==> InPreviewLanguage(s)
  {
    if MatchesPreview(s) {
      var i := SchemeStripped(s);
      var rest := s[i..];
      var j := |s| - 11;
      assert rest[|rest| - 11..] == s[j..] && rest[..|rest| - 11] == s[i..j];
      assert SchemePart(s[..i]) && AnyPart(s[i..j]) && ReplitPart(s[j..]);
    }
    if InPreviewLanguage(s) {
      var i, j :| 0 <= i <= j <= |s| &&
        SchemePart(s[..i]) && AnyPart(s[i..j]) && ReplitPart(s[j..]);
      SchemeSplit(s, i);
      var rest := s[i..];
      assert |s[j..]| == 11;
      assert rest[|rest| - 11..] == s[j..] && rest[..|rest| - 11] == s[i..j];
    }
  }

  // ---------------------------------------------------------------------
  // Consequences of the pattern as written.

  /** The port is any run of digits; its numeric range is never checked. */
  lemma {:induction false} LocalAnyDigits(scheme: string, host: string, digits: string)
    requires SchemePart(scheme) && LocalHostPart(host)
    requires |digits| >= 1 && AllDigits(digits)
    ensures MatchesLocal(scheme + host + ":" + digits)
  {
    var s := scheme + host + ":" + digits;
    var i, j := |scheme|, |scheme| + |host|;
    assert s[..i] == scheme && s[i..j] == host && s[j..] == ":" + digits;
    assert (":" + digits)[1..] == digits;
    LocalMatchIff(s);
  }

  /** A trailing colon without digits, a path, or anything after the host is rejected. */
  lemma LocalRejects()
    ensures !MatchesLocal("http://localhost:")
    ensures !MatchesLocal("http://localhost/")
    ensures !MatchesLocal("http://localhost.evil.com")
    ensures !MatchesLocal("HTTP://localhost")
    ensures !MatchesLocal("ftp://localhost")
    ensures MatchesLocal("http://localhost:3000")
    ensures MatchesLocal("https://127.0.0.1")
  {
    assert "http://localhost:"[7..][9..] == ":";
    assert "http://localhost/"[7..][9..] == "/";
    assert "http://localhost.evil.com"[7..][9..][0] == '.';
    assert !HasPrefix("HTTP://localhost", "https://") by {
      assert "HTTP://localhost"[0] != "https://"[0];
    }
    assert !HasPrefix("HTTP://localhost", "http://") by {
      assert "HTTP://localhost"[0] != "http://"[0];
    }
    assert !HasPrefix("ftp://localhost", "https://") by {
      assert "ftp://localhost"[0] != "https://"[0];
    }
    assert !HasPrefix("ftp://localhost", "http://") by {
      assert "ftp://localhost"[0] != "http://"[0];
    }
    assert "http://localhost:3000"[..7] == "http://";
    assert "http://localhost:3000"[7..][..9] == "localhost";
    assert "http://localhost:3000"[7..][9..] == ":3000";
    assert ":3000"[1..] == "3000";
    assert "https://127.0.0.1"[..7] != "http://" by {
      assert "https://127.0.0.1"[4] == 's';
    }
    assert "https://127.0.0.1"[..8] == "https://";
    assert "https://127.0.0.1"[8..][..9] == "127.0.0.1";
  }

  /** A host that is only the suffix, with no dot before `replit`, is rejected. */
  lemma PreviewRejectsBareDomain()
    ensures !MatchesPreview("https://replit.dev")
  {
  }

  /** Any host name ending in either suffix passes, whatever comes before it. */
  lemma {:induction false} PreviewAnySubdomain(scheme: string, host: string, suffix: string)
    requires SchemePart(scheme) && NoLineTerminator(host) && ReplitPart(suffix)
    ensures MatchesPreview(scheme + host + suffix)
  {
  }

  /** A suffix that is not at the very end does not count. */
  lemma PreviewRejectsInnerSuffix()
    ensures !MatchesPreview("https://preview.replit.dev.evil.com")
  {
  }
}
