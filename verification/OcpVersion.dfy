/** OCP version detection, fallback and naming (ocp_version.go and the pure
    part of resolveOCPVersion). */
module OcpVersion {
  import opened Wrappers

  const OCP_VECTOR_DB_PATH := "/rag/ocp_vector_db/ocp"
  const OCP_INDEX_PREFIX := "ocp-product-docs"
  const VERSION_LATEST := "latest"
  const SUPPORTED_VERSIONS := ["4.16", "4.18", VERSION_LATEST]

  // ------------------------------------------------------------- the scanner

  predicate IsDigit(c: char) {
    '0' <= c <= '9'
  }

  lemma DigitsExactly(c: char)
    ensures IsDigit(c) <==> c in "0123456789"
  {
    if IsDigit(c) { assert "0123456789"[c as int - '0' as int] == c; }
  }

  predicate AllDigits(s: string) {
    forall i :: 0 <= i < |s| ==> IsDigit(s[i])
  }

  /** The end of the run of digits that starts at i. */
  function DigitsEnd(s: string, i: nat): (j: nat)
    requires i <= |s|
    ensures i <= j <= |s| && AllDigits(s[i..j])
    ensures j < |s| ==> !IsDigit(s[j])
    decreases |s| - i
  {
    if i < |s| && IsDigit(s[i]) then DigitsEnd(s, i + 1) else i
  }

  /** Greedy match of `^(\d+\.\d+)`. */
  function ParseMajorMinorVersion(s: string): Result<string> {
    var dot := DigitsEnd(s, 0);
    if dot == 0 || dot == |s| || s[dot] != '.' then Err("invalid version format")
    else
      var end := DigitsEnd(s, dot + 1);
      if end == dot + 1 then Err("invalid version format") else Ok(s[..end])
  }

  /** The regular language digits-dot-digits, split at position k. */
  predicate SplitsAt(w: string, k: nat) {
    && 0 < k && k + 1 < |w|
    && AllDigits(w[..k]) && w[k] == '.' && AllDigits(w[k + 1..])
  }

  ghost predicate MajorMinor(w: string) {
    exists k: nat :: SplitsAt(w, k)
  }

  /** Some prefix of s belongs to the language, n being its length. */
  ghost predicate MatchesPrefix(s: string, n: nat) {
    n <= |s| && MajorMinor(s[..n])
  }

  lemma DotIsFirstNonDigit(s: string, n: nat, k: nat)
    requires n <= |s| && SplitsAt(s[..n], k)
    ensures k == DigitsEnd(s, 0)
  {
    var dot := DigitsEnd(s, 0);
    var w := s[..n];
    forall i | 0 <= i < k ensures IsDigit(s[i]) { assert w[..k][i] == s[i]; }
    forall i | 0 <= i < dot ensures IsDigit(s[i]) { assert s[0..dot][i] == s[i]; }
    assert s[k] == w[k];
  }

  /** Parsing succeeds exactly when some prefix is digits-dot-digits; the
      result is such a prefix and no longer prefix is one. */
  lemma ScannerRefinesLanguage(s: string)
    ensures ParseMajorMinorVersion(s).Ok? <==> exists n: nat :: MatchesPrefix(s, n)
    ensures ParseMajorMinorVersion(s).Ok? ==>
              var r := ParseMajorMinorVersion(s).value;
              && r <= s && MatchesPrefix(s, |r|)
              && forall n: nat :: MatchesPrefix(s, n) ==> n <= |r|
  {
    forall n: nat | MatchesPrefix(s, n)
      ensures ParseMajorMinorVersion(s).Ok? && n <= |ParseMajorMinorVersion(s).value|
    {
      var w := s[..n];
      var k: nat :| SplitsAt(w, k);
      DotIsFirstNonDigit(s, n, k);
      var end := DigitsEnd(s, k + 1);
      assert s[k] == w[k];
      assert IsDigit(w[k + 1..][0]) && w[k + 1..][0] == s[k + 1];
      forall i | k < i < n ensures IsDigit(s[i]) { assert w[k + 1..][i - (k + 1)] == s[i]; }
    }
    if ParseMajorMinorVersion(s).Ok? {
      var r := ParseMajorMinorVersion(s).value;
      var dot := DigitsEnd(s, 0);
      assert r[..dot] == s[0..dot] && r[dot + 1..] == s[dot + 1..|r|];
      assert SplitsAt(r, dot) && s[..|r|] == r;
      assert MatchesPrefix(s, |r|);
    }
  }

  /** Parsing a parsed version changes nothing. */
  lemma ParseIdempotent(s: string)
    requires ParseMajorMinorVersion(s).Ok?
    ensures ParseMajorMinorVersion(ParseMajorMinorVersion(s).value) == ParseMajorMinorVersion(s)
  {
    var r := ParseMajorMinorVersion(s).value;
    ScannerRefinesLanguage(s);
    ScannerRefinesLanguage(r);
    assert r[..|r|] == s[..|r|];
    assert MatchesPrefix(r, |r|);
  }

  // ----------------------------------------------------------- the resolution

  /** DetectOCPVersion from the point where status.desired.version has been
      read; None is any failure to read it. */
  function DetectOCPVersion(fetched: Option<string>): Result<string> {
    match fetched
    case None => Err("version not found")
    case Some(s) => ParseMajorMinorVersion(s)
  }

  predicate IsSupportedOCPVersion(version: string) {
    version in SUPPORTED_VERSIONS
  }

  /** (version, isFallback) or an error. */
  function ResolveOCPVersion(detected: string, override: string, enabled: bool): Result<(string, bool)> {
    if !enabled then Ok(("", false))
    else if override != "" then Ok((override, false))
    else if detected == "" then Err("no OCP version detected")
    else if IsSupportedOCPVersion(detected) then Ok((detected, false))
    else Ok((VERSION_LATEST, true))
  }

  /** Which branch of resolveOCPVersion was taken. */
  datatype Branch = Disabled | DetectionFailed | OverrideInvalid | Fallback | Resolved

  /** The active version and the branch; the OCP RAG condition is True in the
      branches Disabled, Fallback and Resolved. */
  datatype Resolution = Resolution(active: string, branch: Branch) {
    predicate RagTrue() {
      branch.Disabled? || branch.Fallback? || branch.Resolved?
    }
  }

  function Resolve(fetched: Option<string>, override: string, enabled: bool): Resolution {
    if !enabled then Resolution("", Disabled)
    else match DetectOCPVersion(fetched)
      case Err(_) => Resolution("", DetectionFailed)
      case Ok(detected) =>
        match ResolveOCPVersion(detected, override, enabled)
        case Err(_) => Resolution("", OverrideInvalid)
        case Ok((active, fallback)) => Resolution(active, if fallback then Fallback else Resolved)
  }

  /** What the status field's documentation promises for the active version. */
  predicate Documented(version: string) {
    version == "" || IsSupportedOCPVersion(version)
  }

  lemma ParsedIsNotEmpty(s: string)
    ensures ParseMajorMinorVersion(s).Ok? ==>
              ParseMajorMinorVersion(s).value != "" && ParseMajorMinorVersion(s).value != VERSION_LATEST
  {
    if ParseMajorMinorVersion(s).Ok? {
      ScannerRefinesLanguage(s);
      var r := ParseMajorMinorVersion(s).value;
      assert s[..|r|] == r;
      var k: nat :| SplitsAt(r, k);
      assert IsDigit(r[..k][0]);
    }
  }

  /** From the fetched string to the active version: the invalid-override
      branch is unreachable, the condition fails only when detection fails,
      the active version is empty exactly when RAG is disabled or detection
      failed, and it stays within the documented values exactly when no
      arbitrary override is honoured. */
  lemma ResolutionEndToEnd(fetched: Option<string>, override: string, enabled: bool)
    ensures var r := Resolve(fetched, override, enabled);
            && !r.branch.OverrideInvalid?
            && (r.RagTrue() <==> (enabled ==> DetectOCPVersion(fetched).Ok?))
            && (r.active == "" <==> (enabled ==> DetectOCPVersion(fetched).Err?))
            && (r.branch.Fallback? <==>
                  && enabled && override == "" && DetectOCPVersion(fetched).Ok?
                  && DetectOCPVersion(fetched).value !in ["4.16", "4.18"])
            && (Documented(r.active) <==>
                  !enabled || DetectOCPVersion(fetched).Err? || override == "" || IsSupportedOCPVersion(override))
  {
    if fetched.Some? { ParsedIsNotEmpty(fetched.value); }
  }

  /** Length n is the longest digits-dot-digits prefix of s. */
  ghost predicate LongestMatch(s: string, n: nat) {
    MatchesPrefix(s, n) && forall m: nat :: MatchesPrefix(s, m) ==> m <= n
  }

  /** A detected version is the longest such prefix of what was fetched. */
  lemma DetectedExactly(fetched: Option<string>)
    ensures DetectOCPVersion(fetched).Ok? <==> fetched.Some? && exists n: nat :: MatchesPrefix(fetched.value, n)
    ensures DetectOCPVersion(fetched).Ok? ==>
              exists n: nat :: LongestMatch(fetched.value, n) && DetectOCPVersion(fetched).value == fetched.value[..n]
  {
    if fetched.Some? {
      var s := fetched.value;
      ScannerRefinesLanguage(s);
      if ParseMajorMinorVersion(s).Ok? {
        var r := ParseMajorMinorVersion(s).value;
        assert LongestMatch(s, |r|) && s[..|r|] == r;
      }
    }
  }

  /** The version that becomes active, for every fetched string, override and
      switch.  Enabled, and with a longest match: the override if there is one,
      else the matched version if it is 4.16 or 4.18, else "latest"; in all
      other cases none. */
  lemma ResolvedExactly(fetched: Option<string>, override: string, enabled: bool)
    ensures var r := Resolve(fetched, override, enabled);
            && (!enabled ==> r.active == "" && r.RagTrue())
            && (enabled && (fetched.None? || forall n: nat :: !MatchesPrefix(fetched.value, n)) ==>
                  r.active == "" && !r.RagTrue())
            && (enabled && fetched.Some? ==>
                  forall n: nat :: LongestMatch(fetched.value, n) ==>
                    && r.RagTrue()
                    && r.active == (if override != "" then override
                                    else if fetched.value[..n] in ["4.16", "4.18"] then fetched.value[..n]
                                    else "latest"))
  {
    DetectedExactly(fetched);
    if enabled && fetched.Some? {
      var s := fetched.value;
      ScannerRefinesLanguage(s);
      ParsedIsNotEmpty(s);
      forall n: nat | LongestMatch(s, n) ensures ParseMajorMinorVersion(s) == Ok(s[..n]) {
        var r := ParseMajorMinorVersion(s).value;
        assert MatchesPrefix(s, |r|) && |r| == n && s[..|r|] == r;
      }
    }
  }

  // --------------------------------------------------------------- the naming

  /** strings.ReplaceAll(s, ".", "_") for one pair of characters. */
  function ReplaceAll(s: string, from: char, to: char): (r: string)
    ensures |r| == |s|
    ensures forall i :: 0 <= i < |s| ==> r[i] == if s[i] == from then to else s[i]
  {
    if s == "" then "" else [if s[0] == from then to else s[0]] + ReplaceAll(s[1..], from, to)
  }

  function GetOCPIndexName(version: string): string {
    OCP_INDEX_PREFIX + "-" + ReplaceAll(version, '.', '_')
  }

  function GetOCPVectorDBPath(version: string): string {
    OCP_VECTOR_DB_PATH + "_" + version
  }

  /** The names in full: the prefix, and the version with its dots replaced in
      the index name and as it is in the path. */
  lemma NamesExactly(version: string)
    ensures GetOCPVectorDBPath(version) == "/rag/ocp_vector_db/ocp_" + version
    ensures var name := GetOCPIndexName(version);
            && |name| == |"ocp-product-docs-"| + |version| && "ocp-product-docs-" <= name
            && forall k :: 0 <= k < |version| ==>
                 name[|"ocp-product-docs-"| + k] == if version[k] == '.' then '_' else version[k]
  {
    assert GetOCPIndexName(version) == "ocp-product-docs-" + ReplaceAll(version, '.', '_');
  }

  /** Reading a version back from an index name. */
  function VersionOfIndex(name: string): string
    requires |name| > |OCP_INDEX_PREFIX|
  {
    ReplaceAll(name[|OCP_INDEX_PREFIX| + 1..], '_', '.')
  }

  /** The index name loses nothing exactly for versions without underscores. */
  lemma IndexNameRoundTrip(version: string)
    ensures |GetOCPIndexName(version)| > |OCP_INDEX_PREFIX|
    ensures VersionOfIndex(GetOCPIndexName(version)) == version <==> '_' !in version
  {
    var mangled := ReplaceAll(version, '.', '_');
    assert GetOCPIndexName(version)[|OCP_INDEX_PREFIX| + 1..] == mangled;
    var back := ReplaceAll(mangled, '_', '.');
    forall i | 0 <= i < |version| ensures back[i] == version[i] <==> version[i] != '_' {
    }
    if '_' !in version {
      assert forall i :: 0 <= i < |version| ==> version[i] in version;
      assert back == version;
    }
  }

  /** Every version the resolver can produce without an override round-trips. */
  lemma ActiveVersionsRoundTrip(fetched: Option<string>, enabled: bool)
    ensures var active := Resolve(fetched, "", enabled).active;
            && |GetOCPIndexName(active)| > |OCP_INDEX_PREFIX|
            && VersionOfIndex(GetOCPIndexName(active)) == active
  {
    var active := Resolve(fetched, "", enabled).active;
    ResolutionEndToEnd(fetched, "", enabled);
    assert '_' !in active;
    IndexNameRoundTrip(active);
  }

  lemma ParsedHasNoUnderscore(s: string)
    requires ParseMajorMinorVersion(s).Ok?
    ensures '_' !in ParseMajorMinorVersion(s).value
  {
    ScannerRefinesLanguage(s);
    var r := ParseMajorMinorVersion(s).value;
    assert s[..|r|] == r;
    var k: nat :| SplitsAt(r, k);
    forall i | 0 <= i < |r| ensures r[i] != '_' {
      if i < k { assert r[i] == r[..k][i]; }
      if i > k { assert r[i] == r[k + 1..][i - (k + 1)]; }
    }
  }

  predicate ParsedOrLatest(v: string) {
    v == VERSION_LATEST || ParseMajorMinorVersion(v) == Ok(v)
  }

  /** Index names are injective over parsed versions and "latest"; vector DB
      paths are injective over all strings. */
  lemma NamesInjective(a: string, b: string)
    ensures ParsedOrLatest(a) && ParsedOrLatest(b) && GetOCPIndexName(a) == GetOCPIndexName(b) ==> a == b
    ensures GetOCPVectorDBPath(a) == GetOCPVectorDBPath(b) ==> a == b
  {
    if ParsedOrLatest(a) && ParsedOrLatest(b) && GetOCPIndexName(a) == GetOCPIndexName(b) {
      if a != VERSION_LATEST { ParsedHasNoUnderscore(a); }
      if b != VERSION_LATEST { ParsedHasNoUnderscore(b); }
      IndexNameRoundTrip(a);
      IndexNameRoundTrip(b);
    }
    var n := |OCP_VECTOR_DB_PATH| + 1;
    assert GetOCPVectorDBPath(a)[n..] == a && GetOCPVectorDBPath(b)[n..] == b;
  }
}
