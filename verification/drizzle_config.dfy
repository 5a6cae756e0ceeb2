/**
 * `drizzle.config.ts`: the `DATABASE_URL` rewrite that forces
 * `sslmode=require` on Heroku/AWS-hosted Postgres URLs, and the password
 * redaction applied to the URL before it is logged.
 */
module DrizzleConfig {
  import opened Wrappers
  import opened Strings

  /** Host fragments that mark a Heroku/AWS database URL. */
  const HerokuDbPatterns: seq<string> := [".compute.amazonaws.com", "herokudns.com", "postgres.heroku.com"]

  const SslDisable: string := "sslmode=disable"
  const SslRequire: string := "sslmode=require"

  /** `herokuDbPatterns.some(pattern => url.includes(pattern))`. */
  predicate IsLikelyHerokuDb(url: string) {
    exists k | 0 <= k < |HerokuDbPatterns| :: Contains(url, HerokuDbPatterns[k])
  }

  /**
   * The URL handed to the database driver. Other hosts pass through. A
   * Heroku-like URL without a query gets `?sslmode=require`; with a query but
   * no `sslmode=`, `&sslmode=require`; with `sslmode=disable`, its first
   * occurrence becomes `sslmode=require` and nothing else changes; any other
   * `sslmode=` setting is kept.
   */
  function EffectiveUrl(url: string): (r: string)
    ensures !IsLikelyHerokuDb(url) ==> r == url
    ensures IsLikelyHerokuDb(url) && !Contains(url, "?") ==> r == url + "?" + SslRequire
    ensures IsLikelyHerokuDb(url) && Contains(url, "?") && !Contains(url, "sslmode=") ==> r == url + "&" + SslRequire
    ensures IsLikelyHerokuDb(url) && Contains(url, "?") && Contains(url, "sslmode=") && !Contains(url, SslDisable) ==> r == url
    ensures IsLikelyHerokuDb(url) && Contains(url, "?") && Contains(url, SslDisable) ==>
      exists i :: OccursAt(url, SslDisable, i)
        && (forall j :: 0 <= j < i ==> !OccursAt(url, SslDisable, j))
        && |r| == |url|
        && r[..i] == url[..i] && r[i..i + |SslRequire|] == SslRequire && r[i + |SslRequire|..] == url[i + |SslDisable|..]
  {
    if !IsLikelyHerokuDb(url) then url
    else if Contains(url, "?") then
      DisableImpliesSslmode(url);
      if !Contains(url, "sslmode=") then url + "&" + SslRequire
      else if Contains(url, SslDisable) then ReplaceFirst(url, SslDisable, SslRequire)
      else url
    else url + "?" + SslRequire
  }

  lemma DisableImpliesSslmode(url: string)
    ensures Contains(url, SslDisable) ==> Contains(url, "sslmode=")
  {
    if Contains(url, SslDisable) {
      PrefixOfPatternContained(url, SslDisable, 8);
      assert SslDisable[..8] == "sslmode=";
    }
  }

  /** A URL with `sslmode=require` appended carries an `sslmode=` setting. */
  lemma AppendedRequireHasSslmode(prefix: string)
    ensures Contains(prefix + SslRequire, "sslmode=")
  {
    assert (prefix + SslRequire)[|prefix|..|prefix| + 8] == "sslmode=";
    assert OccursAt(prefix + SslRequire, "sslmode=", |prefix|);
  }

  /** Replacing `sslmode=disable` by `sslmode=require` leaves an `sslmode=` setting behind. */
  lemma RewrittenDisableHasSslmode(url: string, r: string)
    requires exists i :: OccursAt(url, SslDisable, i) && |r| == |url| && r[i..i + |SslRequire|] == SslRequire
    ensures Contains(r, "sslmode=")
  {
    var i :| OccursAt(url, SslDisable, i) && |r| == |url| && r[i..i + |SslRequire|] == SslRequire;
    assert r[i..i + 8] == SslRequire[..8];
    assert OccursAt(r, "sslmode=", i);
  }

  /** Every rewritten Heroku-like URL carries an `sslmode=` setting. */
  lemma HerokuUrlGetsSslmode(url: string)
    requires IsLikelyHerokuDb(url)
    ensures Contains(EffectiveUrl(url), "sslmode=")
  {
    var r := EffectiveUrl(url);
    if !Contains(url, "?") {
      AppendedRequireHasSslmode(url + "?");
    } else if !Contains(url, "sslmode=") {
      AppendedRequireHasSslmode(url + "&");
    } else if Contains(url, SslDisable) {
      RewrittenDisableHasSslmode(url, r);
    }
  }

  // ---------------------------------------------------------------------------
  // Password redaction: `url.replace(/:([^:]+)@/, ":[REDACTED]@")`

  /** A match of `:([^:]+)@` spanning `s[i..j]`: a colon, a non-empty colon-free run, an at-sign. */
  predicate PasswordSpan(s: string, i: int, j: int) {
    0 <= i && i + 1 < j < |s| && s[i] == ':' && s[j] == '@' && forall k :: i < k < j ==> s[k] != ':'
  }

  /** The match the regular expression reports: leftmost start, then the greedy (longest) run. */
  ghost predicate IsFirstMatch(s: string, i: int, j: int) {
    && PasswordSpan(s, i, j)
    && (forall i', j' :: i' < i ==> !PasswordSpan(s, i', j'))
    && (forall j' :: j < j' ==> !PasswordSpan(s, i, j'))
  }

  /** The end of the colon-free run that starts at `k`. */
  function RunEnd(s: string, k: nat): (e: nat)
    requires k <= |s|
    ensures k <= e <= |s|
    ensures e == |s| || s[e] == ':'
    ensures forall m :: k <= m < e ==> s[m] != ':'
    decreases |s| - k
  {
    if k == |s| || s[k] == ':' then k else RunEnd(s, k + 1)
  }

  /** The last `@` in `s[lo..hi]`. */
  function LastAt(s: string, lo: nat, hi: nat): (r: Option<nat>)
    requires lo <= hi <= |s|
    ensures r.Some? ==> lo <= r.value < hi && s[r.value] == '@'
    ensures r.Some? ==> forall m :: r.value < m < hi ==> s[m] != '@'
    ensures r.None? ==> forall m :: lo <= m < hi ==> s[m] != '@'
    decreases hi - lo
  {
    if lo == hi then None
    else if s[hi - 1] == '@' then Some(hi - 1)
    else LastAt(s, lo, hi - 1)
  }

  /** The greedy end of a match that starts at `i`, if one does. */
  function MatchEndAt(s: string, i: nat): (r: Option<nat>)
    requires i < |s|
    ensures r.Some? ==> PasswordSpan(s, i, r.value)
    ensures r.Some? ==> forall j :: r.value < j ==> !PasswordSpan(s, i, j)
    ensures r.None? ==> forall j :: !PasswordSpan(s, i, j)
  {
    if s[i] != ':' then None
    else
      var e := RunEnd(s, i + 1);
      if e < i + 2 then None else LastAt(s, i + 2, e)
  }

  /** The leftmost match starting at or after `k`. */
  function FirstMatchFrom(s: string, k: nat): (r: Option<(nat, nat)>)
    requires k <= |s|
    ensures r.Some? ==> k <= r.value.0 && PasswordSpan(s, r.value.0, r.value.1)
    ensures r.Some? ==> forall j :: r.value.1 < j ==> !PasswordSpan(s, r.value.0, j)
    ensures r.Some? ==> forall i, j :: k <= i < r.value.0 ==> !PasswordSpan(s, i, j)
    ensures r.None? ==> forall i, j :: k <= i ==> !PasswordSpan(s, i, j)
    decreases |s| - k
  {
    if k == |s| then None
    else match MatchEndAt(s, k)
      case Some(j) => Some((k, j))
      case None => FirstMatchFrom(s, k + 1)
  }

  /**
   * The URL as logged: the first `:<password>@` becomes `:[REDACTED]@`, the
   * rest of the URL is kept, and a URL without such a span is unchanged.
   */
  function Redact(s: string): (r: string)
    ensures (forall i, j :: !PasswordSpan(s, i, j)) ==> r == s
    ensures (exists i, j :: PasswordSpan(s, i, j)) ==>
      exists i, j :: IsFirstMatch(s, i, j) && r == s[..i] + ":[REDACTED]@" + s[j + 1..]
  {
    match FirstMatchFrom(s, 0)
    case None => s
    case Some((i, j)) =>
      assert IsFirstMatch(s, i, j);
      s[..i] + ":[REDACTED]@" + s[j + 1..]
  }

  /** At most one match is the regular expression's. */
  lemma FirstMatchUnique(s: string, i: int, j: int, i': int, j': int)
    requires IsFirstMatch(s, i, j) && IsFirstMatch(s, i', j')
    ensures i == i' && j == j'
  {
  }

  /** Redaction replaces exactly the regular expression's match. */
  lemma RedactAtFirstMatch(s: string, i: int, j: int)
    requires IsFirstMatch(s, i, j)
    ensures Redact(s) == s[..i] + ":[REDACTED]@" + s[j + 1..]
  {
    var m := FirstMatchFrom(s, 0);
    assert m == Some((i, j));
  }

  /** A typical Postgres URL loses exactly its password in the log line. */
  lemma RedactExample(s: string)
    requires s == "pg://u:pw@h:5/d"
    ensures Redact(s) == "pg://u:[REDACTED]@h:5/d"
  {
    assert s[2] == ':' && s[6] == ':' && s[9] == '@' && s[11] == ':';
    assert forall k :: 0 <= k < 6 && k != 2 ==> s[k] != ':';
    assert forall k :: 3 <= k < 6 ==> s[k] != '@';
    assert forall k :: 6 < k < 11 && k != 9 ==> s[k] != '@' && s[k] != ':';
    assert PasswordSpan(s, 6, 9);
    forall i', j' | i' < 6
      ensures !PasswordSpan(s, i', j')
    {
    }
    forall j' | 9 < j'
      ensures !PasswordSpan(s, 6, j')
    {
    }
    RedactAtFirstMatch(s, 6, 9);
    assert s[..6] == "pg://u" && s[10..] == "h:5/d";
  }

  /** The settings handed to drizzle-kit, and the line logged about them. */
  datatype Settings = Settings(credentialsUrl: string, loggedUrl: string)

  /**
   * An unset or empty `DATABASE_URL` throws; otherwise the driver gets the
   * rewritten URL with its password intact, and only the log line is redacted.
   */
  function DrizzleSettings(databaseUrl: Option<string>): (r: Result<Settings, string>)
    ensures r.Failure? <==> databaseUrl.None? || databaseUrl.value == ""
    ensures r.Success? ==> r.value.credentialsUrl == EffectiveUrl(databaseUrl.value)
    ensures r.Success? ==> r.value.loggedUrl == Redact(r.value.credentialsUrl)
  {
    if databaseUrl.None? || databaseUrl.value == "" then Failure("DATABASE_URL, ensure the database is provisioned")
    else
      var effective := EffectiveUrl(databaseUrl.value);
      Success(Settings(effective, Redact(effective)))
  }
}
