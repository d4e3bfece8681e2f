/** Git remote URLs in their canonical form `host/path`. Host names are lower-cased as ASCII. */
module RemoteUrl {
  import opened Conversation

  /** The characters with the Unicode property White_Space. */
  predicate IsSpace(c: char) {
    var n := c as int;
    || 0x09 <= n <= 0x0D || n == 0x20 || n == 0x85 || n == 0xA0 || n == 0x1680
    || 0x2000 <= n <= 0x200A || n == 0x2028 || n == 0x2029 || n == 0x202F || n == 0x205F || n == 0x3000
  }

  function TrimStart(s: string): string {
    if s != [] && IsSpace(s[0]) then TrimStart(s[1..]) else s
  }

  function TrimEnd(s: string): string {
    if s != [] && IsSpace(s[|s| - 1]) then TrimEnd(s[..|s| - 1]) else s
  }

  function LowerChar(c: char): char {
    if 'A' <= c <= 'Z' then (c as int + 32) as char else c
  }

  function Lower(s: string): (r: string)
    ensures |r| == |s|
  {
    seq(|s|, i requires 0 <= i < |s| => LowerChar(s[i]))
  }

  /** The first position of a character, or the length. */
  function Find(s: string, c: char): (i: nat)
    ensures i <= |s| && c !in s[..i] && (i < |s| ==> s[i] == c)
  {
    if s == [] || s[0] == c then 0 else
      assert s[..1 + Find(s[1..], c)] == [s[0]] + s[1..][..Find(s[1..], c)];
      1 + Find(s[1..], c)
  }

  /** What follows the last occurrence of a character. */
  function AfterLast(s: string, c: char): string {
    if c !in s then s else AfterLast(s[Find(s, c) + 1..], c)
  }

  predicate OccursAt(s: string, t: string, i: nat) {
    i + |t| <= |s| && s[i..i + |t|] == t
  }

  predicate Contains(s: string, t: string) {
    exists i: nat | i <= |s| :: OccursAt(s, t, i)
  }

  function StripGitSuffix(path: string): string {
    if |path| >= 4 && path[|path| - 4..] == ".git" then path[..|path| - 4] else path
  }

  function TryScpStyle(raw: string): Option<string> {
    if ':' !in raw || Contains(raw, "://") then None else
      var colon := Find(raw, ':');
      assert ':' in raw[..colon] + raw[colon..];
      var host, path := AfterLast(raw[..colon], '@'), raw[colon + 1..];
      if host == [] || path == [] then None else Some(Lower(host) + "/" + StripGitSuffix(path))
  }

  function WithoutScheme(raw: string): Option<string> {
    if "https://" <= raw then Some(raw[8..])
    else if "http://" <= raw then Some(raw[7..])
    else if "ssh://" <= raw then Some(raw[6..])
    else if "git://" <= raw then Some(raw[6..])
    else None
  }

  /** User info is what precedes an '@' that comes before the first slash. */
  function WithoutAuth(s: string): string {
    var at, slash := Find(s, '@'), Find(s, '/');
    if at < |s| && (slash == |s| || at < slash) then s[at + 1..] else s
  }

  function TryUrlStyle(raw: string): Option<string> {
    var rest := WithoutScheme(raw);
    if rest.None? then None else
      var s := WithoutAuth(rest.value);
      var slash := Find(s, '/');
      if slash == |s| || slash == 0 || slash + 1 == |s| then None else
        var host := s[..slash];
        Some(Lower(host[..Find(host, ':')]) + "/" + StripGitSuffix(s[slash + 1..]))
  }

  function Normalize(input: string): Option<string> {
    var raw := TrimEnd(TrimStart(input));
    if raw == [] || raw[0] == '/' || raw[0] == '.' then None
    else if TryScpStyle(raw).Some? then TryScpStyle(raw)
    else TryUrlStyle(raw)
  }

  // ----- One repository, many spellings

  predicate IsHost(h: string) {
    h != [] && forall c | c in h :: c != '/' && c != '@' && c != ':' && !IsSpace(c) && c as int < 0x80
  }

  predicate IsPath(p: string) {
    && p != [] && !IsSpace(p[|p| - 1])
    && !Contains(p, "://")
    && !(|p| >= 4 && p[|p| - 4..] == ".git")
  }

  /** The path as it may be written: with or without ".git". */
  predicate Spells(written: string, p: string) {
    written == p || written == p + ".git"
  }

  lemma {:induction false} FindAfter(a: string, c: char, b: string)
    requires c !in a
    ensures Find(a + [c] + b, c) == |a|
  {
    var s, i := a + [c] + b, Find(a + [c] + b, c);
    assert s[|a|] == c;
    assert forall j | 0 <= j < |a| :: s[j] == a[j] && a[j] in a;
  }

  lemma {:induction false} FindAbsent(s: string, c: char)
    requires c !in s
    ensures Find(s, c) == |s|
  {
  }

  lemma TrimIdentity(s: string)
    requires s != [] && !IsSpace(s[0]) && !IsSpace(s[|s| - 1])
    ensures TrimEnd(TrimStart(s)) == s
  {
  }

  lemma SpelledPath(written: string, p: string)
    requires IsPath(p) && Spells(written, p)
    ensures written != [] && StripGitSuffix(written) == p && !IsSpace(written[|written| - 1])
  {
    if written == p + ".git" {
      assert written[|written| - 4..] == ".git" && written[..|written| - 4] == p;
    }
  }

  /** The URL part behind the scheme, with the host given directly. */
  lemma HostAndPath(h: string, suffix: string, written: string)
    requires IsHost(h) && written != []
    requires suffix == "" || (suffix[0] == ':' && '/' !in suffix)
    ensures var s := h + suffix + "/" + written;
            && Find(s, '/') == |h + suffix|
            && s[..|h + suffix|] == h + suffix && s[|h + suffix| + 1..] == written
            && h + suffix != []
            && (h + suffix)[..Find(h + suffix, ':')] == h
  {
    FindAfter(h + suffix, '/', written);
    if suffix == "" {
      assert h + suffix == h;
      FindAbsent(h, ':');
    } else {
      assert h + suffix == h + [':'] + suffix[1..];
      FindAfter(h, ':', suffix[1..]);
    }
  }

  lemma NoAuthKept(h: string, suffix: string, written: string)
    requires IsHost(h) && written != []
    requires suffix == "" || (suffix[0] == ':' && '/' !in suffix)
    requires '@' !in suffix
    ensures WithoutAuth(h + suffix + "/" + written) == h + suffix + "/" + written
  {
    var s := h + suffix + "/" + written;
    HostAndPath(h, suffix, written);
    var at := Find(s, '@');
    if at < |h + suffix| {
      assert s[at] == (h + suffix)[at] && (h + suffix)[at] in h + suffix;
    } else {
      assert s[|h + suffix|] == '/';
    }
  }

  lemma AuthDropped(user: string, h: string, suffix: string, written: string)
    requires IsHost(h) && written != [] && '@' !in user && '/' !in user
    requires suffix == "" || (suffix[0] == ':' && '/' !in suffix)
    ensures WithoutAuth(user + "@" + h + suffix + "/" + written) == h + suffix + "/" + written
  {
    var t := h + suffix + "/" + written;
    var s := user + "@" + h + suffix + "/" + written;
    assert s == user + ['@'] + t;
    FindAfter(user, '@', t);
    var before := user + "@" + h + suffix;
    assert s == before + ['/'] + written;
    FindAfter(before, '/', written);
    assert s[|user| + 1..] == t;
  }

  lemma SchemeStripped(scheme: string, t: string)
    requires scheme in ["https://", "http://", "ssh://", "git://"]
    ensures WithoutScheme(scheme + t) == Some(t)
  {
    var raw := scheme + t;
    assert raw[|scheme|..] == t && scheme <= raw;
    assert raw[0] == scheme[0] && raw[4] == scheme[4];
    assert "https://"[4] == 's' && "http://"[4] == ':' && "ssh://"[0] == 's' && "git://"[0] == 'g';
  }

  lemma {:induction false} SchemeGoesToUrl(raw: string)
    requires raw != [] && !IsSpace(raw[0]) && !IsSpace(raw[|raw| - 1]) && raw[0] != '/' && raw[0] != '.'
    requires Contains(raw, "://")
    ensures Normalize(raw) == TryUrlStyle(raw)
  {
    TrimIdentity(raw);
  }

  lemma {:induction false} UrlGoesToUrl(scheme: string, t: string)
    requires scheme in ["https://", "http://", "ssh://", "git://"]
    requires t != [] && !IsSpace(t[|t| - 1])
    ensures Normalize(scheme + t) == TryUrlStyle(scheme + t)
  {
    var raw, k := scheme + t, |scheme| - 3;
    assert scheme[k..] == "://";
    assert raw[k..k + 3] == scheme[k..];
    assert OccursAt(raw, "://", k);
    assert raw[0] == scheme[0] && raw[|raw| - 1] == t[|t| - 1];
    SchemeGoesToUrl(raw);
  }

  /** A URL without its scheme. */
  function UrlBody(user: string, h: string, suffix: string, written: string): (r: string)
    ensures r != [] && (written != [] ==> r[|r| - 1] == written[|written| - 1])
  {
    user + h + suffix + "/" + written
  }

  /** No user info, or any that has no '@' of its own and no slash. */
  predicate IsUrlUser(user: string) {
    user != "" ==> user[|user| - 1] == '@' && '@' !in user[..|user| - 1] && '/' !in user
  }

  lemma {:induction false} UserDropped(user: string, h: string, suffix: string, written: string)
    requires IsUrlUser(user)
    requires IsHost(h) && written != []
    requires suffix == "" || (suffix[0] == ':' && '/' !in suffix && '@' !in suffix)
    ensures WithoutAuth(UrlBody(user, h, suffix, written)) == h + suffix + "/" + written
  {
    if user == "" {
      assert user + h + suffix + "/" + written == h + suffix + "/" + written;
      NoAuthKept(h, suffix, written);
    } else {
      var name := user[..|user| - 1];
      assert user == name + "@" && forall c | c in name :: c in user;
      AuthDropped(name, h, suffix, written);
    }
  }

  lemma {:induction false} UrlStyleResult(scheme: string, t: string, h: string, suffix: string, written: string)
    requires scheme in ["https://", "http://", "ssh://", "git://"]
    requires IsHost(h) && written != []
    requires suffix == "" || (suffix[0] == ':' && '/' !in suffix)
    requires WithoutAuth(t) == h + suffix + "/" + written
    ensures TryUrlStyle(scheme + t) == Some(Lower(h) + "/" + StripGitSuffix(written))
  {
    SchemeStripped(scheme, t);
    HostAndPath(h, suffix, written);
  }

  /**
   Main result: every URL spelling of a host and a path, with any of the four schemes,
   with or without a user, a port and ".git", normalises to the same form.
   */
  lemma {:induction false} UrlFormNormalizes(scheme: string, user: string, h: string, suffix: string,
                                             written: string, p: string)
    requires scheme in ["https://", "http://", "ssh://", "git://"]
    requires IsUrlUser(user) && IsHost(h) && IsPath(p) && Spells(written, p)
    requires suffix == "" || (suffix[0] == ':' && '/' !in suffix && '@' !in suffix)
    ensures Normalize(scheme + UrlBody(user, h, suffix, written)) == Some(Lower(h) + "/" + p)
  {
    SpelledPath(written, p);
    UserDropped(user, h, suffix, written);
    UrlStyleResult(scheme, UrlBody(user, h, suffix, written), h, suffix, written);
    UrlGoesToUrl(scheme, UrlBody(user, h, suffix, written));
  }

  lemma {:induction false} AfterLastAt(user: string, h: string)
    requires (user != "" ==> user[|user| - 1] == '@') && '@' !in h
    ensures AfterLast(user + h, '@') == h
    decreases |user|
  {
    if user == "" {
      assert user + h == h;
    } else {
      var k, rest := Find(user, '@'), user[Find(user, '@') + 1..];
      assert user[|user| - 1] in user;
      assert user + h == user[..k] + ['@'] + (rest + h);
      FindAfter(user[..k], '@', rest + h);
      assert (user + h)[k] == '@' && (user + h)[k + 1..] == rest + h;
      AfterLastAt(rest, h);
    }
  }

  /** After the first colon, "://" is there at once or further on. */
  lemma {:induction false} SchemeAfterColon(before: string, rest: string)
    requires ':' !in before
    ensures Contains(before + ":" + rest, "://") ==> "//" <= rest || Contains(rest, "://")
    ensures "//" <= rest ==> Contains(before + ":" + rest, "://")
  {
    var raw, n := before + ":" + rest, |before| + 1;
    if "//" <= rest {
      assert OccursAt(raw, "://", n - 1);
    } else if Contains(raw, "://") {
      var i: nat :| i <= |raw| && OccursAt(raw, "://", i);
      assert raw[i] == "://"[0] && raw[i + 1] == "://"[1] && raw[i + 2] == "://"[2];
      assert raw[n..] == rest && i != n - 1;
      assert OccursAt(rest, "://", i - n);
    }
  }

  lemma {:induction false} SpellingKeepsScheme(written: string, p: string)
    requires Spells(written, p) && p != []
    ensures Contains(written, "://") ==> Contains(p, "://")
    ensures "//" <= written <==> "//" <= p
  {
    assert written == p + ".git" ==> written[|p|] == '.';
    assert "//" <= written ==> written[0] == '/' && written[1] == '/';
    if written == p + ".git" && Contains(written, "://") {
      var i: nat :| i <= |written| && OccursAt(written, "://", i);
      assert written[i] == "://"[0] && written[i + 1] == "://"[1] && written[i + 2] == "://"[2];
      assert i + 2 < |p|;
      assert OccursAt(p, "://", i);
    }
  }

  /** Only a scheme name before the colon makes the spelling a URL; what follows the slashes is then read. */
  lemma {:induction false} SchemeBeforeColon(before: string, rest: string)
    requires ':' !in before && WithoutScheme(before + ":" + rest).Some?
    ensures before in ["https", "http", "ssh", "git"]
    ensures |WithoutScheme(before + ":" + rest).value| + 2 == |rest|
  {
    var raw, n := before + ":" + rest, |before|;
    var k := if "https://" <= raw then 5 else if "http://" <= raw then 4 else 3;
    assert raw[n] == ':' && forall i | 0 <= i < n :: raw[i] == before[i] && before[i] in before;
    assert "https://"[5] == ':' && "http://"[4] == ':' && "ssh://"[3] == ':' && "git://"[3] == ':';
    assert raw[k] == ':' && forall i | 0 <= i < k :: raw[i] != ':';
    assert n == k && before == raw[..k];
    assert "https://"[..5] == "https" && "http://"[..4] == "http" && "ssh://"[..3] == "ssh" && "git://"[..3] == "git";
    var short := if "ssh://" <= raw then "ssh://" else "git://";
    var scheme := if k == 5 then "https://" else if k == 4 then "http://" else short;
    assert raw[..k] == scheme[..k];
  }

  lemma {:induction false} UrlStyleShortens(raw: string)
    ensures TryUrlStyle(raw).Some? ==>
              WithoutScheme(raw).Some? && |TryUrlStyle(raw).value| <= |WithoutScheme(raw).value|
  {
  }

  /** No user info, or anything up to an '@' that comes before the first colon. */
  predicate IsScpUser(user: string) {
    user != "" ==> user[|user| - 1] == '@' && ':' !in user && !IsSpace(user[0])
  }

  /** The path starts with two slashes, or the whole is taken for a local path. */
  predicate Misread(user: string, h: string, p: string)
    requires IsHost(h)
  {
    "//" <= p || (user + h)[0] == '/' || (user + h)[0] == '.'
  }

  /**
   Main result: an SCP spelling agrees with the URL spellings exactly if the path does not
   start with two slashes and the whole does not start like a local path. Otherwise it is
   refused, unless it has no user and the host is named like a scheme.
   */
  lemma {:induction false} ScpFormNormalizesIff(user: string, h: string, written: string, p: string)
    requires IsScpUser(user) && IsHost(h) && IsPath(p) && Spells(written, p)
    ensures var raw := user + h + ":" + written;
            && (Normalize(raw) == Some(Lower(h) + "/" + p) <==> !Misread(user, h, p))
            && (Misread(user, h, p) && !(user == "" && h in ["https", "http", "ssh", "git"]) ==> Normalize(raw) == None)
  {
    var before := user + h;
    var raw := before + ":" + written;
    SpelledPath(written, p);
    assert h[0] in h && ':' !in before;
    assert raw[0] == before[0] && raw[|raw| - 1] == written[|written| - 1];
    assert !IsSpace(before[0]);
    TrimIdentity(raw);
    SchemeAfterColon(before, written);
    SpellingKeepsScheme(written, p);
    if before[0] != '/' && before[0] != '.' {
      if "//" <= p {
        SchemeGoesToUrl(raw);
        ScpFormIsNoUrl(user, h, written, p);
      } else {
        ScpStyleResult(user, h, written);
      }
    }
  }

  lemma {:induction false} UrlReadingIsShorter(before: string, written: string)
    requires ':' !in before && TryUrlStyle(before + ":" + written).Some?
    ensures before in ["https", "http", "ssh", "git"] && '@' !in before && |before| >= 3
    ensures |TryUrlStyle(before + ":" + written).value| + 2 <= |written|
  {
    SchemeBeforeColon(before, written);
    SchemeNameIsPlain(before);
    UrlStyleShortens(before + ":" + written);
  }

  lemma SchemeNameIsPlain(name: string)
    requires name in ["https", "http", "ssh", "git"]
    ensures '@' !in name && |name| >= 3
  {
  }

  lemma {:induction false} ScpFormIsNoUrl(user: string, h: string, written: string, p: string)
    requires IsScpUser(user) && IsHost(h) && Spells(written, p)
    ensures var found := TryUrlStyle(user + h + ":" + written);
            found.Some? ==> user == "" && h in ["https", "http", "ssh", "git"] && |found.value| < |Lower(h) + "/" + p|
  {
    var before := user + h;
    assert user != "" ==> before[|user| - 1] == '@' && '@' in before;
    assert user == "" ==> before == h;
    assert ':' !in before && |Lower(h) + "/" + p| == |h| + 1 + |p| && |written| <= |p| + 4;
    var found := TryUrlStyle(before + ":" + written);
    if found.Some? {
      UrlReadingIsShorter(before, written);
    }
  }

  lemma {:induction false} ScpStyleResult(user: string, h: string, written: string)
    requires IsScpUser(user) && IsHost(h) && written != [] && !Contains(user + h + ":" + written, "://")
    ensures TryScpStyle(user + h + ":" + written) == Some(Lower(h) + "/" + StripGitSuffix(written))
  {
    var before := user + h;
    var raw := before + ":" + written;
    assert raw == before + [':'] + written && ':' !in before;
    FindAfter(before, ':', written);
    assert raw[|before|] == ':';
    assert raw[..|before|] == before && raw[|before| + 1..] == written;
    AfterLastAt(user, h);
  }

  lemma {:induction false} LowerIsHost(h: string)
    requires IsHost(h)
    ensures IsHost(Lower(h)) && Lower(Lower(h)) == Lower(h)
  {
    forall c | c in Lower(h) ensures c != '/' && c != '@' && c != ':' && !IsSpace(c) && c as int < 0x80 {
      var i :| 0 <= i < |h| && Lower(h)[i] == c;
      assert h[i] in h;
    }
  }

  // ----- The host's letters

  predicate IsCapital(c: char) {
    'A' <= c <= 'Z'
  }

  /** The same character but for the case of an ASCII letter. */
  predicate SameLetter(a: char, b: char) {
    a == b || (IsCapital(a) && b as int == a as int + 32) || (IsCapital(b) && a as int == b as int + 32)
  }

  predicate SameLetters(a: string, b: string) {
    |a| == |b| && forall i | 0 <= i < |a| :: SameLetter(a[i], b[i])
  }

  lemma {:induction false} LowerIgnoresCase(a: string, b: string)
    requires SameLetters(a, b)
    ensures Lower(a) == Lower(b)
  {
    forall i | 0 <= i < |a| ensures Lower(a)[i] == Lower(b)[i] {
      assert SameLetter(a[i], b[i]);
    }
  }

  lemma {:induction false} LowerKeepsLetters(h: string)
    ensures SameLetters(h, Lower(h)) && forall c | c in Lower(h) :: !IsCapital(c)
  {
  }

  /** Hosts that differ in case only name the same repository. */
  lemma {:induction false} HostCaseIsIgnored(scheme: string, user: string, g: string, h: string, suffix: string,
                                             written: string, p: string)
    requires scheme in ["https://", "http://", "ssh://", "git://"]
    requires IsUrlUser(user) && IsHost(g) && IsHost(h) && SameLetters(g, h) && IsPath(p) && Spells(written, p)
    requires suffix == "" || (suffix[0] == ':' && '/' !in suffix && '@' !in suffix)
    ensures Normalize(scheme + UrlBody(user, g, suffix, written))
         == Normalize(scheme + UrlBody(user, h, suffix, written))
  {
    UrlFormNormalizes(scheme, user, g, suffix, written, p);
    UrlFormNormalizes(scheme, user, h, suffix, written, p);
    LowerIgnoresCase(g, h);
  }

  /** Whatever is normalised, the host in the result has no capital. */
  lemma {:induction false} NormalHostHasNoCapital(input: string, i: nat)
    ensures var r := Normalize(input); r.Some? && i < Find(r.value, '/') ==> !IsCapital(r.value[i])
  {
    if Normalize(input).Some? {
      var host, path := HostOfResult(input);
      NoCapitalBeforeSlash(host, path, i);
    }
  }

  lemma {:induction false} NoCapitalBeforeSlash(host: string, path: string, i: nat)
    ensures var r := Lower(host) + "/" + path; i < Find(r, '/') ==> !IsCapital(r[i])
  {
    var r := Lower(host) + "/" + path;
    LowerKeepsLetters(host);
    assert r[|host|] == '/';
    assert Find(r, '/') <= |host| by {
      assert forall k | 0 <= k < Find(r, '/') :: r[..Find(r, '/')][k] == r[k];
    }
    assert i < Find(r, '/') ==> r[i] == Lower(host)[i] && Lower(host)[i] in Lower(host);
  }

  lemma {:induction false} HostOfResult(input: string) returns (host: string, path: string)
    ensures Normalize(input).Some? ==> Normalize(input).value == Lower(host) + "/" + path
  {
    host, path := "", "";
    if Normalize(input).Some? {
      var raw := TrimEnd(TrimStart(input));
      if TryScpStyle(raw).Some? {
        var colon := Find(raw, ':');
        host, path := AfterLast(raw[..colon], '@'), StripGitSuffix(raw[colon + 1..]);
      } else {
        var s := WithoutAuth(WithoutScheme(raw).value);
        var name := s[..Find(s, '/')];
        host, path := name[..Find(name, ':')], StripGitSuffix(s[Find(s, '/') + 1..]);
      }
    }
  }

  // ----- Blanks and local paths

  predicate AllSpace(s: string) {
    forall c | c in s :: IsSpace(c)
  }

  /** The blanks of ASCII. */
  lemma AsciiBlanks(c: char)
    requires c as int < 0x80
    ensures IsSpace(c) <==> c == ' ' || c == '\t' || c == '\n' || c == '\r' || c as int == 0x0B || c as int == 0x0C
  {
  }

  /** Blanks around a remote make no difference. */
  lemma {:induction false} BlanksAreIgnored(before: string, raw: string, after: string)
    requires AllSpace(before) && AllSpace(after)
    requires raw != [] && !IsSpace(raw[0]) && !IsSpace(raw[|raw| - 1])
    ensures Normalize(before + raw + after) == Normalize(raw)
  {
    TrimStartSkips(before, raw + after);
    assert before + raw + after == before + (raw + after);
    TrimEndSkips(raw, after);
    TrimIdentity(raw);
  }

  lemma {:induction false} TrimStartSkips(before: string, rest: string)
    requires AllSpace(before) && rest != [] && !IsSpace(rest[0])
    ensures TrimStart(before + rest) == rest
  {
    if before == [] {
      assert before + rest == rest;
    } else {
      assert before[0] in before && forall c | c in before[1..] :: c in before;
      assert (before + rest)[1..] == before[1..] + rest;
      TrimStartSkips(before[1..], rest);
    }
  }

  lemma {:induction false} TrimEndSkips(raw: string, after: string)
    requires AllSpace(after) && raw != [] && !IsSpace(raw[|raw| - 1])
    ensures TrimEnd(raw + after) == raw
  {
    if after == [] {
      assert raw + after == raw;
    } else {
      var n := |after| - 1;
      assert after[n] in after && forall c | c in after[..n] :: c in after;
      assert (raw + after)[..|raw + after| - 1] == raw + after[..n];
      TrimEndSkips(raw, after[..n]);
    }
  }

  /** Blank text and anything that looks like a local path is no remote. */
  lemma {:induction false} LocalPathsAreRefused(raw: string)
    requires AllSpace(raw) || (!IsSpace(raw[|raw| - 1]) && (raw[0] == '/' || raw[0] == '.'))
    ensures Normalize(raw) == None
  {
    if AllSpace(raw) {
      TrimAll(raw);
    } else {
      TrimIdentity(raw);
    }
  }

  /** Other schemes are refused. */
  lemma {:induction false} OtherSchemesAreRefused(name: string, rest: string)
    requires name != [] && ':' !in name && !IsSpace(name[0]) && name !in ["https", "http", "ssh", "git"]
    requires rest != [] && !IsSpace(rest[|rest| - 1])
    ensures Normalize(name + "://" + rest) == None
  {
    var raw, written := name + "://" + rest, "//" + rest;
    assert raw == name + ":" + written;
    assert raw[0] == name[0] && raw[|raw| - 1] == rest[|rest| - 1];
    TrimIdentity(raw);
    SchemeAfterColon(name, written);
    if TryUrlStyle(raw).Some? {
      UrlReadingIsShorter(name, written);
      assert false;
    }
  }

  /** A URL needs a host and a path. */
  lemma {:induction false} UrlNeedsHostAndPath(scheme: string, t: string)
    requires scheme in ["https://", "http://", "ssh://", "git://"]
    requires t != [] && !IsSpace(t[|t| - 1]) && '@' !in t
    requires '/' !in t || t[0] == '/' || ('/' !in t[..|t| - 1] && t[|t| - 1] == '/')
    ensures Normalize(scheme + t) == None
  {
    UrlGoesToUrl(scheme, t);
    SchemeStripped(scheme, t);
    FindAbsent(t, '@');
    var slash := Find(t, '/');
    if '/' !in t {
      FindAbsent(t, '/');
    } else if t[0] != '/' {
      assert t == t[..|t| - 1] + ['/'] + [];
      FindAfter(t[..|t| - 1], '/', []);
    }
  }

  lemma {:induction false} TrimAll(s: string)
    requires AllSpace(s)
    ensures TrimStart(s) == []
  {
    if s != [] {
      assert s[0] in s && forall c | c in s[1..] :: c in s;
      TrimAll(s[1..]);
    }
  }

  // ----- The canonical form

  /** Normalising "https://" and the canonical form gives the canonical form. */
  lemma {:induction false} CanonicalFormIsFixed(h: string, p: string)
    requires IsHost(h) && IsPath(p)
    ensures Normalize("https://" + (Lower(h) + "/" + p)) == Some(Lower(h) + "/" + p)
  {
    LowerIsHost(h);
    UrlFormNormalizes("https://", "", Lower(h), "", p, p);
    PlainUrlBody(Lower(h), p);
  }

  lemma {:induction false} PlainUrlBody(h: string, written: string)
    ensures UrlBody("", h, "", written) == h + "/" + written
  {
    assert "" + h == h && h + "" == h;
  }
}
