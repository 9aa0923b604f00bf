/**
 The surgery on database URLs: how they are built (cmd/frkrup/frkrup_config.go),
 masked and redirected (cmd/frkrup/database.go, cmd/frkrup/infrastructure.go),
 and how their scheme is switched there and back (cmd/frkrcfg/main.go).
 */
module DatabaseUrls {
  import opened Wrappers
  import opened GoStrings

  // ------------------------------------------------------------------- building

  /** user[:password]@host:port, the authority of section 3.2 of RFC 3986. */
  function Authority(user: string, password: string, host: string, port: string): string {
    if user != "" then
      if password != "" then user + ":" + password + "@" + host + ":" + port
      else user + "@" + host + ":" + port
    else host + ":" + port
  }

  function Url(authority: string, name: string): string {
    "postgres://" + authority + "/" + name + "?sslmode=disable"
  }

  function BuildDBURL(user: string, password: string, host: string, port: string, name: string): string {
    Url(Authority(user, password, host, port), name)
  }

  lemma Flatten(p: string, a: string, b: string, c: string, tail: string)
    ensures p + (a + b + c) + tail == p + a + b + c + tail
  {
  }

  lemma FlattenLong(p: string, a: string, b: string, c: string, d: string, e: string, tail: string)
    ensures p + (a + b + c + d + e) + tail == p + a + b + c + d + e + tail
  {
    Flatten(p, a + b + c, d, e, tail);
    assert p + (a + b + c) == p + a + b + c;
  }

  lemma FlattenLonger(p: string, a: string, b: string, c: string, d: string, e: string, f: string, g: string, tail: string)
    ensures p + (a + b + c + d + e + f + g) + tail == p + a + b + c + d + e + f + g + tail
  {
    FlattenLong(p, a + b + c, d, e, f, g, tail);
    assert p + (a + b + c) == p + a + b + c;
  }

  /** The three forms of a built URL. */
  lemma UrlForms(user: string, password: string, host: string, port: string, name: string)
    ensures BuildDBURL(user, password, host, port, name) ==
      if user == "" then "postgres://" + host + ":" + port + "/" + name + "?sslmode=disable"
      else if password == "" then "postgres://" + user + "@" + host + ":" + port + "/" + name + "?sslmode=disable"
      else "postgres://" + user + ":" + password + "@" + host + ":" + port + "/" + name + "?sslmode=disable"
  {
    if user == "" {
      Flatten("postgres://", host, ":", port, "/");
    } else if password == "" {
      FlattenLong("postgres://", user, "@", host, ":", port, "/");
    } else {
      FlattenLonger("postgres://", user, ":", password, "@", host, ":", port, "/");
    }
  }

  // -------------------------------------------------------------------- masking

  function MaskPassword(dbURL: string): string {
    var parts := Split(dbURL, '@');
    if |parts| == 2 then
      var userPass := Split(parts[0], ':');
      if |userPass| >= 3 then userPass[0] + ":" + userPass[1] + ":***@" + parts[1] else dbURL
    else dbURL
  }

  /** With one '@' the mask keeps the two pieces before the second colon and replaces the rest of the user information. */
  lemma MaskPieces(p: string, q: string, password: string, rest: string)
    requires '@' !in p && ':' !in p && '@' !in q && ':' !in q && '@' !in password && '@' !in rest
    ensures MaskPassword(p + [':'] + (q + [':'] + password) + ['@'] + rest) == p + ":" + q + ":***@" + rest
  {
    var left := p + [':'] + (q + [':'] + password);
    SplitCons(left, rest, '@');
    SplitNone(rest, '@');
    assert Split(left + ['@'] + rest, '@') == [left, rest];
    SplitCons(p, q + [':'] + password, ':');
    SplitCons(q, password, ':');
    assert Split(left, ':') == [p] + ([q] + Split(password, ':'));
  }

  lemma MaskedForm(a: string, b: string, rest: string)
    ensures a + ":" + b + ":***@" + rest == a + [':'] + (b + [':'] + "***") + ['@'] + rest
  {
    assert ":***@" == [':'] + "***" + ['@'];
  }

  /** Masking twice is masking once, on every string. */
  lemma MaskIsIdempotent(url: string)
    ensures MaskPassword(MaskPassword(url)) == MaskPassword(url)
  {
    var parts := Split(url, '@');
    SplitSpec(url, '@');
    if |parts| == 2 {
      var up := Split(parts[0], ':');
      SplitSpec(parts[0], ':');
      if |up| >= 3 {
        PartOf(parts[0], ':', 0, '@');
        PartOf(parts[0], ':', 1, '@');
        MaskPieces(up[0], up[1], "***", parts[1]);
        MaskedForm(up[0], up[1], parts[1]);
      }
    }
  }

  lemma TwoAtSigns(a: string, b: string)
    requires '@' in a || '@' in b
    ensures MaskPassword(a + ['@'] + b) == a + ['@'] + b
  {
    var url := a + ['@'] + b;
    CountConcat(a + ['@'], b, '@');
    CountConcat(a, ['@'], '@');
    CountIsZero(a, '@');
    CountIsZero(b, '@');
    SplitSpec(url, '@');
  }

  /** Scheme and user, and everything after the user information. */
  function Head(user: string): string { "postgres://" + user }
  function Tail(host: string, port: string, name: string): string { host + ":" + port + "/" + name + "?sslmode=disable" }

  lemma BuildWithPassword(user: string, password: string, host: string, port: string, name: string)
    requires user != "" && password != ""
    ensures BuildDBURL(user, password, host, port, name) == Head(user) + [':'] + password + ['@'] + Tail(host, port, name)
  {
  }

  lemma HeadPieces(user: string)
    ensures Head(user) == "postgres" + [':'] + ("//" + user)
    ensures '@' in Head(user) <==> '@' in user
    ensures '@' !in "postgres" && ':' !in "postgres"
    ensures ':' in "//" + user <==> ':' in user
    ensures '@' in "//" + user <==> '@' in user
  {
    assert "postgres://" == "postgres" + [':'] + "//";
  }

  lemma TailFree(host: string, port: string, name: string)
    ensures '@' !in Tail(host, port, name) <==> '@' !in host && '@' !in port && '@' !in name
  {
    assert '@' !in "?sslmode=disable";
    assert '@' !in Tail(host, port, name) <==> '@' !in host + ":" + port + "/" + name;
  }

  lemma HeadMasked(user: string, password: string, rest: string)
    requires Head(user) == "postgres" + [':'] + ("//" + user)
    ensures Head(user) + [':'] + password + ['@'] + rest
         == "postgres" + [':'] + (("//" + user) + [':'] + password) + ['@'] + rest
    ensures "postgres" + ":" + ("//" + user) + ":***@" + rest == Head(user) + [':'] + "***" + ['@'] + rest
  {
    assert Head(user) + [':'] + password == "postgres" + [':'] + (("//" + user) + [':'] + password);
    assert ":***@" == [':'] + "***" + ['@'];
  }

  /** With one '@' and no ':' in the user the password becomes ***. */
  lemma MaskBuilt(user: string, password: string, rest: string)
    requires '@' !in user && ':' !in user && '@' !in password && '@' !in rest
    ensures MaskPassword(Head(user) + [':'] + password + ['@'] + rest) == Head(user) + [':'] + "***" + ['@'] + rest
  {
    HeadPieces(user);
    MaskPieces("postgres", "//" + user, password, rest);
    HeadMasked(user, password, rest);
  }

  /** No field of the URL contains an '@'. */
  predicate NoAtSign(user: string, password: string, host: string, port: string, name: string) {
    '@' !in user && '@' !in password && '@' !in host && '@' !in port && '@' !in name
  }

  /** The guard that makes masking fail: an '@' in any field leaves the whole URL, password included, as it is. */
  lemma AtSignDisablesMasking(user: string, password: string, host: string, port: string, name: string)
    requires user != "" && password != "" && !NoAtSign(user, password, host, port, name)
    ensures MaskPassword(BuildDBURL(user, password, host, port, name)) == BuildDBURL(user, password, host, port, name)
  {
    BuildWithPassword(user, password, host, port, name);
    TailFree(host, port, name);
    HeadPieces(user);
    var a := Head(user) + [':'] + password;
    assert '@' in a <==> '@' in Head(user) || '@' in password;
    TwoAtSigns(a, Tail(host, port, name));
  }

  lemma SplitAtFirst(s: string, c: char) returns (a: string, b: string)
    requires c in s
    ensures s == a + [c] + b && c !in a
    decreases |s|
  {
    if s[0] == c {
      a, b := [], s[1..];
    } else {
      a, b := SplitAtFirst(s[1..], c);
      a := [s[0]] + a;
      assert s == [s[0]] + s[1..];
    }
  }

  /** A colon in the user makes the mask swallow part of the user. */
  lemma ColonInUserCutsUser(user: string, password: string, rest: string)
    requires '@' !in user && ':' in user && '@' !in password && '@' !in rest
    ensures MaskPassword(Head(user) + [':'] + password + ['@'] + rest) != Head(user) + [':'] + "***" + ['@'] + rest
  {
    var u0, u1 := SplitAtFirst(user, ':');
    assert forall c :: c in u0 || c in u1 ==> c in user;
    assert Head(user) == Head(u0) + [':'] + u1;
    assert Head(user) + [':'] + password == Head(u0) + [':'] + (u1 + [':'] + password);
    MaskBuilt(u0, u1 + [':'] + password, rest);
    assert |Head(u0) + [':'] + "***" + ['@'] + rest| < |Head(user) + [':'] + "***" + ['@'] + rest|;
  }

  lemma SameUrlSamePassword(head: string, password: string, rest: string)
    ensures head + [':'] + password + ['@'] + rest == head + [':'] + "***" + ['@'] + rest <==> password == "***"
  {
    var pre := head + [':'];
    var x, y := pre + password + ['@'] + rest, pre + "***" + ['@'] + rest;
    if x == y {
      assert |password| == 3;
      assert x[|pre|..|pre| + 3] == password && y[|pre|..|pre| + 3] == "***";
    }
  }

  /**
   Masking a built URL puts *** in the place of the password, whatever the
   password is, exactly when no field holds an '@' and the user holds no ':'
   (or there was nothing to hide).
   */
  lemma MaskHidesPassword(user: string, password: string, host: string, port: string, name: string)
    requires user != "" && password != ""
    ensures MaskPassword(BuildDBURL(user, password, host, port, name)) == BuildDBURL(user, "***", host, port, name)
       <==> if NoAtSign(user, password, host, port, name) then ':' !in user else password == "***"
  {
    BuildWithPassword(user, password, host, port, name);
    BuildWithPassword(user, "***", host, port, name);
    TailFree(host, port, name);
    if !NoAtSign(user, password, host, port, name) {
      AtSignDisablesMasking(user, password, host, port, name);
      SameUrlSamePassword(Head(user), password, Tail(host, port, name));
    } else if ':' in user {
      ColonInUserCutsUser(user, password, Tail(host, port, name));
    } else {
      MaskBuilt(user, password, Tail(host, port, name));
    }
  }

  lemma BuildWithoutPassword(user: string, host: string, port: string, name: string)
    ensures BuildDBURL(user, "", host, port, name) ==
      if user == "" then Head("") + Tail(host, port, name) else Head(user) + ['@'] + Tail(host, port, name)
  {
  }

  lemma MaskWithoutPassword(p: string, q: string, rest: string)
    requires '@' !in p && ':' !in p && '@' !in q && ':' !in q && '@' !in rest
    ensures MaskPassword(p + [':'] + q + ['@'] + rest) == p + [':'] + q + ['@'] + rest
  {
    var left := p + [':'] + q;
    SplitCons(left, rest, '@');
    SplitNone(rest, '@');
    SplitCons(p, q, ':');
    SplitNone(q, ':');
  }

  /** Without a password there is nothing to mask, and nothing changes. */
  lemma NoPasswordUnchanged(user: string, host: string, port: string, name: string)
    requires NoAtSign(user, "", host, port, name) && ':' !in user
    ensures MaskPassword(BuildDBURL(user, "", host, port, name)) == BuildDBURL(user, "", host, port, name)
  {
    var rest := Tail(host, port, name);
    TailFree(host, port, name);
    HeadPieces(user);
    BuildWithoutPassword(user, host, port, name);
    if user == "" {
      SplitNone(Head("") + rest, '@');
    } else {
      MaskWithoutPassword("postgres", "//" + user, rest);
    }
  }

  // ------------------------------------------------------------------- schemes

  const POSTGRES: string := "postgres://"
  const COCKROACH: string := "cockroachdb://"

  /** RunMigrations: the URL handed to the migration driver. */
  function MigrateURL(dbURL: string, lockQueryOk: bool, hasAdvisoryLock: bool): string {
    if lockQueryOk && !hasAdvisoryLock && HasPrefix(dbURL, POSTGRES) then ReplaceFirst(dbURL, POSTGRES, COCKROACH)
    else dbURL
  }

  /** getDB: the connection string made of --db-url. */
  function ConnectionString(dbURL: string): string {
    if HasPrefix(dbURL, COCKROACH) then ReplaceFirst(dbURL, COCKROACH, POSTGRES) else dbURL
  }

  lemma SwapPrefix(url: string, old_: string, new_: string)
    requires HasPrefix(url, old_)
    ensures ReplaceFirst(url, old_, new_) == new_ + url[|old_|..]
  {
    assert OccursAt(url, old_, 0);
    ReplaceFirstAt(url, old_, new_, 0);
  }

  /** On every string: going to the migration driver and back is the identity exactly when the URL did not already name CockroachDB. */
  lemma SchemeRoundTrip(url: string, lockQueryOk: bool, hasAdvisoryLock: bool)
    ensures ConnectionString(MigrateURL(url, lockQueryOk, hasAdvisoryLock)) == url <==> !HasPrefix(url, COCKROACH)
  {
    if HasPrefix(url, POSTGRES) {
      SwapPrefix(url, POSTGRES, COCKROACH);
      var there := COCKROACH + url[|POSTGRES|..];
      assert there[..|COCKROACH|] == COCKROACH && there[|COCKROACH|..] == url[|POSTGRES|..];
      SwapPrefix(there, COCKROACH, POSTGRES);
      assert url == POSTGRES + url[|POSTGRES|..];
      assert url[0] == 'p';
    } else if HasPrefix(url, COCKROACH) {
      SwapPrefix(url, COCKROACH, POSTGRES);
      assert (POSTGRES + url[|COCKROACH|..])[0] == 'p' && url[0] == 'c';
    }
  }

  /** The other way round, for a server without advisory locks: the identity exactly when the URL did not name PostgreSQL. */
  lemma SchemeRoundTripBack(url: string)
    ensures MigrateURL(ConnectionString(url), true, false) == url <==> !HasPrefix(url, POSTGRES)
  {
    if HasPrefix(url, COCKROACH) {
      SwapPrefix(url, COCKROACH, POSTGRES);
      var there := POSTGRES + url[|COCKROACH|..];
      assert there[..|POSTGRES|] == POSTGRES && there[|POSTGRES|..] == url[|COCKROACH|..];
      SwapPrefix(there, POSTGRES, COCKROACH);
      assert url == COCKROACH + url[|COCKROACH|..];
      assert url[0] == 'c';
    } else if HasPrefix(url, POSTGRES) {
      SwapPrefix(url, POSTGRES, COCKROACH);
      assert (COCKROACH + url[|POSTGRES|..])[0] == 'c' && url[0] == 'p';
    }
  }

  /** What follows a database URL's scheme. */
  function AfterScheme(url: string): string {
    if HasPrefix(url, "postgres://") then url[11..] else if HasPrefix(url, "cockroachdb://") then url[14..] else url
  }

  /** Changing one scheme for the other keeps what follows it. */
  lemma SwappedScheme(url: string)
    ensures HasPrefix(url, POSTGRES) ==>
      var u := ReplaceFirst(url, POSTGRES, COCKROACH);
      HasPrefix(u, COCKROACH) && !HasPrefix(u, POSTGRES) && AfterScheme(u) == AfterScheme(url)
    ensures HasPrefix(url, COCKROACH) ==>
      var u := ReplaceFirst(url, COCKROACH, POSTGRES);
      HasPrefix(u, POSTGRES) && !HasPrefix(u, COCKROACH) && AfterScheme(u) == AfterScheme(url)
  {
    if HasPrefix(url, POSTGRES) {
      SwapPrefix(url, POSTGRES, COCKROACH);
      var u := COCKROACH + url[11..];
      assert u[..14] == COCKROACH && u[14..] == url[11..] && u[0] == 'c';
    } else if HasPrefix(url, COCKROACH) {
      SwapPrefix(url, COCKROACH, POSTGRES);
      var u := POSTGRES + url[14..];
      assert u[..11] == POSTGRES && u[11..] == url[14..] && u[0] == 'p';
      assert url[0] == 'c';
    }
  }

  /**
   The migration driver is told of CockroachDB exactly if the URL named it already,
   or named PostgreSQL and the server answered that it has no advisory locks; a
   server with them, or one that could not be asked, keeps its URL; and nothing
   but the scheme ever changes.
   */
  lemma MigrateScheme(url: string, lockQueryOk: bool, hasAdvisoryLock: bool)
    ensures HasPrefix(MigrateURL(url, lockQueryOk, hasAdvisoryLock), "cockroachdb://") <==>
      HasPrefix(url, "cockroachdb://") || (HasPrefix(url, "postgres://") && lockQueryOk && !hasAdvisoryLock)
    ensures hasAdvisoryLock || !lockQueryOk ==> MigrateURL(url, lockQueryOk, hasAdvisoryLock) == url
    ensures AfterScheme(MigrateURL(url, lockQueryOk, hasAdvisoryLock)) == AfterScheme(url)
  {
    SwappedScheme(url);
  }

  /** The client is always told of PostgreSQL where either was named, and nothing but the scheme changes. */
  lemma ConnectionScheme(url: string)
    ensures !HasPrefix(ConnectionString(url), "cockroachdb://")
    ensures HasPrefix(ConnectionString(url), "postgres://") <==> HasPrefix(url, "postgres://") || HasPrefix(url, "cockroachdb://")
    ensures !HasPrefix(url, "cockroachdb://") ==> ConnectionString(url) == url
    ensures AfterScheme(ConnectionString(url)) == AfterScheme(url)
  {
    SwappedScheme(url);
  }

  // ------------------------------------------------- URLs of the default database

  /** ensureDatabaseExists: the same server, database "defaultdb". */
  function DefaultDatabaseURL(dbURL: string): string {
    ReplaceFirst(dbURL, "/frkrdb", "/defaultdb")
  }

  /** DatabaseChecker.Check: the URL without its last path segment and without a query; None where Check gives up. */
  function ServerURL(dbURL: string): Option<string> {
    if Index(dbURL, "/frkrdb").None? then None
    else
      var base := Split(dbURL, '/');
      if |base| < 3 then None
      else
        var url := Join(base[..|base| - 1], "/");
        match Index(url, "?")
        case None => Some(url)
        case Some(i) => Some(url[..i])
  }

  // What a URL looks like around its slashes.

  /** Three cuts at the separator. */
  lemma SplitFour(a: string, b: string, c: string, d: string, sep: char)
    requires sep !in a && sep !in b && sep !in c && sep !in d
    ensures Split(a + [sep] + (b + [sep] + (c + [sep] + d)), sep) == [a, b, c, d]
  {
    SplitNone(d, sep);
    SplitCons(c, d, sep);
    SplitCons(b, c + [sep] + d, sep);
    SplitCons(a, b + [sep] + (c + [sep] + d), sep);
  }

  const SCHEME: string := "postgres:"
  const QUERY: string := "sslmode=disable"

  lemma UrlPieces(authority: string, name: string)
    ensures Url(authority, name) == SCHEME + ['/'] + ([] + ['/'] + (authority + ['/'] + (name + ['?'] + QUERY)))
    ensures Url(authority, name) == "postgres://" + authority + ['/'] + (name + ['?'] + QUERY)
  {
    assert "postgres://" == SCHEME + ['/'] + ['/'];
    assert "?sslmode=disable" == ['?'] + QUERY;
    assert "/" == ['/'];
  }

  lemma SplitUrl(authority: string, name: string)
    requires '/' !in authority && '/' !in name
    ensures Split(Url(authority, name), '/') == [SCHEME, [], authority, name + ['?'] + QUERY]
  {
    UrlPieces(authority, name);
    SplitFour(SCHEME, [], authority, name + ['?'] + QUERY, '/');
  }

  /** A prefix without the separator lies before it. */
  lemma PrefixBefore(x: string, c: char, y: string, p: string)
    requires c !in p
    ensures HasPrefix(x + [c] + y, p) <==> HasPrefix(x, p)
  {
    var s := x + [c] + y;
    if |p| <= |x| {
      assert s[..|p|] == x[..|p|];
    } else if |p| <= |s| {
      assert s[..|p|][|x|] == c;
    }
  }

  lemma OccursAfter(before: string, c: char, rest: string, p: string)
    ensures OccursAt(before + [c] + rest, [c] + p, |before|) <==> HasPrefix(rest, p)
  {
    var s := before + [c] + rest;
    if |p| <= |rest| {
      assert s[|before|..|before| + 1 + |p|] == [c] + rest[..|p|];
      assert ([c] + p)[1..] == p && ([c] + rest[..|p|])[1..] == rest[..|p|];
    }
  }

  /** One differing character rules an occurrence out. */
  lemma Mismatch(s: string, sub: string, j: nat, t: nat)
    requires t < |sub| && j + t < |s| && s[j + t] != sub[t]
    ensures !OccursAt(s, sub, j)
  {
  }

  const NAME: string := "frkrdb"

  lemma NameHasNoSeparators()
    ensures "/frkrdb" == ['/'] + NAME && '/' !in NAME && '?' !in NAME && |NAME| == 6
  {
  }

  /** The remaining slash is followed by another one, and nothing else is a slash. */
  lemma NoOtherSlash(a: string, tail: string, j: nat)
    requires '/' !in a && '/' !in tail && j != 10 && j != 11 + |a|
    requires j < |"postgres://" + a + ['/'] + tail|
    ensures !OccursAt("postgres://" + a + ['/'] + tail, "/frkrdb", j)
  {
    var url := "postgres://" + a + ['/'] + tail;
    if j == 9 {
      assert url[10] == '/';
      if 7 + 9 <= |url| {
        Mismatch(url, "/frkrdb", 9, 1);
      }
    } else if j < 9 {
      assert url[j] == "postgres://"[j];
      Mismatch(url, "/frkrdb", j, 0);
    } else if j < 11 + |a| {
      assert url[j] == a[j - 11];
      Mismatch(url, "/frkrdb", j, 0);
    } else {
      assert url[j] == tail[j - 12 - |a|];
      Mismatch(url, "/frkrdb", j, 0);
    }
  }

  /** Where "/frkrdb" stands in a URL: never before the authority, at it if it begins that way, otherwise at the database name if that one does. */
  lemma NameOccurs(a: string, name: string, j: nat)
    requires '/' !in a && '/' !in name
    ensures OccursAt(Url(a, name), "/frkrdb", j) <==>
      (j == 10 && HasPrefix(a, NAME)) || (j == 11 + |a| && HasPrefix(name, NAME))
  {
    var url, tail := Url(a, name), name + ['?'] + QUERY;
    UrlPieces(a, name);
    NameHasNoSeparators();
    if j == 10 {
      assert url == "postgres:/" + ['/'] + (a + ['/'] + tail);
      OccursAfter("postgres:/", '/', a + ['/'] + tail, NAME);
      PrefixBefore(a, '/', tail, NAME);
    } else if j == 11 + |a| {
      OccursAfter("postgres://" + a, '/', tail, NAME);
      PrefixBefore(name, '?', QUERY, NAME);
    } else if j < |url| {
      NoOtherSlash(a, tail, j);
    }
  }

  /** The first "/frkrdb" of a URL. */
  lemma NameIndex(a: string, name: string)
    requires '/' !in a && '/' !in name
    ensures Index(Url(a, name), "/frkrdb") ==
      if HasPrefix(a, NAME) then Some(10) else if HasPrefix(name, NAME) then Some(11 + |a|) else None
  {
    forall j: nat
      ensures OccursAt(Url(a, name), "/frkrdb", j) <==>
        (j == 10 && HasPrefix(a, NAME)) || (j == 11 + |a| && HasPrefix(name, NAME))
    {
      NameOccurs(a, name, j);
    }
    var i := Index(Url(a, name), "/frkrdb");
    if HasPrefix(a, NAME) {
      assert OccursAt(Url(a, name), "/frkrdb", 10);
    } else if HasPrefix(name, NAME) {
      assert OccursAt(Url(a, name), "/frkrdb", 11 + |a|);
    }
  }

  // The two derived URLs, for any database name.

  lemma JoinThree(a: string, b: string, c: string, sep: string)
    ensures Join([a, b, c], sep) == a + sep + (b + sep + c)
  {
    assert [a, b, c][1..] == [b, c] && [b, c][1..] == [c];
    assert Join([b, c], sep) == b + sep + Join([c], sep);
  }

  lemma NoQuery(server: string)
    requires '?' !in server
    ensures Index(server, "?").None?
  {
    forall i: nat
      ensures !OccursAt(server, "?", i)
    {
      if i < |server| {
        Mismatch(server, "?", i, 0);
      }
    }
  }

  /** Joining all parts but the last gives a prefix. */
  lemma {:induction false} JoinInit(parts: seq<string>, sep: string)
    requires |parts| >= 2
    ensures Join(parts, sep) == Join(parts[..|parts| - 1], sep) + sep + parts[|parts| - 1]
  {
    if |parts| == 2 {
      assert parts[1..] == [parts[1]] && parts[..1] == [parts[0]];
    } else {
      var init := parts[..|parts| - 1];
      JoinInit(parts[1..], sep);
      assert parts[1..][..|parts| - 2] == init[1..] && init[0] == parts[0];
    }
  }

  lemma BeforeQuery(s: string)
    ensures Index(s, "?").None? ==> '?' !in s
    ensures Index(s, "?").Some? ==> '?' !in s[..Index(s, "?").value]
  {
    forall j: nat | j < |s| && s[j] == '?'
      ensures OccursAt(s, "?", j)
    {
      assert s[j..j + 1] == [s[j]];
    }
  }

  /** Whatever the URL, stripping leaves a beginning of it without a query. */
  lemma ServerURLIsCleanPrefix(dbURL: string)
    requires ServerURL(dbURL).Some?
    ensures ServerURL(dbURL).value <= dbURL && '?' !in ServerURL(dbURL).value
  {
    var base := Split(dbURL, '/');
    var stripped := Join(base[..|base| - 1], "/");
    JoinUndoesSplit(dbURL, '/');
    JoinInit(base, "/");
    assert "/" == ['/'];
    assert dbURL == stripped + ("/" + base[|base| - 1]);
    assert stripped <= dbURL;
    BeforeQuery(stripped);
  }

  lemma ServerParts(a: string)
    requires '?' !in a
    ensures Join([SCHEME, [], a], "/") == "postgres://" + a && Index("postgres://" + a, "?").None?
  {
    JoinThree(SCHEME, [], a, "/");
    assert "postgres://" == SCHEME + "/" + "/";
    NoQuery("postgres://" + a);
  }

  lemma StripAuthority(a: string, name: string)
    requires '/' !in a && '?' !in a && '/' !in name
    ensures ServerURL(Url(a, name)) == if HasPrefix(name, NAME) || HasPrefix(a, NAME) then Some("postgres://" + a) else None
  {
    NameIndex(a, name);
    SplitUrl(a, name);
    var base := Split(Url(a, name), '/');
    assert base[..3] == [SCHEME, [], a];
    ServerParts(a);
  }

  /**
   Stripping a built URL leaves the scheme and the authority and nothing else,
   exactly if the database name (or the authority) begins with "frkrdb"; for any
   other name, the default one included, the check gives up.
   */
  lemma ServerURLIsSchemeAndAuthority(user: string, password: string, host: string, port: string, name: string)
    requires '/' !in Authority(user, password, host, port) && '?' !in Authority(user, password, host, port)
    requires '/' !in name
    ensures
      var a := Authority(user, password, host, port);
      ServerURL(BuildDBURL(user, password, host, port, name)) ==
        if HasPrefix(name, NAME) || HasPrefix(a, NAME) then Some("postgres://" + a) else None
  {
    StripAuthority(Authority(user, password, host, port), name);
  }

  /** The URL the replacement yields where the authority begins with the name. */
  function Misdirected(a: string, name: string): string
    requires HasPrefix(a, NAME)
  {
    "postgres:/" + "/defaultdb" + (a[|NAME|..] + ['/'] + (name + ['?'] + QUERY))
  }

  lemma ReplaceInside(before: string, old_: string, new_: string, after: string)
    requires Index(before + old_ + after, old_) == Some(|before|)
    ensures ReplaceFirst(before + old_ + after, old_, new_) == before + new_ + after
  {
    var s := before + old_ + after;
    assert s[..|before|] == before && s[|before| + |old_|..] == after;
  }

  lemma Regroup(before: string, c: char, p: string, rest: string, tail: string)
    ensures before + [c] + (p + rest + tail) == before + ([c] + p) + (rest + tail)
  {
  }

  lemma TailOf(name: string, p: string, rest: string, x: string, y: string)
    requires name == p + rest
    ensures name + x + y == p + rest + (x + y)
  {
  }

  /** A URL cut at the beginning of its database name. */
  lemma CutAtName(a: string, p: string, rest: string)
    ensures Url(a, p + rest) == ("postgres://" + a) + (['/'] + p) + (rest + (['?'] + QUERY))
  {
    UrlPieces(a, p + rest);
    TailOf(p + rest, p, rest, ['?'], QUERY);
    Regroup("postgres://" + a, '/', p, rest, ['?'] + QUERY);
  }

  lemma Associate(a: string, b: string, c: string, d: string)
    ensures a + b + c + d == a + b + (c + d)
  {
  }

  lemma CutAuthority(a: string, tail: string)
    requires HasPrefix(a, NAME)
    ensures "postgres://" + a + (['/'] + tail) == "postgres:/" + "/frkrdb" + (a[|NAME|..] + ['/'] + tail)
  {
    assert a == NAME + a[|NAME|..];
    assert "postgres://" == "postgres:/" + ['/'] && "/frkrdb" == ['/'] + NAME;
  }

  /** A URL cut in its authority. */
  lemma CutInAuthority(a: string, name: string)
    requires HasPrefix(a, NAME)
    ensures Url(a, name) == "postgres:/" + "/frkrdb" + (a[|NAME|..] + ['/'] + (name + ['?'] + QUERY))
  {
    UrlPieces(a, name);
    Associate("postgres://", a, ['/'], name + ['?'] + QUERY);
    CutAuthority(a, name + ['?'] + QUERY);
  }

  lemma ReplaceAuthority(a: string, name: string)
    requires '/' !in a && '/' !in name && HasPrefix(a, NAME)
    ensures DefaultDatabaseURL(Url(a, name)) == Misdirected(a, name)
  {
    NameIndex(a, name);
    CutInAuthority(a, name);
    ReplaceInside("postgres:/", "/frkrdb", "/defaultdb", a[|NAME|..] + ['/'] + (name + ['?'] + QUERY));
  }

  lemma ReplaceName(a: string, name: string)
    requires '/' !in a && '/' !in name && !HasPrefix(a, NAME) && HasPrefix(name, NAME)
    ensures DefaultDatabaseURL(Url(a, name)) == Url(a, "defaultdb" + name[|NAME|..])
  {
    var rest := name[|NAME|..];
    NameIndex(a, name);
    assert name == NAME + rest;
    CutAtName(a, NAME, rest);
    CutAtName(a, "defaultdb", rest);
    assert "/frkrdb" == ['/'] + NAME && "/defaultdb" == ['/'] + "defaultdb";
    ReplaceInside("postgres://" + a, "/frkrdb", "/defaultdb", rest + (['?'] + QUERY));
  }

  /** What the replacement does to any built URL: it hits the authority, else the beginning of the name, else nothing. */
  lemma DefaultURLForAnyName(user: string, password: string, host: string, port: string, name: string)
    requires '/' !in Authority(user, password, host, port) && '/' !in name
    ensures
      var a, url := Authority(user, password, host, port), BuildDBURL(user, password, host, port, name);
      DefaultDatabaseURL(url) ==
        if HasPrefix(a, NAME) then Misdirected(a, name)
        else if HasPrefix(name, NAME) then Url(a, "defaultdb" + name[|NAME|..])
        else url
  {
    var a := Authority(user, password, host, port);
    NameIndex(a, name);
    if HasPrefix(a, NAME) {
      ReplaceAuthority(a, name);
    } else if HasPrefix(name, NAME) {
      ReplaceName(a, name);
    }
  }

  lemma MisdirectedIsWrong(a: string, name: string, other: string)
    requires HasPrefix(a, NAME)
    ensures Misdirected(a, name) != Url(a, other)
  {
    UrlPieces(a, other);
    assert Misdirected(a, name)[11] == 'd';
    assert Url(a, other)[11] == a[0] == a[..6][0];
  }

  lemma SameName(a: string, name: string, other: string)
    ensures Url(a, name) == Url(a, other) <==> name == other
  {
    UrlPieces(a, name);
    UrlPieces(a, other);
    var pre := "postgres://" + a + ['/'];
    var x, y := pre + (name + ['?'] + QUERY), pre + (other + ['?'] + QUERY);
    if x == y {
      assert |name| == |other|;
      assert x[|pre|..|pre| + |name|] == name && y[|pre|..|pre| + |other|] == other;
    }
  }

  /** The replacement yields the URL of "defaultdb" on the same server exactly for the names "frkrdb" and "defaultdb", the authority not beginning with the former. */
  lemma DefaultURLChangesOnlyTheName(user: string, password: string, host: string, port: string, name: string)
    requires '/' !in Authority(user, password, host, port) && '/' !in name
    ensures DefaultDatabaseURL(BuildDBURL(user, password, host, port, name)) == BuildDBURL(user, password, host, port, "defaultdb")
       <==> !HasPrefix(Authority(user, password, host, port), NAME) && (name == NAME || name == "defaultdb")
  {
    var a := Authority(user, password, host, port);
    DefaultURLForAnyName(user, password, host, port, name);
    if HasPrefix(a, NAME) {
      MisdirectedIsWrong(a, name, "defaultdb");
    } else if HasPrefix(name, NAME) {
      SameName(a, "defaultdb" + name[|NAME|..], "defaultdb");
      assert name == NAME + name[|NAME|..];
      assert "defaultdb" != NAME && !HasPrefix("defaultdb", NAME) by {
        assert "defaultdb"[..6][0] == 'd' && NAME[0] == 'f';
      }
    } else {
      SameName(a, name, "defaultdb");
    }
  }

  /** Both derived URLs address the server of the original one, whatever the database is called. */
  lemma DerivedUrlsShareServer(user: string, password: string, host: string, port: string, name: string)
    requires '/' !in Authority(user, password, host, port) && '?' !in Authority(user, password, host, port)
    requires '/' !in name && !HasPrefix(Authority(user, password, host, port), NAME)
    ensures
      var url, server := BuildDBURL(user, password, host, port, name), "postgres://" + Authority(user, password, host, port);
      && (ServerURL(url) == Some(server) || ServerURL(url) == None)
      && HasPrefix(url, server + "/") && HasPrefix(DefaultDatabaseURL(url), server + "/")
  {
    var a := Authority(user, password, host, port);
    ServerURLIsSchemeAndAuthority(user, password, host, port, name);
    DefaultURLForAnyName(user, password, host, port, name);
    UrlPieces(a, name);
    if HasPrefix(name, NAME) {
      UrlPieces(a, "defaultdb" + name[|NAME|..]);
    }
  }

  /** With the tool's own default database name neither URL is derived: the check gives up and the replacement changes nothing. */
  lemma DefaultNameIsNotRedirected(user: string, password: string, host: string, port: string)
    requires '/' !in Authority(user, password, host, port) && '?' !in Authority(user, password, host, port)
    requires !HasPrefix(Authority(user, password, host, port), NAME)
    ensures
      var url := BuildDBURL(user, password, host, port, "frkr");
      ServerURL(url) == None && DefaultDatabaseURL(url) == url
  {
    ServerURLIsSchemeAndAuthority(user, password, host, port, "frkr");
    DefaultURLForAnyName(user, password, host, port, "frkr");
  }
}
