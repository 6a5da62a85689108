/** The backend's settings, and the validator that fills in the database URL from its parts. */
module Config {
  import opened Wrappers
  import opened Decimal

  const Scheme: string := "postgresql+asyncpg://"

  /** The connection parts the URL is assembled from. */
  datatype DbParts = DbParts(user: string, password: string, host: string, port: int, name: string)

  /** The f-string of the validator: scheme, `user:pass@host:port/name`, the port written in decimal. */
  function BuildUrl(p: DbParts): (url: string)
    ensures Scheme <= url && |url| > |Scheme|
  {
    Scheme + p.user + ":" + p.password + "@" + p.host + ":" + ShowInt(p.port) + "/" + p.name
  }

  /** The text before the first `c` and the text after it; `None` when `s` has no `c`. */
  function SplitOn(s: string, c: char): (r: Option<(string, string)>)
    ensures r.None? <==> c !in s
    ensures r.Some? ==> s == r.value.0 + [c] + r.value.1 && c !in r.value.0
    decreases |s|
  {
    if s == [] then None
    else if s[0] == c then Some(([], s[1..]))
    else match SplitOn(s[1..], c)
      case None => None
      case Some((before, after)) => Some(([s[0]] + before, after))
  }

  /** Splitting at the first `c` of a concatenation whose first part holds no `c`. */
  lemma {:induction false} SplitOnConcat(a: string, c: char, b: string)
    requires c !in a
    ensures SplitOn(a + [c] + b, c) == Some((a, b))
    decreases |a|
  {
    if a != [] {
      assert (a + [c] + b)[1..] == a[1..] + [c] + b;
      SplitOnConcat(a[1..], c, b);
      assert [a[0]] + a[1..] == a;
    } else {
      assert a + [c] + b == [c] + b;
    }
  }

  /** Reads a URL of the validator's shape back into its parts. */
  function ParseUrl(url: string): (r: Option<DbParts>)
  {
    if !(Scheme <= url) then None
    else match SplitOn(url[|Scheme|..], ':')
      case None => None
      case Some((user, rest)) => match ParseAfterUser(rest)
        case None => None
        case Some((password, host, port, name)) => Some(DbParts(user, password, host, port, name))
  }

  /** `pass@host:port/name` into its four parts. */
  function ParseAfterUser(s: string): (r: Option<(string, string, int, string)>)
  {
    match SplitOn(s, '@')
    case None => None
    case Some((password, rest)) => match SplitOn(rest, ':')
      case None => None
      case Some((host, rest3)) => match SplitOn(rest3, '/')
        case None => None
        case Some((port, name)) => match ParseLeadingInt(port)
          case None => None
          case Some(n) => Some((password, host, n, name))
  }

  /** A port written in decimal holds no '/'. */
  lemma ShowIntHasNoSlash(n: int)
    ensures '/' !in ShowInt(n)
  {
    var port := ShowInt(n);
    assert forall i :: 0 <= i < |port| ==> port[i] == '-' || IsDigit(port[i]) by {
      if n < 0 {
        assert port == "-" + ShowNat(-n);
      }
    }
  }

  lemma ParseAfterUserBuilt(p: DbParts)
    requires '@' !in p.password && ':' !in p.host
    ensures ParseAfterUser(p.password + "@" + p.host + ":" + ShowInt(p.port) + "/" + p.name)
      == Some((p.password, p.host, p.port, p.name))
  {
    var port := ShowInt(p.port);
    var rest3 := port + "/" + p.name;
    var rest2 := p.host + ":" + rest3;
    assert p.password + "@" + p.host + ":" + port + "/" + p.name == p.password + ['@'] + rest2;
    assert rest2 == p.host + [':'] + rest3;
    assert rest3 == port + ['/'] + p.name;
    SplitOnConcat(p.password, '@', rest2);
    SplitOnConcat(p.host, ':', rest3);
    ShowIntHasNoSlash(p.port);
    SplitOnConcat(port, '/', p.name);
    ParseShowInt(p.port);
  }

  /**
   * The assembled URL determines its parts, as long as the user name holds no ':', the password no '@' and
   * the host no ':' (the separators that follow each of them).
   */
  lemma ParseBuildUrl(p: DbParts)
    requires ':' !in p.user && '@' !in p.password && ':' !in p.host
    ensures ParseUrl(BuildUrl(p)) == Some(p)
  {
    var rest := p.password + "@" + p.host + ":" + ShowInt(p.port) + "/" + p.name;
    assert BuildUrl(p) == Scheme + (p.user + [':'] + rest);
    assert BuildUrl(p)[|Scheme|..] == p.user + [':'] + rest;
    SplitOnConcat(p.user, ':', rest);
    ParseAfterUserBuilt(p);
  }

  /**
   * As assembled, the URL does not determine its parts: a ':' in the user name reads as the end of the name,
   * so two different sets of credentials give the same URL, and the URL reads back as the second set.
   */
  lemma BuildUrlAmbiguous(port: int)
    ensures DbParts("a:b", "c", "h", port, "d") != DbParts("a", "b:c", "h", port, "d")
    ensures BuildUrl(DbParts("a:b", "c", "h", port, "d")) == BuildUrl(DbParts("a", "b:c", "h", port, "d"))
    ensures ParseUrl(BuildUrl(DbParts("a:b", "c", "h", port, "d"))) == Some(DbParts("a", "b:c", "h", port, "d"))
  {
    var tail := ShowInt(port) + "/" + "d";
    assert BuildUrl(DbParts("a:b", "c", "h", port, "d")) == Scheme + "a:b:c@h:" + tail;
    assert BuildUrl(DbParts("a", "b:c", "h", port, "d")) == Scheme + "a:b:c@h:" + tail;
    ParseBuildUrl(DbParts("a", "b:c", "h", port, "d"));
  }

  /** Percent-encoding of the separators a credential may hold, and of '%' itself. */
  function QuoteChar(c: char): (r: string)
    ensures ':' !in r && '@' !in r && '/' !in r
    ensures c != '%' && c != ':' && c != '@' && c != '/' ==> r == [c]
  {
    match c
    case '%' => "%25"
    case ':' => "%3A"
    case '@' => "%40"
    case '/' => "%2F"
    case _ => [c]
  }

  /** A credential percent-encoded: it holds none of the URL's separators. */
  function Quote(s: string): (r: string)
    ensures ':' !in r && '@' !in r && '/' !in r
    ensures |r| >= |s|
    decreases |s|
  {
    if s == [] then [] else QuoteChar(s[0]) + Quote(s[1..])
  }

  /** Decoding of the four escapes `Quote` writes; anything else is kept. */
  function Unquote(s: string): (r: string)
    ensures |r| <= |s|
    decreases |s|
  {
    if s == [] then []
    else if |s| >= 3 && s[0] == '%' && s[1..3] == "25" then "%" + Unquote(s[3..])
    else if |s| >= 3 && s[0] == '%' && s[1..3] == "3A" then ":" + Unquote(s[3..])
    else if |s| >= 3 && s[0] == '%' && s[1..3] == "40" then "@" + Unquote(s[3..])
    else if |s| >= 3 && s[0] == '%' && s[1..3] == "2F" then "/" + Unquote(s[3..])
    else [s[0]] + Unquote(s[1..])
  }

  /** Decoding an encoded character followed by anything decodes the character, then the rest. */
  lemma UnquoteQuoteChar(c: char, t: string)
    ensures Unquote(QuoteChar(c) + t) == [c] + Unquote(t)
  {
    var q := QuoteChar(c) + t;
    if c == '%' || c == ':' || c == '@' || c == '/' {
      assert q[1..3] == QuoteChar(c)[1..3] && q[3..] == t;
    } else {
      assert q == [c] + t && q[1..] == t;
    }
  }

  /** Decoding undoes encoding. */
  lemma {:induction false} UnquoteQuote(s: string)
    ensures Unquote(Quote(s)) == s
    decreases |s|
  {
    if s != [] {
      UnquoteQuoteChar(s[0], Quote(s[1..]));
      UnquoteQuote(s[1..]);
      assert [s[0]] + s[1..] == s;
    }
  }

  /** The URL with the user name and password percent-encoded, as a URL's user information must be. */
  function BuildQuotedUrl(p: DbParts): (url: string)
    ensures url == BuildUrl(p.(user := Quote(p.user), password := Quote(p.password)))
  {
    Scheme + Quote(p.user) + ":" + Quote(p.password) + "@" + p.host + ":" + ShowInt(p.port) + "/" + p.name
  }

  /** Reads a URL of that shape back, decoding the user name and password. */
  function ParseQuotedUrl(url: string): (r: Option<DbParts>)
  {
    match ParseUrl(url)
    case None => None
    case Some(q) => Some(q.(user := Unquote(q.user), password := Unquote(q.password)))
  }

  /** With the credentials encoded, any user name and password survive the round trip. */
  lemma ParseBuildQuotedUrl(p: DbParts)
    requires ':' !in p.host
    ensures ParseQuotedUrl(BuildQuotedUrl(p)) == Some(p)
  {
    var q := p.(user := Quote(p.user), password := Quote(p.password));
    ParseBuildUrl(q);
    UnquoteQuote(p.user);
    UnquoteQuote(p.password);
  }

  /** So the encoded URL tells any two sets of credentials apart. */
  lemma BuildQuotedUrlInjective(p: DbParts, q: DbParts)
    requires ':' !in p.host && ':' !in q.host
    requires BuildQuotedUrl(p) == BuildQuotedUrl(q)
    ensures p == q
  {
    ParseBuildQuotedUrl(p);
    ParseBuildQuotedUrl(q);
  }

  /** `not self.database_url`: a URL that is absent or empty counts as unset. */
  predicate IsSet(url: Option<string>)
  {
    url.Some? && url.value != ""
  }

  /** The validator's effect on the URL: a set URL stays; an unset one becomes the assembled URL. */
  function FilledUrl(current: Option<string>, p: DbParts): (url: Option<string>)
    ensures IsSet(current) ==> url == current
    ensures !IsSet(current) ==> url == Some(BuildUrl(p))
    ensures IsSet(url)
  {
    if IsSet(current) then current else Some(BuildUrl(p))
  }

  /** Filling twice is filling once: the second pass finds the URL set. */
  lemma FilledUrlIdempotent(current: Option<string>, p: DbParts, q: DbParts)
    ensures FilledUrl(FilledUrl(current, p), q) == FilledUrl(current, p)
  {
  }

  /** The settings object. */
  class Settings {
    var databaseUrl: Option<string>
    var secretKey: string
    var jwtExpiration: int
    var echoSql: bool
    var debugLogs: bool
    var dbHost: string
    var dbPort: int
    var dbUser: string
    var dbPass: string
    var dbName: string

    /**
     * Field values as read from the environment. Where the environment has no value, the URL defaults to
     * none and the two flags to true; the caller passes those defaults.
     */
    constructor(databaseUrl: Option<string>, secretKey: string, jwtExpiration: int, echoSql: bool, debugLogs: bool,
                dbHost: string, dbPort: int, dbUser: string, dbPass: string, dbName: string)
      ensures this.databaseUrl == databaseUrl && this.secretKey == secretKey && this.jwtExpiration == jwtExpiration
      ensures this.echoSql == echoSql && this.debugLogs == debugLogs
      ensures this.dbHost == dbHost && this.dbPort == dbPort && this.dbUser == dbUser
      ensures this.dbPass == dbPass && this.dbName == dbName
    {
      this.databaseUrl := databaseUrl;
      this.secretKey := secretKey;
      this.jwtExpiration := jwtExpiration;
      this.echoSql := echoSql;
      this.debugLogs := debugLogs;
      this.dbHost := dbHost;
      this.dbPort := dbPort;
      this.dbUser := dbUser;
      this.dbPass := dbPass;
      this.dbName := dbName;
    }

    function Parts(): DbParts
      reads this
    {
      DbParts(dbUser, dbPass, dbHost, dbPort, dbName)
    }

    /**
     * `fill_database_url`: an unset URL becomes the one assembled from the connection fields; a set one is
     * kept. No other field changes, and the object itself is returned.
     */
    method FillDatabaseUrl() returns (self: Settings)
      modifies this`databaseUrl
      ensures self == this
      ensures databaseUrl == FilledUrl(old(databaseUrl), Parts())
    {
      if !IsSet(databaseUrl) {
        databaseUrl := Some(Scheme + dbUser + ":" + dbPass + "@" + dbHost + ":" + ShowInt(dbPort) + "/" + dbName);
      }
      return this;
    }
  }

  /** Running the validator twice leaves the URL as the first run left it. */
  method FillTwice(s: Settings) returns (first: Option<string>, second: Option<string>)
    modifies s`databaseUrl
    ensures first == FilledUrl(old(s.databaseUrl), s.Parts()) && second == first
  {
    var r := s.FillDatabaseUrl();
    first := s.databaseUrl;
    r := r.FillDatabaseUrl();
    second := s.databaseUrl;
  }
}
