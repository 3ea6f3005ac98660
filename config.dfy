/**
 * Configuration resolution of `presser`: reading the site URL and the
 * credentials from the `[wordpress_site]` section of the parsed INI file,
 * falling back to interactively supplied answers, and normalising the
 * XML-RPC endpoint URL.
 */
module Config {
  import opened Wrappers
  import opened Strings

  /** A parsed INI file as the parser exposes it: section -> option -> value. */
  type IniData = map<string, map<string, string>>

  const SiteSection: string := "wordpress_site"
  const EndpointFile: string := "xmlrpc.php"
  const EndpointSuffix: string := "/xmlrpc.php"
  const HttpScheme: string := "http://"

  /** The two exceptions `get` raises and `presser` catches. */
  datatype ConfigError =
    | NoSectionError(section: string)
    | NoOptionError(option: string, section: string)

  /** What `read_config` returns: endpoint URL, user name, password. */
  datatype Settings = Settings(siteUrl: string, username: string, password: string)

  /** The three answers typed at the prompts (site URL, user name, password). */
  datatype PromptAnswers = PromptAnswers(site: string, username: string, password: string)

  /** The XML-RPC endpoint of a site: the site, a slash, then `xmlrpc.php`. */
  function Endpoint(site: string): (r: string)
    ensures |r| == |site| + |EndpointSuffix|
    ensures StartsWith(r, site) && EndsWith(r, EndpointSuffix)
  {
    var r := site + "/" + EndpointFile;
    assert r[..|site|] == site;
    assert r[|site|..] == EndpointSuffix;
    r
  }

  /** The parser's lookup of one option, raising for a missing section before a missing option. */
  function Get(ini: IniData, section: string, option: string): (r: Result<string, ConfigError>)
  {
    if section !in ini then Failure(NoSectionError(section))
    else if option !in ini[section] then Failure(NoOptionError(option, section))
    else Success(ini[section][option])
  }

  predicate HasSiteConfig(ini: IniData) {
    SiteSection in ini
    && "site" in ini[SiteSection]
    && "username" in ini[SiteSection]
    && "password" in ini[SiteSection]
  }

  /** `read_config`: the three lookups in the order site, username, password. */
  function ReadConfig(ini: IniData): (r: Result<Settings, ConfigError>)
    ensures r.Success? <==> HasSiteConfig(ini)
    ensures r.Success? ==>
      var section := ini[SiteSection];
      r.value == Settings(Endpoint(section["site"]), section["username"], section["password"])
    ensures SiteSection !in ini ==> r == Failure(NoSectionError(SiteSection))
    ensures SiteSection in ini && "site" !in ini[SiteSection] ==>
      r == Failure(NoOptionError("site", SiteSection))
    ensures SiteSection in ini && "site" in ini[SiteSection] && "username" !in ini[SiteSection] ==>
      r == Failure(NoOptionError("username", SiteSection))
    ensures SiteSection in ini && "site" in ini[SiteSection] && "username" in ini[SiteSection]
            && "password" !in ini[SiteSection] ==>
      r == Failure(NoOptionError("password", SiteSection))
  {
    match Get(ini, SiteSection, "site")
    case Failure(e) => Failure(e)
    case Success(site) =>
      match Get(ini, SiteSection, "username")
      case Failure(e) => Failure(e)
      case Success(username) =>
        match Get(ini, SiteSection, "password")
        case Failure(e) => Failure(e)
        case Success(password) => Success(Settings(Endpoint(site), username, password))
  }

  /**
   * The settings before the scheme check: from the configuration when
   * `read_config` succeeds, otherwise from the prompts, whose site answer
   * gets the endpoint path appended the same way.
   */
  function ResolveSettings(ini: IniData, answers: PromptAnswers): (s: Settings)
    ensures HasSiteConfig(ini) ==>
      s == Settings(Endpoint(ini[SiteSection]["site"]), ini[SiteSection]["username"], ini[SiteSection]["password"])
    ensures !HasSiteConfig(ini) ==>
      s == Settings(Endpoint(answers.site), answers.username, answers.password)
  {
    match ReadConfig(ini)
    case Success(settings) => settings
    case Failure(_) => Settings(Endpoint(answers.site), answers.username, answers.password)
  }

  /** The scheme check: a URL not starting with exactly `http://` gets it in front. */
  function NormaliseUrl(url: string): (r: string)
    ensures StartsWith(r, HttpScheme)
    ensures StartsWith(url, HttpScheme) ==> r == url
    ensures !StartsWith(url, HttpScheme) ==> r == HttpScheme + url
  {
    if StartsWith(url, HttpScheme) then url
    else
      var r := HttpScheme + url;
      assert r[..|HttpScheme|] == HttpScheme;
      r
  }

  /** The connection settings `Client` receives. */
  function ConnectionSettings(ini: IniData, answers: PromptAnswers): (s: Settings)
    ensures StartsWith(s.siteUrl, HttpScheme) && EndsWith(s.siteUrl, EndpointSuffix)
    ensures s.username == ResolveSettings(ini, answers).username
    ensures s.password == ResolveSettings(ini, answers).password
  {
    var resolved := ResolveSettings(ini, answers);
    NormaliseKeepsSuffix(resolved.siteUrl, EndpointSuffix);
    resolved.(siteUrl := NormaliseUrl(resolved.siteUrl))
  }

  /** Prepending the scheme leaves the end of the URL as it was. */
  lemma NormaliseKeepsSuffix(url: string, suffix: string)
    requires EndsWith(url, suffix)
    ensures EndsWith(NormaliseUrl(url), suffix)
  {
  }

  /** Normalising a second time changes nothing. */
  lemma NormaliseIdempotent(url: string)
    ensures NormaliseUrl(NormaliseUrl(url)) == NormaliseUrl(url)
  {
  }

  /**
   * The scheme test is made on the endpoint, after the path was appended:
   * it passes exactly for sites that start with `http://`, and for the
   * site `http:/`, whose endpoint reads `http://xmlrpc.php`.
   */
  lemma SchemeTestOnEndpoint(site: string)
    ensures StartsWith(Endpoint(site), HttpScheme) <==> StartsWith(site, HttpScheme) || site == "http:/"
  {
    var e := Endpoint(site);
    if |site| >= |HttpScheme| {
      assert e[..|HttpScheme|] == site[..|HttpScheme|];
    } else if StartsWith(e, HttpScheme) {
      assert e[|site|] == '/';
      assert HttpScheme[|site|] == '/';
      assert e[|site| + 1] == 'x';
      assert |site| == 6;
      assert site == e[..6];
    }
  }

  /**
   * The final URL in terms of the configured or typed site value: the
   * endpoint, with `http://` in front unless the endpoint already had it.
   */
  lemma ConnectionUrlShape(ini: IniData, answers: PromptAnswers)
    ensures var site := if HasSiteConfig(ini) then ini[SiteSection]["site"] else answers.site;
      ConnectionSettings(ini, answers).siteUrl ==
        if StartsWith(site, HttpScheme) || site == "http:/" then site + EndpointSuffix
        else HttpScheme + site + EndpointSuffix
  {
    var site := if HasSiteConfig(ini) then ini[SiteSection]["site"] else answers.site;
    SchemeTestOnEndpoint(site);
    assert Endpoint(site) == site + EndpointSuffix;
  }

  /** A secure URL is not recognised as having a scheme and is prefixed anyway. */
  lemma HttpsIsPrefixed(host: string)
    ensures NormaliseUrl(Endpoint("https://" + host)) == "http://https://" + host + EndpointSuffix
  {
    var e := Endpoint("https://" + host);
    assert e[4] == 's';
    assert !StartsWith(e, HttpScheme);
    assert HttpScheme + e == "http://https://" + host + EndpointSuffix;
  }

  /** The scheme test is case-sensitive. */
  lemma UpperCaseSchemeIsPrefixed(rest: string)
    ensures NormaliseUrl("HTTP://" + rest) == "http://HTTP://" + rest
  {
    var u := "HTTP://" + rest;
    assert u[0] == 'H';
    assert !StartsWith(u, HttpScheme);
  }
}
