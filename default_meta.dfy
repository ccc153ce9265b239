/** `defaultMeta` and `getCanonicalLink` of app/utils/default-meta.ts: the
    meta descriptors every page returns. Optional arguments are `Option`s and
    interpolate as "undefined" when absent; the `APP_DOMAIN` environment
    variable is a parameter. */
module DefaultMeta {
  import opened Wrappers

  /** `APP_NAME`. */
  const AppName: string := "BotAI"

  /** The three kinds of descriptor the function returns. */
  datatype Descriptor =
    | Title(title: string)
    | Named(name: string, content: string)
    | Link(tagName: string, rel: string, href: string)

  /** An optional string inside a template literal. */
  function Interpolate(s: Option<string>): string
  {
    match s
    case Some(v) => v
    case None => "undefined"
  }

  /** JavaScript truthiness of an optional string. */
  predicate Truthy(s: Option<string>)
  {
    s.Some? && |s.value| > 0
  }

  /** `getCanonicalLink(path)`: a canonical link to `https://`, the domain,
      then the path. */
  function GetCanonicalLink(path: Option<string>, appDomain: Option<string>): (r: Descriptor)
    ensures r.Link? && r.tagName == "link" && r.rel == "canonical"
    ensures |r.href| >= 8 && r.href[..8] == "https://"
    ensures path.Some? ==> |r.href| >= |path.value|
                           && r.href[|r.href| - |path.value|..] == path.value
  {
    Link("link", "canonical", "https://" + Interpolate(appDomain) + Interpolate(path))
  }

  /** The description every page gets. */
  const Description: Descriptor := Named("description", "Bem-vindo ao " + AppName)

  /** The title as the source computes it: the condition is inverted, so a
      page name leaves it out and a missing one is shown. */
  function TitleAsWritten(pageName: Option<string>): string
  {
    if Truthy(pageName) then AppName else AppName + " | " + Interpolate(pageName)
  }

  /** The evidently intended title: the application name, followed by the
      page name when there is one. */
  function PageTitle(pageName: Option<string>): string
  {
    if Truthy(pageName) then AppName + " | " + pageName.value else AppName
  }

  /** `defaultMeta` as written. */
  function DefaultMetaAsWritten(pageName: Option<string>, path: Option<string>,
                                appDomain: Option<string>): (r: seq<Descriptor>)
    ensures |r| == 3
    ensures r[0] == Title(TitleAsWritten(pageName))
    ensures r[1] == Description && r[2] == GetCanonicalLink(path, appDomain)
  {
    [Title(TitleAsWritten(pageName)), Description, GetCanonicalLink(path, appDomain)]
  }

  /** `defaultMeta` with the title fixed. */
  function DefaultMeta(pageName: Option<string>, path: Option<string>,
                       appDomain: Option<string>): (r: seq<Descriptor>)
    ensures |r| == 3
    ensures r[0] == Title(PageTitle(pageName))
    ensures r[1] == Description && r[2] == GetCanonicalLink(path, appDomain)
  {
    [Title(PageTitle(pageName)), Description, GetCanonicalLink(path, appDomain)]
  }

  /** The inversion: the login page's title drops "Login", and a page
      without a name is titled "BotAI | undefined". */
  lemma TitleInverted()
    ensures DefaultMetaAsWritten(Some("Login"), Some("/login"), Some("botai.app"))[0] == Title("BotAI")
    ensures DefaultMetaAsWritten(None, None, None)[0] == Title("BotAI | undefined")
  {
  }

  /** With the fix, a named page's title ends in its name after the
      separator, an unnamed page is titled with the application name alone,
      and the title never reads "undefined" or ends in a bare separator. */
  lemma PageTitleShowsName(pageName: Option<string>)
    ensures Truthy(pageName) ==>
      var t := PageTitle(pageName);
      |t| > |AppName| + 3 && t[..|AppName| + 3] == AppName + " | " && t[|AppName| + 3..] == pageName.value
    ensures !Truthy(pageName) ==> PageTitle(pageName) == AppName
  {
  }

  /** The description and link do not depend on the page name. */
  lemma OnlyTitleDependsOnPage(a: Option<string>, b: Option<string>, path: Option<string>,
                               appDomain: Option<string>)
    ensures DefaultMeta(a, path, appDomain)[1..] == DefaultMeta(b, path, appDomain)[1..]
    ensures DefaultMeta(a, path, appDomain)[1] == Named("description", "Bem-vindo ao BotAI")
  {
  }
}
