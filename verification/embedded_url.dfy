/** The launch URL of `AerosyncEmbeddedView` (aerosync_embedded_view.swift,
    `makeUIView`): a base origin chosen by environment name, followed by the
    query parameters written by plain string interpolation, without
    percent-encoding. */
module EmbeddedUrl {
  import opened Wrappers
  import opened Text

  /** The view's configuration as the URL reads it. The initializer defaults
      `configurationId` to nil and `theme` to "light". */
  datatype EmbeddedView = EmbeddedView(
    token: string,
    env: string,
    deeplink: string,
    configurationId: Option<string>,
    theme: string)

  const ProductionOrigin := "https://sync.aero.inc"
  const SandboxOrigin := "https://sandbox.aerosync.com"
  const StagingOrigin := "https://staging-sync.aero.inc"
  const QaOrigin := "https://qa-sync.aero.inc"
  const DefaultTheme := "light"

  /** The initializer, with its default arguments. */
  function NewView(token: string, env: string, deeplink: string,
                   configurationId: Option<string> := None,
                   theme: string := DefaultTheme): EmbeddedView
  {
    EmbeddedView(token, env, deeplink, configurationId, theme)
  }

  /** The origin selected by the lower-cased environment name; anything that
      is not production, sandbox or staging selects the QA host. */
  function BaseOrigin(env: string): string {
    match Lower(env)
    case "production" => ProductionOrigin
    case "sandbox" => SandboxOrigin
    case "staging" => StagingOrigin
    case _ => QaOrigin
  }

  /** Each named origin is chosen exactly for its name in any letter case,
      and the QA origin for every other string. */
  lemma BaseOriginChoice(env: string)
    ensures BaseOrigin(env) == ProductionOrigin <==> EqualsIgnoringCase(env, "production")
    ensures BaseOrigin(env) == SandboxOrigin <==> EqualsIgnoringCase(env, "sandbox")
    ensures BaseOrigin(env) == StagingOrigin <==> EqualsIgnoringCase(env, "staging")
    ensures BaseOrigin(env) == QaOrigin <==>
      && !EqualsIgnoringCase(env, "production")
      && !EqualsIgnoringCase(env, "sandbox")
      && !EqualsIgnoringCase(env, "staging")
  {
    LowerEqualsIff(env, "production");
    LowerEqualsIff(env, "sandbox");
    LowerEqualsIff(env, "staging");
  }

  /** Environment names that differ only in letter case select the same
      origin. */
  lemma BaseOriginIgnoresCase(a: string, b: string)
    requires EqualsIgnoringCase(a, b)
    ensures BaseOrigin(a) == BaseOrigin(b)
  {
    assert Lower(a) == Lower(b);
  }

  /** The development name and the empty string fall through to QA. */
  lemma BaseOriginFallback()
    ensures BaseOrigin("dev") == QaOrigin
    ensures BaseOrigin("") == QaOrigin
  {
  }

  /** The URL string built in `makeUIView`. */
  function LaunchUrl(v: EmbeddedView): string {
    UrlAt(BaseOrigin(v.env), v)
  }

  /** The interpolated string after the origin has been chosen. */
  function UrlAt(origin: string, v: EmbeddedView): string {
    var url := origin + "/embedded-view?token=" + v.token
      + "&deeplink=" + v.deeplink + "&defaultTheme=" + v.theme + "&version=2.0.0";
    match v.configurationId
    case Some(id) => url + "&configurationId=" + id
    case None => url
  }

  /** The query parameters the URL is meant to carry, in order. */
  function ExpectedParams(v: EmbeddedView): seq<Param> {
    [Param("token", v.token), Param("deeplink", v.deeplink),
     Param("defaultTheme", v.theme), Param("version", "2.0.0")]
    + match v.configurationId
      case Some(id) => [Param("configurationId", id)]
      case None => []
  }

  /** The literal pieces of the interpolation, split at '?', '&' and '='. */
  lemma UrlLiterals()
    ensures "/embedded-view?token=" == "/embedded-view" + "?" + "token" + "="
    ensures "&deeplink=" == "&" + "deeplink" + "="
    ensures "&defaultTheme=" == "&" + "defaultTheme" + "="
    ensures "&version=2.0.0" == "&" + "version" + "=" + "2.0.0"
    ensures "&configurationId=" == "&" + "configurationId" + "="
  {
  }

  /** The expected parameters written as `key=value` fields. */
  function ExpectedFields(v: EmbeddedView): seq<string> {
    [Field("token", v.token), Field("deeplink", v.deeplink),
     Field("defaultTheme", v.theme), Field("version", "2.0.0")]
    + match v.configurationId
      case Some(id) => [Field("configurationId", id)]
      case None => []
  }

  /** The interpolation without its optional tail, regrouped at '?', '&'
      and '='. */
  lemma MandatoryPart(origin: string, v: EmbeddedView)
    ensures origin + "/embedded-view?token=" + v.token + "&deeplink=" + v.deeplink
              + "&defaultTheme=" + v.theme + "&version=2.0.0"
         == origin + "/embedded-view" + "?"
              + ("token" + "=" + v.token + "&" + "deeplink" + "=" + v.deeplink + "&"
                 + "defaultTheme" + "=" + v.theme + "&" + "version" + "=" + "2.0.0")
  {
    UrlLiterals();
  }

  /** The URL is the origin, the `/embedded-view` path and the expected
      fields joined by '&'. */
  lemma UrlShape(origin: string, v: EmbeddedView)
    ensures UrlAt(origin, v) == origin + "/embedded-view" + "?" + Join(ExpectedFields(v), '&')
  {
    MandatoryPart(origin, v);
    match v.configurationId {
      case None => UrlShapeWithoutId(v);
      case Some(id) => UrlShapeWithId(v, id);
    }
  }

  lemma UrlShapeWithoutId(v: EmbeddedView)
    requires v.configurationId.None?
    ensures Join(ExpectedFields(v), '&')
      == "token" + "=" + v.token + "&" + "deeplink" + "=" + v.deeplink + "&"
         + "defaultTheme" + "=" + v.theme + "&" + "version" + "=" + "2.0.0"
  {
    assert ExpectedFields(v) == [Field("token", v.token), Field("deeplink", v.deeplink),
                                 Field("defaultTheme", v.theme), Field("version", "2.0.0")];
    Fields4("token", v.token, "deeplink", v.deeplink, "defaultTheme", v.theme, "version", "2.0.0");
  }

  lemma UrlShapeWithId(v: EmbeddedView, id: string)
    requires v.configurationId == Some(id)
    ensures Join(ExpectedFields(v), '&')
      == "token" + "=" + v.token + "&" + "deeplink" + "=" + v.deeplink + "&"
         + "defaultTheme" + "=" + v.theme + "&" + "version" + "=" + "2.0.0"
         + ("&" + "configurationId" + "=" + id)
  {
    assert ExpectedFields(v) == [Field("token", v.token), Field("deeplink", v.deeplink),
                                 Field("defaultTheme", v.theme), Field("version", "2.0.0"),
                                 Field("configurationId", id)];
    Fields5("token", v.token, "deeplink", v.deeplink, "defaultTheme", v.theme,
            "version", "2.0.0", "configurationId", id);
  }

  /** Reading the query of the launch URL recovers token, deep link, theme,
      the fixed version and, exactly when one was given, the configuration
      id, provided no value contains '&', '#' or '%'. */
  lemma LaunchUrlRoundTrip(v: EmbeddedView)
    requires QuerySafe(v.token) && QuerySafe(v.deeplink) && QuerySafe(v.theme)
    requires v.configurationId.Some? ==> QuerySafe(v.configurationId.value)
    ensures QueryParams(LaunchUrl(v)) == Some(ExpectedParams(v))
  {
    var origin := BaseOrigin(v.env);
    NoQueryInOrigin(v.env);
    UrlShape(origin, v);
    ExpectedReadable(v);
    ReadQuery(origin + "/embedded-view", ExpectedFields(v), ExpectedParams(v));
  }

  /** The part before the query holds no '?' and no '#'. */
  lemma NoQueryInOrigin(env: string)
    ensures '?' !in BaseOrigin(env) + "/embedded-view"
    ensures '#' !in BaseOrigin(env) + "/embedded-view"
  {
    var o := BaseOrigin(env);
    PlainOrigin(o);
    assert forall i :: 0 <= i < |"/embedded-view"| ==> PlainChar("/embedded-view"[i]);
    PlainHasNoDelimiter(o + "/embedded-view");
  }

  /** Every origin is made of plain characters. */
  lemma PlainOrigin(o: string)
    requires o in {ProductionOrigin, SandboxOrigin, StagingOrigin, QaOrigin}
    ensures forall i :: 0 <= i < |o| ==> PlainChar(o[i])
  {
    assert forall i :: 0 <= i < |ProductionOrigin| ==> PlainChar(ProductionOrigin[i]);
    assert forall i :: 0 <= i < |SandboxOrigin| ==> PlainChar(SandboxOrigin[i]);
    assert forall i :: 0 <= i < |StagingOrigin| ==> PlainChar(StagingOrigin[i]);
    assert forall i :: 0 <= i < |QaOrigin| ==> PlainChar(QaOrigin[i]);
  }

  /** The expected fields are the expected parameters written out, and the
      reader can recover each of them. */
  lemma ExpectedReadable(v: EmbeddedView)
    requires QuerySafe(v.token) && QuerySafe(v.deeplink) && QuerySafe(v.theme)
    requires v.configurationId.Some? ==> QuerySafe(v.configurationId.value)
    ensures var ps, fs := ExpectedParams(v), ExpectedFields(v);
      && |fs| == |ps| >= 1
      && (forall i :: 0 <= i < |ps| ==> Readable(ps[i]))
      && (forall i :: 0 <= i < |fs| ==> fs[i] == Field(ps[i].key, ps[i].value))
  {
    KeysReadable();
  }

  /** The parameter names contain no '=' and are safe, and so is the
      fixed version. */
  lemma KeysReadable()
    ensures forall k :: k in ["token", "deeplink", "defaultTheme", "version", "configurationId"] ==>
      '=' !in k && QuerySafe(k)
    ensures QuerySafe("2.0.0")
  {
    assert forall i :: 0 <= i < |"token"| ==> PlainChar("token"[i]);
    assert forall i :: 0 <= i < |"deeplink"| ==> PlainChar("deeplink"[i]);
    assert forall i :: 0 <= i < |"defaultTheme"| ==> PlainChar("defaultTheme"[i]);
    assert forall i :: 0 <= i < |"version"| ==> PlainChar("version"[i]);
    assert forall i :: 0 <= i < |"configurationId"| ==> PlainChar("configurationId"[i]);
    assert forall i :: 0 <= i < |"2.0.0"| ==> PlainChar("2.0.0"[i]);
    PlainHasNoDelimiter("token");
    PlainHasNoDelimiter("deeplink");
    PlainHasNoDelimiter("defaultTheme");
    PlainHasNoDelimiter("version");
    PlainHasNoDelimiter("configurationId");
    PlainHasNoDelimiter("2.0.0");
  }

  /** Without percent-encoding the URL does not determine the view: a token
      holding "&deeplink=" reads the same as a different token and deep
      link. */
  lemma LaunchUrlAmbiguous(env: string)
    ensures var a := NewView("t&deeplink=x", env, "y");
            var b := NewView("t", env, "x&deeplink=y");
            a != b && LaunchUrl(a) == LaunchUrl(b)
  {
    var a := NewView("t&deeplink=x", env, "y");
    var b := NewView("t", env, "x&deeplink=y");
    AmbiguousPieces();
    SameUrlAt(BaseOrigin(env), a, b);
  }

  lemma AmbiguousPieces()
    ensures "t&deeplink=x" == "t" + "&deeplink=" + "x"
    ensures "x&deeplink=y" == "x" + "&deeplink=" + "y"
    ensures "t&deeplink=x" != "t"
  {
    assert |"t&deeplink=x"| != |"t"|;
  }

  /** Without percent-encoding a '#' in a value starts the fragment: a
      token "a#b" leaves the query with the token "a" alone, and the deep
      link, theme, version and configuration id are lost to the fragment. */
  lemma LaunchUrlFragment(env: string, deeplink: string)
    ensures QueryParams(LaunchUrl(NewView("a#b", env, deeplink))) == Some([Param("token", "a")])
  {
    var v := NewView("a#b", env, deeplink);
    var origin := BaseOrigin(env);
    NoQueryInOrigin(env);
    UrlShape(origin, v);
    var fields := ExpectedFields(v);
    var rest := Join(fields[1..], '&');
    assert Join(fields, '&') == fields[0] + "&" + rest;
    FragmentPieces();
    assert LaunchUrl(v) == origin + "/embedded-view" + "?" + Field("token", "a") + "#" + ("b" + "&" + rest);
    KeysReadable();
    assert QuerySafe("a");
    FragmentHidesRest(origin + "/embedded-view", "token", "a", "b" + "&" + rest);
  }

  lemma FragmentPieces()
    ensures Field("token", "a#b") == Field("token", "a") + "#" + "b"
  {
  }

  /** Two views whose token and deep link concatenate to the same text
      produce the same URL. */
  lemma SameUrlAt(origin: string, a: EmbeddedView, b: EmbeddedView)
    requires a.token + "&deeplink=" + a.deeplink == b.token + "&deeplink=" + b.deeplink
    requires a.theme == b.theme && a.configurationId == b.configurationId
    ensures UrlAt(origin, a) == UrlAt(origin, b)
  {
    UrlPieces(origin, a);
    UrlPieces(origin, b);
  }

  /** The interpolation grouped as the text before the token, the token
      and deep link, and the rest. */
  lemma UrlPieces(origin: string, v: EmbeddedView)
    ensures UrlAt(origin, v)
         == origin + "/embedded-view?token=" + (v.token + "&deeplink=" + v.deeplink)
            + ("&defaultTheme=" + v.theme + "&version=2.0.0"
               + match v.configurationId case Some(id) => "&configurationId=" + id case None => "")
  {
  }

  /** `makeUIView` loads the URL exactly when `URL(string:)` accepts it;
      that parser is the opaque `validUrl`. */
  function LoadedUrl(v: EmbeddedView, validUrl: string -> bool): (r: Option<string>)
    ensures r.Some? <==> validUrl(LaunchUrl(v))
    ensures r.Some? ==> r.value == LaunchUrl(v)
  {
    var url := LaunchUrl(v);
    if validUrl(url) then Some(url) else None
  }
}
