/** The launch URL of the older `AerosyncSDK` view (aerosync_ios_sdk.swift,
    `updateUIView`): a host looked up in the global environment table,
    followed by token, deep link and an optional consumer id, written by
    string interpolation without percent-encoding. The lookup and the token
    and deep link are force-unwrapped; the preconditions stand for those
    traps. */
module SdkUrl {
  import opened Wrappers
  import opened Text

  /** The global `environments` table: each name maps to a host with a
      trailing slash. */
  const Environments: map<string, string> := map[
    "dev" := "dev.aerosync.com/",
    "staging" := "staging.aerosync.com/",
    "production" := "www.aerosync.com/"]

  /** The view's configuration as the URL reads it. */
  datatype SdkView = SdkView(token: Option<string>, env: string, deeplink: Option<string>, consumerId: Option<string>)

  /** The force-unwraps succeed: the environment is in the table and token
      and deep link are present. */
  predicate Unwraps(v: SdkView) {
    v.env in Environments && v.token.Some? && v.deeplink.Some?
  }

  /** The table knows exactly three environments; "sandbox", "qa" and any
      other name make the view trap. */
  lemma EnvironmentNames(v: SdkView)
    ensures Unwraps(v) ==> v.env in {"dev", "staging", "production"}
    ensures v.token.Some? && v.deeplink.Some? && v.env in {"dev", "staging", "production"} ==> Unwraps(v)
  {
  }

  /** The URL string built in `updateUIView`. */
  function LaunchUrl(v: SdkView): string
    requires Unwraps(v)
  {
    "https://" + Environments[v.env] + "?token=" + v.token.value + "&deeplink=" + v.deeplink.value
      + (if v.consumerId.Some? then "&consumerId=" + v.consumerId.value else "")
  }

  /** The query parameters the URL is meant to carry, in order. */
  function ExpectedParams(v: SdkView): seq<Param>
    requires Unwraps(v)
  {
    [Param("token", v.token.value), Param("deeplink", v.deeplink.value)]
    + match v.consumerId
      case Some(id) => [Param("consumerId", id)]
      case None => []
  }

  /** The expected parameters written as `key=value` fields. */
  function ExpectedFields(v: SdkView): seq<string>
    requires Unwraps(v)
  {
    [Field("token", v.token.value), Field("deeplink", v.deeplink.value)]
    + match v.consumerId
      case Some(id) => [Field("consumerId", id)]
      case None => []
  }

  /** The URL is the host from the table and the expected fields joined by
      '&'. */
  lemma UrlShape(v: SdkView)
    requires Unwraps(v)
    ensures LaunchUrl(v) == "https://" + Environments[v.env] + "?" + Join(ExpectedFields(v), '&')
  {
    var host := "https://" + Environments[v.env];
    var tail := if v.consumerId.Some? then "&consumerId=" + v.consumerId.value else "";
    assert LaunchUrl(v) == host + "?token=" + v.token.value + "&deeplink=" + v.deeplink.value + tail;
    HostAndQuery(host, v.token.value, v.deeplink.value, tail);
    match v.consumerId {
      case None => QueryWithoutConsumer(v);
      case Some(id) => QueryWithConsumer(v, id);
    }
  }

  /** The interpolation regrouped at '?', with the host left abstract. */
  lemma HostAndQuery(host: string, t: string, d: string, tail: string)
    ensures host + "?token=" + t + "&deeplink=" + d + tail
         == host + "?" + ("token" + "=" + t + "&" + "deeplink" + "=" + d + tail)
  {
    UrlLiterals();
  }

  lemma QueryWithoutConsumer(v: SdkView)
    requires Unwraps(v) && v.consumerId.None?
    ensures Join(ExpectedFields(v), '&') == "token" + "=" + v.token.value + "&" + "deeplink" + "=" + v.deeplink.value + ""
  {
    assert ExpectedFields(v) == [Field("token", v.token.value), Field("deeplink", v.deeplink.value)];
    Fields2("token", v.token.value, "deeplink", v.deeplink.value);
  }

  lemma QueryWithConsumer(v: SdkView, id: string)
    requires Unwraps(v) && v.consumerId == Some(id)
    ensures Join(ExpectedFields(v), '&')
         == "token" + "=" + v.token.value + "&" + "deeplink" + "=" + v.deeplink.value + ("&consumerId=" + id)
  {
    assert ExpectedFields(v)
        == [Field("token", v.token.value), Field("deeplink", v.deeplink.value), Field("consumerId", id)];
    Fields3("token", v.token.value, "deeplink", v.deeplink.value, "consumerId", id);
    UrlLiterals();
  }

  /** The literal pieces of the interpolation, split at '?', '&' and '='. */
  lemma UrlLiterals()
    ensures "?token=" == "?" + "token" + "="
    ensures "&deeplink=" == "&" + "deeplink" + "="
    ensures "&consumerId=" == "&" + "consumerId" + "="
  {
  }

  /** Reading the query of the launch URL recovers token, deep link and,
      exactly when one was given, the consumer id, provided no value
      contains '&', '#' or '%'; the part before the query is the host from the table. */
  lemma LaunchUrlRoundTrip(v: SdkView)
    requires Unwraps(v)
    requires QuerySafe(v.token.value) && QuerySafe(v.deeplink.value)
    requires v.consumerId.Some? ==> QuerySafe(v.consumerId.value)
    ensures Cut(LaunchUrl(v), '?') == Some(("https://" + Environments[v.env], Join(ExpectedFields(v), '&')))
    ensures QueryParams(LaunchUrl(v)) == Some(ExpectedParams(v))
  {
    var prefix := "https://" + Environments[v.env];
    var query := Join(ExpectedFields(v), '&');
    NoQueryInHost(v.env);
    UrlShape(v);
    assert prefix + "?" + query == prefix + ['?'] + query;
    CutAfterFreePrefix(prefix, '?', query);
    ExpectedReadable(v);
    ReadQuery(prefix, ExpectedFields(v), ExpectedParams(v));
  }

  /** No host in the table holds a '?' or a '#'. */
  lemma NoQueryInHost(env: string)
    requires env in Environments
    ensures '?' !in "https://" + Environments[env]
    ensures '#' !in "https://" + Environments[env]
  {
    var h := "https://" + Environments[env];
    assert forall i :: 0 <= i < |"https://"| ==> PlainChar("https://"[i]);
    assert forall i :: 0 <= i < |"dev.aerosync.com/"| ==> PlainChar("dev.aerosync.com/"[i]);
    assert forall i :: 0 <= i < |"staging.aerosync.com/"| ==> PlainChar("staging.aerosync.com/"[i]);
    assert forall i :: 0 <= i < |"www.aerosync.com/"| ==> PlainChar("www.aerosync.com/"[i]);
    PlainHasNoDelimiter(h);
  }

  /** The expected fields are the expected parameters written out, and the
      reader can recover each of them. */
  lemma ExpectedReadable(v: SdkView)
    requires Unwraps(v)
    requires QuerySafe(v.token.value) && QuerySafe(v.deeplink.value)
    requires v.consumerId.Some? ==> QuerySafe(v.consumerId.value)
    ensures var ps, fs := ExpectedParams(v), ExpectedFields(v);
      && |fs| == |ps| >= 1
      && (forall i :: 0 <= i < |ps| ==> Readable(ps[i]))
      && (forall i :: 0 <= i < |fs| ==> fs[i] == Field(ps[i].key, ps[i].value))
  {
    assert forall i :: 0 <= i < |"token"| ==> PlainChar("token"[i]);
    assert forall i :: 0 <= i < |"deeplink"| ==> PlainChar("deeplink"[i]);
    assert forall i :: 0 <= i < |"consumerId"| ==> PlainChar("consumerId"[i]);
    PlainHasNoDelimiter("token");
    PlainHasNoDelimiter("deeplink");
    PlainHasNoDelimiter("consumerId");
  }

  /** What `updateUIView` does after building the URL. */
  datatype ViewAction = Dismiss | Load(url: string) | NoLoad

  /** `updateUIView`: dismiss and load nothing when the flag is set while
      the view is presented; otherwise load the URL if `URL(string:)`
      (the opaque `validUrl`) accepts it. The URL is built for the log line
      before the guard, so the force-unwraps trap on either path. */
  function UpdateView(v: SdkView, shouldDismiss: bool, isPresented: bool, validUrl: string -> bool): (a: ViewAction)
    requires Unwraps(v)
    ensures a.Dismiss? <==> shouldDismiss && isPresented
    ensures a.Load? <==> !(shouldDismiss && isPresented) && validUrl(LaunchUrl(v))
    ensures a.Load? ==> a.url == LaunchUrl(v)
  {
    if shouldDismiss && isPresented then Dismiss
    else
      var url := LaunchUrl(v);
      if validUrl(url) then Load(url) else NoLoad
  }
}
