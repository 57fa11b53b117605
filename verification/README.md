# aerosync-ios-sdk: launch URLs and message bridges, modelled in Dafny

The Aerosync iOS SDK wraps a vendor-hosted bank-linking web page in a
`WKWebView` and relays named script messages from the page to host
callbacks. This project models the two pieces of it that are plain logic:

- **Launch-URL construction.** `AerosyncEmbeddedView.makeUIView` picks a base
  origin from the lower-cased environment name and falls back to the QA host.
  It then interpolates token, deep link, theme, the fixed `version=2.0.0` and
  an optional configuration id. The older `AerosyncSDK.updateUIView` looks the
  environment up in a three-entry global table and interpolates token, deep
  link and an optional consumer id, force-unwrapping each. Neither builder
  percent-encodes anything. The model reproduces that literally.
- **Message-bridge dispatch.** Each `(handler name, body)` pair becomes an
  ordered list of effects. An effect is a host callback invocation, a write
  of the `shouldDismiss` flag, or a "LaunchWidgetFromEmbedded" notification
  record. The embedded view extracts a bank-click `stateCode` with three
  ordered strategies and decodes `{type, payload}` envelopes. The older view
  filters messages by handler name and body type and keeps one flag.

Message bodies are a small JSON-like datatype (`Json.Json`) covering every
kind of body WebKit delivers: strings, dictionaries, arrays, numbers,
booleans, dates and null. `JSONSerialization`
becomes a parameter `parse: string -> Option<Json>` that the model never
interprets. `URL(string:)` becomes a parameter `validUrl: string -> bool`.

Modules:

- `Wrappers`: `Option`.
- `Json`: bodies and the Swift casts `as? String` / `as? [String: Any]`.
- `Effects`: messages, callbacks, launch records, effect counters.
- `Text`: ASCII lower-casing, plus a small query-string reader. It splits
  the URL into components as section 3 of RFC 3986 does: the fragment from
  the first `#` is dropped, and the query starts after the first `?`. It
  then follows the form-urlencoded convention, splitting the query on `&`
  and cutting each field at its first `=`. It does no decoding. It is not
  part of the SDK; the URL builders are proved against it.
- `EmbeddedUrl`, `EmbeddedBridge`: `Sources/aerosync-ios-sdk/aerosync_embedded_view.swift`.
- `SdkUrl`, `SdkBridge`: `Sources/aerosync-ios-sdk/aerosync_ios_sdk.swift`.

The model follows the code in places where a cleaner reimplementation might differ:

- An unrecognised environment is not rejected. The embedded view silently
  picks the QA host, and the older view traps (a precondition here).
- Nothing is percent-encoded.
- The older view's `onClose` drops a non-string body (null, a dictionary)
  instead of reporting "Closed".
- The string-parsing bank-click strategy looks only under `payload`. The
  top-level `stateCode` strategy applies to dictionary bodies only.

## Model

| member | source | states |
|---|---|---|
| EmbeddedUrl.BaseOriginChoice | Sources/aerosync-ios-sdk/aerosync_embedded_view.swift:86-92 | production, sandbox and staging origins are chosen exactly for their names in any ASCII letter case; the QA origin for every other string |
| EmbeddedUrl.BaseOriginIgnoresCase | Sources/aerosync-ios-sdk/aerosync_embedded_view.swift:87 | environment names differing only in letter case select the same origin |
| EmbeddedUrl.BaseOriginFallback | Sources/aerosync-ios-sdk/aerosync_embedded_view.swift:86-91 | "dev" and the empty string fall through to the QA host |
| EmbeddedUrl.UrlShape | Sources/aerosync-ios-sdk/aerosync_embedded_view.swift:94-97 | the URL is origin + "/embedded-view?" + the token, deeplink, defaultTheme, version=2.0.0 fields joined by '&', plus configurationId exactly when one is given |
| EmbeddedUrl.LaunchUrlRoundTrip | Sources/aerosync-ios-sdk/aerosync_embedded_view.swift:94-97 | reading the URL's query gives back token, deep link, theme, "2.0.0" and, iff present, the configuration id, in that order, when no value holds '&', '#' or '%' |
| EmbeddedUrl.LaunchUrlFragment | Sources/aerosync-ios-sdk/aerosync_embedded_view.swift:94-97 | without encoding, a token "a#b" starts the fragment: the query reads back as the single parameter token=a |
| EmbeddedUrl.LaunchUrlAmbiguous | Sources/aerosync-ios-sdk/aerosync_embedded_view.swift:94 | without encoding, two different views (a token holding "&deeplink=") yield the same URL |
| EmbeddedUrl.LoadedUrl | Sources/aerosync-ios-sdk/aerosync_embedded_view.swift:99-101 | the built URL is loaded exactly when `URL(string:)` accepts it |
| EmbeddedBridge.ExtractStateCode | Sources/aerosync-ios-sdk/aerosync_embedded_view.swift:178-199 | a code is found iff the body holds a string code under payload of a dictionary, under payload of the dictionary a string body parses to, or at the top of a dictionary without a payload code; the found code is that string |
| EmbeddedBridge.ExtractByShape | Sources/aerosync-ios-sdk/aerosync_embedded_view.swift:181-199 | string bodies use only the parsing strategy; dictionary bodies use the payload strategy, then the top-level one; other bodies yield nothing |
| EmbeddedBridge.PayloadBeatsTopLevel | Sources/aerosync-ios-sdk/aerosync_embedded_view.swift:181-199 | first match wins: a payload code shadows a different top-level code |
| EmbeddedBridge.HandleBankClick | Sources/aerosync-ios-sdk/aerosync_embedded_view.swift:201-215 | onBankClick is invoked exactly once with the raw body, first; one launch record with the captured config follows iff a code was extracted; nothing else happens |
| EmbeddedBridge.EncodedMatchesStructured | Sources/aerosync-ios-sdk/aerosync_embedded_view.swift:181-194 | a string body encoding a dictionary with a payload code launches the same record as the dictionary itself |
| EmbeddedBridge.TopLevelOnlyForDictionaries | Sources/aerosync-ios-sdk/aerosync_embedded_view.swift:187-199 | the JSON text of a dictionary with only a top-level code launches nothing, while the dictionary launches |
| EmbeddedBridge.DecodeEnvelope | Sources/aerosync-ios-sdk/aerosync_embedded_view.swift:145-151 | an envelope is decoded iff the body is a string that parses to a dictionary with a string `type` |
| EmbeddedBridge.HandleGeneric | Sources/aerosync-ios-sdk/aerosync_embedded_view.swift:153-175 | no envelope gives no effects; widgetBankClick invokes onBankClick(inner payload) and launches iff the payload is a dictionary with a string code; widgetError invokes onError(payload) iff a payload key exists; other types do nothing |
| EmbeddedBridge.EnvelopeMatchesChannel | Sources/aerosync-ios-sdk/aerosync_embedded_view.swift:153-168 | an envelope and an onBankClick body wrapping the same payload launch the same record; the callback gets the inner payload vs the whole body |
| EmbeddedBridge.Dispatch | Sources/aerosync-ios-sdk/aerosync_embedded_view.swift:126-143 | logHandler and unregistered names do nothing; onEvent gives exactly onLoad(body), onError exactly onError(body); onBankClick and messageHandler give exactly the bank-click and envelope handlers' effects; at most one callback and one launch; every launch carries the captured token, env, configurationId-or-"" and directly follows an onBankClick call; no message writes a dismissal flag |
| EmbeddedBridge.CoordinatorLaunches | Sources/aerosync-ios-sdk/aerosync_embedded_view.swift:119-124 | a coordinator created from a view stamps every launch with that view's token, env and configurationId-or-"", and launches iff the message resolves a code |
| EmbeddedBridge.DispatchLaunches | Sources/aerosync-ios-sdk/aerosync_embedded_view.swift:155-212 | a message launches exactly one record iff it resolves a state code through either bank-click path |
| EmbeddedBridge.RunLaunchOrder | Sources/aerosync-ios-sdk/aerosync_embedded_view.swift:158-212 | over a run, launch records are the resolved codes in arrival order, each with the captured configuration |
| EmbeddedBridge.RunCallbacks | Sources/aerosync-ios-sdk/aerosync_embedded_view.swift:126-143 | a run invokes at most one callback per message |
| EmbeddedBridge.LogIsInert | Sources/aerosync-ios-sdk/aerosync_embedded_view.swift:137-139 | dropping the console log messages from a run changes none of its effects |
| EmbeddedBridge.DateBodies | Sources/aerosync-ios-sdk/aerosync_embedded_view.swift:128-136 | a date body is forwarded unchanged by onEvent, onError and onBankClick, launches nothing, and is dropped by messageHandler |
| EmbeddedBridge.DidFinish | Sources/aerosync-ios-sdk/aerosync_embedded_view.swift:218-219 | a finished load invokes onLoad once with the page address, or "" when there is none |
| SdkUrl.EnvironmentNames | Sources/aerosync-ios-sdk/aerosync_ios_sdk.swift:7-9 | the force-unwraps succeed only for dev, staging or production with token and deep link present |
| SdkUrl.UrlShape | Sources/aerosync-ios-sdk/aerosync_ios_sdk.swift:71 | the URL is "https://" + table host + "?" + token and deeplink fields joined by '&', plus consumerId exactly when one is given |
| SdkUrl.LaunchUrlRoundTrip | Sources/aerosync-ios-sdk/aerosync_ios_sdk.swift:71 | the part before '?' is "https://" + the table host; the query reads back token, deep link and, iff present, the consumer id, when no value holds '&', '#' or '%' |
| SdkUrl.UpdateView | Sources/aerosync-ios-sdk/aerosync_ios_sdk.swift:61-77 | dismisses iff shouldDismiss and presented; otherwise loads the built URL iff `URL(string:)` accepts it |
| SdkBridge.Dispatch | Sources/aerosync-ios-sdk/aerosync_ios_sdk.swift:90-110 | non-string bodies are dropped except for onSuccess; onSuccess writes the flag then calls onSuccess(body); onClose with a string writes the flag then calls onClose("Closed"); at most one callback, no launch; other names do nothing |
| SdkBridge.OneBranchFires | Sources/aerosync-ios-sdk/aerosync_ios_sdk.swift:90-110 | of the four sequential ifs at most one fires, so their concatenation is that branch |
| SdkBridge.DispatchWrites | Sources/aerosync-ios-sdk/aerosync_ios_sdk.swift:100-109 | a message writes shouldDismiss iff it is onSuccess, or onClose with a string body |
| SdkBridge.ApplyOnlySets | Sources/aerosync-ios-sdk/aerosync_ios_sdk.swift:100-109 | applying effects only ever sets the flag: the result is the old flag or any write |
| SdkBridge.RunFlag | Sources/aerosync-ios-sdk/aerosync_ios_sdk.swift:100-109 | after a run the flag is set iff it was set before or some message dismissed; it is never cleared |
| SdkBridge.RunCallbacks | Sources/aerosync-ios-sdk/aerosync_ios_sdk.swift:90-110 | a run invokes at most one callback per message and launches nothing |
| SdkBridge.SuccessThenClose | Sources/aerosync-ios-sdk/aerosync_ios_sdk.swift:100-109 | onSuccess then onClose: both callbacks once, in arrival order, flag set |
| SdkBridge.CloseIgnoresBody | Sources/aerosync-ios-sdk/aerosync_ios_sdk.swift:105-109 | onClose reports "Closed" whatever string it carried; a non-string body is dropped and leaves the flag clear |
| SdkBridge.DateBodies | Sources/aerosync-ios-sdk/aerosync_ios_sdk.swift:91-109 | a date body is forwarded by onSuccess, which sets the flag, and dropped by onError, onEvent and onClose |
| SdkBridge.DismissAfterRun | Sources/aerosync-ios-sdk/aerosync_ios_sdk.swift:66-69 | once any message has dismissed, the next render of a presented view dismisses it |
| SdkBridge.DidFinish | Sources/aerosync-ios-sdk/aerosync_ios_sdk.swift:117-118 | a finished load invokes exactly onLoad(page address) and nothing else; the address is force-unwrapped (a precondition) |
| SdkBridge.LoadKeepsFlag | Sources/aerosync-ios-sdk/aerosync_ios_sdk.swift:117-118 | a finished load leaves shouldDismiss unchanged |

## Left out

- `WKWebViewConfiguration` and `WKWebView` setup, handler registration and the injected JavaScript sources. They are UI runtime plumbing. The set of registered handler names is kept as a constant.
- The readiness script passed to `evaluateJavaScript` after a load, and every `print`. They are side effects into an opaque engine.
- The navigation delegates of the older view. The two policy delegates always allow. The new-window delegate returns no web view. When the request has an address, targets no frame and the system can open it, it opens the address outside the app. These are OS calls with no state the model keeps.
- `NotificationCenter` delivery and `DispatchQueue.main.async` scheduling. The notification is an effect record placed after the callback of the same message. Across messages, only the order of launch records is claimed; the main queue is first-in first-out.
- `JSONSerialization` and `URL(string:)`. They are opaque parameters. `String.data(using: .utf8)` cannot fail on a Swift string, so that step has no failure branch.
- SwiftUI `@State` and presentation-mode semantics. They are reduced to two booleans.
- JSON numbers and dates. Numbers are kept as integers, and dates as an integer time value, because no handler inspects either.
- The global `environments` table is a `var` in the source. It is modelled as a constant because nothing in the core writes it.
- EmbeddedUrl.BaseOriginChoice: `String.lowercased()` is modelled on ASCII letters only. Non-ASCII case mappings are not modelled.
- EmbeddedUrl.LaunchUrlRoundTrip: the read-back is stated only for values without '&', '#' or '%'. With '&' the literal interpolation is ambiguous (see `LaunchUrlAmbiguous`). A '#' starts the fragment and hides the rest of the query (see `LaunchUrlFragment`). A '%' starts an escape that RFC 3986 percent-decoding would rewrite, and the reader here does no percent-decoding. A form-urlencoded reader would also read '+' as a space. Values holding '+' are inside the stated read-back, so the lemma does not cover such a reader.
- SdkUrl.LaunchUrlRoundTrip: the same restriction to values without '&', '#' or '%', for the same reasons.
- SdkBridge.DidFinish: a finished load on a view with no address traps on `webView.url!`. The model states this as a precondition and does not model the trap itself.
