/** The message bridge of the older `AerosyncSDK` view (aerosync_ios_sdk.swift,
    `Coordinator.userContentController`): four independent `if`s, each
    guarded by the handler name and, for all but `onSuccess`, by a string
    body. The view's `shouldDismiss` flag is the only state. */
module SdkBridge {
  import opened Wrappers
  import opened Json
  import opened Effects
  import SdkUrl

  /** The four `if`s, one after another. Every `if` is evaluated; the
      handler name decides which of them can fire. */
  function Dispatch(m: Message): (effects: seq<Effect>)
    ensures CallbackCount(effects) <= 1
    ensures LaunchRecords(effects) == []
    ensures m.name !in {"onError", "onEvent", "onSuccess", "onClose"} ==> effects == []
    ensures m.name != "onSuccess" && !m.body.JStr? ==> effects == []
    ensures m.name == "onError" && m.body.JStr? ==> effects == [Invoke(OnError, m.body)]
    ensures m.name == "onEvent" && m.body.JStr? ==> effects == [Invoke(OnEvent, m.body)]
    ensures m.name == "onSuccess" ==> effects == [SetDismiss, Invoke(OnSuccess, m.body)]
    ensures m.name == "onClose" && m.body.JStr? ==> effects == [SetDismiss, Invoke(OnClose, JStr("Closed"))]
  {
    var onError := if m.name == "onError" && m.body.JStr? then [Invoke(OnError, m.body)] else [];
    var onEvent := if m.name == "onEvent" && m.body.JStr? then [Invoke(OnEvent, m.body)] else [];
    var onSuccess := if m.name == "onSuccess" then [SetDismiss, Invoke(OnSuccess, m.body)] else [];
    var onClose := if m.name == "onClose" && m.body.JStr? then [SetDismiss, Invoke(OnClose, JStr("Closed"))] else [];
    OneBranchFires(m, onError, onEvent, onSuccess, onClose);
    onError + onEvent + onSuccess + onClose
  }

  /** Since the four guards name four different handlers, at most one
      branch is non-empty and the concatenation is that branch. */
  lemma OneBranchFires(m: Message, a: seq<Effect>, b: seq<Effect>, c: seq<Effect>, d: seq<Effect>)
    requires a == if m.name == "onError" && m.body.JStr? then [Invoke(OnError, m.body)] else []
    requires b == if m.name == "onEvent" && m.body.JStr? then [Invoke(OnEvent, m.body)] else []
    requires c == if m.name == "onSuccess" then [SetDismiss, Invoke(OnSuccess, m.body)] else []
    requires d == if m.name == "onClose" && m.body.JStr? then [SetDismiss, Invoke(OnClose, JStr("Closed"))] else []
    ensures CallbackCount(a + b + c + d) <= 1
    ensures LaunchRecords(a + b + c + d) == []
    ensures a + b + c + d == (if a != [] then a else if b != [] then b else if c != [] then c else d)
  {
    var e := a + b + c + d;
    assert e == a || e == b || e == c || e == d;
    CountsOfOne(Invoke(OnError, m.body));
    CountsOfOne(Invoke(OnEvent, m.body));
    CountsOfTwo(SetDismiss, Invoke(OnSuccess, m.body));
    CountsOfTwo(SetDismiss, Invoke(OnClose, JStr("Closed")));
  }

  /** Whether a message makes the dispatcher set `shouldDismiss`: any
      `onSuccess`, and an `onClose` with a string body. */
  predicate Dismisses(m: Message) {
    m.name == "onSuccess" || (m.name == "onClose" && m.body.JStr?)
  }

  /** The flag after a list of effects has been applied in order. */
  function Apply(flag: bool, effects: seq<Effect>): bool
    decreases |effects|
  {
    if |effects| == 0 then flag
    else Apply(if effects[0].SetDismiss? then true else flag, effects[1..])
  }

  /** The dispatcher only ever writes `true`: applying effects keeps a set
      flag set, and sets it exactly when one of them is a write. */
  lemma {:induction false} ApplyOnlySets(flag: bool, effects: seq<Effect>)
    ensures Apply(flag, effects) == (flag || SetDismiss in effects)
    decreases |effects|
  {
    if |effects| > 0 {
      ApplyOnlySets(if effects[0].SetDismiss? then true else flag, effects[1..]);
      assert effects == [effects[0]] + effects[1..];
    }
  }

  /** The flag and the effects after one message. */
  datatype Outcome = Outcome(shouldDismiss: bool, effects: seq<Effect>)

  /** Handle a sequence of messages one after another, starting from the
      given flag. */
  function Run(flag: bool, msgs: seq<Message>): Outcome
    decreases |msgs|
  {
    if |msgs| == 0 then Outcome(flag, [])
    else
      var first := Dispatch(msgs[0]);
      var rest := Run(Apply(flag, first), msgs[1..]);
      Outcome(rest.shouldDismiss, first + rest.effects)
  }

  /** One message writes the flag exactly when it dismisses. */
  lemma DispatchWrites(m: Message)
    ensures SetDismiss in Dispatch(m) <==> Dismisses(m)
  {
  }

  /** After a run the flag is set exactly when it was set before or some
      message dismissed; in particular it is never cleared. */
  lemma {:induction false} RunFlag(flag: bool, msgs: seq<Message>)
    ensures Run(flag, msgs).shouldDismiss <==> flag || exists i :: 0 <= i < |msgs| && Dismisses(msgs[i])
    decreases |msgs|
  {
    if |msgs| > 0 {
      var first := Dispatch(msgs[0]);
      ApplyOnlySets(flag, first);
      DispatchWrites(msgs[0]);
      RunFlag(Apply(flag, first), msgs[1..]);
      if exists i :: 0 <= i < |msgs[1..]| && Dismisses(msgs[1..][i]) {
        var i :| 0 <= i < |msgs[1..]| && Dismisses(msgs[1..][i]);
        assert Dismisses(msgs[i + 1]);
      }
      if exists i :: 0 <= i < |msgs| && Dismisses(msgs[i]) {
        var i :| 0 <= i < |msgs| && Dismisses(msgs[i]);
        if i > 0 {
          assert Dismisses(msgs[1..][i - 1]);
        }
      }
    }
  }

  /** A run invokes at most one callback per message and never launches. */
  lemma {:induction false} RunCallbacks(flag: bool, msgs: seq<Message>)
    ensures CallbackCount(Run(flag, msgs).effects) <= |msgs|
    ensures LaunchRecords(Run(flag, msgs).effects) == []
    decreases |msgs|
  {
    if |msgs| > 0 {
      var first := Dispatch(msgs[0]);
      var rest := Run(Apply(flag, first), msgs[1..]);
      CountsAppend(first, rest.effects);
      RunCallbacks(Apply(flag, first), msgs[1..]);
    }
  }

  /** `onSuccess` then `onClose`: each callback once, in arrival order, and
      the flag set after both. */
  lemma SuccessThenClose(flag: bool, body: Json, text: string)
    ensures Run(flag, [Message("onSuccess", body), Message("onClose", JStr(text))])
         == Outcome(true, [SetDismiss, Invoke(OnSuccess, body), SetDismiss, Invoke(OnClose, JStr("Closed"))])
  {
    var success, close := Message("onSuccess", body), Message("onClose", JStr(text));
    var first, second := Dispatch(success), Dispatch(close);
    assert [success, close][1..] == [close];
    assert [close][1..] == [];
    ApplyOnlySets(flag, first);
    ApplyOnlySets(true, second);
    assert Run(true, [close]) == Outcome(true, second);
    assert Run(flag, [success, close]) == Outcome(true, first + second);
  }

  /** `onClose` hands "Closed" to the host whatever string it carried, and
      a body that is not a string (null, a dictionary) is dropped without
      touching the flag. */
  lemma CloseIgnoresBody(a: string, b: string, other: Json)
    requires !other.JStr?
    ensures Dispatch(Message("onClose", JStr(a))) == Dispatch(Message("onClose", JStr(b)))
    ensures Dispatch(Message("onClose", other)) == []
    ensures Run(false, [Message("onClose", other)]) == Outcome(false, [])
  {
    assert [Message("onClose", other)][1..] == [];
  }

  /** A date body reaches only `onSuccess`, which forwards it and sets the
      flag; the other three handlers drop it, as it is not a string. */
  lemma DateBodies(t: int)
    ensures Dispatch(Message("onSuccess", JDate(t))) == [SetDismiss, Invoke(OnSuccess, JDate(t))]
    ensures Dispatch(Message("onError", JDate(t))) == []
    ensures Dispatch(Message("onEvent", JDate(t))) == []
    ensures Dispatch(Message("onClose", JDate(t))) == []
  {
  }

  /** The next render of a presented view after a dismissing message
      dismisses it and loads nothing. */
  lemma DismissAfterRun(v: SdkUrl.SdkView, flag: bool, msgs: seq<Message>, i: nat, validUrl: string -> bool)
    requires SdkUrl.Unwraps(v)
    requires i < |msgs| && Dismisses(msgs[i])
    ensures SdkUrl.UpdateView(v, Run(flag, msgs).shouldDismiss, true, validUrl) == SdkUrl.Dismiss
  {
    RunFlag(flag, msgs);
  }

  /** `webView(_:didFinish:)`: `onLoad` receives the page address. The
      address is force-unwrapped, so a view without one traps; the
      precondition stands for that trap. */
  function DidFinish(pageUrl: Option<string>): (effects: seq<Effect>)
    requires pageUrl.Some?
    ensures CallbackCount(effects) == 1 && LaunchRecords(effects) == []
    ensures effects == [Invoke(OnLoad, JStr(pageUrl.value))]
  {
    CountsOfOne(Invoke(OnLoad, JStr(pageUrl.value)));
    [Invoke(OnLoad, JStr(pageUrl.value))]
  }

  /** A finished load leaves `shouldDismiss` as it was: it neither dismisses
      nor re-arms the view. */
  lemma LoadKeepsFlag(flag: bool, pageUrl: string)
    ensures Apply(flag, DidFinish(Some(pageUrl))) == flag
  {
    ApplyOnlySets(flag, DidFinish(Some(pageUrl)));
  }
}
