/** What a message handler does, reified as data: host callback invocations,
    the write of the dismissal flag, and the cross-widget launch
    notification. */
module Effects {
  import opened Json

  /** One script message as the bridge receives it: the handler name it was
      posted to and its body. */
  datatype Message = Message(name: string, body: Json)

  /** The host callback slots of both views. */
  datatype Callback = OnLoad | OnBankClick | OnError | OnEvent | OnSuccess | OnClose

  /** The object of the "LaunchWidgetFromEmbedded" notification. */
  datatype LaunchData = LaunchData(stateCode: string, token: string, env: string, configurationId: string)

  datatype Effect =
    | Invoke(callback: Callback, arg: Json)
    | SetDismiss
    | Launch(data: LaunchData)

  /** Number of host callback invocations in a list of effects. */
  function CallbackCount(es: seq<Effect>): nat {
    if |es| == 0 then 0
    else (if es[0].Invoke? then 1 else 0) + CallbackCount(es[1..])
  }

  /** The launch records of a list of effects, in order. */
  function LaunchRecords(es: seq<Effect>): (r: seq<LaunchData>)
    ensures |r| <= |es|
    ensures forall d :: d in r <==> Launch(d) in es
  {
    if |es| == 0 then []
    else (if es[0].Launch? then [es[0].data] else []) + LaunchRecords(es[1..])
  }

  /** Both counters distribute over the concatenation of two effect lists,
      which is how a run of messages is composed. */
  lemma {:induction false} CountsAppend(a: seq<Effect>, b: seq<Effect>)
    ensures CallbackCount(a + b) == CallbackCount(a) + CallbackCount(b)
    ensures LaunchRecords(a + b) == LaunchRecords(a) + LaunchRecords(b)
  {
    if |a| == 0 {
      assert a + b == b;
    } else {
      assert (a + b)[1..] == a[1..] + b;
      CountsAppend(a[1..], b);
    }
  }

  /** The counters of a one-effect list, spelled out. */
  lemma CountsOfOne(a: Effect)
    ensures CallbackCount([a]) == if a.Invoke? then 1 else 0
    ensures LaunchRecords([a]) == if a.Launch? then [a.data] else []
  {
    assert [a][1..] == [];
  }

  /** The counters of a two-effect list, spelled out. */
  lemma CountsOfTwo(a: Effect, b: Effect)
    ensures CallbackCount([a, b]) == (if a.Invoke? then 1 else 0) + (if b.Invoke? then 1 else 0)
    ensures LaunchRecords([a, b])
         == (if a.Launch? then [a.data] else []) + (if b.Launch? then [b.data] else [])
  {
    assert [a, b][1..] == [b];
    CountsOfOne(b);
  }
}
