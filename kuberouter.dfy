/** The kube-router encapsulator: the route-delegation strategy of the
    overlay mesh.  It adds no tunnel and no firewall rules; all it does is
    track the OS interface index of the `kube-bridge` device, first by a
    lookup in Init and afterwards from link-update notifications handled by
    a background watcher until CleanUp stops it.

    The netlink calls are inputs (SubscribeResult, LookupResult), the
    watcher goroutine is a sequence of HandleUpdate calls, and the lock is
    left out.  The value-level functions (Deliver, DeliverAll, InitStep,
    CleanUpStep) are the specification; the class KubeRouter is tied to them
    by its methods' postconditions. */
module Encapsulation {

  /** The device kube-router creates and this encapsulator watches. */
  const KubeRouterDeviceName: string := "kube-bridge"

  /** An IP address as its bytes; an IP network as an address and a mask. */
  type IP = seq<bv8>
  datatype IPNet = IPNet(ip: IP, mask: seq<bv8>)

  /** A firewall rule; its contents do not matter to this strategy. */
  datatype Rule = Rule(table: string, chain: string, spec: seq<string>)

  /** A link-change notification: the device's name and its OS index. */
  datatype LinkUpdate = LinkUpdate(name: string, index: int)

  /** The errors Init can report: the subscription to link updates failed,
      or the lookup of the device failed for a reason other than absence. */
  datatype Error = SubscribeErr | QueryErr

  datatype Option<T> = None | Some(value: T)

  /** What the link subscription reported. */
  datatype SubscribeResult = Subscribed | SubscribeFailed

  /** What the lookup of the device by name reported. */
  datatype LookupResult = Found(index: int) | NotFound | LookupFailed

  /** Constructed: no watcher yet.  Watching: the watcher is running.
      Terminated: CleanUp has closed the done channel. */
  datatype Phase = Constructed | Watching | Terminated

  /** The encapsulator's state as a value. */
  datatype State<S> = State(iface: int, strategy: S, phase: Phase)

  /** A freshly constructed encapsulator. */
  function New<S>(strategy: S): State<S>
  {
    State(0, strategy, Constructed)
  }

  /** One pass of the watcher loop: an update for the watched device
      overwrites the index, any other update is dropped, and nothing is
      consumed unless the watcher is running. */
  function Deliver<S>(s: State<S>, u: LinkUpdate): (r: State<S>)
    ensures r.strategy == s.strategy && r.phase == s.phase
    ensures u.name != KubeRouterDeviceName ==> r == s
    ensures s.phase != Watching ==> r == s
    ensures s.phase == Watching && u.name == KubeRouterDeviceName ==> r.iface == u.index
  {
    if s.phase == Watching && u.name == KubeRouterDeviceName then s.(iface := u.index) else s
  }

  /** The updates delivered in order, one watcher pass each. */
  function DeliverAll<S>(s: State<S>, us: seq<LinkUpdate>): (r: State<S>)
    ensures r.strategy == s.strategy && r.phase == s.phase
    decreases |us|
  {
    if us == [] then s else DeliverAll(Deliver(s, us[0]), us[1..])
  }

  /** Reference definition of last-write-wins: the index of the last update
      in `us` that names the watched device, or `default` if there is none. */
  function LastBridgeIndex(us: seq<LinkUpdate>, default: int): int
    decreases |us|
  {
    if us == [] then default
    else if us[|us| - 1].name == KubeRouterDeviceName then us[|us| - 1].index
    else LastBridgeIndex(us[..|us| - 1], default)
  }

  /** Scanning from the front: the first update only changes the default. */
  lemma {:induction false} LastBridgeIndexCons(u: LinkUpdate, us: seq<LinkUpdate>, default: int)
    ensures LastBridgeIndex([u] + us, default)
         == LastBridgeIndex(us, if u.name == KubeRouterDeviceName then u.index else default)
    decreases |us|
  {
    if us == [] {
      assert [u] + us == [u];
      assert [u][..0] == [];
    } else {
      var n := |us|;
      assert ([u] + us)[n] == us[n - 1];
      assert ([u] + us)[..n] == [u] + us[..n - 1];
      LastBridgeIndexCons(u, us[..n - 1], default);
    }
  }

  /** While the watcher runs, after any sequence of updates the index is the
      one carried by the last update for the watched device, and the index
      is untouched when there is none; nothing else changes. */
  lemma {:induction false} LastWriteWins<S>(s: State<S>, us: seq<LinkUpdate>)
    requires s.phase == Watching
    ensures DeliverAll(s, us) == s.(iface := LastBridgeIndex(us, s.iface))
    decreases |us|
  {
    if us != [] {
      var t := Deliver(s, us[0]);
      assert t == s.(iface := if us[0].name == KubeRouterDeviceName then us[0].index else s.iface);
      LastWriteWins(t, us[1..]);
      assert [us[0]] + us[1..] == us;
      LastBridgeIndexCons(us[0], us[1..], s.iface);
    }
  }

  /** Updates that name other devices never change the state. */
  lemma {:induction false} OtherDevicesIgnored<S>(s: State<S>, us: seq<LinkUpdate>)
    requires forall i :: 0 <= i < |us| ==> us[i].name != KubeRouterDeviceName
    ensures DeliverAll(s, us) == s
    decreases |us|
  {
    if us != [] {
      assert us[0].name != KubeRouterDeviceName;
      OtherDevicesIgnored(s, us[1..]);
    }
  }

  /** Closing the done channel: the watcher stops.  The source closes a
      channel, so a second call would panic; hence the precondition. */
  function CleanUpStep<S>(s: State<S>): (r: State<S>)
    requires s.phase != Terminated
    ensures r.phase == Terminated && r.iface == s.iface && r.strategy == s.strategy
  {
    s.(phase := Terminated)
  }

  /** Once terminated, no sequence of updates changes anything. */
  lemma {:induction false} TerminatedIgnoresUpdates<S>(s: State<S>, us: seq<LinkUpdate>)
    requires s.phase == Terminated
    ensures DeliverAll(s, us) == s
    decreases |us|
  {
    if us != [] {
      TerminatedIgnoresUpdates(Deliver(s, us[0]), us[1..]);
    }
  }

  /** After CleanUp, later updates do not change the index. */
  lemma {:induction false} CleanUpStopsWatcher<S>(s: State<S>, us: seq<LinkUpdate>)
    requires s.phase != Terminated
    ensures DeliverAll(CleanUpStep(s), us).iface == s.iface
  {
    TerminatedIgnoresUpdates(CleanUpStep(s), us);
  }

  /** Init given the outcomes of the subscription and of the lookup: a failed
      subscription is an error that starts no watcher; otherwise the watcher
      starts (unless done is already closed) before the lookup, so it keeps
      running even when the lookup fails; an absent device is not an
      error; a found device sets the index. */
  function InitStep<S>(s: State<S>, sub: SubscribeResult, lookup: LookupResult): (r: (State<S>, Option<Error>))
    ensures r.0.strategy == s.strategy
    ensures r.1 == Some(SubscribeErr) <==> sub.SubscribeFailed?
    ensures r.1 == Some(QueryErr) <==> sub.Subscribed? && lookup.LookupFailed?
    ensures r.1 == None <==> sub.Subscribed? && !lookup.LookupFailed?
    ensures sub.SubscribeFailed? ==> r.0 == s
    ensures sub.Subscribed? ==>
      r.0.phase == (if s.phase == Terminated then Terminated else Watching)
    ensures r.0.iface == (if sub.Subscribed? && lookup.Found? then lookup.index else s.iface)
  {
    if sub == SubscribeFailed then (s, Some(SubscribeErr))
    else
      var t := s.(phase := if s.phase == Terminated then Terminated else Watching);
      match lookup
      case NotFound => (t, None)
      case LookupFailed => (t, Some(QueryErr))
      case Found(i) => (t.(iface := i), None)
  }

  /** A fresh encapsulator initialised while the device does not exist yet
      reports no error and index 0, then picks up the index from the first
      update for the device, and ignores updates after CleanUp. */
  lemma {:induction false} FreshNotFoundThenUpdates<S>(strategy: S, us: seq<LinkUpdate>, later: seq<LinkUpdate>)
    ensures var (s, err) := InitStep(New(strategy), Subscribed, NotFound);
      err == None && s.iface == 0 && s.strategy == strategy &&
      DeliverAll(s, us).iface == LastBridgeIndex(us, 0) &&
      DeliverAll(CleanUpStep(DeliverAll(s, us)), later).iface == LastBridgeIndex(us, 0)
  {
    var (s, err) := InitStep(New(strategy), Subscribed, NotFound);
    LastWriteWins(s, us);
    CleanUpStopsWatcher(DeliverAll(s, us), later);
  }

  /** The encapsulator object.  `iface` is updated in place by Init and the
      watcher; `phase` stands for the state of the done channel and whether
      the watcher goroutine has been started. */
  class KubeRouter<S> {
    var iface: int
    const strategy: S
    var phase: Phase

    /** The object's state as a value. */
    function Snapshot(): State<S>
      reads this
    {
      State(iface, strategy, phase)
    }

    /** NewKubeRouter: stores the strategy; the index starts at 0. */
    constructor (strategy: S)
      ensures Snapshot() == New(strategy)
      ensures Index() == 0 && Strategy() == strategy
    {
      this.iface := 0;
      this.strategy := strategy;
      this.phase := Constructed;
    }

    /** One pass of the watcher goroutine's loop, handling update `u`. */
    method HandleUpdate(u: LinkUpdate)
      modifies this
      ensures Snapshot() == Deliver(old(Snapshot()), u)
    {
      if phase == Watching && u.name == KubeRouterDeviceName {
        iface := u.index;
      }
    }

    /** The watcher goroutine's loop, over the updates delivered to it. */
    method Watch(us: seq<LinkUpdate>)
      modifies this
      ensures Snapshot() == DeliverAll(old(Snapshot()), us)
    {
      var i := 0;
      while i < |us|
        invariant 0 <= i <= |us|
        invariant DeliverAll(Snapshot(), us[i..]) == DeliverAll(old(Snapshot()), us)
      {
        assert us[i..][1..] == us[i + 1..];
        HandleUpdate(us[i]);
        i := i + 1;
      }
    }

    /** Init, with the subscription's and the lookup's outcomes as inputs. */
    method Init(sub: SubscribeResult, lookup: LookupResult) returns (err: Option<Error>)
      modifies this
      ensures (Snapshot(), err) == InitStep(old(Snapshot()), sub, lookup)
    {
      if sub == SubscribeFailed {
        return Some(SubscribeErr);
      }
      if phase != Terminated {
        phase := Watching;
      }
      match lookup
      case NotFound =>
        return None;
      case LookupFailed =>
        return Some(QueryErr);
      case Found(i) =>
        iface := i;
        return None;
    }

    /** CleanUp: closes the done channel, which stops the watcher, and
        reports no error.  Closing it twice would panic. */
    method CleanUp() returns (err: Option<Error>)
      requires phase != Terminated
      modifies this
      ensures err == None
      ensures Snapshot() == CleanUpStep(old(Snapshot()))
    {
      phase := Terminated;
      err := None;
    }

    /** Gw: the gateway for a peer is the subnet's own address, whatever
        the node and peer addresses are. */
    function Gw(node: IP, peer: IP, subnet: IPNet): (r: IP)
      ensures r == subnet.ip
    {
      subnet.ip
    }

    /** Index: the last index recorded for the device, 0 if none yet. */
    function Index(): (r: int)
      reads this
      ensures r == Snapshot().iface
    {
      iface
    }

    /** Rules: this strategy contributes no firewall rules. */
    function Rules(subnets: seq<IPNet>): (r: seq<Rule>)
      ensures r == []
    {
      []
    }

    /** Set: configures nothing and always succeeds. */
    method Set(subnet: IPNet) returns (err: Option<Error>)
      ensures err == None
    {
      err := None;
    }

    /** Strategy: the value the encapsulator was built with. */
    function Strategy(): (r: S)
      reads this
      ensures r == Snapshot().strategy
    {
      strategy
    }
  }

  /** A caller's view: what the contracts above let a user of the object
      conclude about a typical lifetime. */
  method Lifetime<S>(strategy: S)
  {
    var k := new KubeRouter(strategy);
    assert k.Index() == 0;
    var err := k.Init(Subscribed, NotFound);
    assert err == None && k.Index() == 0;
    k.HandleUpdate(LinkUpdate("eth0", 3));
    assert k.Index() == 0;
    k.HandleUpdate(LinkUpdate(KubeRouterDeviceName, 7));
    assert k.Index() == 7;
    k.HandleUpdate(LinkUpdate(KubeRouterDeviceName, 9));
    assert k.Index() == 9;
    err := k.Set(IPNet([10, 0, 0, 0], [255, 0, 0, 0]));
    assert err == None && k.Index() == 9;
    err := k.CleanUp();
    k.HandleUpdate(LinkUpdate(KubeRouterDeviceName, 11));
    assert err == None && k.Index() == 9 && k.Strategy() == strategy;
  }
}
