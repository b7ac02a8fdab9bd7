# kube-router encapsulator, modelled in Dafny

The kube-router encapsulator is the route-delegation strategy of Kilo's
overlay mesh.  It is used when kube-router already routes between hosts. It
contributes no tunnel and no iptables rules. Its only state is the OS
interface index of the `kube-bridge` device. `Init` looks the device up, and
a background watcher then keeps the index current from netlink link
updates until `CleanUp` closes the `done` channel.

`kuberouter.dfy` (module `Encapsulation`) has two layers:

- a value-level specification: `State` (index, strategy, lifecycle
  phase), `Deliver` (one pass of the watcher loop), `DeliverAll` (a sequence
  of updates in delivery order), `InitStep`, `CleanUpStep`, and the lemmas
  about them;
- the class `KubeRouter`, whose fields the methods update in place. Each
  method's postcondition ties the new state, read through `Snapshot()`, to
  the specification function of the old state.

Lifecycle: `Constructed` means no watcher has been started. `Watching` means
the subscription succeeded and the watcher goroutine runs. `Terminated`
means `done` is closed. The netlink calls `LinkSubscribe` and `LinkByName`
are inputs to `Init`: a `SubscribeResult` and a `LookupResult`
(`Found(index)`, `NotFound`, `LookupFailed`). The goroutine is modelled as
sequential calls to `HandleUpdate`, or `Watch` for a whole sequence. The
`Strategy` type is a type parameter.

The comment above `CleanUp` (kuberouter.go:46) calls it a no-op. The code
closes `done`, which stops the watcher. The model follows the code.

## Model

| member | source | states |
|---|---|---|
| `Encapsulation.Deliver` | pkg/encapsulation/kuberouter.go:71-76 | an update for `kube-bridge` sets the index to the update's index while the watcher runs; an update for another device, or one arriving when no watcher is running, leaves the state unchanged; strategy and phase never change |
| `Encapsulation.DeliverAll` | pkg/encapsulation/kuberouter.go:69-80 | delivering any sequence of updates keeps the strategy and the lifecycle phase |
| `Encapsulation.LastWriteWins` | pkg/encapsulation/kuberouter.go:69-76 | while watching, after any sequence of updates the index is the index of the last update naming `kube-bridge` (scanned from the end), or the previous index if none names it; nothing else changes |
| `Encapsulation.OtherDevicesIgnored` | pkg/encapsulation/kuberouter.go:72 | a sequence of updates all naming other devices leaves the whole state unchanged |
| `Encapsulation.CleanUpStep` | pkg/encapsulation/kuberouter.go:47-49 | CleanUp may only be applied once (closing `done` twice panics); it terminates and keeps the index and the strategy |
| `Encapsulation.TerminatedIgnoresUpdates` | pkg/encapsulation/kuberouter.go:77-78 | once `done` is closed, no sequence of updates changes the state |
| `Encapsulation.CleanUpStopsWatcher` | pkg/encapsulation/kuberouter.go:77-78 | after CleanUp, any later updates leave the index at its value before CleanUp |
| `Encapsulation.InitStep` | pkg/encapsulation/kuberouter.go:63-93 | Init fails with `SubscribeErr` exactly when the subscription fails, and then changes nothing; it fails with `QueryErr` exactly when subscribing succeeds and the lookup fails for a reason other than not-found; otherwise it succeeds; the index changes only after a successful lookup, to the index found; after a successful subscription the watcher runs (unless already terminated), even when the lookup then fails; the strategy is kept |
| `Encapsulation.FreshNotFoundThenUpdates` | pkg/encapsulation/kuberouter.go:82-85 | a fresh encapsulator whose device does not exist yet initialises without error at index 0, afterwards tracks the last `kube-bridge` update, and keeps that index through any updates after CleanUp |
| `Encapsulation.KubeRouter.constructor` | pkg/encapsulation/kuberouter.go:38-44 | a new encapsulator reports index 0, returns the strategy it was given, and has no watcher |
| `Encapsulation.KubeRouter.HandleUpdate` | pkg/encapsulation/kuberouter.go:71-76 | the object's new state is `Deliver` of its old state and the update |
| `Encapsulation.KubeRouter.Watch` | pkg/encapsulation/kuberouter.go:67-81 | after the watcher loop has consumed a sequence of updates, the object's state is `DeliverAll` of the old state and that sequence |
| `Encapsulation.KubeRouter.Init` | pkg/encapsulation/kuberouter.go:63-93 | the object's new state and the returned error are those of `InitStep` for the given subscription and lookup outcomes |
| `Encapsulation.KubeRouter.CleanUp` | pkg/encapsulation/kuberouter.go:47-50 | requires that `done` is not yet closed; returns no error; the new state is `CleanUpStep` of the old |
| `Encapsulation.KubeRouter.Gw` | pkg/encapsulation/kuberouter.go:53-55 | the gateway is the subnet's own IP, whatever the node and peer addresses are |
| `Encapsulation.KubeRouter.Index` | pkg/encapsulation/kuberouter.go:58-60 | returns the index currently recorded in the state |
| `Encapsulation.KubeRouter.Rules` | pkg/encapsulation/kuberouter.go:96-98 | no firewall rules for any list of subnets |
| `Encapsulation.KubeRouter.Set` | pkg/encapsulation/kuberouter.go:101-103 | returns no error and, having no `modifies` clause, changes no state |
| `Encapsulation.KubeRouter.Strategy` | pkg/encapsulation/kuberouter.go:106-108 | returns the strategy stored at construction (a `const` field, never changed) |

## Left out

- The netlink calls `LinkSubscribe` and `LinkByName` are OS I/O through a library not part of this model. Their outcomes are inputs to `Init`.
- The goroutine, the `ch` and `done` channels and the mutex are left out. Event delivery is sequential `HandleUpdate` calls. Nothing is claimed about atomicity or ordering under concurrency.
- `Index` reads `iface` without taking the lock, although the comment on `mu` says the lock guards it. This is a data race in the source, and a sequential model cannot express it.
- The lookup write in `Init` can overwrite a newer update applied by the already-running watcher. The model treats that write as a plain overwrite in sequence.
- Go's `select` picks at random among ready cases. So after `done` is closed, an update that is already pending may still be applied. The model always takes the `done` case. The same holds for `Init` after `CleanUp`: the model starts no watcher, while the source's goroutine may handle a pending update before it exits.
- Calling `Init` twice starts a second goroutine on the same channel. Sequentially, each update is still handled once, so the model gives the second call the same meaning as the first.
- The contents of iptables rules and of `net.IP`/`net.IPNet` are left out. IPs are byte sequences, and a subnet is an address and a mask.
- The text of the `fmt.Errorf` messages is left out. Errors are the variants `SubscribeErr` and `QueryErr`.
- The `Encapsulator` interface and the `Strategy` type are defined in files not part of this model. `Strategy` is a type parameter; the interface is represented only by the class's methods.
