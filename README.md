# imi core state machines in Dafny

This project models three small stateful components of the imi PHP framework and proves properties of them:

- **The coroutine resource pool** (`BaseAsyncPool`). It has a bounded FIFO channel of idle resources, whose capacity is the configured maximum. It also keeps the base pool's count of constructed resources. `getResource` picks one of three paths:
  - *grow*: nothing is idle and the count is below the maximum;
  - *take*: an idle resource exists;
  - *wait*: nothing is idle and the pool is full. The wait ends with a timeout or with an arriving resource.

  Any resource handed out must pass `checkState()` or be reopened by `open()`; otherwise the call throws. `tryGetResource` answers `false` instead of waiting. `buildQueue` refills the channel from the pool's items, `push` returns a resource, and `getFree` is the channel length.
- **The per-class annotation registry** (`ClassAnnotation`). It holds one list of class annotations and three name-to-list maps, for methods, properties and constants. Each map has an append-merge and a lookup that defaults to the empty list.
- **The application context** (`App`). Its context store has read-only keys. It also has the debug switch and the lazily created runtime information.

Each component is one module:
- `AsyncPool` in `async_pool.dfy`;
- `ClassAnnotations` in `class_annotation.dfy`;
- `Application` in `app.dfy`.

`Wrappers` in `wrappers.dfy` holds `Option`, `Result` and `Outcome`.

Each module has pure functions with contracts and lemmas over sequences of calls. Each PHP object becomes a class whose fields are the object's fields. `App` keeps its state in static fields; the model makes them the fields of one `App` object. Four methods compute what a pure function also computes, and are proved to agree with it:
- `getResource` and `tryGetResource` agree with `GetResourceStep` and `TryGetResourceStep`;
- `set` agrees with `SetValue`;
- the three map-valued `add*Annotations` agree with `Append`.

The other methods state their new fields directly.

The pool's accounting adds two tallies that the PHP code keeps only implicitly, as ghost state:
- `lent`: the resources handed out and not yet pushed back;
- `dropped`: the resources still counted after failing their checks and being thrown away.

The invariant `Accounted` says that every constructed resource is in exactly one of three places: idle in the channel (once), lent, or dropped. It is proved to hold over any run of calls whose environment is *admissible*:
- a resource the pool constructs is new to it;
- a resource that arrives during a wait, or is pushed back, is one that was lent.

Things outside the pool that the model replaces with parameters:
- `created`: the resource a growth step constructs.
- `arrival`: what the timed channel pop sees. This is a resource pushed meanwhile by another coroutine, or the timeout.
- `probe`: what `checkState()` and `open()` report.
- `callerPrivileged`: the result of the call-stack test in `App::set`. It is true when the caller is an `IBean` object or a class in the `Imi\` namespace.

Behaviour of `BaseAsyncPool` that the model keeps as the code has it:
- On the grow path, the new resource is pushed onto the channel and popped again, so it is not handed over directly. The net effect on the queue is that of a direct hand-over.
- When a popped resource fails both checks, the call throws and the count is not decremented. The resource is booked as dropped. (See `AsyncPool.CountStaysWithinCapacity`.)
- `tryGetResource` throws, rather than answering `false`, when the popped resource fails both checks.
- The pool has no closed state. A waiter takes whatever resource the timed pop returns; nothing hands a resource to the longest waiter.

## Model

| member | source | states |
|---|---|---|
| `AsyncPool.GetResourceStep` | src/Pool/BaseAsyncPool.php:38-80 | Never answers `false`, and hands out only a resource that passed `checkState()` or `open()`; that resource is then lent. Grow: the count rises by one, the queue stays empty, and the new resource is checked. Take: the head of the queue (FIFO) leaves it, even if it then fails. Without a wait, exactly the resource handed out joins the lent ones. Wait: the queue and count are unchanged; a timeout changes nothing and throws "getResource timeout"; an arriving resource is checked. A failure throws "getResource failed" and drops the resource, which stays counted. The capacity bounds are preserved. |
| `AsyncPool.TryGetResourceStep` | src/Pool/BaseAsyncPool.php:86-128 | Answers `false` if and only if nothing is idle and the count is at the maximum, and then leaves the pool unchanged. Any exception is "tryGetResource failed": it happens only when both checks fail, and it drops the resource. Otherwise the grow and take paths behave as in getResource, and exactly the resource handed out becomes lent. The capacity bounds are preserved. |
| `AsyncPool.TryAgreesWithGetWhenNoWait` | src/Pool/BaseAsyncPool.php:88-99 | When getResource would not wait, tryGetResource leaves the same pool. Both succeed exactly when the resource is usable, and then they hand out the same resource. |
| `AsyncPool.GetResourceKeepsAccounts` | src/Pool/BaseAsyncPool.php:38-80 | In an admissible environment, getResource keeps every constructed resource idle once, lent, or dropped, with the count at most the maximum. A resource it takes off the channel or constructs was not already lent. |
| `AsyncPool.TryGetResourceKeepsAccounts` | src/Pool/BaseAsyncPool.php:86-128 | The same for tryGetResource: accounting is preserved, and the resource handed out was not already lent. |
| `AsyncPool.PushKeepsAccounts` | src/Pool/BaseAsyncPool.php:155-167 | Pushing back a lent resource always finds room in the channel, and keeps the accounting. |
| `AsyncPool.RunKeepsAccounts` | src/Pool/BaseAsyncPool.php:38-167 | Over any admissible mix of getResource, tryGetResource and push calls, every constructed resource stays idle once, lent to one caller, or dropped, and the count never passes the maximum. |
| `AsyncPool.SequentialAcquiresGrow` | src/Pool/BaseAsyncPool.php:41-69 | With nothing idle and room for n distinct new resources, n successive getResource calls never wait. Each constructs and hands out its own new resource, in order, and n resources are added to the lent ones. The queue stays empty and the count rises by exactly n. |
| `AsyncPool.CountStaysWithinCapacity` | src/Pool/BaseAsyncPool.php:41-98 | Over any mix of getResource, tryGetResource and push calls, the count never decreases, rises by at most one per call and never passes the maximum. |
| `AsyncPool.FailFastScenario` | src/Pool/BaseAsyncPool.php:38-80 | With a maximum of two, two acquisitions construct and lend two resources, and a third times out. After the first resource is pushed back, a fourth acquisition returns it; the count stays at two. |
| `AsyncPool.Pool.constructor` | src/Pool/BaseAsyncPool.php:29-32 | Starts from the base pool's count and items, with an empty channel whose capacity is the configured maximum. Nothing is lent. |
| `AsyncPool.Pool.InitQueue` | src/Pool/BaseAsyncPool.php:29-32 | The channel is empty and its capacity equals the configured maximum. |
| `AsyncPool.Pool.GetFree` | src/Pool/BaseAsyncPool.php:173-176 | The free count is the channel's length. In a valid pool it equals the count minus the lent and the dropped resources, and never exceeds the maximum. |
| `AsyncPool.Pool.AddResource` | src/Pool/BaseAsyncPool.php:43-46 | The count rises by one and the new resource is appended to the channel; the accounting is kept. |
| `AsyncPool.Pool.GetResource` | src/Pool/BaseAsyncPool.php:38-80 | New fields and answer equal `GetResourceStep` of the old fields. The capacity bounds and the accounting are kept. |
| `AsyncPool.Pool.TryGetResource` | src/Pool/BaseAsyncPool.php:86-128 | New fields and answer equal `TryGetResourceStep` of the old fields. The capacity bounds and the accounting are kept. |
| `AsyncPool.Pool.BuildQueue` | src/Pool/BaseAsyncPool.php:134-148 | Afterwards the queue holds exactly the items' resources, in iteration order, and `free` equals the queue length. The accounting is closed again. |
| `AsyncPool.Pool.Push` | src/Pool/BaseAsyncPool.php:155-167 | Appends exactly one lent resource at the tail, which is then no longer lent. The channel always has room for it. |
| `ClassAnnotations.Append` | src/Bean/Annotation/Model/ClassAnnotation.php:100-105 | The list under the name becomes the old list (empty if absent) followed by the new ones. The name becomes a key even when nothing new is added, and then its list is unchanged. Every other name's list is unchanged. |
| `ClassAnnotations.AppendEachAccumulates` | src/Bean/Annotation/Model/ClassAnnotation.php:100-105 | After any sequence of adds, a name's list is its old list followed by everything added under that name, in call order. Adds under other names leave it alone. |
| `ClassAnnotations.AppendEachKeys` | src/Bean/Annotation/Model/ClassAnnotation.php:100-105 | After any sequence of adds, a name is a key exactly when it was one before or some add used it. |
| `ClassAnnotations.SelectAfterAdds` | src/Bean/Annotation/Model/ClassAnnotation.php:80-90 | After any sequence of adds, asking the getter for one name returns its old list followed by what was added under it, in order. |
| `ClassAnnotations.NeverAddedReadsEmpty` | src/Bean/Annotation/Model/ClassAnnotation.php:80-90 | In a fresh registry, a name that no add used is not a key, and its getter returns the empty list. |
| `ClassAnnotations.ClassAnnotation.constructor` | src/Bean/Annotation/Model/ClassAnnotation.php:14-47 | Records the class name it was given; all four collections start empty. |
| `ClassAnnotations.ClassAnnotation.GetClassName` | src/Bean/Annotation/Model/ClassAnnotation.php:180-183 | Returns the name the constructor recorded, which no method changes. |
| `ClassAnnotations.ClassAnnotation.GetClassAnnotations` | src/Bean/Annotation/Model/ClassAnnotation.php:54-57 | Returns the class list. By `AddClassAnnotations`, this is everything added to it, in call order. |
| `ClassAnnotations.ClassAnnotation.GetMethodAnnotations` | src/Bean/Annotation/Model/ClassAnnotation.php:80-90 | With null, returns the whole method map. With a name, returns that name's list, as `SelectAfterAdds` and `NeverAddedReadsEmpty` state it. |
| `ClassAnnotations.ClassAnnotation.GetPropertyAnnotations` | src/Bean/Annotation/Model/ClassAnnotation.php:114-124 | The same getter over the property map. |
| `ClassAnnotations.ClassAnnotation.GetConstantAnnotations` | src/Bean/Annotation/Model/ClassAnnotation.php:148-158 | The same getter over the constant map. |
| `ClassAnnotations.ClassAnnotation.AddClassAnnotations` | src/Bean/Annotation/Model/ClassAnnotation.php:66-71 | The class list becomes the old list followed by the new one, and the object itself is returned. It changes nothing else. |
| `ClassAnnotations.ClassAnnotation.AddMethodAnnotations` | src/Bean/Annotation/Model/ClassAnnotation.php:100-105 | The method map becomes `Append` of the old map, and the object itself is returned. It changes nothing else. |
| `ClassAnnotations.ClassAnnotation.AddPropertyAnnotations` | src/Bean/Annotation/Model/ClassAnnotation.php:134-139 | The property map becomes `Append` of the old map, and the object itself is returned. It changes nothing else. |
| `ClassAnnotations.ClassAnnotation.AddConstantAnnotations` | src/Bean/Annotation/Model/ClassAnnotation.php:168-173 | The constant map becomes `Append` of the old map, and the object itself is returned. It changes nothing else. |
| `Application.SetValue` | src/App.php:284-303 | Refused if and only if the key is read-only and the caller is not privileged. Otherwise the value lands under the key and no other value changes. The read-only set grows by the key exactly when `readonly` is passed; no key is ever removed. Every read-only key keeps a stored value. |
| `Application.SetThenGet` | src/App.php:270-303 | After a successful set, get returns the new value if it is non-null, and the default if it is null. Every other key reads as before. |
| `Application.UnsetKeyReadsDefault` | src/App.php:270-273 | A key that no set names reads as it did before the sets; in a fresh context, that is the default passed to get. |
| `Application.ReadonlyKeysOnlyGrow` | src/App.php:284-303 | Over any sequence of sets, the read-only keys only grow, and every read-only key keeps a stored value. |
| `Application.ReadonlyValueGuarded` | src/App.php:286-296 | Once a key is read-only, no sequence of unprivileged sets changes what is stored under it, and the key stays read-only. |
| `Application.App.constructor` | src/App.php:40-75 | Empty context, no read-only keys, debug off, no runtime information. |
| `Application.App.Get` | src/App.php:270-273 | Get over the context fields. What it returns after sets is stated by `SetThenGet` and `UnsetKeyReadsDefault`. |
| `Application.App.Set` | src/App.php:284-303 | The new context equals `SetValue` of the old one. A refused write throws and changes neither the values nor the read-only keys. |
| `Application.App.IsDebug` | src/App.php:220-223 | Reports the debug field. By `SetDebug`, that is the value last set; it is off after construction. |
| `Application.App.SetDebug` | src/App.php:232-235 | `isDebug` reports the value last set. |
| `Application.App.GetRuntimeInfo` | src/App.php:252-260 | The first call creates a fresh object and stores it. Every later call returns the stored object. |
| `Application.RuntimeInfoIsShared` | src/App.php:252-260 | Two successive calls return the same object. |

## Left out

- Coroutine scheduling and the channel's blocking semantics: waiting, wake-up order, and the deferred `go()` push outside a coroutine. The timed pop is the `arrival` parameter. The deferred push is an ordinary append.
- AsyncPool.TryGetResourceStep: the branch where the 1 ms poll comes back empty (src/Pool/BaseAsyncPool.php:111-114) is not modelled. It needs another coroutine to drain the channel between the length test and the poll. In this sequential model, the channel is never empty at that point. So `false` is answered only on the empty-and-full path.
- AsyncPool.Pool.TryGetResource: the same branch is left out, for the same reason.
- AsyncPool.Pool.Push: the source pushes any resource, and a push onto a full channel suspends the caller until a consumer pops. The model requires the resource to be a lent one. Then the channel always has room (`PushKeepsAccounts`), so the suspension cannot arise. Pushing a resource the pool never lent is not modelled. The `Coroutine::isIn()` branch is one append; see the next line.
- AsyncPool.Pool.GetResource: requires an admissible environment: a constructed resource is new to the pool, and an arriving resource is a lent one. The PHP code cannot check either, because they are facts about the resource factory and about other coroutines.
- AsyncPool.Pool.TryGetResource: requires that a constructed resource is new to the pool, for the same reason.
- AsyncPool.Pool.AddResource: requires that the created resource is new to the pool, for the same reason.
- AsyncPool.Pool.BuildQueue: requires three things: nothing is lent, the items are distinct resources, and there are no more items than the count. The base pool's relation between its items and its count is not part of this model. Under those conditions the accounting closes again: the counted resources not among the items are booked as dropped.
- The `!$resource` test (src/Pool/BaseAsyncPool.php:75): the channel holds only resources, and a timeout is caught earlier, so no falsy value can reach that test in the model.
- The branch for old Swoole versions (`Channel::select`), which behaves like the `pop` branch. Also left out: the wait-timeout arithmetic in float seconds.
- `__destruct`, which closes the channel, and any closed-pool or teardown behaviour. The source has none beyond that.
- The base pool (`BasePool`) is not part of this model. Its `addResource` is the step that counts and enqueues one resource supplied by the caller. Its count and items are the constructor's arguments. The count is required not to exceed the maximum, which the base pool's growth test keeps. The resources counted before the channel exists are booked as dropped until `buildQueue` puts them in the channel.
- The pool name inside the exception messages. Each message is one constructor of `PoolError`.
- The order of keys in the maps returned by `get*Annotations(null)`: PHP arrays are ordered, Dafny maps are not. `array_merge` is modelled as list concatenation, which is what it does on the numerically indexed annotation lists.
- `App::run`, `initFramework`, `getImiVersion`, `createCoServer`, `getContainer`, `getBean` and `getApp`: bootstrapping, file and shell I/O, and wrappers over the container and server manager. `getNamespace`, `isInited` and `isCoServer` are left out too; they only read fields that those operations set.
- `debug_backtrace` and the class-name prefix test: these are the `callerPrivileged` parameter.
- The hot-update process, the cron process, the server facade and the annotation classes. These are I/O plumbing, or declarations without behaviour.
