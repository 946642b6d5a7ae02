/**
 * The application's static state (App): the context store with its read-only
 * keys, the debug switch and the lazily created runtime information.
 *
 * Context values are values of the type parameter V, or PHP's null.
 * Whether the caller of `set` is allowed past a read-only key (an IBean
 * object, or a class in the framework's `Imi\` namespace) is found by
 * inspecting the call stack; here it is the boolean `callerPrivileged`.
 */
module Application {
  import opened Wrappers

  /** A context value; `Null` is PHP's null, which `??` treats like a missing key. */
  datatype Mixed<V> = Null | Value(v: V)

  /** The context map and the set of its read-only keys. */
  datatype Context<V> = Context(values: map<string, Mixed<V>>, readonlyKeys: set<string>)

  /** "Cannot write to read-only application context". */
  datatype ContextError = ReadonlyContext

  /** Every read-only key has been written: `set` marks a key only while storing its value. */
  predicate ReadonlyKeysStored<V>(ctx: Context<V>) {
    ctx.readonlyKeys <= ctx.values.Keys
  }

  /** `get`: the stored value, or the default when the key was never set or holds null. */
  function GetValue<V>(values: map<string, Mixed<V>>, name: string, default: Mixed<V>): (r: Mixed<V>)
    ensures name !in values ==> r == default
    ensures name in values && values[name] == Null ==> r == default
    ensures name in values && values[name] != Null ==> r == values[name]
  {
    if name in values && values[name] != Null then values[name] else default
  }

  /**
   * `set`: a read-only key rejects an unprivileged caller; otherwise the value is
   * stored, and `readonly` marks a key that is not yet read-only.
   */
  function SetValue<V>(ctx: Context<V>, name: string, value: Mixed<V>, readonly: bool, callerPrivileged: bool)
    : (r: Result<Context<V>, ContextError>)
    // the write is refused exactly when the key is read-only and the caller is not privileged
    ensures r.Err? <==> name in ctx.readonlyKeys && !callerPrivileged
    // otherwise the value lands under `name` and no other key's value changes
    ensures r.Ok? ==> r.value.values == ctx.values[name := value]
    // no key ever stops being read-only; `readonly` adds `name`, and no other key is marked
    ensures r.Ok? ==> r.value.readonlyKeys == ctx.readonlyKeys + (if readonly then {name} else {})
    ensures r.Ok? && ReadonlyKeysStored(ctx) ==> ReadonlyKeysStored(r.value)
  {
    if name in ctx.readonlyKeys then
      if !callerPrivileged then Err(ReadonlyContext)
      else Ok(ctx.(values := ctx.values[name := value]))
    else
      var keys := if readonly then ctx.readonlyKeys + {name} else ctx.readonlyKeys;
      Ok(Context(ctx.values[name := value], keys))
  }

  /** After a successful `set`, `get` finds a non-null value under its key, and every other key reads as before. */
  lemma SetThenGet<V>(ctx: Context<V>, name: string, value: Mixed<V>, readonly: bool, callerPrivileged: bool,
                      other: string, default: Mixed<V>)
    requires SetValue(ctx, name, value, readonly, callerPrivileged).Ok?
    ensures value != Null ==> GetValue(SetValue(ctx, name, value, readonly, callerPrivileged).value.values, name, default) == value
    ensures value == Null ==> GetValue(SetValue(ctx, name, value, readonly, callerPrivileged).value.values, name, default) == default
    ensures other != name ==>
              GetValue(SetValue(ctx, name, value, readonly, callerPrivileged).value.values, other, default)
              == GetValue(ctx.values, other, default)
  {
  }

  /** One `set` call, with what the call-stack test about its caller finds. */
  datatype SetCall<V> = SetCall(name: string, value: Mixed<V>, readonly: bool, callerPrivileged: bool)

  /** The context after the calls in order; a call that throws leaves the context as it was. */
  function ApplyAll<V>(ctx: Context<V>, calls: seq<SetCall<V>>): Context<V>
    decreases |calls|
  {
    if calls == [] then ctx
    else
      var c := calls[0];
      var next := match SetValue(ctx, c.name, c.value, c.readonly, c.callerPrivileged)
                  case Ok(after) => after
                  case Err(_) => ctx;
      ApplyAll(next, calls[1..])
  }

  /** Read-only marking is monotonic over any sequence of `set` calls, and every read-only key keeps a stored value. */
  lemma {:induction false} ReadonlyKeysOnlyGrow<V>(ctx: Context<V>, calls: seq<SetCall<V>>)
    ensures ctx.readonlyKeys <= ApplyAll(ctx, calls).readonlyKeys
    ensures ReadonlyKeysStored(ctx) ==> ReadonlyKeysStored(ApplyAll(ctx, calls))
    decreases |calls|
  {
    if calls != [] {
      var c := calls[0];
      var next := match SetValue(ctx, c.name, c.value, c.readonly, c.callerPrivileged)
                  case Ok(after) => after
                  case Err(_) => ctx;
      ReadonlyKeysOnlyGrow(next, calls[1..]);
    }
  }

  /**
   * A key that no `set` call names reads as it did before the calls; in a fresh
   * context that is the default passed to `get`.
   */
  lemma {:induction false} UnsetKeyReadsDefault<V>(ctx: Context<V>, calls: seq<SetCall<V>>, name: string, default: Mixed<V>)
    requires forall i :: 0 <= i < |calls| ==> calls[i].name != name
    ensures GetValue(ApplyAll(ctx, calls).values, name, default) == GetValue(ctx.values, name, default)
    ensures ctx.values == map[] ==> GetValue(ApplyAll(ctx, calls).values, name, default) == default
    decreases |calls|
  {
    if calls != [] {
      var c := calls[0];
      var next := match SetValue(ctx, c.name, c.value, c.readonly, c.callerPrivileged)
                  case Ok(after) => after
                  case Err(_) => ctx;
      assert GetValue(next.values, name, default) == GetValue(ctx.values, name, default);
      assert forall i :: 0 <= i < |calls[1..]| ==> calls[1..][i] == calls[i + 1];
      UnsetKeyReadsDefault(next, calls[1..], name, default);
    }
  }

  /** Every call in `calls` that writes `name` comes from an unprivileged caller. */
  predicate OnlyUnprivilegedWrites<V>(calls: seq<SetCall<V>>, name: string) {
    forall i :: 0 <= i < |calls| && calls[i].name == name ==> !calls[i].callerPrivileged
  }

  /** Once a key is read-only, no sequence of unprivileged `set` calls can change what is stored under it. */
  lemma {:induction false} ReadonlyValueGuarded<V>(ctx: Context<V>, calls: seq<SetCall<V>>, name: string)
    requires name in ctx.readonlyKeys
    requires OnlyUnprivilegedWrites(calls, name)
    ensures name in ApplyAll(ctx, calls).readonlyKeys
    ensures name in ctx.values <==> name in ApplyAll(ctx, calls).values
    ensures name in ctx.values ==> ApplyAll(ctx, calls).values[name] == ctx.values[name]
    decreases |calls|
  {
    if calls != [] {
      var c := calls[0];
      var next := match SetValue(ctx, c.name, c.value, c.readonly, c.callerPrivileged)
                  case Ok(after) => after
                  case Err(_) => ctx;
      assert OnlyUnprivilegedWrites(calls[1..], name) by {
        forall i | 0 <= i < |calls[1..]| && calls[1..][i].name == name
          ensures !calls[1..][i].callerPrivileged
        {
          assert calls[1..][i] == calls[i + 1];
        }
      }
      ReadonlyValueGuarded(next, calls[1..], name);
    }
  }

  /** The runtime information object; only its identity matters here. */
  class RuntimeInfo {
    constructor ()
    {
    }
  }

  /** The application's static state. */
  class App<V> {
    var context: map<string, Mixed<V>>
    var contextReadonly: set<string>
    var isDebug: bool
    var runtimeInfo: RuntimeInfo?

    ghost predicate Valid()
      reads this
    {
      ReadonlyKeysStored(Ctx())
    }

    function Ctx(): Context<V>
      reads this
    {
      Context(context, contextReadonly)
    }

    /** The state before anything runs: no context, no read-only keys, debug off, no runtime information yet. */
    constructor ()
      ensures Valid()
      ensures context == map[] && contextReadonly == {}
      ensures !isDebug && runtimeInfo == null
    {
      context := map[];
      contextReadonly := {};
      isDebug := false;
      runtimeInfo := null;
    }

    function Get(name: string, default: Mixed<V>): Mixed<V>
      reads this
    {
      GetValue(context, name, default)
    }

    /** set; `callerPrivileged` is what the call-stack test finds about the caller. */
    method Set(name: string, value: Mixed<V>, readonly: bool, callerPrivileged: bool) returns (r: Outcome<ContextError>)
      requires Valid()
      modifies this`context, this`contextReadonly
      ensures Valid()
      ensures SetValue(old(Ctx()), name, value, readonly, callerPrivileged).Ok? ==>
                r == Pass && Ctx() == SetValue(old(Ctx()), name, value, readonly, callerPrivileged).value
      // a refused write throws and changes neither the values nor the read-only keys
      ensures SetValue(old(Ctx()), name, value, readonly, callerPrivileged).Err? ==>
                r == Fail(ReadonlyContext) && Ctx() == old(Ctx())
    {
      if name in contextReadonly {
        if !callerPrivileged {
          return Fail(ReadonlyContext);
        }
      } else if readonly {
        contextReadonly := contextReadonly + {name};
      }
      context := context[name := value];
      return Pass;
    }

    function IsDebug(): bool
      reads this
    {
      isDebug
    }

    /** setDebug: what isDebug reports from now on. */
    method SetDebug(debug: bool)
      modifies this`isDebug
      ensures isDebug == debug && IsDebug() == debug
    {
      isDebug := debug;
    }

    /** getRuntimeInfo: the first call creates the object, every later call returns that same object. */
    method GetRuntimeInfo() returns (info: RuntimeInfo)
      modifies this`runtimeInfo
      ensures runtimeInfo == info
      ensures old(runtimeInfo) == null ==> fresh(info)
      ensures old(runtimeInfo) != null ==> info == old(runtimeInfo)
    {
      if runtimeInfo == null {
        info := new RuntimeInfo();
        runtimeInfo := info;
        return info;
      }
      return runtimeInfo;
    }
  }

  /** Two successive calls of getRuntimeInfo return one and the same object. */
  method RuntimeInfoIsShared<V>(app: App<V>) returns (first: RuntimeInfo, second: RuntimeInfo)
    modifies app`runtimeInfo
    ensures first == second
    ensures old(app.runtimeInfo) == null ==> fresh(first)
  {
    first := app.GetRuntimeInfo();
    second := app.GetRuntimeInfo();
  }
}
