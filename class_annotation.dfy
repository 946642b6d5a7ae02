/**
 * The per-class annotation registry (ClassAnnotation): the annotations found
 * on one class, on its methods, on its properties and on its constants.
 *
 * Annotations are values of the type parameter A. Each of the three member
 * collections maps a member name to the list of that member's annotations.
 */
module ClassAnnotations {
  import opened Wrappers

  /** What a get*Annotations call returns: the whole name-to-list map when asked with null, or one member's list. */
  datatype Selection<A> = ByName(lists: map<string, seq<A>>) | Listed(annotations: seq<A>)

  /** `$annotations[$name] ?? []`: a member's list, empty for a name never added. */
  function Lookup<A>(lists: map<string, seq<A>>, name: string): (r: seq<A>)
    ensures name in lists ==> r == lists[name]
    ensures name !in lists ==> r == []
  {
    if name in lists then lists[name] else []
  }

  /** The getter shared by methods, properties and constants: null asks for the whole map. */
  function Select<A>(lists: map<string, seq<A>>, name: Option<string>): (r: Selection<A>)
    ensures name.None? ==> r == ByName(lists)
    ensures name.Some? && name.value !in lists ==> r == Listed([])
    ensures name.Some? && name.value in lists ==> r == Listed(lists[name.value])
  {
    match name
    case None => ByName(lists)
    case Some(n) => Listed(Lookup(lists, n))
  }

  /**
   * `$annotations[$name] = array_merge($annotations[$name] ?? [], $xs)`: the
   * list under `name` is extended at its end, the name becomes a key even when
   * `xs` is empty, and every other name keeps its list.
   */
  function Append<A>(lists: map<string, seq<A>>, name: string, xs: seq<A>): (r: map<string, seq<A>>)
    ensures r.Keys == lists.Keys + {name}
    ensures Lookup(r, name) == Lookup(lists, name) + xs
    ensures xs == [] ==> Lookup(r, name) == Lookup(lists, name)
    ensures forall other :: other != name ==> Lookup(r, other) == Lookup(lists, other)
  {
    lists[name := Lookup(lists, name) + xs]
  }

  /** One add*Annotations call: a member name and the annotations added under it. */
  datatype AddCall<A> = AddCall(name: string, annotations: seq<A>)

  /** The map after the add calls, in order. */
  function AppendEach<A>(lists: map<string, seq<A>>, calls: seq<AddCall<A>>): map<string, seq<A>>
    decreases |calls|
  {
    if calls == [] then lists else AppendEach(Append(lists, calls[0].name, calls[0].annotations), calls[1..])
  }

  /** The annotations the calls add under `name`, joined in call order. */
  function AddedUnder<A>(calls: seq<AddCall<A>>, name: string): seq<A>
    decreases |calls|
  {
    if calls == [] then []
    else (if calls[0].name == name then calls[0].annotations else []) + AddedUnder(calls[1..], name)
  }

  /**
   * Adds accumulate: after any sequence of add calls, a name's list is its old
   * list followed by everything added under that name, in call order, so adds
   * under other names leave it alone.
   */
  lemma {:induction false} AppendEachAccumulates<A>(lists: map<string, seq<A>>, calls: seq<AddCall<A>>, name: string)
    ensures Lookup(AppendEach(lists, calls), name) == Lookup(lists, name) + AddedUnder(calls, name)
    decreases |calls|
  {
    if calls != [] {
      var next := Append(lists, calls[0].name, calls[0].annotations);
      AppendEachAccumulates(next, calls[1..], name);
      var mine := if calls[0].name == name then calls[0].annotations else [];
      assert Lookup(next, name) == Lookup(lists, name) + mine;
      assert Lookup(lists, name) + mine + AddedUnder(calls[1..], name) == Lookup(lists, name) + AddedUnder(calls, name);
    }
  }

  /** After any sequence of add calls, a name is a key exactly when it was one before or some call added under it. */
  lemma {:induction false} AppendEachKeys<A>(lists: map<string, seq<A>>, calls: seq<AddCall<A>>, name: string)
    ensures name in AppendEach(lists, calls) <==> name in lists || exists i :: 0 <= i < |calls| && calls[i].name == name
    decreases |calls|
  {
    if calls != [] {
      var next := Append(lists, calls[0].name, calls[0].annotations);
      assert next.Keys == lists.Keys + {calls[0].name};
      AppendEachKeys(next, calls[1..], name);
      if exists i :: 0 <= i < |calls[1..]| && calls[1..][i].name == name {
        var i :| 0 <= i < |calls[1..]| && calls[1..][i].name == name;
        assert calls[i + 1].name == name;
      }
      if exists i :: 0 <= i < |calls| && calls[i].name == name {
        var i :| 0 <= i < |calls| && calls[i].name == name;
        if i > 0 {
          assert calls[1..][i - 1].name == name;
        }
      }
    }
  }

  /** After any sequence of adds, the getter for one name returns the old list followed by what was added under it. */
  lemma SelectAfterAdds<A>(lists: map<string, seq<A>>, calls: seq<AddCall<A>>, name: string)
    ensures Select(AppendEach(lists, calls), Some(name)) == Listed(Lookup(lists, name) + AddedUnder(calls, name))
  {
    AppendEachAccumulates(lists, calls, name);
  }

  /**
   * Starting from a fresh registry, a name no add call used is not a key, and
   * its getter returns the empty list.
   */
  lemma NeverAddedReadsEmpty<A>(calls: seq<AddCall<A>>, name: string)
    requires forall i :: 0 <= i < |calls| ==> calls[i].name != name
    ensures name !in AppendEach(map[], calls)
    ensures Select(AppendEach(map[], calls), Some(name)) == Listed([])
  {
    AppendEachKeys(map[], calls, name);
  }

  /** The annotations of one class. */
  class ClassAnnotation<A> {
    /** The class's name, fixed at construction. */
    const className: string
    var classAnnotations: seq<A>
    var methodAnnotations: map<string, seq<A>>
    var propertyAnnotations: map<string, seq<A>>
    var constantAnnotations: map<string, seq<A>>

    /** A registry for `className` with every collection empty. */
    constructor (className: string)
      ensures this.className == className
      ensures classAnnotations == []
      ensures methodAnnotations == map[] && propertyAnnotations == map[] && constantAnnotations == map[]
    {
      this.className := className;
      classAnnotations := [];
      methodAnnotations := map[];
      propertyAnnotations := map[];
      constantAnnotations := map[];
    }

    function GetClassName(): string {
      className
    }

    function GetClassAnnotations(): seq<A>
      reads this
    {
      classAnnotations
    }

    /** addClassAnnotations: the class list is extended at its end; the returned object is this one. */
    method AddClassAnnotations(xs: seq<A>) returns (self: ClassAnnotation<A>)
      modifies this`classAnnotations
      ensures self == this
      ensures classAnnotations == old(classAnnotations) + xs
    {
      classAnnotations := classAnnotations + xs;
      return this;
    }

    function GetMethodAnnotations(name: Option<string>): Selection<A>
      reads this
    {
      Select(methodAnnotations, name)
    }

    /** addMethodAnnotations: only the list under `name` changes, and only by growing at its end. */
    method AddMethodAnnotations(name: string, xs: seq<A>) returns (self: ClassAnnotation<A>)
      modifies this`methodAnnotations
      ensures self == this
      ensures methodAnnotations == Append(old(methodAnnotations), name, xs)
    {
      methodAnnotations := Append(methodAnnotations, name, xs);
      return this;
    }

    function GetPropertyAnnotations(name: Option<string>): Selection<A>
      reads this
    {
      Select(propertyAnnotations, name)
    }

    /** addPropertyAnnotations: only the list under `name` changes, and only by growing at its end. */
    method AddPropertyAnnotations(name: string, xs: seq<A>) returns (self: ClassAnnotation<A>)
      modifies this`propertyAnnotations
      ensures self == this
      ensures propertyAnnotations == Append(old(propertyAnnotations), name, xs)
    {
      propertyAnnotations := Append(propertyAnnotations, name, xs);
      return this;
    }

    function GetConstantAnnotations(name: Option<string>): Selection<A>
      reads this
    {
      Select(constantAnnotations, name)
    }

    /** addConstantAnnotations: only the list under `name` changes, and only by growing at its end. */
    method AddConstantAnnotations(name: string, xs: seq<A>) returns (self: ClassAnnotation<A>)
      modifies this`constantAnnotations
      ensures self == this
      ensures constantAnnotations == Append(old(constantAnnotations), name, xs)
    {
      constantAnnotations := Append(constantAnnotations, name, xs);
      return this;
    }
  }
}
