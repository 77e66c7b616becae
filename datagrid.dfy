/**
 * The `MuiDataGrid` `root` style override (src/mui.tsx:233-279). Each call
 * returns the same `{ border: "none" }` object and, as a side effect, replaces
 * the grid's `getRowClassName` by a wrapper that prefixes `even` or `odd`
 * to every row's class name. A set of installed wrappers (a `WeakSet` in
 * the source) keeps a wrapper from being wrapped again.
 */
module MuiDataGrid {

  import opened Wrappers
  import opened JsStrings

  /**
   * A `getRowClassName` function object: one the application supplied, named
   * by `id`, or a parity wrapper around the function that was installed
   * before it (`None`: there was none). Every evaluation of the wrapping
   * arrow expression creates a new function object; `serial` is that
   * object's identity, so two wrappers of the same function created by two
   * calls are different values.
   */
  datatype RowClassFn = Supplied(id: nat) | ParityWrapper(serial: nat, original: Option<RowClassFn>)

  /** What each application-supplied function returns for a row index (`None`: `undefined`). */
  type SuppliedBehaviour = (nat, int) -> Option<string>

  /** `indexRelativeToCurrentPage % 2 === 0 ? "even" : "odd"`. */
  function ParityClassName(index: int): (r: string)
    ensures r == "even" <==> index % 2 == 0
    ensures r == "even" || r == "odd"
  {
    if index % 2 == 0 then "even" else "odd"
  }

  /** Calling the function `f` on a row. */
  function RowClassName(f: RowClassFn, supplied: SuppliedBehaviour, index: int): (r: Option<string>)
    ensures f.Supplied? ==> r == supplied(f.id, index)
    ensures f.ParityWrapper? ==> r.Some? && StartsWith(r.value, ParityClassName(index))
  {
    match f
    case Supplied(id) => supplied(id, index)
    case ParityWrapper(_, original) =>
      var className := if original.Some? then RowClassName(original.value, supplied, index) else None;
      Some(
        match className
        case None => ParityClassName(index)
        case Some(c) => ParityClassName(index) + " " + c)
  }

  /**
   * The wrapper's result: the parity alone when there is no original function
   * or it returns `undefined`, otherwise the parity, one space, and the
   * original class.
   */
  lemma WrapperClassName(serial: nat, original: Option<RowClassFn>, supplied: SuppliedBehaviour, index: int)
    ensures
      var className := if original.Some? then RowClassName(original.value, supplied, index) else None;
      && (className.None? ==> RowClassName(ParityWrapper(serial, original), supplied, index) == Some(ParityClassName(index)))
      && (className.Some? ==>
            RowClassName(ParityWrapper(serial, original), supplied, index) == Some(ParityClassName(index) + " " + className.value))
  {
  }

  /**
   * Why a wrapper must not be wrapped again: each extra layer repeats the
   * parity, so `f` wrapped `n` times yields the parity `n` times before the
   * original class.
   */
  function Wrapped(f: Option<RowClassFn>, n: nat): (g: RowClassFn)
    ensures g.ParityWrapper?
    decreases n
  {
    if n == 0 then ParityWrapper(0, f) else ParityWrapper(n, Some(Wrapped(f, n - 1)))
  }

  /** The parity repeated `n` times, each followed by a space. */
  function RepeatedParity(index: int, n: nat): string {
    if n == 0 then "" else ParityClassName(index) + " " + RepeatedParity(index, n - 1)
  }

  lemma {:induction false} WrappedRepeatsParity(id: nat, supplied: SuppliedBehaviour, index: int, n: nat)
    requires supplied(id, index).Some?
    ensures RowClassName(Wrapped(Some(Supplied(id)), n), supplied, index)
         == Some(RepeatedParity(index, n + 1) + supplied(id, index).value)
  {
    var p := ParityClassName(index);
    var c := supplied(id, index).value;
    if n == 0 {
      assert RepeatedParity(index, 1) == p + " ";
    } else {
      WrappedRepeatsParity(id, supplied, index, n - 1);
      var inner := Wrapped(Some(Supplied(id)), n - 1);
      assert RowClassName(ParityWrapper(n, Some(inner)), supplied, index) == Some(p + " " + (RepeatedParity(index, n) + c));
      assert p + " " + (RepeatedParity(index, n) + c) == RepeatedParity(index, n + 1) + c;
    }
  }

  /** `set.has(current)`: the owner state's function is a wrapper this override created. */
  predicate Installed(wrappers: set<RowClassFn>, current: Option<RowClassFn>) {
    current.Some? && current.value in wrappers
  }

  /**
   * One call of the override on an owner state whose `getRowClassName` is
   * `current`, given the set of installed wrappers and the identity a new
   * function object would get: the new set and the new `getRowClassName`.
   */
  function Install(wrappers: set<RowClassFn>, current: Option<RowClassFn>, serial: nat): (r: (set<RowClassFn>, Option<RowClassFn>))
    ensures wrappers <= r.0
    ensures r.1.Some? && r.1.value in r.0
    ensures Installed(wrappers, current) ==> r == (wrappers, current)
    ensures !Installed(wrappers, current) ==>
      r.1 == Some(ParityWrapper(serial, current)) && r.0 == wrappers + {ParityWrapper(serial, current)}
  {
    if current.None? || current.value !in wrappers then
      var wrapper := ParityWrapper(serial, current);
      (wrappers + {wrapper}, Some(wrapper))
    else
      (wrappers, current)
  }

  /**
   * A second call on the same owner state changes nothing, whatever identity
   * a new function would get: the function is wrapped at most once.
   */
  lemma InstallIdempotent(wrappers: set<RowClassFn>, current: Option<RowClassFn>, serial: nat, nextSerial: nat)
    ensures var r := Install(wrappers, current, serial); Install(r.0, r.1, nextSerial) == r
  {
  }

  /**
   * The set is per override: a wrapper created by another override (another
   * theme) is not in it, so it is wrapped again and the parity is repeated.
   */
  lemma {:induction false} ForeignWrapperIsWrapped(wrappers: set<RowClassFn>, foreign: RowClassFn, serial: nat,
                                                   supplied: SuppliedBehaviour, index: int)
    requires foreign.ParityWrapper? && foreign !in wrappers
    ensures var r := Install(wrappers, Some(foreign), serial);
      && r.1 == Some(ParityWrapper(serial, Some(foreign)))
      && RowClassName(r.1.value, supplied, index) == Some(ParityClassName(index) + " " + RowClassName(foreign, supplied, index).value)
  {
    WrapperClassName(serial, Some(foreign), supplied, index);
  }

  /** A state of the override: only parity wrappers are ever added to the set. */
  ghost predicate OnlyWrappers(wrappers: set<RowClassFn>) {
    forall f | f in wrappers :: f.ParityWrapper?
  }

  /** An application-supplied function is never in the set, so it is always wrapped. */
  lemma SuppliedIsWrapped(wrappers: set<RowClassFn>, id: nat, serial: nat, supplied: SuppliedBehaviour, index: int)
    requires OnlyWrappers(wrappers)
    ensures
      var r := Install(wrappers, Some(Supplied(id)), serial);
      && OnlyWrappers(r.0)
      && RowClassName(r.1.value, supplied, index)
         == Some(if supplied(id, index).None? then ParityClassName(index)
                 else ParityClassName(index) + " " + supplied(id, index).value)
  {
    assert Supplied(id) !in wrappers;
  }

  /** A CSS-in-JS style object, compared by identity. */
  class StyleObject {
    const declarations: map<string, string>

    constructor (declarations: map<string, string>)
      ensures this.declarations == declarations
    {
      this.declarations := declarations;
    }
  }

  /** The `ownerState` the data grid passes to its style overrides. */
  class OwnerState {
    var getRowClassName: Option<RowClassFn>

    constructor (getRowClassName: Option<RowClassFn>)
      ensures this.getRowClassName == getRowClassName
    {
      this.getRowClassName := getRowClassName;
    }
  }

  /**
   * The identities of the function objects created so far, across every
   * override and every theme: the next function object created gets `next`.
   */
  class FunctionHeap {
    var next: nat

    constructor ()
      ensures next == 0
    {
      next := 0;
    }
  }

  /** The closure stored as `MuiDataGrid.styleOverrides.root`, with its captured `set` and `borderNone`. */
  class RootOverride {
    var wrappers: set<RowClassFn>
    const borderNone: StyleObject

    ghost predicate Valid()
      reads this
    {
      OnlyWrappers(wrappers)
    }

    constructor ()
      ensures Valid() && wrappers == {}
      ensures borderNone.declarations == map["border" := "none"]
    {
      wrappers := {};
      borderNone := new StyleObject(map["border" := "none"]);
    }

    /**
     * The override called with `params.ownerState`; a wrapper it creates is
     * a new function object on `heap`.
     */
    method Root(ownerState: OwnerState?, heap: FunctionHeap) returns (style: StyleObject)
      requires Valid()
      modifies this, ownerState, heap
      ensures Valid()
      ensures style == borderNone
      ensures ownerState == null ==> wrappers == old(wrappers) && heap.next == old(heap.next)
      ensures ownerState != null ==>
        (wrappers, ownerState.getRowClassName) == Install(old(wrappers), old(ownerState.getRowClassName), old(heap.next))
      ensures ownerState != null ==>
        heap.next == old(heap.next) + (if Installed(old(wrappers), old(ownerState.getRowClassName)) then 0 else 1)
    {
      if ownerState == null {
        return borderNone;
      }
      if ownerState.getRowClassName.None? || ownerState.getRowClassName.value !in wrappers {
        var originalGetRowClassName := ownerState.getRowClassName;
        ownerState.getRowClassName := Some(ParityWrapper(heap.next, originalGetRowClassName));
        heap.next := heap.next + 1;
        wrappers := wrappers + {ownerState.getRowClassName.value};
      }
      return borderNone;
    }
  }

  /** Rendering the grid twice wraps its row-class function once and yields the same style object. */
  method RenderTwice(id: nat, supplied: SuppliedBehaviour) returns (first: StyleObject, second: StyleObject, installed: Option<RowClassFn>)
    ensures first == second && first.declarations == map["border" := "none"]
    ensures installed == Some(ParityWrapper(0, Some(Supplied(id))))
    ensures RowClassName(installed.value, supplied, 3)
         == Some(if supplied(id, 3).None? then "odd" else "odd" + " " + supplied(id, 3).value)
  {
    var heap := new FunctionHeap();
    var root := new RootOverride();
    var ownerState := new OwnerState(Some(Supplied(id)));
    first := root.Root(ownerState, heap);
    second := root.Root(ownerState, heap);
    installed := ownerState.getRowClassName;
    assert ParityClassName(3) == "odd";
    WrapperClassName(0, Some(Supplied(id)), supplied, 3);
  }

  /**
   * Two themes (a light and a dark one, say) each build their own override.
   * An owner state wrapped by the first and then styled by the second is
   * wrapped a second time: row 3 gets `odd` twice.
   */
  method RenderAcrossThemes(id: nat, supplied: SuppliedBehaviour) returns (installed: Option<RowClassFn>)
    ensures installed == Some(ParityWrapper(2, Some(ParityWrapper(0, Some(Supplied(id))))))
    ensures RowClassName(installed.value, supplied, 3)
         == Some(if supplied(id, 3).None? then "odd odd" else "odd odd " + supplied(id, 3).value)
  {
    var heap := new FunctionHeap();
    var light := new RootOverride();
    var dark := new RootOverride();
    var first := new OwnerState(Some(Supplied(id)));
    var other := new OwnerState(Some(Supplied(id)));
    var _ := light.Root(first, heap);
    var _ := dark.Root(other, heap);
    var _ := dark.Root(first, heap);
    installed := first.getRowClassName;
    assert ParityClassName(3) == "odd";
    var inner := ParityWrapper(0, Some(Supplied(id)));
    WrapperClassName(0, Some(Supplied(id)), supplied, 3);
    WrapperClassName(2, Some(inner), supplied, 3);
    assert "odd" + " " + "odd" == "odd odd";
    if supplied(id, 3).Some? {
      var c := supplied(id, 3).value;
      assert "odd" + " " + ("odd" + " " + c) == "odd odd " + c;
    }
  }
}
