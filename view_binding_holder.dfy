/** Model of ViewBindingHolder.kt: a holder for a fragment's view binding,
    created when the fragment's view is created and dropped when it is
    destroyed.

    The inflater, the parent container and the views are opaque values; the
    generated `inflate` function of the binding class and the binding's
    `root` property are parameters of the holder. */
module Binding {
  import opened Optional

  datatype LayoutInflater = LayoutInflater(id: nat)
  datatype ViewGroup = ViewGroup(id: nat)
  datatype View = View(id: nat)

  /** The arguments one call of `inflate` received. */
  datatype InflateCall = InflateCall(inflater: LayoutInflater, container: Option<ViewGroup>, attachToParent: bool)

  class ViewBindingHolder<VB> {
    /** The binding class's `inflate(inflater, parent, attachToParent)`. */
    const inflate: (LayoutInflater, Option<ViewGroup>, bool) -> VB
    /** The binding's `root` view. */
    const root: VB -> View
    /** `_binding` */
    var held: Option<VB>
    /** Every call made to `inflate`, oldest first. */
    var inflateCalls: seq<InflateCall>

    /** A new holder holds no binding and has inflated nothing. */
    constructor (inflate: (LayoutInflater, Option<ViewGroup>, bool) -> VB, root: VB -> View)
      ensures this.inflate == inflate && this.root == root
      ensures held == None && inflateCalls == []
    {
      this.inflate := inflate;
      this.root := root;
      held := None;
      inflateCalls := [];
    }

    /** The `binding` accessor: `_binding!!` fails when nothing is held. */
    function Binding(): (vb: VB)
      reads this
      requires held.Some?
      ensures held == Some(vb)
    {
      held.value
    }

    /** createBinding: inflates without attaching to the container, keeps
        the new binding (replacing any earlier one) and returns its root. */
    method CreateBinding(inflater: LayoutInflater, container: Option<ViewGroup>) returns (view: View)
      modifies this`held, this`inflateCalls
      ensures held == Some(inflate(inflater, container, false))
      ensures view == root(Binding())
      ensures inflateCalls == old(inflateCalls) + [InflateCall(inflater, container, false)]
    {
      held := Some(inflate(inflater, container, false));
      inflateCalls := inflateCalls + [InflateCall(inflater, container, false)];
      view := root(Binding());
    }

    /** destroyBinding: drops the binding, whether one was held or not. */
    method DestroyBinding()
      modifies this`held
      ensures held == None
    {
      held := None;
    }
  }

  /** The fragment lifecycle the holder serves: create, destroy, create
      again; the accessor then yields the second binding, and destroying twice
      leaves the holder as empty as destroying once. */
  method RecreateAfterDestroy<VB>(holder: ViewBindingHolder<VB>, inflater: LayoutInflater,
                                  first: Option<ViewGroup>, second: Option<ViewGroup>)
    returns (view: View)
    modifies holder
    ensures holder.held == Some(holder.inflate(inflater, second, false))
    ensures view == holder.root(holder.inflate(inflater, second, false))
    ensures |holder.inflateCalls| == |old(holder.inflateCalls)| + 2
    ensures forall k :: |old(holder.inflateCalls)| <= k < |holder.inflateCalls| ==> !holder.inflateCalls[k].attachToParent
  {
    var v1 := holder.CreateBinding(inflater, first);
    holder.DestroyBinding();
    holder.DestroyBinding();
    assert holder.held == None;
    view := holder.CreateBinding(inflater, second);
  }
}
