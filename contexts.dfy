/** The plugin execution context: the state bundle handed to a plugin, and
    the merge of shared variables back into the parent after a plugin returns. */
module Contexts {
  import opened Wrappers
  import opened Xrm

  /** The fields of a plugin context the engine reads or writes. */
  datatype ContextView = ContextView(
    depth: int,
    mode: int,
    stage: int,
    primaryEntityId: Guid,
    primaryEntityName: Option<string>,
    preEntityImages: map<string, Snapshot>,
    postEntityImages: map<string, Snapshot>,
    sharedVariables: map<string, Value>)

  /** What running a plugin does, seen from the engine: given the plugin and
      the child context, either the child's shared variables when it returns,
      or the exception it threw (already unwrapped from the reflection wrapper). */
  type Handler = (HandlerId, ContextView) -> Result<map<string, Value>, string>

  /** The parent's shared variables after a child's have been written into
      them, key by key. */
  function Merged(parent: map<string, Value>, child: map<string, Value>): (r: map<string, Value>)
    ensures r.Keys == parent.Keys + child.Keys
    ensures forall k :: k in child ==> r[k] == child[k]
    ensures forall k :: k in parent && k !in child ==> r[k] == parent[k]
  {
    parent + child
  }

  /** A plugin execution context; its fields are updated in place. */
  class PluginContext {
    var depth: int
    var mode: int
    var stage: int
    var primaryEntityId: Guid
    var primaryEntityName: Option<string>
    var preEntityImages: map<string, Snapshot>
    var postEntityImages: map<string, Snapshot>
    var sharedVariables: map<string, Value>

    function View(): ContextView
      reads this
    {
      ContextView(depth, mode, stage, primaryEntityId, primaryEntityName,
                  preEntityImages, postEntityImages, sharedVariables)
    }

    constructor (v: ContextView)
      ensures View() == v
    {
      depth, mode, stage := v.depth, v.mode, v.stage;
      primaryEntityId, primaryEntityName := v.primaryEntityId, v.primaryEntityName;
      preEntityImages, postEntityImages := v.preEntityImages, v.postEntityImages;
      sharedVariables := v.sharedVariables;
    }

    /** A new context with the same contents. */
    method Clone() returns (c: PluginContext)
      ensures fresh(c) && c.View() == View()
    {
      c := new PluginContext(View());
    }

    /** Writes every variable of `child` into this context's shared
        variables, overwriting the same key. */
    method MergeSharedVariables(child: map<string, Value>)
      modifies this
      ensures View() == old(View()).(sharedVariables := Merged(old(sharedVariables), child))
    {
      var todo := child.Keys;
      while todo != {}
        invariant todo <= child.Keys
        invariant View() == old(View()).(sharedVariables := sharedVariables)
        invariant sharedVariables.Keys == old(sharedVariables).Keys + (child.Keys - todo)
        invariant forall k :: k in child && k !in todo ==> sharedVariables[k] == child[k]
        invariant forall k :: k in old(sharedVariables) && (k !in child || k in todo) ==>
                    sharedVariables[k] == old(sharedVariables)[k]
        decreases todo
      {
        var key :| key in todo;
        sharedVariables := sharedVariables[key := child[key]];
        todo := todo - {key};
      }
      assert sharedVariables == Merged(old(sharedVariables), child);
    }
  }
}
