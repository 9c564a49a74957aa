/** The shared state of the executor: the scaling state, the cached action set, and its optimistic lock. */
module ExecutorCore {
  import opened Api
  import opened CoreState
  import Broadcast

  datatype TimedActions = TimedActions(id: int, actions: ActionSet)

  datatype Shared = Shared(core: State, actions: Option<TimedActions>, lastActionsID: int, sent: nat)

  /** The cached actions, or newly calculated ones if an update has invalidated them. */
  function GetActions(c: Shared, now: int): (r: Result<(Shared, TimedActions)>)
    requires c.core.config.computeUnit.NonZero()
  {
    if c.actions.Some? then Ok((c, c.actions.value))
    else
      var actions :- NextActions(c.core, now);
      var timed := TimedActions(c.lastActionsID + 1, actions);
      Ok((c.(actions := Some(timed), lastActionsID := timed.id), timed))
  }

  function Update(c: Shared, core: State): (c': Shared) {
    c.(sent := c.sent + 1, actions := None, core := core)
  }

  /** Whether the optimistic lock lets an action of this set begin. */
  predicate Unchanged(c: Shared, last: TimedActions) {
    last.id == c.lastActionsID
  }

  class ExecutorCore {
    var core: State
    var actions: Option<TimedActions>
    var lastActionsID: int
    const updates: Broadcast.Broadcaster

    ghost predicate Valid()
      reads this, updates
    {
      updates.Valid() && core.config.computeUnit.NonZero()
    }

    function Value(): (c: Shared)
      reads this, updates
    {
      Shared(core, actions, lastActionsID, updates.sent)
    }

    constructor (core: State)
      requires core.config.computeUnit.NonZero()
      ensures Valid() && fresh(updates)
      ensures Value() == Shared(core, None, -1, 0)
    {
      this.core := core;
      this.actions := None;
      this.lastActionsID := -1;
      this.updates := new Broadcast.Broadcaster();
    }

    method FetchActions(now: int) returns (r: Result<TimedActions>)
      requires Valid()
      modifies this`actions, this`lastActionsID
      ensures Valid()
      ensures var g := old(GetActions(Value(), now));
        if g.Ok? then r == Ok(g.value.1) && Value() == g.value.0 else r == Panic(g.kind) && Value() == old(Value())
    {
      if actions.None? {
        var id := lastActionsID + 1;
        var next :- NextActions(core, now);
        actions := Some(TimedActions(id, next));
        lastActionsID := id;
      }
      r := Ok(actions.value);
    }

    method UpdateWith(with: State -> State)
      requires Valid() && with(core).config == core.config
      modifies this`core, this`actions, updates
      ensures Valid()
      ensures Value() == Update(old(Value()), with(old(core)))
    {
      updates.Broadcast();
      actions := None;
      core := with(core);
    }

    method UpdateIfActionsUnchanged(last: TimedActions, with: State -> State) returns (updated: bool)
      requires Valid() && with(core).config == core.config
      modifies this`core, this`actions, updates
      ensures Valid()
      ensures updated <==> Unchanged(old(Value()), last)
      ensures Value() == if updated then Update(old(Value()), with(old(core))) else old(Value())
    {
      if last.id != lastActionsID {
        return false;
      }
      updates.Broadcast();
      actions := None;
      core := with(core);
      return true;
    }
  }

  /** The number of the current connection to the vm-monitor. */
  class StoredGenerationNumber {
    var value: int

    constructor ()
      ensures value == 0
    {
      value := 0;
    }

    method Inc() returns (g: int)
      modifies this
      ensures g == value == old(value) + 1
    {
      value := value + 1;
      g := value;
    }

    method Get() returns (g: int)
      ensures g == value
    {
      g := value;
    }
  }
}
