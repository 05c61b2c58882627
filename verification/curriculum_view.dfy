/** Module completion tracking in the curriculum view: the completed-index
    set, the busy flag of an in-flight toggle, the rewritten module array and
    the derived progress record. */
module CurriculumView {
  import opened Wrappers
  import opened CurriculumData

  /** Every member of `s` indexes one of `n` modules. */
  ghost predicate IndicesBelow(s: set<int>, n: int) {
    forall i :: i in s ==> 0 <= i < n
  }

  /** The initial set: the indices of the modules already marked completed. */
  method InitialCompleted(modules: seq<Module>) returns (done: set<int>)
    ensures forall i :: i in done <==> 0 <= i < |modules| && modules[i].completed
  {
    done := {};
    var index := 0;
    while index < |modules|
      invariant 0 <= index <= |modules|
      invariant forall i :: i in done <==> 0 <= i < index && modules[i].completed
    {
      if modules[index].completed {
        done := done + {index};
      }
      index := index + 1;
    }
  }

  /** Adds `index` when absent, removes it when present. */
  function Flip(done: set<int>, index: int): (r: set<int>)
    ensures index in r <==> index !in done
    ensures forall j :: j != index ==> (j in r <==> j in done)
  {
    if index in done then done - {index} else done + {index}
  }

  /** Two flips of the same index restore the set. */
  lemma FlipTwice(done: set<int>, index: int)
    ensures Flip(Flip(done, index), index) == done
  {
  }

  /** The module array written back: same modules, each `completed` flag
      set from membership in `done`. */
  function Rewrite(modules: seq<Module>, done: set<int>): (r: seq<Module>)
    ensures |r| == |modules|
    ensures forall i :: 0 <= i < |modules| ==>
      r[i].completed == (i in done) && r[i].(completed := modules[i].completed) == modules[i]
  {
    seq(|modules|, i requires 0 <= i < |modules| => modules[i].(completed := i in done))
  }

  /** How many modules of an array are flagged completed. */
  function CountCompleted(modules: seq<Module>): nat {
    if modules == [] then 0
    else CountCompleted(modules[..|modules| - 1]) + (if modules[|modules| - 1].completed then 1 else 0)
  }

  /** The members of `done` below `n`. */
  function DoneBelow(done: set<int>, n: int): set<int> {
    set i | i in done && i < n
  }

  lemma {:induction false} RewriteCountPrefix(modules: seq<Module>, done: set<int>, n: nat)
    requires n <= |modules|
    requires IndicesBelow(done, |modules|)
    ensures CountCompleted(Rewrite(modules, done)[..n]) == |DoneBelow(done, n)|
  {
    var r := Rewrite(modules, done);
    if n == 0 {
      assert DoneBelow(done, 0) == {};
    } else {
      RewriteCountPrefix(modules, done, n - 1);
      assert r[..n][..n - 1] == r[..n - 1];
      if n - 1 in done {
        assert DoneBelow(done, n) == DoneBelow(done, n - 1) + {n - 1};
      } else {
        assert DoneBelow(done, n) == DoneBelow(done, n - 1);
      }
    }
  }

  /** The written array has exactly |done| modules flagged completed. */
  lemma RewriteCount(modules: seq<Module>, done: set<int>)
    requires IndicesBelow(done, |modules|)
    ensures CountCompleted(Rewrite(modules, done)) == |done|
  {
    RewriteCountPrefix(modules, done, |modules|);
    assert Rewrite(modules, done)[..|modules|] == Rewrite(modules, done);
    assert DoneBelow(done, |modules|) == done;
  }

  /** The indices 0 .. n-1. */
  function IndexRange(n: nat): (r: set<int>)
    ensures |r| == n
    ensures forall i :: i in r <==> 0 <= i < n
  {
    if n == 0 then {} else IndexRange(n - 1) + {n - 1}
  }

  lemma SubsetSize(a: set<int>, b: set<int>)
    requires a <= b
    ensures |a| <= |b|
  {
    assert b == a + (b - a);
  }

  /** A set of module indices has as many members as there are modules
      exactly when it holds every index. */
  lemma {:induction false} FullIffAll(done: set<int>, n: nat)
    requires IndicesBelow(done, n)
    ensures |done| == n <==> forall i :: 0 <= i < n ==> i in done
  {
    if forall i :: 0 <= i < n ==> i in done {
      assert done == IndexRange(n);
    } else {
      var i :| 0 <= i < n && i !in done;
      assert done <= IndexRange(n) - {i};
      SubsetSize(done, IndexRange(n) - {i});
    }
  }

  /** The progress row upserted for (user, curriculum). */
  datatype ProgressRecord = ProgressRecord(
    userId: string, curriculumId: string, completedModules: nat, totalModules: nat)

  function ProgressFor(userId: string, planId: string, done: set<int>, modules: seq<Module>): (p: ProgressRecord)
    requires IndicesBelow(done, |modules|)
    ensures p.userId == userId && p.curriculumId == planId
    ensures p.completedModules == CountCompleted(Rewrite(modules, done))
    ensures p.totalModules == |Rewrite(modules, done)|
  {
    RewriteCount(modules, done);
    ProgressRecord(userId, planId, |done|, |modules|)
  }

  /** The update of the curriculum row: its modules, keyed by plan and user. */
  datatype ModuleWrite = ModuleWrite(planId: string, userId: string, modules: seq<Module>)

  /** What finishing a toggle does outside the view. */
  datatype ToggleEffects = ToggleEffects(moduleWrite: ModuleWrite, progress: Option<ProgressRecord>, notified: bool)

  class ViewState {
    const modules: seq<Module>
    const planId: string
    const hasObserver: bool
    var completed: set<int>
    var isUpdating: bool
    /** The flipped set of the toggle in flight. */
    var pending: set<int>
    /** The signed-in user of the toggle in flight. */
    var actingUser: string

    ghost predicate Valid()
      reads this
    {
      IndicesBelow(completed, |modules|) && IndicesBelow(pending, |modules|)
    }

    constructor (modules: seq<Module>, planId: string, hasObserver: bool)
      ensures Valid() && !isUpdating
      ensures this.modules == modules && this.planId == planId && this.hasObserver == hasObserver
      ensures forall i :: i in completed <==> 0 <= i < |modules| && modules[i].completed
    {
      var done := InitialCompleted(modules);
      this.modules := modules;
      this.planId := planId;
      this.hasObserver := hasObserver;
      completed := done;
      isUpdating := false;
      pending := {};
      actingUser := "";
    }

    /** The view shows the curriculum as finished. */
    function IsComplete(): (b: bool)
      reads this
      requires Valid()
      ensures b <==> forall i :: 0 <= i < |modules| ==> i in completed
    {
      FullIffAll(completed, |modules|);
      |completed| == |modules|
    }

    /** A click on the checkbox of module `index`: ignored without a user or
        while another toggle is in flight; otherwise marks the view busy and
        prepares the flipped set. */
    method BeginToggle(index: int, user: Option<string>) returns (started: bool)
      requires Valid()
      requires 0 <= index < |modules|
      modifies this
      ensures Valid()
      ensures started <==> user.Some? && !old(isUpdating)
      ensures started ==> (isUpdating && pending == Flip(old(completed), index)
        && completed == old(completed) && actingUser == user.value)
      ensures !started ==> (isUpdating == old(isUpdating) && completed == old(completed)
        && pending == old(pending) && actingUser == old(actingUser))
    {
      if user.None? || isUpdating {
        return false;
      }
      isUpdating := true;
      pending := Flip(completed, index);
      actingUser := user.value;
      started := true;
    }

    /** The toggle's writes complete. The set is committed only when the
        module write succeeded; the progress write's outcome changes nothing
        here; the view is never left busy. */
    method EndToggle(writeOk: bool, progressOk: bool) returns (effects: ToggleEffects)
      requires Valid() && isUpdating
      modifies this
      ensures Valid() && !isUpdating
      ensures pending == old(pending) && actingUser == old(actingUser)
      ensures effects.moduleWrite == ModuleWrite(planId, actingUser, Rewrite(modules, pending))
      ensures completed == if writeOk then pending else old(completed)
      ensures effects.progress == if writeOk then Some(ProgressFor(actingUser, planId, pending, modules)) else None
      ensures effects.notified == (writeOk && hasObserver)
    {
      var write := ModuleWrite(planId, actingUser, Rewrite(modules, pending));
      if !writeOk {
        isUpdating := false;
        return ToggleEffects(write, None, false);
      }
      completed := pending;
      var progress := ProgressFor(actingUser, planId, pending, modules);
      isUpdating := false;
      effects := ToggleEffects(write, Some(progress), hasObserver);
    }
  }

  /** Two successful toggles of one module, from a freshly opened view: the
      completed set is back where it started and the second write carries
      the original flags. */
  method ToggleTwice(modules: seq<Module>, planId: string, index: int, userId: string)
    returns (before: set<int>, after: set<int>, secondWrite: seq<Module>)
    requires 0 <= index < |modules|
    ensures forall i :: i in before <==> 0 <= i < |modules| && modules[i].completed
    ensures after == before
    ensures secondWrite == modules
  {
    var view := new ViewState(modules, planId, true);
    before := view.completed;
    var started := view.BeginToggle(index, Some(userId));
    var effects := view.EndToggle(true, true);
    started := view.BeginToggle(index, Some(userId));
    effects := view.EndToggle(true, true);
    FlipTwice(before, index);
    after := view.completed;
    secondWrite := effects.moduleWrite.modules;
    assert forall i :: 0 <= i < |modules| ==> secondWrite[i] == modules[i];
  }
}
