/**
 * The stories state machine of the search client: the record the list view
 * reads, the four actions that change it, and the reducer that applies them.
 * Everything here is pure: every case of the reducer builds a new record.
 */
module Stories {
  import opened Wrappers

  /** One search hit as the list shows it. */
  datatype Story = Story(objectID: string, title: string, url: string)

  /** The record held by the reducer: the current list and the two flags. */
  datatype StoriesState = StoriesState(data: seq<Story>, isLoading: bool, isError: bool)

  /** The record the reducer starts from: no stories, not loading, no error. */
  const InitialStories: StoriesState := StoriesState([], false, false)

  /**
   * The actions the reducer is dispatched with. `Unrecognised` stands for an
   * action whose type is none of the four known tags.
   */
  datatype Action =
    | FetchInit
    | FetchSuccess(payload: seq<Story>)
    | FetchFailure
    | RemoveStories(item: Story)
    | Unrecognised(kind: string)

  predicate IsKnown(a: Action) {
    !a.Unrecognised?
  }

  /** What the reducer throws on an unknown action type. */
  datatype ReducerError = UnknownActionType(kind: string)

  /** True when some story in `data` carries the identifier `id`. */
  predicate Mentions(data: seq<Story>, id: string) {
    exists s :: s in data && s.objectID == id
  }

  /**
   * The list filter of the remove case: keeps, in order, every story whose
   * identifier differs from `id`.
   */
  function WithoutId(data: seq<Story>, id: string): (r: seq<Story>)
    ensures |r| <= |data|
    ensures forall s :: s in r <==> s in data && s.objectID != id
  {
    if data == [] then []
    else if data[0].objectID == id then WithoutId(data[1..], id)
    else [data[0]] + WithoutId(data[1..], id)
  }

  /**
   * The reducer. Each known action yields a new record; any other action
   * type is an error.
   */
  function Reduce(state: StoriesState, action: Action): (r: Result<StoriesState, ReducerError>)
    ensures r.Ok? <==> IsKnown(action)
    ensures action.Unrecognised? ==> r == Err(UnknownActionType(action.kind))
    // a fetch starts: loading, any earlier error cleared, the list kept
    ensures action.FetchInit? ==>
      r.Ok? && r.value.isLoading && !r.value.isError && r.value.data == state.data
    // a fetch resolves: the list is the payload, whatever the prior record
    ensures action.FetchSuccess? ==>
      r.Ok? && !r.value.isLoading && !r.value.isError && r.value.data == action.payload
    // a fetch fails: the error flag is up and the stale list stays
    ensures action.FetchFailure? ==>
      r.Ok? && !r.value.isLoading && r.value.isError && r.value.data == state.data
    // a removal only filters the list; the flags stay as they were
    ensures action.RemoveStories? ==>
      r.Ok? && r.value.isLoading == state.isLoading && r.value.isError == state.isError &&
      r.value.data == WithoutId(state.data, action.item.objectID)
  {
    match action
    case FetchInit => Ok(state.(isLoading := true, isError := false))
    case FetchSuccess(payload) => Ok(state.(isLoading := false, isError := false, data := payload))
    case FetchFailure => Ok(state.(isLoading := false, isError := true))
    case RemoveStories(item) => Ok(state.(data := WithoutId(state.data, item.objectID)))
    case Unrecognised(kind) => Err(UnknownActionType(kind))
  }

  /**
   * Dispatching a sequence of actions in order; the first one the reducer
   * throws on stops the run.
   */
  function ReduceAll(state: StoriesState, actions: seq<Action>): (r: Result<StoriesState, ReducerError>)
    ensures r.Ok? <==> forall a :: a in actions ==> IsKnown(a)
    decreases |actions|
  {
    if actions == [] then Ok(state)
    else
      match Reduce(state, actions[0])
      case Err(e) => Err(e)
      case Ok(next) =>
        assert forall a :: a in actions[1..] ==> a in actions;
        assert forall a :: a in actions ==> a == actions[0] || a in actions[1..];
        ReduceAll(next, actions[1..])
  }

  /**
   * Dispatching one more action after a run is reducing the run's record with
   * it: the record is always the replay of the actions dispatched so far.
   */
  lemma {:induction false} ReduceAllSnoc(state: StoriesState, actions: seq<Action>, a: Action)
    requires ReduceAll(state, actions).Ok?
    ensures ReduceAll(state, actions + [a]) == Reduce(ReduceAll(state, actions).value, a)
    decreases |actions|
  {
    if actions == [] {
      assert [] + [a] == [a];
      assert [a][1..] == [];
    } else {
      assert (actions + [a])[0] == actions[0];
      assert (actions + [a])[1..] == actions[1..] + [a];
      ReduceAllSnoc(Reduce(state, actions[0]).value, actions[1..], a);
    }
  }

  /** `xs` occurs in `ys` in the same relative order, possibly with gaps. */
  predicate IsSubsequence(xs: seq<Story>, ys: seq<Story>)
    decreases |ys|
  {
    if xs == [] then true
    else if ys == [] then false
    else if xs[0] == ys[0] then IsSubsequence(xs[1..], ys[1..])
    else IsSubsequence(xs, ys[1..])
  }

  /** The filter keeps the relative order of the stories it keeps. */
  lemma {:induction false} WithoutIdPreservesOrder(data: seq<Story>, id: string)
    ensures IsSubsequence(WithoutId(data, id), data)
  {
    if data != [] {
      WithoutIdPreservesOrder(data[1..], id);
      var r := WithoutId(data, id);
      if data[0].objectID == id && r != [] {
        assert r[0] in r;
      }
    }
  }

  /**
   * The filter drops exactly the stories with identifier `id`: every other
   * story keeps its multiplicity.
   */
  lemma {:induction false} WithoutIdCounts(data: seq<Story>, id: string, s: Story)
    ensures multiset(WithoutId(data, id))[s] == if s.objectID == id then 0 else multiset(data)[s]
  {
    if data != [] {
      WithoutIdCounts(data[1..], id, s);
      assert data == [data[0]] + data[1..];
    }
  }

  /** The list is unchanged exactly when no story carries the identifier. */
  lemma {:induction false} WithoutIdUnchangedIff(data: seq<Story>, id: string)
    ensures WithoutId(data, id) == data <==> !Mentions(data, id)
  {
    if Mentions(data, id) {
      var s :| s in data && s.objectID == id;
      assert s !in WithoutId(data, id);
    } else if data != [] {
      assert data[0] in data;
      assert !Mentions(data[1..], id) by {
        forall s | s in data[1..] ensures s.objectID != id {
          assert s in data;
        }
      }
      WithoutIdUnchangedIff(data[1..], id);
    }
  }

  /** The list gets strictly shorter exactly when some story carries the identifier. */
  lemma {:induction false} WithoutIdShrinksIff(data: seq<Story>, id: string)
    ensures |WithoutId(data, id)| < |data| <==> Mentions(data, id)
  {
    if data != [] {
      WithoutIdShrinksIff(data[1..], id);
      if data[0].objectID == id {
        assert data[0] in data;
      } else {
        assert Mentions(data[1..], id) <==> Mentions(data, id) by {
          if Mentions(data, id) {
            var s :| s in data && s.objectID == id;
            assert s != data[0];
            assert s in data[1..];
          }
          if Mentions(data[1..], id) {
            var s :| s in data[1..] && s.objectID == id;
            assert s in data;
          }
        }
      }
    }
  }

  /** Filtering twice by the same identifier is filtering once. */
  lemma {:induction false} WithoutIdIdempotent(data: seq<Story>, id: string)
    ensures WithoutId(WithoutId(data, id), id) == WithoutId(data, id)
  {
    WithoutIdUnchangedIff(WithoutId(data, id), id);
  }

  /** Two removals give the same list in either order. */
  lemma {:induction false} WithoutIdCommutes(data: seq<Story>, a: string, b: string)
    ensures WithoutId(WithoutId(data, a), b) == WithoutId(WithoutId(data, b), a)
  {
    if data != [] {
      WithoutIdCommutes(data[1..], a, b);
    }
  }

  /** Removing a story twice leaves the record as removing it once. */
  lemma RemoveIdempotent(state: StoriesState, item: Story)
    ensures Reduce(state, RemoveStories(item)).Ok?
    ensures Reduce(Reduce(state, RemoveStories(item)).value, RemoveStories(item))
         == Reduce(state, RemoveStories(item))
  {
    WithoutIdIdempotent(state.data, item.objectID);
  }

  /**
   * Any run of removals succeeds, never lengthens the list, keeps the flags,
   * and leaves no story with the identifier of any removed item.
   */
  lemma {:induction false} RemovalsShrink(state: StoriesState, actions: seq<Action>)
    requires forall a :: a in actions ==> a.RemoveStories?
    ensures ReduceAll(state, actions).Ok?
    ensures |ReduceAll(state, actions).value.data| <= |state.data|
    ensures ReduceAll(state, actions).value.isLoading == state.isLoading
    ensures ReduceAll(state, actions).value.isError == state.isError
    ensures forall a, s :: a in actions && s in ReduceAll(state, actions).value.data ==>
      s.objectID != a.item.objectID
    decreases |actions|
  {
    if actions != [] {
      var next := Reduce(state, actions[0]).value;
      assert forall a :: a in actions[1..] ==> a in actions;
      RemovalsShrink(next, actions[1..]);
      var final := ReduceAll(state, actions).value;
      assert final == ReduceAll(next, actions[1..]).value;
      forall a, s | a in actions && s in final.data
        ensures s.objectID != a.item.objectID
      {
        if a != actions[0] {
          assert a in actions[1..];
        } else {
          // the later removals only drop stories, so s was already in `next`
          RemovalsKeepOnlyFrom(next, actions[1..], s);
        }
      }
    }
  }

  /** A run of removals keeps only stories that were already there. */
  lemma {:induction false} RemovalsKeepOnlyFrom(state: StoriesState, actions: seq<Action>, s: Story)
    requires forall a :: a in actions ==> a.RemoveStories?
    ensures s in ReduceAll(state, actions).value.data ==> s in state.data
    decreases |actions|
  {
    if actions != [] {
      assert forall a :: a in actions[1..] ==> a in actions;
      RemovalsKeepOnlyFrom(Reduce(state, actions[0]).value, actions[1..], s);
    }
  }
}
