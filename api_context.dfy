/** The per-key request state of `src/contexts/ApiContext.tsx`: a pure reducer
    over three records keyed by request key, the getters with their defaults,
    and `makeRequest`'s sequence of dispatches around one awaited request. */
module ApiContext {
  import opened JsRuntime
  import opened StockTypes

  const UNKNOWN_MESSAGE: string := "未知錯誤"

  /** The context's own `ApiError` record: a message and optional status and code. */
  datatype ErrorInfo = ErrorInfo(message: string, statusCode: Option<int>, code: Option<string>)

  /** `ApiState`: `errors[key] == None` is a key mapped to `null`. */
  datatype ApiState = ApiState(loading: map<string, bool>, errors: map<string, Option<ErrorInfo>>, data: map<string, Value>)

  const InitialState: ApiState := ApiState(map[], map[], map[])

  /** `ApiAction`, plus any action object whose `type` the reducer does not know. */
  datatype Action =
    | SetLoading(key: string, isLoading: bool)
    | SetError(key: string, error: Option<ErrorInfo>)
    | SetData(key: string, value: Value)
    | ClearError(key: string)
    | ClearAllErrors
    | Unrecognised

  /** `apiReducer` */
  function Reduce(s: ApiState, a: Action): ApiState
  {
    match a
    case SetLoading(key, b) => s.(loading := s.loading[key := b])
    case SetError(key, e) => s.(errors := s.errors[key := e])
    case SetData(key, v) => s.(data := s.data[key := v])
    case ClearError(key) => s.(errors := s.errors[key := None])
    case ClearAllErrors => s.(errors := map[])
    case Unrecognised => s
  }

  /** Dispatching several actions in order. */
  function ReduceAll(s: ApiState, actions: seq<Action>): ApiState
    decreases |actions|
  {
    if actions == [] then s else ReduceAll(Reduce(s, actions[0]), actions[1..])
  }

  /** `isLoading(key)`: `state.loading[key] || false`. */
  function IsLoading(s: ApiState, key: string): bool
  {
    key in s.loading && s.loading[key]
  }

  /** `getError(key)`: `state.errors[key] || null`. */
  function GetError(s: ApiState, key: string): Option<ErrorInfo>
  {
    if key in s.errors then s.errors[key] else None
  }

  /** `getData(key)`: `state.data[key] || null`; a falsy stored value reads as `null`. */
  function GetData(s: ApiState, key: string): Option<Value>
  {
    if key in s.data && Truthy(s.data[key]) then Some(s.data[key]) else None
  }

  /** The error `makeRequest` records and rethrows for a failed request. */
  function RequestError(t: Thrown): ErrorInfo
  {
    ErrorInfo(MessageOr(t, UNKNOWN_MESSAGE), None, Some("REQUEST_ERROR"))
  }

  /** The actions `makeRequest(key, requestFn, options)` dispatches before the await. */
  function BeginActions(key: string, skipLoading: bool): seq<Action>
  {
    (if skipLoading then [] else [SetLoading(key, true)]) + [SetError(key, None)]
  }

  /** The actions it dispatches once the request has settled, the `finally` included. */
  function EndActions(key: string, skipLoading: bool, outcome: Result<Value, Thrown>): seq<Action>
  {
    (if outcome.Ok? then [SetData(key, outcome.value)] else [SetError(key, Some(RequestError(outcome.error)))])
    + (if skipLoading then [] else [SetLoading(key, false)])
  }

  // ---------------------------------------------------------------- properties of the reducer

  /** `SET_LOADING`, `SET_ERROR`, `SET_DATA` and `CLEAR_ERROR` change one key of
      one record: every other key of that record and the other two records are unchanged. */
  lemma ReducerTouchesOnlyItsKey(s: ApiState, a: Action, k: string)
    requires a.SetLoading? || a.SetError? || a.SetData? || a.ClearError?
    requires k != a.key
    ensures IsLoading(Reduce(s, a), k) == IsLoading(s, k)
    ensures GetError(Reduce(s, a), k) == GetError(s, k)
    ensures GetData(Reduce(s, a), k) == GetData(s, k)
    ensures !a.SetLoading? ==> Reduce(s, a).loading == s.loading
    ensures !(a.SetError? || a.ClearError?) ==> Reduce(s, a).errors == s.errors
    ensures !a.SetData? ==> Reduce(s, a).data == s.data
  {
  }

  /** `CLEAR_ERROR` keeps the key, mapped to `null`; `CLEAR_ALL_ERRORS` empties
      the errors. Neither touches loading or data. */
  lemma ClearingErrors(s: ApiState, key: string)
    ensures key in Reduce(s, ClearError(key)).errors && Reduce(s, ClearError(key)).errors[key] == None
    ensures Reduce(s, ClearAllErrors).errors == map[]
    ensures forall k :: GetError(Reduce(s, ClearAllErrors), k) == None
    ensures Reduce(s, ClearError(key)).loading == s.loading && Reduce(s, ClearError(key)).data == s.data
    ensures Reduce(s, ClearAllErrors).loading == s.loading && Reduce(s, ClearAllErrors).data == s.data
  {
  }

  /** An action the reducer does not know returns the state it was given. */
  lemma UnrecognisedKeepsState(s: ApiState)
    ensures Reduce(s, Unrecognised) == s
  {
  }

  /** The getters' defaults: an unknown key is not loading, has no error and no data;
      a falsy stored value reads as no data. */
  lemma GetterDefaults(s: ApiState, key: string)
    ensures key !in s.loading ==> !IsLoading(s, key)
    ensures key !in s.errors ==> GetError(s, key) == None
    ensures key !in s.data ==> GetData(s, key) == None
    ensures key in s.data && !Truthy(s.data[key]) ==> GetData(s, key) == None
  {
  }

  /** Dispatching two batches in turn is dispatching them together. */
  lemma {:induction false} ReduceAllAppend(s: ApiState, a: seq<Action>, b: seq<Action>)
    ensures ReduceAll(s, a + b) == ReduceAll(ReduceAll(s, a), b)
    decreases |a|
  {
    if a == [] {
      assert a + b == b;
    } else {
      assert (a + b)[0] == a[0];
      assert (a + b)[1..] == a[1..] + b;
      ReduceAllAppend(Reduce(s, a[0]), a[1..], b);
    }
  }

  /** Dispatching one more action after a batch. */
  lemma ReduceAllSnoc(s: ApiState, a: seq<Action>, x: Action)
    ensures ReduceAll(s, a + [x]) == Reduce(ReduceAll(s, a), x)
  {
    ReduceAllAppend(s, a, [x]);
    assert [x][1..] == [];
  }

  /** The state after a whole `makeRequest`, with no other dispatch in between:
      loading ends false (or untouched when `skipLoading`); on success the data
      is stored and the error is `null`; on failure the error is the
      `REQUEST_ERROR` record and the data is untouched. Other keys never change. */
  lemma {:induction false} MakeRequestOutcome(s: ApiState, key: string, skipLoading: bool, outcome: Result<Value, Thrown>)
    ensures var t := ReduceAll(s, BeginActions(key, skipLoading) + EndActions(key, skipLoading, outcome));
      && (if skipLoading then t.loading == s.loading else t.loading == s.loading[key := false])
      && (outcome.Ok? ==> t.errors == s.errors[key := None] && t.data == s.data[key := outcome.value])
      && (outcome.Err? ==> t.errors == s.errors[key := Some(RequestError(outcome.error))] && t.data == s.data)
  {
    var begin := BeginActions(key, skipLoading);
    var pre: seq<Action> := if skipLoading then [] else [SetLoading(key, true)];
    ReduceAllSnoc(s, pre, SetError(key, None));
    ReduceAllSnoc(s, [], SetLoading(key, true));
    var m := ReduceAll(s, begin);
    assert m.errors == s.errors[key := None] && m.data == s.data;
    assert m.loading == if skipLoading then s.loading else s.loading[key := true];
    var stored := if outcome.Ok? then SetData(key, outcome.value) else SetError(key, Some(RequestError(outcome.error)));
    ReduceAllSnoc(m, [], stored);
    ReduceAllSnoc(m, [stored], SetLoading(key, false));
    assert EndActions(key, skipLoading, outcome) == if skipLoading then [stored] else [stored] + [SetLoading(key, false)];
    ReduceAllAppend(s, begin, EndActions(key, skipLoading, outcome));
  }

  // ---------------------------------------------------------------- the provider

  /** `ApiProvider`'s reducer state. */
  class ApiProvider {
    var state: ApiState

    constructor ()
      ensures state == InitialState
    {
      state := InitialState;
    }

    method Dispatch(a: Action)
      modifies this
      ensures state == Reduce(old(state), a)
    {
      state := Reduce(state, a);
    }

    /** `makeRequest` up to `await requestFn()`. `skipCache` is read, and nothing depends on it. */
    method BeginRequest(key: string, skipLoading: bool, skipCache: bool)
      modifies this
      ensures state == ReduceAll(old(state), BeginActions(key, skipLoading))
    {
      ghost var s0 := state;
      ghost var done: seq<Action> := [];
      if !skipLoading {
        Dispatch(SetLoading(key, true));
        ReduceAllSnoc(s0, done, SetLoading(key, true));
        done := done + [SetLoading(key, true)];
      }
      Dispatch(SetError(key, None));
      ReduceAllSnoc(s0, done, SetError(key, None));
      done := done + [SetError(key, None)];
      if !skipCache && key in state.data && Truthy(state.data[key]) {
      }
    }

    /** `makeRequest` once the request settled: the result is stored and
      returned, or the failure is recorded and rethrown; then the `finally`. */
    method EndRequest(key: string, skipLoading: bool, outcome: Result<Value, Thrown>) returns (r: Result<Value, ErrorInfo>)
      modifies this
      ensures state == ReduceAll(old(state), EndActions(key, skipLoading, outcome))
      ensures outcome.Ok? ==> r == Ok(outcome.value)
      ensures outcome.Err? ==> r == Err(RequestError(outcome.error))
    {
      ghost var s0 := state;
      ghost var done: seq<Action>;
      match outcome {
        case Ok(result) =>
          Dispatch(SetData(key, result));
          done := [SetData(key, result)];
          r := Ok(result);
        case Err(t) =>
          var apiError := RequestError(t);
          Dispatch(SetError(key, Some(apiError)));
          done := [SetError(key, Some(apiError))];
          r := Err(apiError);
      }
      ReduceAllSnoc(s0, [], done[0]);
      assert [] + [done[0]] == done;
      if !skipLoading {
        Dispatch(SetLoading(key, false));
        ReduceAllSnoc(s0, done, SetLoading(key, false));
        done := done + [SetLoading(key, false)];
      }
      assert done == EndActions(key, skipLoading, outcome);
    }

    /** `makeRequest(key, requestFn, options)` with nothing dispatched while it awaits. */
    method MakeRequest(key: string, skipLoading: bool, skipCache: bool, outcome: Result<Value, Thrown>) returns (r: Result<Value, ErrorInfo>)
      modifies this
      ensures state == ReduceAll(old(state), BeginActions(key, skipLoading) + EndActions(key, skipLoading, outcome))
      ensures outcome.Ok? ==> r == Ok(outcome.value)
      ensures outcome.Err? ==> r == Err(RequestError(outcome.error))
    {
      ghost var s0 := state;
      BeginRequest(key, skipLoading, skipCache);
      r := EndRequest(key, skipLoading, outcome);
      ReduceAllAppend(s0, BeginActions(key, skipLoading), EndActions(key, skipLoading, outcome));
    }

    /** `clearError(key)` */
    method ClearErrorOf(key: string)
      modifies this
      ensures state == Reduce(old(state), ClearError(key))
    {
      Dispatch(ClearError(key));
    }

    /** `clearAllErrors()` */
    method ClearAll()
      modifies this
      ensures state == Reduce(old(state), ClearAllErrors)
    {
      Dispatch(ClearAllErrors);
    }
  }
}
