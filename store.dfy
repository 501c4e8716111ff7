/** The front end's global store: its initial state and the reducer that
    dispatches on `action.type`. */
module Store {

  /** The JavaScript values the store and its actions are built from. */
  datatype JsValue =
    | Undefined
    | Null
    | Bool(b: bool)
    | Str(s: string)
    | Object(fields: map<string, JsValue>)

  /** A store is an object's property table; the spread `{...store}` copies it. */
  type StoreState = map<string, JsValue>

  /** What a dispatch does: it yields the next store or throws. */
  datatype Outcome = Next(store: StoreState) | Thrown(error: string)

  const UnknownAction := "Unknown action."
  /** The error destructuring `undefined` or `null` raises. */
  const TypeError := "TypeError"

  /** `initialStore()`. */
  function Initial(): (s: StoreState)
    ensures s.Keys == {"token", "isLoginSuccessful", "message", "isSignUpSuccessful"}
    ensures s["token"] == Null && s["isLoginSuccessful"] == Bool(false)
    ensures s["message"] == Str("") && s["isSignUpSuccessful"] == Bool(false)
  {
    map["token" := Null, "isLoginSuccessful" := Bool(false), "message" := Str(""), "isSignUpSuccessful" := Bool(false)]
  }

  /** `v.name` on a value that is neither `undefined` nor `null`: an
      object's own property, `undefined` for a missing one and for the
      primitives (which have no such property). */
  function Property(v: JsValue, name: string): JsValue
  {
    match v
    case Object(fields) => if name in fields then fields[name] else Undefined
    case _ => Undefined
  }

  /** `storeReducer(store, action = {})`. */
  function Reduce(store: StoreState, action: JsValue): Outcome
  {
    var act := if action == Undefined then Object(map[]) else action;
    if act == Null then Thrown(TypeError)
    else if Property(act, "type") != Str("fetchedToken") then Thrown(UnknownAction)
    else
      var payload := Property(act, "payload");
      if payload == Undefined || payload == Null then Thrown(TypeError)
      else Next(store["token" := Property(payload, "token")]["isLoginSuccessful" := Property(payload, "isLoginSuccessful")])
  }

  /** A login action carrying the given token and flag. */
  function FetchedToken(token: JsValue, isLoginSuccessful: JsValue): JsValue
  {
    Object(map["type" := Str("fetchedToken"),
               "payload" := Object(map["token" := token, "isLoginSuccessful" := isLoginSuccessful])])
  }

  // -------------------------------------------------------------- properties

  /** `fetchedToken` sets the two login entries from the payload and keeps
      every other entry of the store. */
  lemma FetchedTokenSets(store: StoreState, token: JsValue, flag: JsValue)
    ensures Reduce(store, FetchedToken(token, flag)).Next?
    ensures var s := Reduce(store, FetchedToken(token, flag)).store;
      && s.Keys == store.Keys + {"token", "isLoginSuccessful"}
      && s["token"] == token && s["isLoginSuccessful"] == flag
      && forall k :: k in store && k != "token" && k != "isLoginSuccessful" ==> s[k] == store[k]
  {
  }

  /** From the initial store, the message and signup entries survive a login. */
  lemma LoginKeepsSignupState(token: JsValue, flag: JsValue)
    ensures var s := Reduce(Initial(), FetchedToken(token, flag)).store;
      s["message"] == Str("") && s["isSignUpSuccessful"] == Bool(false) && s.Keys == Initial().Keys
  {
    FetchedTokenSets(Initial(), token, flag);
  }

  /** Dispatching the same action twice is dispatching it once. */
  lemma ReduceIdempotent(store: StoreState, action: JsValue)
    requires Reduce(store, action).Next?
    ensures Reduce(Reduce(store, action).store, action) == Reduce(store, action)
  {
  }

  /** Every action whose type is not `fetchedToken`, a missing one
      included, throws 'Unknown action.'; the reducer succeeds exactly on a
      `fetchedToken` action that carries a payload. */
  lemma ReduceOutcomes(store: StoreState, action: JsValue)
    ensures action != Null && Property(action, "type") != Str("fetchedToken") ==>
      Reduce(store, action) == Thrown(UnknownAction)
    ensures Reduce(store, action).Next? <==>
      Property(action, "type") == Str("fetchedToken")
      && Property(action, "payload") != Undefined && Property(action, "payload") != Null
  {
  }

  /** Dispatching with no action at all throws 'Unknown action.'. */
  lemma NoActionThrows(store: StoreState)
    ensures Reduce(store, Undefined) == Thrown(UnknownAction)
  {
  }
}
