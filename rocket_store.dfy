/**
 * The rocket records and the pure lookup logic behind the store's getters
 * (src/stores/rocket.ts).
 */
module Rockets {
  import opened Wrappers

  /** A rocket as the remote API returns it, or as the user authors it. */
  datatype Rocket = Rocket(
    id: string,
    name: string,
    description: string,
    flickrImages: seq<string>,
    costPerLaunch: int,
    country: string,
    firstFlight: string)

  /** Some rocket of `rockets` carries identifier `id`. */
  ghost predicate HasId(rockets: seq<Rocket>, id: string)
  {
    exists i :: 0 <= i < |rockets| && rockets[i].id == id
  }

  /** Index `k` holds the first rocket of `rockets` whose identifier is `id`. */
  ghost predicate IsFirstMatch(rockets: seq<Rocket>, id: string, k: int)
  {
    0 <= k < |rockets| && rockets[k].id == id &&
    forall j :: 0 <= j < k ==> rockets[j].id != id
  }

  /**
   * `rockets.find(r => r.id === id)`: the first rocket with identifier `id`,
   * or nothing when there is none.
   */
  function FindById(rockets: seq<Rocket>, id: string): (found: Option<Rocket>)
    ensures found.Some? <==> HasId(rockets, id)
    ensures found.Some? ==> found.value in rockets && found.value.id == id
  {
    if rockets == [] then None
    else if rockets[0].id == id then Some(rockets[0])
    else
      var rest := FindById(rockets[1..], id);
      assert HasId(rockets[1..], id) ==> HasId(rockets, id) by {
        if HasId(rockets[1..], id) {
          var i :| 0 <= i < |rockets[1..]| && rockets[1..][i].id == id;
          assert rockets[i + 1].id == id;
        }
      }
      assert HasId(rockets, id) ==> HasId(rockets[1..], id) by {
        if HasId(rockets, id) {
          var i :| 0 <= i < |rockets| && rockets[i].id == id;
          assert i != 0 && rockets[1..][i - 1].id == id;
        }
      }
      rest
  }

  /** What `FindById` returns is exactly the rocket at the first matching index. */
  lemma {:induction false} FindByIdIsFirstMatch(rockets: seq<Rocket>, id: string, k: int)
    requires IsFirstMatch(rockets, id, k)
    ensures FindById(rockets, id) == Some(rockets[k])
  {
    if k > 0 {
      assert rockets[0].id != id;
      FindByIdIsFirstMatch(rockets[1..], id, k - 1);
    }
  }

  /** Whenever `FindById` finds something, it is at some first matching index. */
  lemma {:induction false} FindByIdHasFirstMatch(rockets: seq<Rocket>, id: string)
    requires FindById(rockets, id).Some?
    ensures exists k :: IsFirstMatch(rockets, id, k) && rockets[k] == FindById(rockets, id).value
  {
    if rockets[0].id == id {
      assert IsFirstMatch(rockets, id, 0);
    } else {
      FindByIdHasFirstMatch(rockets[1..], id);
      var k :| IsFirstMatch(rockets[1..], id, k) && rockets[1..][k] == FindById(rockets[1..], id).value;
      assert IsFirstMatch(rockets, id, k + 1);
    }
  }

  /**
   * Searching a concatenation searches the front part first and falls back
   * to the back part only when the front part has no match.
   */
  lemma {:induction false} FindByIdConcat(front: seq<Rocket>, back: seq<Rocket>, id: string)
    ensures FindById(front + back, id)
         == if FindById(front, id).Some? then FindById(front, id) else FindById(back, id)
  {
    if front != [] {
      assert (front + back)[1..] == front[1..] + back;
      FindByIdConcat(front[1..], back, id);
    } else {
      assert front + back == back;
    }
  }
}

/**
 * The store itself: its state fields and the three actions, with the
 * network as an input and browser local storage as a shared object.
 */
module RocketStore {
  import opened Wrappers
  import opened Rockets

  /** The localStorage key under which the custom rockets are kept. */
  const STORAGE_KEY: string := "rockets-data"
  /** The remote collection endpoint; a single rocket lives at `ROCKETS_URL + "/" + id`. */
  const ROCKETS_URL: string := "https://api.spacexdata.com/v4/rockets"
  const FETCH_ROCKETS_FAILED: string := "Failed to fetch rockets"
  const FETCH_ROCKET_FAILED: string := "Failed to fetch rocket"

  /** A thrown JavaScript value: an `Error` with its message, or anything else. */
  datatype Exception = Error(message: string) | NonError

  /** What `fetch` and `response.json()` together deliver for one request. */
  datatype Response<T> =
    | Ok(payload: T)              // response.ok and the body decodes
    | HttpNotOk                   // !response.ok
    | NetworkFail(cause: Exception)  // fetch rejects
    | BadBody(cause: Exception)      // response.json() rejects

  /** How an action ends for its caller: it returns, or it re-throws. */
  datatype Outcome = Returned | Threw(thrown: Exception)

  /**
   * A value held in local storage, already decoded from its JSON text.
   * `Unparsable` is non-empty text that `JSON.parse` rejects; a stored empty
   * string fails the truthiness test of `fetchRockets` and so is modelled as
   * the key being absent.
   */
  datatype StoredValue = Stored(rockets: seq<Rocket>) | Unparsable(syntaxError: string)

  /** The message the catch blocks record: `e instanceof Error ? e.message : fallback`. */
  function ErrorText(e: Exception, fallback: string): string
  {
    match e
    case Error(message) => message
    case NonError => fallback
  }

  /** Browser local storage: durable, and shared by every store instance. */
  class LocalStorage {
    var items: map<string, StoredValue>

    constructor (items: map<string, StoredValue>)
      ensures this.items == items
    {
      this.items := items;
    }
  }

  class Store {
    var rockets: seq<Rocket>
    var currentRocket: Option<Rocket>
    var loading: bool
    var error: Option<string>
    var customRockets: seq<Rocket>
    const storage: LocalStorage

    /** The initial state of a freshly created store. */
    constructor (storage: LocalStorage)
      ensures this.storage == storage
      ensures rockets == [] && currentRocket == None && !loading && error == None && customRockets == []
    {
      this.storage := storage;
      rockets := [];
      currentRocket := None;
      loading := false;
      error := None;
      customRockets := [];
    }

    /** The `allRockets` getter: the remote list followed by the custom list. */
    function AllRockets(): (all: seq<Rocket>)
      reads this
      ensures |all| == |rockets| + |customRockets|
      ensures forall i :: 0 <= i < |rockets| ==> all[i] == rockets[i]
      ensures forall i :: 0 <= i < |customRockets| ==> all[|rockets| + i] == customRockets[i]
    {
      rockets + customRockets
    }

    /**
     * The `getRocketById` getter: the first match in `AllRockets()`, so a
     * remote rocket shadows a custom one with the same id.
     */
    function GetRocketById(id: string): (found: Option<Rocket>)
      reads this
      ensures found.None? <==> !HasId(rockets, id) && !HasId(customRockets, id)
      ensures FindById(rockets, id).Some? ==> found == FindById(rockets, id)
      ensures FindById(rockets, id).None? ==> found == FindById(customRockets, id)
    {
      FindByIdConcat(rockets, customRockets, id);
      FindById(AllRockets(), id)
    }

    /**
     * `fetchRockets`: replace the remote list with the response, then reload
     * the custom list from local storage when the key is present. Any failure
     * is recorded in `error` and re-thrown; `loading` is false on every exit.
     */
    method FetchRockets(response: Response<seq<Rocket>>) returns (outcome: Outcome)
      modifies this
      ensures !loading
      ensures currentRocket == old(currentRocket) && storage.items == old(storage.items)
      ensures response.Ok? ==> rockets == response.payload
      ensures !response.Ok? ==> rockets == old(rockets) && customRockets == old(customRockets)
      ensures response.HttpNotOk? ==>
        outcome == Threw(Error(FETCH_ROCKETS_FAILED)) && error == Some(FETCH_ROCKETS_FAILED)
      ensures (response.NetworkFail? || response.BadBody?) ==>
        outcome == Threw(response.cause) && error == Some(ErrorText(response.cause, FETCH_ROCKETS_FAILED))
      ensures response.Ok? && STORAGE_KEY !in storage.items ==>
        customRockets == old(customRockets) && error == None && outcome == Returned
      ensures response.Ok? && STORAGE_KEY in storage.items && storage.items[STORAGE_KEY].Stored? ==>
        customRockets == storage.items[STORAGE_KEY].rockets && error == None && outcome == Returned
      ensures response.Ok? && STORAGE_KEY in storage.items && storage.items[STORAGE_KEY].Unparsable? ==>
        var message := storage.items[STORAGE_KEY].syntaxError;
        customRockets == old(customRockets) && error == Some(message) && outcome == Threw(Error(message))
    {
      loading := true;
      error := None;
      var thrown: Option<Exception> := None;
      match response {
        case HttpNotOk =>
          thrown := Some(Error(FETCH_ROCKETS_FAILED));
        case NetworkFail(cause) =>
          thrown := Some(cause);
        case BadBody(cause) =>
          thrown := Some(cause);
        case Ok(payload) =>
          rockets := payload;
          if STORAGE_KEY in storage.items {
            match storage.items[STORAGE_KEY] {
              case Stored(saved) =>
                customRockets := saved;
              case Unparsable(message) =>
                thrown := Some(Error(message));
            }
          }
      }
      if thrown.Some? {
        error := Some(ErrorText(thrown.value, FETCH_ROCKETS_FAILED));
        outcome := Threw(thrown.value);
      } else {
        outcome := Returned;
      }
      loading := false;
    }

    /**
     * `fetchRocket(id)`: select the first custom rocket with that id without
     * touching the network; otherwise request `ROCKETS_URL/id` and select the
     * response. `request` is the URL fetched, if any.
     */
    method FetchRocket(id: string, response: Response<Rocket>) returns (outcome: Outcome, request: Option<string>)
      modifies this
      ensures !loading
      ensures rockets == old(rockets) && customRockets == old(customRockets)
      ensures storage.items == old(storage.items)
      ensures request.None? <==> HasId(old(customRockets), id)
      ensures request.Some? ==> request.value == ROCKETS_URL + "/" + id
      ensures FindById(old(customRockets), id).Some? ==>
        currentRocket == FindById(old(customRockets), id) && error == None && outcome == Returned
      ensures request.Some? && response.Ok? ==>
        currentRocket == Some(response.payload) && error == None && outcome == Returned
      ensures request.Some? && response.HttpNotOk? ==>
        currentRocket == old(currentRocket) &&
        error == Some(FETCH_ROCKET_FAILED) && outcome == Threw(Error(FETCH_ROCKET_FAILED))
      ensures request.Some? && (response.NetworkFail? || response.BadBody?) ==>
        currentRocket == old(currentRocket) &&
        error == Some(ErrorText(response.cause, FETCH_ROCKET_FAILED)) && outcome == Threw(response.cause)
    {
      loading := true;
      error := None;
      var customRocket := FindById(customRockets, id);
      if customRocket.Some? {
        currentRocket := customRocket;
        outcome, request := Returned, None;
      } else {
        request := Some(ROCKETS_URL + "/" + id);
        var thrown: Option<Exception> := None;
        match response {
          case HttpNotOk =>
            thrown := Some(Error(FETCH_ROCKET_FAILED));
          case NetworkFail(cause) =>
            thrown := Some(cause);
          case BadBody(cause) =>
            thrown := Some(cause);
          case Ok(payload) =>
            currentRocket := Some(payload);
        }
        if thrown.Some? {
          error := Some(ErrorText(thrown.value, FETCH_ROCKET_FAILED));
          outcome := Threw(thrown.value);
        } else {
          outcome := Returned;
        }
      }
      loading := false;
    }

    /**
     * `addRocket(rocket)`: put the rocket at the front of the custom list and
     * overwrite the stored list with the whole new custom list.
     */
    method AddRocket(rocket: Rocket)
      modifies this, storage
      ensures customRockets == [rocket] + old(customRockets)
      ensures storage.items == old(storage.items)[STORAGE_KEY := Stored(customRockets)]
      ensures rockets == old(rockets) && currentRocket == old(currentRocket) && error == old(error)
      ensures !loading
    {
      loading := true;
      customRockets := [rocket] + customRockets;
      storage.items := storage.items[STORAGE_KEY := Stored(customRockets)];
      loading := false;
    }
  }

  /**
   * The getter and `fetchRocket` disagree whenever both lists hold different
   * rockets under one identifier: the action selects the custom rocket, while
   * the getter still returns the remote one.
   */
  method LookupOrdersDisagree(store: Store, id: string, response: Response<Rocket>)
    returns (outcome: Outcome, request: Option<string>)
    requires FindById(store.rockets, id).Some? && FindById(store.customRockets, id).Some?
    requires FindById(store.rockets, id) != FindById(store.customRockets, id)
    modifies store
    ensures request == None && outcome == Returned
    ensures store.currentRocket == FindById(store.customRockets, id)
    ensures store.GetRocketById(id) == FindById(store.rockets, id)
    ensures store.currentRocket != store.GetRocketById(id)
  {
    outcome, request := store.FetchRocket(id, response);
  }

  /**
   * A rocket added in one session is, after a successful collection fetch in
   * a later session over the same storage, the newest custom rocket, and
   * fetching it by id selects it without a network request.
   */
  method PersistAcrossSessions(
    storage: LocalStorage, first: Store, rocket: Rocket,
    remote: Response<seq<Rocket>>, single: Response<Rocket>)
    returns (second: Store, request: Option<string>)
    requires first.storage == storage && remote.Ok?
    modifies first, storage
    ensures second.customRockets == [rocket] + old(first.customRockets)
    ensures second.rockets == remote.payload
    ensures second.currentRocket == Some(rocket) && request == None
    ensures second.error == None && !second.loading
  {
    first.AddRocket(rocket);
    second := new Store(storage);
    var outcome := second.FetchRockets(remote);
    FindByIdIsFirstMatch(second.customRockets, rocket.id, 0);
    outcome, request := second.FetchRocket(rocket.id, single);
  }
}
