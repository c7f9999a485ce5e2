# Rocket store

A model of the Pinia store `rocket` in `src/stores/rocket.ts`. The store keeps five fields:

- the remote rockets (`rockets`);
- the user-added rockets, newest first (`customRockets`);
- the current selection (`currentRocket`);
- a busy flag (`loading`);
- the last error message (`error`).

It has two getters. `allRockets` returns the remote list followed by the custom list. `getRocketById` returns the first rocket with a given id in that list.

It has three actions:

- `fetchRockets` replaces the remote list and then reloads the custom list from local storage.
- `fetchRocket` looks in the custom list first and otherwise fetches the rocket from the API.
- `addRocket` puts a rocket at the front of the custom list and saves the list.

The model has two files and three modules:

- `wrappers.dfy` holds `Option`, the model of `T | null` and `T | undefined`.
- `rocket_store.dfy` holds two modules. `Rockets` has the record type and first-match lookup (`Array.prototype.find` by id). `RocketStore` has the store as a class whose methods assign its fields in the order the source does. The try/catch/finally of each action is written as a local `thrown: Option<Exception>` that the try part sets, followed by one shared epilogue: the catch part (set `error`, re-throw) when something was thrown, then the finally part (`loading := false`).

The network is an input. Each action gets a `Response` that says what `fetch` followed by `response.json()` delivered:

- a decoded payload;
- a not-ok HTTP status;
- a rejected `fetch`;
- a rejected `json()`.

Thrown values are `Exception = Error(message) | NonError`. This lets the catch blocks' `error instanceof Error ? error.message : '<fallback>'` be modelled exactly. Each action returns an `Outcome` that says whether it returned or re-threw, and what it threw.

Browser local storage is a `LocalStorage` object. It maps keys to already-decoded values, and every store over it shares it. This lets the model say what a store in a later session loads. The `Unparsable` value stands for non-empty stored text that `JSON.parse` rejects. A stored empty string counts as no entry: the truthiness test at rocket.ts:53 skips it, so it is modelled as `STORAGE_KEY !in items`.

Two details of the code are easy to miss, and the model follows the code in both:

- After a successful `fetchRockets` with no stored entry, the custom list is left as it was. It is not emptied.
- A stored entry that does not parse makes `fetchRockets` fail after the remote list has already been replaced.

## Model

| member | source | states |
|---|---|---|
| `RocketStore.Store.constructor` | src/stores/rocket.ts:24-30 | a new store has empty lists, no selection, no error and is not loading |
| `Rockets.FindById` | src/stores/rocket.ts:38 | finds something exactly when some rocket has the id, and what it finds is a member of the list with that id |
| `Rockets.FindByIdIsFirstMatch` | src/stores/rocket.ts:38 | at the first index holding the id, `find` returns that index's rocket |
| `Rockets.FindByIdHasFirstMatch` | src/stores/rocket.ts:38 | whatever `find` returns is the rocket at a first matching index |
| `Rockets.FindByIdConcat` | src/stores/rocket.ts:37-38 | a search of `front ++ back` returns the front's first match when the front has one, and otherwise the back's |
| `RocketStore.Store.AllRockets` | src/stores/rocket.ts:33-35 | the length is the sum of both lengths; the remote rockets come first, in order, then the custom rockets, in order |
| `RocketStore.Store.GetRocketById` | src/stores/rocket.ts:36-39 | nothing exactly when neither list has the id; the remote match wins when there is one, otherwise the custom list's first match |
| `RocketStore.LookupOrdersDisagree` | src/stores/rocket.ts:36-73 | when both lists hold different rockets under one id, `fetchRocket` selects the custom one without a request while `getRocketById` returns the remote one, so the two differ |
| `RocketStore.Store.FetchRockets` | src/stores/rocket.ts:43-62 | on success: the remote list becomes the payload; the custom list becomes the stored list when the key is present and is left unchanged when it is absent; the error is cleared. On HTTP, transport or body failure: both lists are unchanged, the error holds the message and the failure is re-thrown. A corrupt stored entry fails after the remote list was replaced. The selection and storage are never changed, and loading ends false on every path |
| `RocketStore.Store.FetchRocket` | src/stores/rocket.ts:64-85 | a custom match selects the first custom rocket with that id with no request and no error, even when a remote rocket shares the id; otherwise it requests `ROCKETS_URL/id`. On success it selects the payload. On failure the selection is unchanged, the error is recorded and the failure is re-thrown. The lists and storage are unchanged, and loading ends false |
| `RocketStore.Store.AddRocket` | src/stores/rocket.ts:87-96 | the custom list becomes `[rocket] + old list`; the stored entry under `rockets-data` becomes that new list and other keys are kept; the remote list, selection and error are unchanged; loading ends false |
| `RocketStore.PersistAcrossSessions` | src/stores/rocket.ts:43-96 | after `addRocket(r)`, a new store over the same storage has `r` as its newest custom rocket after a successful `fetchRockets`, and `fetchRocket(r.id)` then selects `r` without a network request |

## Left out

- Real `fetch`, HTTP and `response.json()`: each is an input `Response` value, not I/O.
- JSON text: stored values are held already decoded. A parse failure of non-empty text is the `Unparsable` entry; a stored empty string is an absent key.
- `AddRocket`: the in-place `unshift` on the `customRockets` array becomes a reassignment of a `seq` field, so aliasing of that array by outside holders (who would see the new element) is not captured.
- Exceptions from `localStorage.getItem` and `localStorage.setItem` (security errors, a full quota): not modelled. `addRocket` always stores the list.
- Interleaving of concurrent actions (last writer wins on `loading`, `error` and `currentRocket`): each action is atomic. So the transient `loading == true` during an action is not observable, and only its final `false` is stated.
- What the API actually returns: a payload is taken to be a well-formed rocket list or rocket. `cost_per_launch` (a JavaScript number) is an unbounded integer.
- The exact text of a transport or body error: it is whatever message the thrown `Error` carries. It is non-empty only when that message is. The not-ok HTTP messages are the source's constants.
- Pinia reactivity and store registration (`defineStore`), the Vue bootstrap in src/main.ts and the theme in src/plugins/vuetify.ts: no behaviour to model.
