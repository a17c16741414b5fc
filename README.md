# Cognito user-migration trigger, modelled in Dafny

This project models the user-migration trigger in `index.js`. The identity provider calls the trigger when a user who is not yet in the new user pool signs in or asks for a password reset. The trigger then:

- checks the user against the legacy user pool (the "legacy directory");
- turns the directory's attribute list into a map;
- fills in the event's `response` with the three attributes a migrated user gets;
- returns the same event, or throws an error.

The legacy directory is an oracle, `LegacyDirectory.Directory`:

- `users` maps a username to what the directory's get-user call returns;
- `credentials` holds the (username, password) pairs that pass password authentication.

Every remote failure (unknown user, wrong password, network or permission error) shows up as a username missing from `users` or a pair missing from `credentials`.

Modules:

- `Wrappers`: `Option` (with `None` for JavaScript's `undefined`) and `Result` (`Err` for a thrown error).
- `Attributes`: the `reduce` that folds the `{Name, Value}` list into a map, where a later pair overwrites an earlier one with the same name.
- `LegacyDirectory`: the oracle, `lookupUser` and `authenticateUser`, both returning an `Option`.
- `MigrationTrigger`: the event and its response as classes, the two flows as methods that update `event.response` in place, the `switch` on `triggerSource` as the function `Dispatch`, and the handler.

The two flows share their postcondition, the two-state predicate `MigrationTrigger.Migrated`. It says:

- With no legacy user, the flow throws "Bad credentials" and leaves the response unchanged.
- With a user, the flow returns the event itself. It sets `userAttributes` to the three migrated attributes and `messageAction` to `SUPPRESS`.
- `finalUserStatus` becomes `CONFIRMED` in the Authentication flow. In the ForgotPassword flow it keeps its old value.
- The event's own fields (`triggerSource`, `userName`, `request`, and which `response` object it holds) never change.

Two details of the code that the model keeps:

- The ForgotPassword flow (index.js:83-99) never writes `finalUserStatus`; the model keeps its old value.
- A response attribute copied from a legacy attribute the user lacks is `undefined` (index.js:74, 76, 92, 94); the model keeps the key with `None`.

## Model

| member | source | states |
|---|---|---|
| `Attributes.FoldFrom` | index.js:52 | The fold's keys are the starting keys plus every `Name` in the list. A starting key that no pair names keeps its value. |
| `Attributes.Normalise` | index.js:52 | A missing `UserAttributes` list gives the empty map. A present list gives a map whose key set is exactly the set of names in the list. |
| `Attributes.FoldFromLastWins` | index.js:52 | After the fold, the name of the last pair carrying that name maps to that pair's value. Later duplicates overwrite earlier ones. |
| `Attributes.NormaliseLastWins` | index.js:52 | A name is a key of the normalised map exactly when it occurs in the list. Its value is the `Value` of the last pair with that name. |
| `LegacyDirectory.LookupUser` | index.js:43-64 | Gives a record exactly when the directory lookup succeeds. The record holds the directory's `Username` and the normalised attributes, which are empty when the list is missing. Any failure gives nothing. |
| `LegacyDirectory.AuthenticateUser` | index.js:22-42 | Gives a record exactly when the password is accepted and the follow-up lookup succeeds, and then it is the lookup's record. A rejected or missing password gives nothing. |
| `MigrationTrigger.MigratedAttributes` | index.js:71-77 | The attributes have exactly the keys `email`, `email_verified` and `preferred_username`. `email_verified` is `"true"`. The other two are read from the legacy attributes. `old_username` and `custom:tenant` are absent. |
| `MigrationTrigger.Dispatch` | index.js:115-122 | `UserMigration_Authentication` selects the Authentication flow and `UserMigration_ForgotPassword` the ForgotPassword flow, each in both directions. Any other value is the error "Bad triggerSource" carrying that value. |
| `MigrationTrigger.MessageDeterminesError` | index.js:121 | Two thrown errors have the same message exactly when they are the same error. So "Bad credentials" never reads like "Bad triggerSource ...", and the latter names the rejected trigger source. |
| `MigrationTrigger.OnUserMigrationAuthentication` | index.js:65-82 | No authenticated user: throws "Bad credentials" and leaves the response unchanged. Otherwise: migrated attributes, `finalUserStatus = CONFIRMED`, `messageAction = SUPPRESS`, and returns the same, otherwise unchanged event. |
| `MigrationTrigger.OnUserMigrationForgotPassword` | index.js:83-99 | Looks the user up without consulting the password. No user: throws "Bad credentials" and leaves the response unchanged. Otherwise: migrated attributes and `messageAction = SUPPRESS`, `finalUserStatus` as before, and returns the same event. |
| `MigrationTrigger.Handler` | index.js:115-122 | Runs the Authentication or ForgotPassword flow as `Dispatch` selects, with that flow's postcondition. Any other trigger source raises "Bad triggerSource ..." and leaves the event and its response unchanged. |

## Left out

- Building the directory client: the SDK client, its region and the optional assumed-role credentials (index.js:102-114). These are foreign library calls, so the oracle `Directory` replaces them.
- The configuration read from the environment (index.js:10-20). It only parameterises the remote calls, which the oracle already fixes for one user pool.
- The body of the successful `adminInitiateAuth` response (index.js:34-35). It is only logged; only success or failure matters.
- Logging (`console.log`, `JSON.stringify`) throughout. It is output only.
- `async`/`await`. The calls are awaited one after another, so they become ordinary sequential calls.
- The unused `axios` import (index.js:5).
- Which remote calls are issued. The model does not record calls, so "an unknown trigger makes no remote call" appears only as "neither flow runs and the response is unchanged".
- An attribute whose `Value` the directory omits. `AttributeType.value` is always a string.
- JSON serialisation of the response, which drops an `undefined` attribute value before the identity provider sees it. The model keeps the key with `None`.
- The directory's answers are fixed for one invocation. A lookup that gives different answers to two calls in the same invocation is not modelled.
- Attribute names are Cognito attribute names and never `__proto__`. In JavaScript, assigning that one name through `Object.assign` at index.js:52 hits the inherited setter and drops the key, which `Attributes.Normalise` does not model; the flows only read `email` and `preferred_username`, so the response is unaffected.
