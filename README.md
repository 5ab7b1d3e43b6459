# User entity

A model of the `User` class of the example application. A `User` is a mutable
record with four fields: `username`, `name`, `age` and `email`.

- The constructor takes a record of the four values and stores each one verbatim.
- `getProfile()` builds a new snapshot record from the current field values.
- `setName`, `setAge` and `setEmail` each overwrite one field in place.
- No operation changes `username`, which serves as the user's identifier.

The model has two modules:

- `Profiles` (`profile.dfy`) is the value side.
  - `Profile` is the snapshot record.
  - `Call` is one setter invocation with its argument.
  - `Apply` gives the effect of one call.
  - `Run` gives the effect of a history of calls, oldest first.
  - The lemmas state what any history does: the username never changes, the last
    write to a field wins, and a field no call writes keeps its value.
- `Users` (`user.dfy`) is the imperative side.
  - `class User` has the four fields as mutable fields.
  - Its constructor stores them from a `Profile`.
  - `GetProfile` is a function that only reads `this`.
  - Each setter has `modifies this`. Its postconditions say which field changed and
    that the other three did not. They also tie the new snapshot to `Apply` of the
    old one. The link holds per call: `Perform` makes the setter call that a `Call`
    names, so a client making the calls of a history in order ends with `Run` of
    its starting snapshot, which the lemmas about `Run` describe.
  - `GetProfile` is the abstraction function the other contracts are stated through.
    Its own postcondition says that the snapshot holds the four current field values.
  - Being a function, `GetProfile` cannot change a field. Two calls with no setter in
    between return equal snapshots.
  - `Profile` is an immutable value. So a snapshot taken earlier keeps its values when
    a setter runs later, and editing a snapshot (`p.(name := …)`) cannot reach the user.
    `SnapshotSurvivesSetters` states both in its postconditions.
  - `UserScenarios` restates the scenarios of `user.test.js` against the contracts:
    construct and read back, then each setter followed by a read.

## Model

| member | source | states |
|---|---|---|
| `Users.User.constructor` | example/src/domains/user/user.js:2-7 | each of the four fields equals the value supplied for it, with no normalisation, and the snapshot right after construction equals the record passed in |
| `Users.User.SetName` | example/src/domains/user/user.js:18-20 | `name` and the snapshot's `name` become the argument, `username`, `age` and `email` are unchanged, and the new snapshot is `Apply` of the old one with `SetName` |
| `Users.User.SetAge` | example/src/domains/user/user.js:22-24 | `age` and the snapshot's `age` become the argument, `username`, `name` and `email` are unchanged, and the new snapshot is `Apply` of the old one with `SetAge` |
| `Users.User.SetEmail` | example/src/domains/user/user.js:26-28 | `email` and the snapshot's `email` become the argument, `username`, `name` and `age` are unchanged, and the new snapshot is `Apply` of the old one with `SetEmail` |
| `Users.User.GetProfile` | example/src/domains/user/user.js:9-16 | reads only `this` and returns a new `Profile` whose four fields are the user's current `username`, `name`, `age` and `email`; its other promises (equal to the constructor's argument right after construction, advanced by `Apply` at each setter) are stated by those members |
| `Users.Perform` | example/src/domains/user/user.js:18-28 | making the setter call a `Call` names advances the user's snapshot to `Apply` of the old snapshot with that call |
| `Users.SnapshotSurvivesSetters` | example/src/domains/user/user.js:10-15 | a snapshot taken before all three setters run still equals the pre-state profile afterwards; the snapshot taken after them holds the old username and the three new values, which is `Run` of the old snapshot over the three calls; editing that snapshot leaves the user's current snapshot as it was |
| `Profiles.Apply` | example/src/domains/user/user.js:18-28 | one setter call keeps the username, gives its own field the new value and leaves the other two fields as they were |
| `Profiles.Run` | example/src/domains/user/user.js:18-28 | no history of setter calls, however long, changes the username |
| `Profiles.RunAppend` | example/src/domains/user/user.js:18-28 | running two histories one after the other gives the same profile as running their concatenation |
| `Profiles.NameKept` | example/src/domains/user/user.js:18-28 | a history without a `setName` call leaves the name as it was |
| `Profiles.AgeKept` | example/src/domains/user/user.js:18-28 | a history without a `setAge` call leaves the age as it was |
| `Profiles.EmailKept` | example/src/domains/user/user.js:18-28 | a history without a `setEmail` call leaves the email as it was |
| `Profiles.SplitAt` | example/src/domains/user/user.js:18-28 | the effect of a history is that of its calls before position k, then call k, then the calls after it |
| `Profiles.LastNameWins` | example/src/domains/user/user.js:18-20 | after any history the name is the argument of its last `setName` call |
| `Profiles.LastAgeWins` | example/src/domains/user/user.js:22-24 | after any history the age is the argument of its last `setAge` call |
| `Profiles.LastEmailWins` | example/src/domains/user/user.js:26-28 | after any history the email is the argument of its last `setEmail` call |
| `Profiles.RepeatedCallOverwrites` | example/src/domains/user/user.js:18-28 | two calls of the same setter in a row have the same effect as the second one alone |
| `Profiles.DistinctCallsCommute` | example/src/domains/user/user.js:18-28 | calls of setters for different fields can be swapped without changing the result |

## Left out

- The arithmetic module (`add`, `subtract`, `multiply`, `divide`). Its implementation file `calculate.js` is not among the files this model is based on; only its tests are. Its division by zero gives IEEE 754 infinities, which are floating-point behaviour.
- JavaScript's dynamic typing. The source stores any value it is given, including `undefined` for a field missing from the constructor's argument. The model fixes the types: `string` for `username`, `name` and `email`, and `int` for `age`. The tests use only integer ages.
- `age` as a JavaScript number is a double. The model uses an unbounded integer and leaves fractional, very large or non-numeric ages out.
- Object identity and property assignment on the JavaScript snapshot object. The model's snapshot is an immutable value, so "editing" one builds a new value. That this never affects the user is therefore a property of the types, not a proved step.
- Direct writes to the public fields from outside the class. JavaScript allows them, and so do the model's public fields. The claim that `username` never changes covers the class's own operations only.
- The test harness: the `beforeEach` copy of the test data, and the stray test at the end of the test file, which fails on purpose and describes no intended behaviour.
