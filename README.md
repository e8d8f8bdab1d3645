# Volunteer registration registry

A Dafny model of the in-memory mock of the volunteer registration contract
defined in the Decentralized Noise Pollution Monitoring project's
volunteer-registration test file, where it stands in for the on-chain
contract. The registry holds a fixed
admin principal and a map from principal to a volunteer record. A record has a
name, an email, a list of skills, a registration height and an `active` flag.
Each principal goes through the lifecycle absent -> registered (active) ->
deactivated (inactive). There are three state-changing operations:

- `registerVolunteer` registers a principal only if it is absent. Otherwise it
  fails with error 1.
- `updateSkills` replaces the skills of an existing record. It fails with
  error 2 if there is no record.
- `deactivateVolunteer` clears `active` on an existing record. Only the admin
  may call it: anyone else gets error 3. The admin gets error 2 for an absent id.

There are also the reads `getAdmin`, `getVolunteer` and `isVolunteer`.

Layout:

- `registry.dfy`, module `VolunteerRegistration`, defines the data:
  `Volunteer`, `Response` (`Ok` or `Err(code)`, with codes 1, 2 and 3) and `Option`.
  - The three operations are pure transition functions on the map:
    `RegisterStep`, `UpdateSkillsStep` and `DeactivateStep`. Each one's contract
    states the response, the record written and that no other key changes.
  - `Registry` is the mutable object, with fields `admin` and `volunteers`.
    Its methods update `volunteers` in place, and each is proved to perform
    exactly the matching transition.
- `lifecycle.dfy`, module `Lifecycle`, proves properties over any sequence of
  calls to the three state-changing operations. For state changed only through
  those operations, it shows that keys are never removed, deactivation is
  permanent, name, email and registration height never change, and every
  record stores height 100. Direct writes to the records or the map are
  outside these lemmas (see "Left out"). It also proves one-step attribution: only the admin deactivates
  and only the owner changes skills. Finally it proves algebraic laws:
  deactivation is idempotent, a second registration is refused, the last skills
  update wins, and deactivation commutes with a skills update.
- `scenario.dfy`, module `Scenario`, chains the documented test cases into one
  run on a single registry. The tests themselves each start from a fresh
  registry, so here the admin deactivation comes after the skills update rather
  than straight after registration. The run uses only the class contracts. It adds the non-admin deactivation case, which the
  tests do not exercise.

## Model

| member | source | states |
|---|---|---|
| VolunteerRegistration.RegisterStep | tests/volunteer-registration.test.ts:20-34 | Succeeds exactly when the sender is absent. Otherwise it returns error 1 and the map is unchanged. On success it stores name, email, skills, height 100 and active = true under the sender. The key set becomes old keys plus the sender, every other key keeps its record, and the height-100 invariant is preserved. |
| VolunteerRegistration.UpdateSkillsStep | tests/volunteer-registration.test.ts:36-48 | Succeeds exactly when the sender is registered, active or not. Otherwise it returns error 2 and the map is unchanged. On success only `skills` is replaced, and name, email, registered and active are kept. The key set is unchanged and every other key keeps its record. |
| VolunteerRegistration.DeactivateStep | tests/volunteer-registration.test.ts:50-66 | A non-admin sender gets error 3, even for an absent id. The admin gets error 2 exactly when the id is absent, and Ok exactly when it is present. Errors change nothing. On success only `active` becomes false, and every other field and every other key is kept. |
| VolunteerRegistration.Registry.constructor | tests/volunteer-registration.test.ts:70-73 | Starts with admin "ST1ADMIN" and an empty volunteer map. |
| VolunteerRegistration.Registry.GetAdmin | tests/volunteer-registration.test.ts:8-10 | Returns the registry's admin principal. No operation changes it: the three methods may modify only `volunteers`. |
| VolunteerRegistration.Registry.IsVolunteer | tests/volunteer-registration.test.ts:16-18 | True exactly when the map holds a record for the id. |
| VolunteerRegistration.Registry.GetVolunteer | tests/volunteer-registration.test.ts:12-14 | Absent exactly when IsVolunteer is false. Otherwise it is the stored record. |
| VolunteerRegistration.Registry.RegisterVolunteer | tests/volunteer-registration.test.ts:20-34 | Updates the map in place, exactly as RegisterStep does. Error 1 leaves the map unchanged. On Ok, the sender is a volunteer whose record reads back the given fields. The admin is untouched. |
| VolunteerRegistration.Registry.UpdateSkills | tests/volunteer-registration.test.ts:36-48 | Updates the map in place, exactly as UpdateSkillsStep does. On Ok, the record is the old one with only the skills replaced. |
| VolunteerRegistration.Registry.DeactivateVolunteer | tests/volunteer-registration.test.ts:50-66 | Updates the map in place, exactly as DeactivateStep does, with the check against the object's own admin. On Ok, the record is the old one with active = false. |
| Lifecycle.EvolvesTransitive | tests/volunteer-registration.test.ts:20-66 | The later-state relation (no key lost, identity kept, inactive stays inactive) composes. |
| Lifecycle.ApplyEvolves | tests/volunteer-registration.test.ts:20-66 | Any single call, whether it succeeds or fails, loses no key and changes no name, email or height. It never reactivates, and it preserves the height-100 invariant. |
| Lifecycle.RunEvolves | tests/volunteer-registration.test.ts:20-66 | The same holds for any sequence of calls, by induction on the sequence. |
| Lifecycle.RunKeepsKeys | tests/volunteer-registration.test.ts:20-66 | The key set only grows: no operation removes a volunteer. |
| Lifecycle.RunStatusNeverRegresses | tests/volunteer-registration.test.ts:20-66 | A principal's status only moves forward along absent, active, inactive. |
| Lifecycle.DeactivationIsPermanent | tests/volunteer-registration.test.ts:59-65 | Once inactive, a volunteer stays inactive after any sequence of calls. |
| Lifecycle.IdentityIsFixed | tests/volunteer-registration.test.ts:41-45 | Name, email and registration height of a registered volunteer never change. |
| Lifecycle.RunPreservesWellFormed | tests/volunteer-registration.test.ts:25-31 | If every record has height 100, that stays true after any sequence of calls. |
| Lifecycle.ReachableIsWellFormed | tests/volunteer-registration.test.ts:29 | Every record reachable from the empty registry has registration height 100. |
| Lifecycle.OnlyAdminDeactivates | tests/volunteer-registration.test.ts:50-66 | A record becomes inactive only when the admin deactivates exactly that id, and it was active before. |
| Lifecycle.OnlyOwnerChangesSkills | tests/volunteer-registration.test.ts:36-48 | A registered volunteer's skills change only through that volunteer's own updateSkills, to the list it passed. |
| Lifecycle.RegisterTwiceRejected | tests/volunteer-registration.test.ts:91-101 | Registering the same principal again returns error 1 and leaves the map as the first call left it. |
| Lifecycle.DeactivateIdempotent | tests/volunteer-registration.test.ts:50-66 | Repeating a deactivation gives the same response and the same map. |
| Lifecycle.UpdateSkillsLastWins | tests/volunteer-registration.test.ts:36-48 | Two skill updates in a row equal the second update alone. |
| Lifecycle.DeactivateCommutesWithUpdateSkills | tests/volunteer-registration.test.ts:36-66 | Deactivation and skill update give the same responses and the same map in either order. |
| Scenario.Lifecycle | tests/volunteer-registration.test.ts:75-133 | Chains the four test cases into one run on a single registry, with the non-admin and unknown-id cases added, and ends with ST1USER holding the three skills, height 100 and active = false. |

## Left out

- The source-attribution component is left out. Its registerSource,
  createAttribution, getSource, getAttribution and updateSource are mock stubs
  that return fixed values, so there is no logic to model.
- The transaction sender and block time of the blockchain environment are not
  modelled. The sender is an explicit parameter. The registration height is
  the constant 100 that the registry writes, not a real block height.
- The test harness (describe/it/expect) is not modelled. Its per-test reset is
  the `Registry` constructor, and its test cases appear as `Scenario.Lifecycle`.
- Aliasing of the stored skills list is not modelled. The registry stores the
  caller's JavaScript array by reference, so a caller that later mutates that
  array would see the stored record change. The model stores skills as an
  immutable sequence.
- The ability to reassign the admin field from outside is not modelled. Only
  the test reset does that, so `admin` is set by the constructor and no
  operation changes it.
- GetVolunteer: returns the stored record as a value. In the source, getVolunteer
  returns the live record object, and the `volunteers` Map is a public field.
  A caller can therefore change a record's fields (for example set `active`
  back to true or rename it) or delete a key without going through the three
  operations. The model rules out such direct writes. The Lifecycle lemmas
  (keys never removed, deactivation permanent, identity fixed) hold only for
  state changed through registerVolunteer, updateSkills and deactivateVolunteer.
