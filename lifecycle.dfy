/**
 * Properties of the registry over any sequence of calls: keys are never
 * removed, a volunteer's name, email and registration height never change,
 * deactivation is permanent, and only the admin deactivates and only the
 * owner changes skills.
 */
module Lifecycle {
  import opened VolunteerRegistration

  /** One call to one of the three state-changing operations. */
  datatype Operation =
    | Register(sender: Principal, name: string, email: string, skills: seq<string>)
    | UpdateSkills(sender: Principal, skills: seq<string>)
    | Deactivate(sender: Principal, id: Principal)

  function Apply(admin: Principal, m: map<Principal, Volunteer>, op: Operation): Transition
  {
    match op
    case Register(sender, name, email, skills) => RegisterStep(m, sender, name, email, skills)
    case UpdateSkills(sender, skills) => UpdateSkillsStep(m, sender, skills)
    case Deactivate(sender, id) => DeactivateStep(admin, m, sender, id)
  }

  /** The map left after performing `ops` in order, starting from `m`. */
  function Run(admin: Principal, m: map<Principal, Volunteer>, ops: seq<Operation>): map<Principal, Volunteer>
    decreases |ops|
  {
    if ops == [] then m else Run(admin, Apply(admin, m, ops[0]).volunteers, ops[1..])
  }

  /** Where a principal is in its lifecycle. */
  datatype Status = Absent | Active | Inactive

  function StatusOf(m: map<Principal, Volunteer>, id: Principal): Status
  {
    if id !in m then Absent else if m[id].active then Active else Inactive
  }

  /** Position in the lifecycle order Absent < Active < Inactive. */
  function Rank(s: Status): nat
  {
    match s
    case Absent => 0
    case Active => 1
    case Inactive => 2
  }

  /** What survives from a record `v` to its later version `v'`. */
  predicate Persists(v: Volunteer, v': Volunteer)
  {
    && v'.name == v.name
    && v'.email == v.email
    && v'.registered == v.registered
    && (!v.active ==> !v'.active)
  }

  /** `m'` is a possible later state of `m`: no key lost, every record persists. */
  ghost predicate Evolves(m: map<Principal, Volunteer>, m': map<Principal, Volunteer>)
  {
    forall id :: id in m ==> id in m' && Persists(m[id], m'[id])
  }

  lemma EvolvesTransitive(m1: map<Principal, Volunteer>, m2: map<Principal, Volunteer>, m3: map<Principal, Volunteer>)
    requires Evolves(m1, m2) && Evolves(m2, m3)
    ensures Evolves(m1, m3)
  {
  }

  /** Every single operation, successful or not, moves the map forward. */
  lemma ApplyEvolves(admin: Principal, m: map<Principal, Volunteer>, op: Operation)
    ensures Evolves(m, Apply(admin, m, op).volunteers)
    ensures WellFormed(m) ==> WellFormed(Apply(admin, m, op).volunteers)
  {
  }

  lemma {:induction false} RunEvolves(admin: Principal, m: map<Principal, Volunteer>, ops: seq<Operation>)
    ensures Evolves(m, Run(admin, m, ops))
    decreases |ops|
  {
    if ops != [] {
      var m' := Apply(admin, m, ops[0]).volunteers;
      ApplyEvolves(admin, m, ops[0]);
      RunEvolves(admin, m', ops[1..]);
      EvolvesTransitive(m, m', Run(admin, m', ops[1..]));
    }
  }

  /** Keys are never removed: once registered, always registered. */
  lemma {:induction false} RunKeepsKeys(admin: Principal, m: map<Principal, Volunteer>, ops: seq<Operation>)
    ensures m.Keys <= Run(admin, m, ops).Keys
  {
    RunEvolves(admin, m, ops);
  }

  /** The lifecycle only moves forward: Absent, then Active, then Inactive. */
  lemma {:induction false} RunStatusNeverRegresses(admin: Principal, m: map<Principal, Volunteer>,
                                                   ops: seq<Operation>, id: Principal)
    ensures Rank(StatusOf(m, id)) <= Rank(StatusOf(Run(admin, m, ops), id))
  {
    RunEvolves(admin, m, ops);
  }

  /** No operation sets `active` back to true. */
  lemma {:induction false} DeactivationIsPermanent(admin: Principal, m: map<Principal, Volunteer>,
                                                   ops: seq<Operation>, id: Principal)
    requires StatusOf(m, id) == Inactive
    ensures StatusOf(Run(admin, m, ops), id) == Inactive
  {
    RunStatusNeverRegresses(admin, m, ops, id);
  }

  /** The name, email and registration height recorded at registration never change. */
  lemma {:induction false} IdentityIsFixed(admin: Principal, m: map<Principal, Volunteer>,
                                           ops: seq<Operation>, id: Principal)
    requires id in m
    ensures id in Run(admin, m, ops)
    ensures Run(admin, m, ops)[id].name == m[id].name
    ensures Run(admin, m, ops)[id].email == m[id].email
    ensures Run(admin, m, ops)[id].registered == m[id].registered
  {
    RunEvolves(admin, m, ops);
  }

  /** Every record ever stored carries the mock block height. */
  lemma {:induction false} RunPreservesWellFormed(admin: Principal, m: map<Principal, Volunteer>,
                                                  ops: seq<Operation>)
    requires WellFormed(m)
    ensures WellFormed(Run(admin, m, ops))
    decreases |ops|
  {
    if ops != [] {
      ApplyEvolves(admin, m, ops[0]);
      RunPreservesWellFormed(admin, Apply(admin, m, ops[0]).volunteers, ops[1..]);
    }
  }

  /** Whatever a caller does, a reachable state from the empty registry stores height 100. */
  lemma {:induction false} ReachableIsWellFormed(admin: Principal, ops: seq<Operation>, id: Principal)
    requires id in Run(admin, map[], ops)
    ensures Run(admin, map[], ops)[id].registered == MOCK_BLOCK_HEIGHT
  {
    RunPreservesWellFormed(admin, map[], ops);
  }

  /** A volunteer becomes inactive only through the admin deactivating exactly that id. */
  lemma OnlyAdminDeactivates(admin: Principal, m: map<Principal, Volunteer>, op: Operation, id: Principal)
    requires StatusOf(m, id) != Inactive
    requires StatusOf(Apply(admin, m, op).volunteers, id) == Inactive
    ensures StatusOf(m, id) == Active
    ensures op.Deactivate? && op.sender == admin && op.id == id
  {
  }

  /** The skills of a registered volunteer change only through that volunteer's own update. */
  lemma OnlyOwnerChangesSkills(admin: Principal, m: map<Principal, Volunteer>, op: Operation, id: Principal)
    requires id in m
    requires Apply(admin, m, op).volunteers[id].skills != m[id].skills
    ensures op.UpdateSkills? && op.sender == id && op.skills == Apply(admin, m, op).volunteers[id].skills
  {
  }

  /** A second registration of the same principal is refused with code 1 and changes nothing. */
  lemma RegisterTwiceRejected(m: map<Principal, Volunteer>, sender: Principal,
                              name: string, email: string, skills: seq<string>,
                              name': string, email': string, skills': seq<string>)
    ensures var t := RegisterStep(m, sender, name, email, skills);
            RegisterStep(t.volunteers, sender, name', email', skills') == Transition(Err(ERR_ALREADY_REGISTERED), t.volunteers)
  {
  }

  /** Deactivation is idempotent: repeating the call gives the same answer and the same map. */
  lemma DeactivateIdempotent(admin: Principal, m: map<Principal, Volunteer>, sender: Principal, id: Principal)
    ensures var t := DeactivateStep(admin, m, sender, id);
            DeactivateStep(admin, t.volunteers, sender, id) == t
  {
  }

  /** Updating skills twice is the same as updating once with the later list. */
  lemma UpdateSkillsLastWins(m: map<Principal, Volunteer>, sender: Principal, skills: seq<string>, skills': seq<string>)
    ensures UpdateSkillsStep(UpdateSkillsStep(m, sender, skills).volunteers, sender, skills') == UpdateSkillsStep(m, sender, skills')
  {
  }

  /** Deactivating and updating skills touch different fields, so their order does not matter. */
  lemma DeactivateCommutesWithUpdateSkills(admin: Principal, m: map<Principal, Volunteer>,
                                           sender: Principal, id: Principal, owner: Principal, skills: seq<string>)
    ensures var d := DeactivateStep(admin, m, sender, id);
            var u := UpdateSkillsStep(m, owner, skills);
            && DeactivateStep(admin, u.volunteers, sender, id).response == d.response
            && UpdateSkillsStep(d.volunteers, owner, skills).response == u.response
            && DeactivateStep(admin, u.volunteers, sender, id).volunteers
               == UpdateSkillsStep(d.volunteers, owner, skills).volunteers
  {
  }
}
