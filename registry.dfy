/**
 * The volunteer registration contract: a fixed admin principal and a map
 * from principal to volunteer record.  Each principal goes through the
 * lifecycle absent -> registered and active -> deactivated.
 *
 * The three state-changing operations are first given as pure transition
 * functions on the map (RegisterStep, UpdateSkillsStep, DeactivateStep);
 * the class Registry holds the mutable state and its methods are proved
 * to perform exactly those transitions.
 */
module VolunteerRegistration {

  /** A principal (account identity); also the key of the volunteer map. */
  type Principal = string

  datatype Option<T> = None | Some(value: T)

  /** The record stored for a registered volunteer. */
  datatype Volunteer = Volunteer(
    name: string,
    email: string,
    skills: seq<string>,
    registered: int,
    active: bool)

  /** `{ok: true}` or `{err: code}`. */
  datatype Response = Ok | Err(code: nat)

  const ERR_ALREADY_REGISTERED: nat := 1
  const ERR_NOT_REGISTERED: nat := 2
  const ERR_NOT_ADMIN: nat := 3

  /** The block height every registration records. */
  const MOCK_BLOCK_HEIGHT: int := 100

  /** The admin principal the registry starts with. */
  const INITIAL_ADMIN: Principal := "ST1ADMIN"

  /** What an operation answers, together with the map it leaves behind. */
  datatype Transition = Transition(response: Response, volunteers: map<Principal, Volunteer>)

  /** Every key other than `id` is in `m'` exactly when it is in `m`, with the same record. */
  ghost predicate SameExcept(m: map<Principal, Volunteer>, m': map<Principal, Volunteer>, id: Principal)
  {
    && (forall k :: k in m && k != id ==> k in m' && m'[k] == m[k])
    && (forall k :: k in m' && k != id ==> k in m)
  }

  /** Every stored record carries the registration height. */
  ghost predicate WellFormed(m: map<Principal, Volunteer>)
  {
    forall id :: id in m ==> m[id].registered == MOCK_BLOCK_HEIGHT
  }

  /** The record a fresh registration stores. */
  function NewVolunteer(name: string, email: string, skills: seq<string>): (v: Volunteer)
  {
    Volunteer(name, email, skills, MOCK_BLOCK_HEIGHT, true)
  }

  /** registerVolunteer: register `sender` unless it is already present. */
  function RegisterStep(m: map<Principal, Volunteer>, sender: Principal,
                        name: string, email: string, skills: seq<string>): (t: Transition)
    ensures t.response == Ok || t.response == Err(ERR_ALREADY_REGISTERED)
    ensures t.response == Ok <==> sender !in m
    ensures t.response.Err? ==> t.volunteers == m
    ensures t.response == Ok ==>
              && sender in t.volunteers
              && t.volunteers[sender].name == name
              && t.volunteers[sender].email == email
              && t.volunteers[sender].skills == skills
              && t.volunteers[sender].registered == MOCK_BLOCK_HEIGHT
              && t.volunteers[sender].active
    ensures t.volunteers.Keys == m.Keys + {sender}
    ensures SameExcept(m, t.volunteers, sender)
    ensures WellFormed(m) ==> WellFormed(t.volunteers)
  {
    if sender in m then
      Transition(Err(ERR_ALREADY_REGISTERED), m)
    else
      Transition(Ok, m[sender := NewVolunteer(name, email, skills)])
  }

  /** updateSkills: replace the skills of an existing record, whatever its `active` flag. */
  function UpdateSkillsStep(m: map<Principal, Volunteer>, sender: Principal,
                            skills: seq<string>): (t: Transition)
    ensures t.response == Ok || t.response == Err(ERR_NOT_REGISTERED)
    ensures t.response == Ok <==> sender in m
    ensures t.response.Err? ==> t.volunteers == m
    ensures t.volunteers.Keys == m.Keys
    ensures t.response == Ok ==>
              && t.volunteers[sender].skills == skills
              && t.volunteers[sender].name == m[sender].name
              && t.volunteers[sender].email == m[sender].email
              && t.volunteers[sender].registered == m[sender].registered
              && t.volunteers[sender].active == m[sender].active
    ensures SameExcept(m, t.volunteers, sender)
    ensures WellFormed(m) ==> WellFormed(t.volunteers)
  {
    if sender !in m then
      Transition(Err(ERR_NOT_REGISTERED), m)
    else
      Transition(Ok, m[sender := m[sender].(skills := skills)])
  }

  /**
   * deactivateVolunteer: only `admin` may deactivate, and only a registered id.
   * The admin check comes first, so a non-admin gets code 3 even for an absent id.
   */
  function DeactivateStep(admin: Principal, m: map<Principal, Volunteer>,
                          sender: Principal, id: Principal): (t: Transition)
    ensures t.response == Err(ERR_NOT_ADMIN) <==> sender != admin
    ensures t.response == Err(ERR_NOT_REGISTERED) <==> sender == admin && id !in m
    ensures t.response == Ok <==> sender == admin && id in m
    ensures t.response.Err? ==> t.volunteers == m
    ensures t.volunteers.Keys == m.Keys
    ensures t.response == Ok ==>
              && !t.volunteers[id].active
              && t.volunteers[id].name == m[id].name
              && t.volunteers[id].email == m[id].email
              && t.volunteers[id].skills == m[id].skills
              && t.volunteers[id].registered == m[id].registered
    ensures SameExcept(m, t.volunteers, id)
    ensures WellFormed(m) ==> WellFormed(t.volunteers)
  {
    if sender != admin then
      Transition(Err(ERR_NOT_ADMIN), m)
    else if id !in m then
      Transition(Err(ERR_NOT_REGISTERED), m)
    else
      Transition(Ok, m[id := m[id].(active := false)])
  }

  /** The registry object: the admin principal and the volunteer map it updates in place. */
  class Registry {
    var admin: Principal
    var volunteers: map<Principal, Volunteer>

    ghost predicate Valid()
      reads this
    {
      WellFormed(volunteers)
    }

    /** The state every test starts from: the initial admin and no volunteers. */
    constructor ()
      ensures Valid()
      ensures admin == INITIAL_ADMIN && volunteers == map[]
    {
      admin := INITIAL_ADMIN;
      volunteers := map[];
    }

    function GetAdmin(): (a: Principal)
      reads this
      ensures a == admin
    {
      admin
    }

    function IsVolunteer(id: Principal): (b: bool)
      reads this
      ensures b <==> id in volunteers
    {
      id in volunteers
    }

    function GetVolunteer(id: Principal): (r: Option<Volunteer>)
      reads this
      ensures r.None? <==> !IsVolunteer(id)
      ensures r.Some? ==> r.value == volunteers[id]
    {
      if id in volunteers then Some(volunteers[id]) else None
    }

    method RegisterVolunteer(sender: Principal, name: string, email: string, skills: seq<string>)
      returns (r: Response)
      requires Valid()
      modifies this`volunteers
      ensures Valid()
      ensures Transition(r, volunteers) == RegisterStep(old(volunteers), sender, name, email, skills)
      ensures r == Err(ERR_ALREADY_REGISTERED) ==> volunteers == old(volunteers)
      ensures r == Ok ==> IsVolunteer(sender) && GetVolunteer(sender) == Some(NewVolunteer(name, email, skills))
    {
      if IsVolunteer(sender) {
        return Err(ERR_ALREADY_REGISTERED);
      }
      volunteers := volunteers[sender := NewVolunteer(name, email, skills)];
      return Ok;
    }

    method UpdateSkills(sender: Principal, skills: seq<string>) returns (r: Response)
      requires Valid()
      modifies this`volunteers
      ensures Valid()
      ensures Transition(r, volunteers) == UpdateSkillsStep(old(volunteers), sender, skills)
      ensures r == Ok ==> GetVolunteer(sender) == Some(old(volunteers)[sender].(skills := skills))
    {
      if !IsVolunteer(sender) {
        return Err(ERR_NOT_REGISTERED);
      }
      var volunteer := volunteers[sender];
      volunteers := volunteers[sender := volunteer.(skills := skills)];
      return Ok;
    }

    method DeactivateVolunteer(sender: Principal, id: Principal) returns (r: Response)
      requires Valid()
      modifies this`volunteers
      ensures Valid()
      ensures Transition(r, volunteers) == DeactivateStep(admin, old(volunteers), sender, id)
      ensures r == Ok ==> GetVolunteer(id) == Some(old(volunteers)[id].(active := false))
    {
      if sender != admin {
        return Err(ERR_NOT_ADMIN);
      }
      if !IsVolunteer(id) {
        return Err(ERR_NOT_REGISTERED);
      }
      var volunteer := volunteers[id];
      volunteers := volunteers[id := volunteer.(active := false)];
      return Ok;
    }
  }
}
