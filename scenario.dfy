/**
 * The registry's documented scenarios, chained into one run on a single
 * registry (each documented case on its own starts from a fresh registry) and
 * checked against the class contracts alone: each assertion below follows
 * from the methods' postconditions.
 */
module Scenario {
  import opened VolunteerRegistration

  /**
   * Register "ST1USER", refuse a second registration, update the skills,
   * refuse a deactivation by a non-admin, then deactivate as the admin.
   * Returns the final record of "ST1USER".
   */
  method Lifecycle() returns (v: Option<Volunteer>)
    ensures v == Some(Volunteer("John Doe", "john@example.com",
                                ["Teaching", "Mentoring", "Programming"], MOCK_BLOCK_HEIGHT, false))
  {
    var registry := new Registry();
    var skills := ["Teaching", "Mentoring"];

    var r := registry.RegisterVolunteer("ST1USER", "John Doe", "john@example.com", skills);
    assert r == Ok;
    assert registry.IsVolunteer("ST1USER");
    assert registry.GetVolunteer("ST1USER").value.name == "John Doe";
    assert registry.GetVolunteer("ST1USER").value.skills == skills;

    r := registry.RegisterVolunteer("ST1USER", "John Doe", "john@example.com", skills);
    assert r == Err(ERR_ALREADY_REGISTERED);

    r := registry.UpdateSkills("ST1USER", skills + ["Programming"]);
    assert r == Ok;
    assert registry.GetVolunteer("ST1USER").value.skills == ["Teaching", "Mentoring", "Programming"];

    r := registry.UpdateSkills("ST2OTHER", skills);
    assert r == Err(ERR_NOT_REGISTERED);

    r := registry.DeactivateVolunteer("ST1USER", "ST1USER");
    assert r == Err(ERR_NOT_ADMIN);
    assert registry.GetVolunteer("ST1USER").value.active;

    r := registry.DeactivateVolunteer(registry.GetAdmin(), "ST2OTHER");
    assert r == Err(ERR_NOT_REGISTERED);

    r := registry.DeactivateVolunteer(registry.GetAdmin(), "ST1USER");
    assert r == Ok;
    v := registry.GetVolunteer("ST1USER");
  }
}
