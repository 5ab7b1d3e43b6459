/**
 The `User` entity: a mutable record whose constructor stores the four fields it is
 given, whose `GetProfile` builds a snapshot of the current fields, and whose three
 setters each overwrite one field in place.
 */
module Users {
  import opened Profiles

  class User {
    var username: string
    var name: string
    var age: int
    var email: string

    /** Stores the four fields of `data` verbatim. */
    constructor (data: Profile)
      ensures username == data.username && name == data.name
      ensures age == data.age && email == data.email
      ensures GetProfile() == data
    {
      username := data.username;
      name := data.name;
      age := data.age;
      email := data.email;
    }

    /** A new snapshot record of the current field values. Being a function that
        only reads `this`, it changes nothing and returns equal snapshots for as
        long as no setter runs in between. */
    function GetProfile(): (p: Profile)
      reads this
      ensures p.username == username && p.name == name
      ensures p.age == age && p.email == email
    {
      Profile(username, name, age, email)
    }

    /** Replaces the name; the other fields keep their values. */
    method SetName(newName: string)
      modifies this
      ensures name == newName && GetProfile().name == newName
      ensures username == old(username) && age == old(age) && email == old(email)
      ensures GetProfile() == Apply(old(GetProfile()), Call.SetName(newName))
    {
      name := newName;
    }

    /** Replaces the age; the other fields keep their values. */
    method SetAge(newAge: int)
      modifies this
      ensures age == newAge && GetProfile().age == newAge
      ensures username == old(username) && name == old(name) && email == old(email)
      ensures GetProfile() == Apply(old(GetProfile()), Call.SetAge(newAge))
    {
      age := newAge;
    }

    /** Replaces the email; the other fields keep their values. */
    method SetEmail(newEmail: string)
      modifies this
      ensures email == newEmail && GetProfile().email == newEmail
      ensures username == old(username) && name == old(name) && age == old(age)
      ensures GetProfile() == Apply(old(GetProfile()), Call.SetEmail(newEmail))
    {
      email := newEmail;
    }
  }

  /** Makes the setter call `c` on `u`: the snapshot advances by `Apply`, so a client
      making the calls of a history one after another ends with `Run` of the
      snapshot it started from. */
  method Perform(u: User, c: Call)
    modifies u
    ensures u.GetProfile() == Apply(old(u.GetProfile()), c)
  {
    match c
    case SetName(v) => u.SetName(v);
    case SetAge(v) => u.SetAge(v);
    case SetEmail(v) => u.SetEmail(v);
  }

  /** A snapshot taken before the setters run still holds the old values afterwards,
      and editing a snapshot does not reach back into the user. */
  method SnapshotSurvivesSetters(u: User, newName: string, newAge: int, newEmail: string)
    returns (before: Profile, after: Profile, edited: Profile)
    modifies u
    ensures before == old(u.GetProfile())
    ensures after == u.GetProfile()
    ensures after == Run(before, [Call.SetName(newName), Call.SetAge(newAge), Call.SetEmail(newEmail)])
    ensures after == Profile(before.username, newName, newAge, newEmail)
    ensures edited == after.(name := "") && u.GetProfile() == after
  {
    before := u.GetProfile();
    u.SetName(newName);
    u.SetAge(newAge);
    u.SetEmail(newEmail);
    after := u.GetProfile();
    edited := after.(name := "");
    var history := [Call.SetName(newName), Call.SetAge(newAge), Call.SetEmail(newEmail)];
    assert history[..2] == [Call.SetName(newName), Call.SetAge(newAge)];
    assert history[..2][..1] == [Call.SetName(newName)];
    assert history[..2][..1][..0] == [];
    assert Run(before, [Call.SetName(newName)]) == Apply(before, Call.SetName(newName));
    assert Run(before, history[..2]) == Apply(Apply(before, Call.SetName(newName)), Call.SetAge(newAge));
  }

  /** The scenarios of the entity's own test suite, stated against the contracts above. */
  method UserScenarios()
  {
    var data := Profile("johndoe", "John Doe", 30, "john@example.com");

    var u := new User(data);
    assert u.username == "johndoe" && u.name == "John Doe";
    assert u.age == 30 && u.email == "john@example.com";
    assert u.GetProfile() == data;

    u := new User(data);
    u.SetName("Jane Smith");
    assert u.name == "Jane Smith" && u.GetProfile().name == "Jane Smith";

    u := new User(data);
    u.SetAge(25);
    assert u.age == 25 && u.GetProfile().age == 25;

    u := new User(data);
    u.SetEmail("jane@example.com");
    assert u.email == "jane@example.com" && u.GetProfile().email == "jane@example.com";
    assert u.username == "johndoe";
  }
}
