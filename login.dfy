/** Login matching: a user is picked by name from the loaded user list and the
    typed code must equal that user's id. */
module Login {
  import opened Wrappers
  import opened Search

  /** A row of the `users` table. `experimentalCode` selects the scoring rule. */
  datatype User = User(id: string, name: string, experimentalCode: string)

  /** The test `u => u.name === selectedName`. */
  function NamedAs(name: string): User -> bool {
    (u: User) => u.name == name
  }

  /** `users.find(u => u.name === selectedName)`. */
  function FindByName(users: seq<User>, name: string): (r: Option<User>)
    ensures r.None? <==> forall i :: 0 <= i < |users| ==> users[i].name != name
    ensures r.Some? ==> r.value in users && r.value.name == name
  {
    Find(users, NamedAs(name))
  }

  /** The user found is the one at the first index carrying the name, as
      `find` returns; stated apart from `FindByName` so that the login
      handler does not carry it. */
  lemma FindByNameIsFirst(users: seq<User>, name: string)
    ensures FindByName(users, name).Some? ==>
      exists i :: IsFirst(users, NamedAs(name), i) && users[i] == FindByName(users, name).value
  {
  }

  /** The user a login attempt is accepted for: the first user carrying the
      selected name, provided its id equals the typed code character for character. */
  function MatchLogin(users: seq<User>, name: string, code: string): (r: Option<User>)
    ensures r.Some? ==> r.value in users && r.value.name == name && r.value.id == code
    ensures r.Some? ==> exists i :: IsFirst(users, NamedAs(name), i) && users[i] == r.value
  {
    var selected := FindByName(users, name);
    if selected.None? || selected.value.id != code then None else selected
  }

  /** Login succeeds exactly when the FIRST user with the selected name has
      the typed code as id; a later user with the same name is never reached. */
  lemma MatchLoginIff(users: seq<User>, name: string, code: string)
    ensures MatchLogin(users, name, code).Some? <==>
      exists i :: IsFirst(users, NamedAs(name), i) && users[i].id == code
  {
    var found := FindByName(users, name);
    if found.Some? {
      var k :| IsFirst(users, NamedAs(name), k) && users[k] == found.value;
      forall i | IsFirst(users, NamedAs(name), i)
        ensures i == k
      {
        FirstIsUnique(users, NamedAs(name), i, k);
      }
    }
  }

  /** When names are unique the rule reads: some user has this name and this id. */
  lemma MatchLoginUniqueNames(users: seq<User>, name: string, code: string)
    requires forall i, j :: 0 <= i < |users| && 0 <= j < |users| && users[i].name == users[j].name ==> i == j
    ensures MatchLogin(users, name, code).Some? <==>
      exists i :: 0 <= i < |users| && users[i].name == name && users[i].id == code
  {
    MatchLoginIff(users, name, code);
    if i :| 0 <= i < |users| && users[i].name == name && users[i].id == code {
      assert IsFirst(users, NamedAs(name), i);
    }
  }

  /** With a duplicated name, a later user's code is refused when the first
      user of that name (at `i`) has a different id. */
  lemma DuplicateNameIsShadowed(users: seq<User>, i: int, j: int)
    requires 0 <= i < j < |users| && users[i].name == users[j].name
    requires forall m :: 0 <= m < i ==> users[m].name != users[i].name
    requires users[i].id != users[j].id
    ensures MatchLogin(users, users[j].name, users[j].id).None?
  {
    var name := users[j].name;
    MatchLoginIff(users, name, users[j].id);
    assert IsFirst(users, NamedAs(name), i);
    forall k | IsFirst(users, NamedAs(name), k)
      ensures users[k].id != users[j].id
    {
      FirstIsUnique(users, NamedAs(name), k, i);
    }
  }
}
