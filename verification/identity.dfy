/** The people of FogBugz keyed by lower-cased email, and the default assignee looked up in them. */
module People {
  import opened Wrappers
  import opened Text
  import opened Tables
  import opened Types

  function EmailPairs(people: seq<Person>): seq<(string, int)> {
    seq(|people|, i requires 0 <= i < |people| => (Lower(people[i].email), people[i].id))
  }

  /** `email_map`: lower-cased email to person, a later person with the same email replacing an earlier one. */
  function EmailMap(people: seq<Person>): (emailMap: map<string, int>)
    ensures forall i :: 0 <= i < |people| ==> Lower(people[i].email) in emailMap
    ensures forall e :: e in emailMap ==> exists i :: 0 <= i < |people| && Lower(people[i].email) == e
    ensures forall i :: 0 <= i < |people| ==>
              (forall j :: i < j < |people| ==> Lower(people[j].email) != Lower(people[i].email)) ==>
              emailMap[Lower(people[i].email)] == people[i].id
  {
    var pairs := EmailPairs(people);
    AssignLastWins(pairs, map[]);
    assert forall i :: 0 <= i < |people| ==> pairs[i] == (Lower(people[i].email), people[i].id);
    Assign(pairs, map[])
  }

  /** Fills `email_map` one person at a time, in the order `listPeople` returned them. */
  method BuildEmailMap(people: seq<Person>) returns (emailMap: map<string, int>)
    ensures emailMap == EmailMap(people)
  {
    emailMap := map[];
    var i := 0;
    while i < |people|
      invariant 0 <= i <= |people|
      invariant Assign(EmailPairs(people)[i..], emailMap) == EmailMap(people)
    {
      assert EmailPairs(people)[i..][1..] == EmailPairs(people)[i + 1..];
      emailMap := emailMap[Lower(people[i].email) := people[i].id];
      i := i + 1;
    }
  }

  /** Every key of the email map is already lower-case, so lower-cased lookups can find it. */
  lemma EmailMapKeysLower(people: seq<Person>)
    ensures forall e :: e in EmailMap(people) ==> Lower(e) == e
  {
    var pairs := EmailPairs(people);
    AssignLastWins(pairs, map[]);
    forall e | e in EmailMap(people) ensures Lower(e) == e {
      var i :| 0 <= i < |pairs| && pairs[i].0 == e;
      LowerIdempotent(people[i].email);
    }
  }

  /** The `--default-assignee` lookup; an email FogBugz does not know stops the run. */
  function DefaultAssignee(email: string, emailMap: map<string, int>): (r: Result<int, Error>)
    ensures r.Ok? <==> Lower(email) in emailMap
    ensures r.Ok? ==> r.value in emailMap.Values
    ensures r.Err? ==> r.error == UnknownDefaultAssignee(email)
  {
    if Lower(email) in emailMap then Ok(emailMap[Lower(email)]) else Err(UnknownDefaultAssignee(email))
  }

  /**
   * The default assignee is found exactly when some person's email matches it ignoring
   * case, and it is the last such person.
   */
  lemma DefaultAssigneeOfPeople(email: string, people: seq<Person>)
    ensures DefaultAssignee(email, EmailMap(people)).Ok? <==>
              exists i :: 0 <= i < |people| && Lower(people[i].email) == Lower(email)
    ensures forall i :: 0 <= i < |people| && Lower(people[i].email) == Lower(email) ==>
              (forall j :: i < j < |people| ==> Lower(people[j].email) != Lower(email)) ==>
              DefaultAssignee(email, EmailMap(people)) == Ok(people[i].id)
  {
  }
}
