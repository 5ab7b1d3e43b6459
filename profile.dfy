/**
 The value side of the User entity: the profile snapshot, the three setter calls
 a client can make, and what a history of such calls does to a profile.

 A `Profile` is the record `getProfile()` returns; a `Call` is one invocation of
 `setName`, `setAge` or `setEmail` with its argument. `Apply` is the effect of one
 call and `Run` the effect of a whole history, applied oldest first. Each setter of
 the `User` class is specified by `Apply`, one call at a time, so a client that makes
 the calls of a history in order ends with `Run` of its starting snapshot, and the
 lemmas below about `Run` describe that final snapshot.
 */
module Profiles {

  /** The snapshot record `{ username, name, age, email }`. */
  datatype Profile = Profile(username: string, name: string, age: int, email: string)

  /** One setter invocation together with the value it is given. */
  datatype Call =
    | SetName(newName: string)
    | SetAge(newAge: int)
    | SetEmail(newEmail: string)

  /** The profile after one setter call: that call's field takes the new value,
      the other three fields, and `username` in particular, keep theirs. */
  function Apply(p: Profile, c: Call): (r: Profile)
    ensures r.username == p.username
    ensures r.name == (if c.SetName? then c.newName else p.name)
    ensures r.age == (if c.SetAge? then c.newAge else p.age)
    ensures r.email == (if c.SetEmail? then c.newEmail else p.email)
  {
    match c
    case SetName(v) => p.(name := v)
    case SetAge(v) => p.(age := v)
    case SetEmail(v) => p.(email := v)
  }

  /** The profile after the calls of `history`, the first call applied first.
      No history changes the username. */
  function Run(p: Profile, history: seq<Call>): (r: Profile)
    ensures r.username == p.username
    decreases |history|
  {
    if |history| == 0 then p
    else Apply(Run(p, history[..|history| - 1]), history[|history| - 1])
  }

  /** Running two histories one after the other is running their concatenation. */
  lemma {:induction false} RunAppend(p: Profile, first: seq<Call>, second: seq<Call>)
    ensures Run(p, first + second) == Run(Run(p, first), second)
    decreases |second|
  {
    if |second| == 0 {
      assert first + second == first;
    } else {
      var n := |second| - 1;
      assert (first + second)[..|first + second| - 1] == first + second[..n];
      RunAppend(p, first, second[..n]);
    }
  }

  /** A history with no `setName` call leaves the name as it was. */
  lemma {:induction false} NameKept(p: Profile, history: seq<Call>)
    requires forall j :: 0 <= j < |history| ==> !history[j].SetName?
    ensures Run(p, history).name == p.name
    decreases |history|
  {
    if |history| > 0 {
      NameKept(p, history[..|history| - 1]);
    }
  }

  /** A history with no `setAge` call leaves the age as it was. */
  lemma {:induction false} AgeKept(p: Profile, history: seq<Call>)
    requires forall j :: 0 <= j < |history| ==> !history[j].SetAge?
    ensures Run(p, history).age == p.age
    decreases |history|
  {
    if |history| > 0 {
      AgeKept(p, history[..|history| - 1]);
    }
  }

  /** A history with no `setEmail` call leaves the email as it was. */
  lemma {:induction false} EmailKept(p: Profile, history: seq<Call>)
    requires forall j :: 0 <= j < |history| ==> !history[j].SetEmail?
    ensures Run(p, history).email == p.email
    decreases |history|
  {
    if |history| > 0 {
      EmailKept(p, history[..|history| - 1]);
    }
  }

  /** The history split at position `k`: the calls before it, the call itself, the calls after. */
  lemma {:induction false} SplitAt(p: Profile, history: seq<Call>, k: nat)
    requires k < |history|
    ensures Run(p, history) == Run(Apply(Run(p, history[..k]), history[k]), history[k + 1..])
  {
    assert history == (history[..k] + [history[k]]) + history[k + 1..];
    RunAppend(p, history[..k] + [history[k]], history[k + 1..]);
    assert (history[..k] + [history[k]])[..k] == history[..k];
  }

  /** The name is the one given to the last `setName` call of the history. */
  lemma {:induction false} LastNameWins(p: Profile, history: seq<Call>, k: nat)
    requires k < |history| && history[k].SetName?
    requires forall j :: k < j < |history| ==> !history[j].SetName?
    ensures Run(p, history).name == history[k].newName
  {
    SplitAt(p, history, k);
    var rest := history[k + 1..];
    assert forall j :: 0 <= j < |rest| ==> rest[j] == history[k + 1 + j];
    NameKept(Apply(Run(p, history[..k]), history[k]), rest);
  }

  /** The age is the one given to the last `setAge` call of the history. */
  lemma {:induction false} LastAgeWins(p: Profile, history: seq<Call>, k: nat)
    requires k < |history| && history[k].SetAge?
    requires forall j :: k < j < |history| ==> !history[j].SetAge?
    ensures Run(p, history).age == history[k].newAge
  {
    SplitAt(p, history, k);
    var rest := history[k + 1..];
    assert forall j :: 0 <= j < |rest| ==> rest[j] == history[k + 1 + j];
    AgeKept(Apply(Run(p, history[..k]), history[k]), rest);
  }

  /** The email is the one given to the last `setEmail` call of the history. */
  lemma {:induction false} LastEmailWins(p: Profile, history: seq<Call>, k: nat)
    requires k < |history| && history[k].SetEmail?
    requires forall j :: k < j < |history| ==> !history[j].SetEmail?
    ensures Run(p, history).email == history[k].newEmail
  {
    SplitAt(p, history, k);
    var rest := history[k + 1..];
    assert forall j :: 0 <= j < |rest| ==> rest[j] == history[k + 1 + j];
    EmailKept(Apply(Run(p, history[..k]), history[k]), rest);
  }

  /** Calling the same setter twice in a row keeps only the second value. */
  lemma RepeatedCallOverwrites(p: Profile, c: Call, d: Call)
    requires c.SetName? == d.SetName? && c.SetAge? == d.SetAge? && c.SetEmail? == d.SetEmail?
    ensures Apply(Apply(p, c), d) == Apply(p, d)
  {
  }

  /** Setters of different fields commute. */
  lemma DistinctCallsCommute(p: Profile, c: Call, d: Call)
    requires !(c.SetName? && d.SetName?) && !(c.SetAge? && d.SetAge?) && !(c.SetEmail? && d.SetEmail?)
    ensures Apply(Apply(p, c), d) == Apply(Apply(p, d), c)
  {
  }
}
