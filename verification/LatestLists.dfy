/**
 Lists maintained one user at a time, for any way of making an account of a user: a run of steps leaves
 the accounts of the last version of every user.
 */
module LatestLists {
  import opened Options
  import opened Accounts
  import opened ClientLists

  function RunWith(build: Build, xs: seq<Account>, users: seq<User>): seq<Account> {
    if users == [] then xs
    else StepWith(build, RunWith(build, xs, users[..|users| - 1]), users[|users| - 1])
  }

  // The accounts of these users, in their order.
  function ListWith(build: Build, users: seq<User>): seq<Account> {
    if users == [] then []
    else ListWith(build, users[..|users| - 1]) + Present(build(users[|users| - 1]))
  }

  ghost predicate HasEmail(users: seq<User>, email: string) {
    exists i :: 0 <= i < |users| && users[i].email == email
  }

  // The users of a run, each email once, with its last version, in the order of the last syncs.
  ghost function LastVersions(users: seq<User>): seq<User> {
    if users == [] then []
    else if HasEmail(users[1..], users[0].email) then LastVersions(users[1..])
    else [users[0]] + LastVersions(users[1..])
  }

  ghost predicate DistinctEmails(users: seq<User>) {
    forall i, j :: 0 <= i < j < |users| ==> users[i].email != users[j].email
  }

  // ---------- last versions ----------

  function Without(users: seq<User>, email: string): seq<User> {
    if users == [] then []
    else
      var rest := Without(users[..|users| - 1], email);
      if users[|users| - 1].email == email then rest else rest + [users[|users| - 1]]
  }

  lemma {:induction false} WithoutMembers(users: seq<User>, email: string)
    ensures forall u :: u in Without(users, email) <==> u in users && u.email != email
  {
    if users != [] {
      WithoutMembers(users[..|users| - 1], email);
      assert users == users[..|users| - 1] + [users[|users| - 1]];
    }
  }

  lemma {:induction false} WithoutCons(user: User, users: seq<User>, email: string)
    ensures Without([user] + users, email) == (if user.email == email then [] else [user]) + Without(users, email)
  {
    var all := [user] + users;
    if users == [] {
      assert all[..|all| - 1] == [];
    } else {
      WithoutCons(user, users[..|users| - 1], email);
      assert all[..|all| - 1] == [user] + users[..|users| - 1];
    }
  }

  lemma {:induction false} LastVersionsMembers(users: seq<User>)
    ensures forall u :: u in LastVersions(users) ==> u in users
    ensures DistinctEmails(LastVersions(users))
  {
    if users != [] {
      LastVersionsMembers(users[1..]);
      var rest := LastVersions(users[1..]);
      if !HasEmail(users[1..], users[0].email) {
        forall i | 0 <= i < |rest| ensures rest[i].email != users[0].email {
          assert rest[i] in users[1..];
        }
      }
    }
  }

  lemma {:induction false} LastVersionsSnoc(users: seq<User>, user: User)
    ensures LastVersions(users + [user]) == Without(LastVersions(users), user.email) + [user]
  {
    var all := users + [user];
    if users == [] {
      assert all[1..] == [];
    } else {
      LastVersionsSnoc(users[1..], user);
      assert all[1..] == users[1..] + [user];
      WithoutCons(users[0], LastVersions(users[1..]), user.email);
      var e := users[0].email;
      assert HasEmail(all[1..], e) <==> HasEmail(users[1..], e) || user.email == e by {
        if HasEmail(users[1..], e) {
          var i :| 0 <= i < |users[1..]| && users[1..][i].email == e;
          assert all[1..][i].email == e;
        }
        if user.email == e {
          assert all[1..][|users| - 1].email == e;
        }
      }
    }
  }

  lemma {:induction false} LastVersionsDistinct(users: seq<User>)
    requires DistinctEmails(users)
    ensures LastVersions(users) == users
  {
    if users != [] {
      assert forall i :: 0 <= i < |users| - 1 ==> users[1..][i] == users[i + 1];
      LastVersionsDistinct(users[1..]);
    }
  }

  // ---------- deleting by email ----------

  lemma {:induction false} RemoveFirstConcat(xs: seq<Account>, ys: seq<Account>, email: string)
    ensures Mentions(xs, email) ==> RemoveFirst(xs + ys, email) == RemoveFirst(xs, email) + ys
    ensures !Mentions(xs, email) ==> RemoveFirst(xs + ys, email) == xs + RemoveFirst(ys, email)
  {
    if xs == [] {
      assert xs + ys == ys;
    } else {
      assert (xs + ys)[1..] == xs[1..] + ys;
      if IsFor(xs[0], email) {
      } else {
        RemoveFirstConcat(xs[1..], ys, email);
        assert forall i :: 0 <= i < |xs| - 1 ==> xs[1..][i] == xs[i + 1];
        assert Mentions(xs, email) ==> Mentions(xs[1..], email);
        assert Mentions(xs[1..], email) ==> Mentions(xs, email);
      }
    }
  }

  lemma {:induction false} ListWithMentions(build: Build, users: seq<User>, email: string)
    requires KeepsEmail(build)
    requires !HasEmail(users, email)
    ensures !Mentions(ListWith(build, users), email)
  {
    if users != [] {
      var init, last := users[..|users| - 1], users[|users| - 1];
      assert !HasEmail(init, email) by {
        assert forall i :: 0 <= i < |init| ==> init[i] == users[i];
      }
      ListWithMentions(build, init, email);
      PresentIsFor(build, last, email);
    }
  }

  lemma {:induction false} WithoutAbsent(users: seq<User>, email: string)
    requires !HasEmail(users, email)
    ensures Without(users, email) == users
  {
    if users != [] {
      var init, last := users[..|users| - 1], users[|users| - 1];
      assert !HasEmail(init, email) by {
        assert forall i :: 0 <= i < |init| ==> init[i] == users[i];
      }
      WithoutAbsent(init, email);
      assert users == init + [last];
    }
  }

  lemma ListWithSnoc(build: Build, users: seq<User>, last: User)
    ensures ListWith(build, users + [last]) == ListWith(build, users) + Present(build(last))
  {
    assert (users + [last])[..|users|] == users;
  }

  lemma PresentIsFor(build: Build, user: User, email: string)
    requires KeepsEmail(build)
    ensures var one := Present(build(user));
            && (user.email != email ==> !Mentions(one, email) && RemoveFirst(one, email) == one)
            && (user.email == email ==> RemoveFirst(one, email) == [])
  {
  }

  // On users with distinct emails, deleting an account is dropping its user.
  lemma {:induction false} RemoveFirstListed(build: Build, users: seq<User>, email: string)
    requires KeepsEmail(build)
    requires DistinctEmails(users)
    ensures RemoveFirst(ListWith(build, users), email) == ListWith(build, Without(users, email))
  {
    if users != [] {
      var init, last := users[..|users| - 1], users[|users| - 1];
      var xs, one := ListWith(build, init), Present(build(last));
      PresentIsFor(build, last, email);
      RemoveFirstConcat(xs, one, email);
      if last.email == email {
        assert !HasEmail(init, email);
        ListWithMentions(build, init, email);
        WithoutAbsent(init, email);
      } else {
        RemoveFirstListed(build, init, email);
        if !Mentions(xs, email) {
          RemoveFirstAbsent(xs, email);
        }
        ListWithSnoc(build, Without(init, email), last);
      }
    }
  }

  lemma StepOnListWith(build: Build, versions: seq<User>, last: User)
    requires KeepsEmail(build)
    requires DistinctEmails(versions)
    ensures StepWith(build, ListWith(build, versions), last) ==
            ListWith(build, Without(versions, last.email) + [last])
  {
    RemoveFirstListed(build, versions, last.email);
    ListWithSnoc(build, Without(versions, last.email), last);
  }

  // ---------- runs ----------

  lemma SplitLast(base: seq<User>, users: seq<User>)
    requires users != []
    ensures (base + users[..|users| - 1]) + [users[|users| - 1]] == base + users
  {
  }

  lemma AddNothing(base: seq<User>, users: seq<User>)
    requires users == []
    ensures base + users == base
  {
  }

  lemma {:induction false} RunIsListWith(build: Build, base: seq<User>, users: seq<User>)
    requires KeepsEmail(build)
    requires DistinctEmails(base)
    ensures RunWith(build, ListWith(build, base), users) == ListWith(build, LastVersions(base + users))
  {
    if users == [] {
      LastVersionsDistinct(base);
      AddNothing(base, users);
    } else {
      var init, last := users[..|users| - 1], users[|users| - 1];
      var before := base + init;
      RunIsListWith(build, base, init);
      LastStepOfRun(build, before, last);
      SplitLast(base, users);
    }
  }

  lemma LastStepOfRun(build: Build, before: seq<User>, last: User)
    requires KeepsEmail(build)
    ensures StepWith(build, ListWith(build, LastVersions(before)), last) ==
            ListWith(build, LastVersions(before + [last]))
  {
    LastVersionsSnoc(before, last);
    LastVersionsMembers(before);
    StepOnListWith(build, LastVersions(before), last);
  }

  lemma {:induction false} ListWithNoNil(build: Build, users: seq<User>)
    requires KeepsEmail(build)
    ensures NoNil(ListWith(build, users))
  {
    if users != [] {
      ListWithNoNil(build, users[..|users| - 1]);
    }
  }
}
