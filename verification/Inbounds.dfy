/**
 The Inbound of backend/xray/config.go. Settings["clients"] is a typed Go slice: a backing array with a
 length, edited in place by the delete loops and by append.
 */
module Inbounds {
  import opened Options
  import opened Accounts
  import opened ClientLists

  class Inbound {
    const profile: Profile
    const exclude: bool
    // The element type of the stored list; None while the entry is missing or has another type.
    var kind: Option<Kind>
    var backing: array<Account>
    var len: nat
    // The accounts in the list.
    ghost var clients: seq<Account>

    ghost predicate Valid()
      reads this, backing
    {
      len <= backing.Length && clients == backing[..len]
    }

    // The list has the element type that the protocol and the cipher call for.
    ghost predicate Typed()
      reads this
    {
      && kind == ListKind(profile)
      && (kind.Some? ==> OfKind(clients, kind.value))
    }

    // As decoded from JSON: no list of a known type yet.
    constructor (profile: Profile, exclude: bool)
      ensures Valid() && fresh(backing) && this.profile == profile && this.exclude == exclude
      ensures kind == None && clients == []
    {
      this.profile, this.exclude := profile, exclude;
      kind, backing, len := None, new Account[0], 0;
      clients := [];
    }

    // `crashed` if a nil account is dereferenced; nothing has been stored by then.
    method SyncUsers(env: Env, users: seq<User>) returns (crashed: bool)
      requires Valid()
      modifies this
      ensures Valid()
      ensures crashed <==> !BulkRuns(env, profile, users)
      ensures crashed ==> unchanged(this)
      ensures Managed(profile) && !crashed ==>
                kind == ListKind(profile) && clients == BulkList(env, profile, users) && fresh(backing)
      ensures Managed(profile) && !crashed ==> Typed()
      ensures !Managed(profile) ==> unchanged(this)
    {
      crashed := false;
      if ListKind(profile).Some? {
        var list, n;
        list, n, crashed := Collect(env, profile, users);
        if crashed {
          return;
        }
        kind, backing, len := ListKind(profile), list, n;
        clients := list[..n];
        BulkListOfKind(env, profile, users);
      }
    }

    // `crashed` if the scan for the email dereferences a nil pointer.
    method UpdateUser(env: Env, account: Account) returns (crashed: bool)
      requires Valid() && !account.NilAccount?
      requires account.Shadowsocks2022? ==> profile.cipher.Some?
      modifies this, backing
      ensures Valid() && (backing == old(backing) || fresh(backing))
      ensures crashed <==> old(kind) == Some(KindOf(account)) && !Scannable(old(clients), account.email)
      ensures crashed ==> unchanged(this) && unchanged(backing)
      ensures !crashed ==> kind == Some(KindOf(account))
      ensures !crashed ==> clients == RemoveFirst(if old(kind) == kind then old(clients) else [], account.email)
                           + [StoredForm(env, profile, account)]
    {
      var list, n := backing, len;
      if kind != Some(KindOf(account)) {
        list, n := new Account[0], 0;
      }
      n, crashed := DeleteFirst(list, n, account.email);
      if crashed {
        return;
      }
      list, n := Append(list, n, StoredForm(env, profile, account));
      kind, backing, len := Some(KindOf(account)), list, n;
      clients := list[..n];
    }

    method RemoveUser(email: string) returns (crashed: bool)
      requires Valid()
      modifies this, backing
      ensures Valid() && (backing == old(backing) || fresh(backing))
      ensures crashed <==> Managed(profile) && old(kind) == ListKind(profile) && !Scannable(old(clients), email)
      ensures crashed ==> unchanged(this) && unchanged(backing)
      ensures Managed(profile) && !crashed ==>
                && kind == ListKind(profile)
                && clients == RemoveFirst(if old(kind) == kind then old(clients) else [], email)
      ensures !Managed(profile) ==> unchanged(this) && unchanged(backing)
    {
      crashed := false;
      if ListKind(profile).Some? {
        var list, n := backing, len;
        if kind != ListKind(profile) {
          list, n := new Account[0], 0;
        }
        n, crashed := DeleteFirst(list, n, email);
        if crashed {
          return;
        }
        kind, backing, len := ListKind(profile), list, n;
        clients := list[..n];
      }
    }
  }

  lemma BulkListSnoc(env: Env, p: Profile, users: seq<User>, i: nat)
    requires i < |users|
    ensures BulkList(env, p, users[..i + 1]) == BulkList(env, p, users[..i]) + Pushed(BulkEntry(env, p, users[i]))
  {
    assert users[..i + 1][..i] == users[..i];
  }

  // The loop of syncUsers: a new slice with the accounts of the users.
  method Collect(env: Env, p: Profile, users: seq<User>) returns (list: array<Account>, n: nat, crashed: bool)
    ensures fresh(list)
    ensures crashed <==> !BulkRuns(env, p, users)
    ensures !crashed ==> n <= list.Length && list[..n] == BulkList(env, p, users)
  {
    list, n, crashed := new Account[|users|](_ => NilAccount), 0, false;
    for i := 0 to |users|
      invariant n <= i && list[..n] == BulkList(env, p, users[..i])
      invariant RunsTo(env, p, users, i)
    {
      BulkListSnoc(env, p, users, i);
      n, crashed := CollectOne(list, n, BulkEntry(env, p, users[i]));
      if crashed {
        BulkStops(env, p, users, i);
        return;
      }
    }
    RunsToAll(env, p, users, |users|);
    assert users[..|users|] == users;
  }

  // One round of that loop.
  method CollectOne(list: array<Account>, n: nat, entry: Entry) returns (m: nat, crashed: bool)
    requires n < list.Length
    modifies list
    ensures crashed <==> entry.Crash?
    ensures !crashed ==> m <= n + 1 && list[..m] == old(list[..n]) + Pushed(entry)
  {
    m, crashed := n, false;
    match entry {
      case Push(account) =>
        list[n] := account;
        m := n + 1;
      case Skip =>
      case Crash => crashed := true;
    }
  }

  // Scans for `email` and, at the first match, moves the tail of the slice one place down.
  method DeleteFirst(clients: array<Account>, n: nat, email: string) returns (m: nat, crashed: bool)
    requires n <= clients.Length
    modifies clients
    ensures crashed <==> !Scannable(old(clients[..n]), email)
    ensures crashed ==> unchanged(clients)
    ensures !crashed ==> m <= n && clients[..m] == RemoveFirst(old(clients[..n]), email)
  {
    ghost var was := clients[..n];
    var x := 0;
    while x < n
      invariant x <= n && unchanged(clients)
      invariant forall i :: 0 <= i < x ==> !was[i].NilAccount?
      invariant forall i :: 0 <= i < x ==> !IsFor(was[i], email)
    {
      assert clients[x] == was[x];
      if clients[x].NilAccount? {
        ScannableIff(was, email, x);
        return x, true;
      }
      if clients[x].email == email {
        ScannableIff(was, email, x);
        RemoveFirstSplit(was, email, x);
        ShiftDown(clients, n, x);
        return n - 1, false;
      }
      x := x + 1;
    }
    NoNilIsScannable(was, email);
    RemoveFirstAbsent(was, email);
    return n, false;
  }

  // append(s[:x], s[x+1:]...) on a slice of length n.
  method ShiftDown(clients: array<Account>, n: nat, x: nat)
    requires x < n <= clients.Length
    modifies clients
    ensures clients[..n - 1] == old(clients[..x] + clients[x + 1..n])
  {
    ghost var was := clients[..];
    for j := x to n - 1
      invariant forall i :: 0 <= i < j ==> clients[i] == was[if i < x then i else i + 1]
      invariant forall i :: j <= i < n ==> clients[i] == was[i]
    {
      clients[j] := clients[j + 1];
    }
    assert forall i :: 0 <= i < n - 1 ==> clients[i] == (was[..x] + was[x + 1..n])[i];
  }

  // append(s, account): in place while the capacity lasts, else in a larger array.
  method Append(clients: array<Account>, n: nat, account: Account) returns (grown: array<Account>, m: nat)
    requires n <= clients.Length
    modifies clients
    ensures grown == clients || fresh(grown)
    ensures m == n + 1 <= grown.Length && grown[..m] == old(clients[..n]) + [account]
  {
    grown, m := clients, n + 1;
    if n == clients.Length {
      grown := new Account[2 * n + 1](_ => NilAccount);
      for i := 0 to n
        invariant grown[..i] == clients[..i]
        invariant clients[..] == old(clients[..])
      {
        grown[i] := clients[i];
      }
    }
    grown[n] := account;
  }

  lemma {:induction false} BulkListOfKind(env: Env, p: Profile, users: seq<User>)
    requires Managed(p)
    ensures OfKind(BulkList(env, p, users), ListKind(p).value)
  {
    if users != [] {
      BulkListOfKind(env, p, users[..|users| - 1]);
    }
  }
}
