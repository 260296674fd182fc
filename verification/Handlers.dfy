// The handlers that loop over repository calls: the re-key batch and the rotation
// guard (internal/handlers/encryption.go), the departure with its sweep
// (internal/handlers/connections.go) and leaving a group (internal/handlers/groups.go).
module Handlers {
  import opened Prelude
  import opened Network
  import opened Database
  import opened Custody
  import opened Users
  import opened SecretTransactions
  import opened ConnectionTransactions
  import opened GroupTransactions
  import opened Invariants
  import G = Groups

  /** The allowed pairs some complete entry names. */
  function Served(allowed: set<(SecretId, UserId)>, entries: seq<RekeyEntry>): set<(SecretId, UserId)> {
    set pair | pair in allowed && FirstKey(entries, pair.0, pair.1).Some?
  }

  lemma ServedStep(n: Net, allowed: set<(SecretId, UserId)>, entries: seq<RekeyEntry>, e: RekeyEntry)
    requires forall pair :: pair in allowed ==> RekeyWaits(n, pair.0, pair.1)
    ensures if Complete(e) && (e.secret.value, e.target.value) in allowed
              && RekeyWaits(SubmitRekeys(n, allowed, entries), e.secret.value, e.target.value)
            then (e.secret.value, e.target.value) !in Served(allowed, entries)
              && Served(allowed, entries + [e]) == Served(allowed, entries) + {(e.secret.value, e.target.value)}
            else Served(allowed, entries + [e]) == Served(allowed, entries)
  {
    forall pair | pair in allowed
      ensures RekeyWaits(SubmitRekeys(n, allowed, entries), pair.0, pair.1) <==> pair !in Served(allowed, entries)
      ensures pair in Served(allowed, entries + [e]) <==> pair in Served(allowed, entries) || Names(e, pair.0, pair.1)
    {
      FirstEntryWins(n, allowed, entries, pair.0, pair.1);
      FirstKeyAppends(entries, e, pair.0, pair.1);
    }
  }

  /** What the loop does at entry `i`. */
  lemma EntryStep(n: Net, allowed: set<(SecretId, UserId)>, entries: seq<RekeyEntry>, i: nat)
    requires i < |entries| && forall pair :: pair in allowed ==> RekeyWaits(n, pair.0, pair.1)
    ensures var n1, e := Network.SubmitRekeys(n, allowed, entries[..i]), entries[i];
      if Complete(e) && (e.secret.value, e.target.value) in allowed && RekeyWaits(n1, e.secret.value, e.target.value)
      then (Network.SubmitRekeys(n, allowed, entries[..i + 1]) == SubmitRekey(n1, e.secret.value, e.target.value, e.dek)
            && |Served(allowed, entries[..i + 1])| == |Served(allowed, entries[..i])| + 1)
      else (Network.SubmitRekeys(n, allowed, entries[..i + 1]) == n1
            && |Served(allowed, entries[..i + 1])| == |Served(allowed, entries[..i])|)
  {
    ServedStep(n, allowed, entries[..i], entries[i]);
    assert entries[..i + 1] == entries[..i] + [entries[i]];
    assert entries[..i + 1][..i] == entries[..i];
  }

  class EncryptionHandler {
    const repo: EncryptedSecretRepository

    constructor (repo: EncryptedSecretRepository)
      ensures this.repo == repo
    {
      this.repo := repo;
    }

    /** The batch loop skips incomplete entries and pairs that were not pending for
        the caller when it began; the number it reports is the number of distinct
        pairs it served. */
    method SubmitRekeys(caller: UserId, publicKeys: set<UserId>, entries: seq<RekeyEntry>) returns (served: Result<nat, Error>)
      modifies repo.db
      ensures var n := old(repo.db.Tables());
        var allowed := PendingRekeys(n, caller, publicKeys);
        if entries == [] then served == Err(InvalidRequest) && repo.db.Tables() == n
        else served == Ok(|Served(allowed, entries)|) && repo.db.Tables() == Network.SubmitRekeys(n, allowed, entries)
    {
      if entries == [] {
        return Err(InvalidRequest);
      }
      ghost var n := repo.db.Tables();
      var allowed := repo.GetPendingRekeys(caller, publicKeys);
      PendingAreWaiting(n, caller, publicKeys);
      var count: nat := 0;
      var i := 0;
      while i < |entries|
        invariant 0 <= i <= |entries|
        invariant repo.db.Tables() == Network.SubmitRekeys(n, allowed, entries[..i])
        invariant count == |Served(allowed, entries[..i])|
      {
        var e := entries[i];
        EntryStep(n, allowed, entries, i);
        i := i + 1;
        if e.secret.None? || e.target.None? || e.dek == "" {
          continue;
        }
        if (e.secret.value, e.target.value) !in allowed {
          continue;
        }
        var updated := repo.SubmitRekey(e.secret.value, e.target.value, e.dek);
        if updated {
          count := count + 1;
        }
      }
      assert entries[..i] == entries;
      return Ok(count);
    }

    /** The handler's checks refuse only an empty payload or nonce on top of what
        the repository refuses: its demand that the caller be named is implied. */
    method SubmitGroupRotation(s: SecretId, caller: UserId, payload: string, iv: string, wrapped: seq<WrappedKey>)
      returns (error: Option<Error>)
      requires RecipientsKnown(repo.db.Tables())
      modifies repo.db
      ensures var n := old(repo.db.Tables());
        var o := Rotate(n, s, caller, payload, iv, wrapped);
        && (error.None? <==> payload != "" && iv != "" && o.Ok?)
        && repo.db.Tables() == if error.None? then o.value else n
    {
      RotationSucceedsIff(repo.db.Tables(), s, caller, payload, iv, wrapped);
      if payload == "" || iv == "" || wrapped == [] {
        return Some(InvalidRequest);
      }
      var included := false;
      var i := 0;
      while i < |wrapped| && !included
        invariant 0 <= i <= |wrapped|
        invariant included <==> caller in Named(wrapped[..i])
        invariant repo.db.Tables() == old(repo.db.Tables())
        decreases |wrapped| - i
      {
        EncryptedSecretRepository.NamedStep(wrapped, i);
        included := wrapped[i].user == caller;
        i := i + 1;
      }
      if !included {
        assert wrapped[..i] == wrapped;
        return Some(InvalidRequest);
      }
      error := repo.SubmitGroupRotation(s, caller, payload, iv, wrapped);
    }
  }

  class ConnectionHandler {
    const repo: ConnectionRepository

    constructor (repo: ConnectionRepository)
      ensures this.repo == repo
    {
      this.repo := repo;
    }

    /** A departure, then the remaining members one by one: whoever all the others
        block is made to leave as well. */
    method LeaveConnection(c: ConnId, g: GroupId) returns (error: Option<Error>)
      modifies repo.db
      ensures var n := old(repo.db.Tables());
        var o := Leave(n, c, g);
        && error == Failure(o)
        && repo.db.Tables() == if o.Ok? then SweepBlocked(o.value, c, RowOrder(MembersOf(o.value, c))) else n
    {
      error := repo.LeaveConnection(c, g);
      if error.Some? {
        return;
      }
      ghost var n := repo.db.Tables();
      var rows := RowOrder(MembersOf(repo.db.Tables(), c));
      var i := 0;
      while i < |rows|
        invariant 0 <= i <= |rows|
        invariant SweepBlocked(repo.db.Tables(), c, rows[i..]) == SweepBlocked(n, c, rows)
      {
        assert rows[i..][1..] == rows[i + 1..];
        var remove := repo.CheckUnanimousBlock(c, rows[i]);
        if remove {
          var ignored := repo.LeaveConnection(c, rows[i]);
        }
        i := i + 1;
      }
    }
  }

  function AdminsAmong(group: G.Group, rows: seq<UserId>): set<UserId> {
    set u | u in rows && u in group.members && group.members[u].isAdmin
  }

  lemma AdminsStep(group: G.Group, rows: seq<UserId>, i: nat)
    requires i < |rows| && rows[i] !in rows[..i] && rows[i] in group.members
    ensures |AdminsAmong(group, rows[..i + 1])| == |AdminsAmong(group, rows[..i])| + if group.members[rows[i]].isAdmin then 1 else 0
  {
    assert rows[..i + 1] == rows[..i] + [rows[i]];
    if group.members[rows[i]].isAdmin {
      assert AdminsAmong(group, rows[..i + 1]) == AdminsAmong(group, rows[..i]) + {rows[i]};
    } else {
      assert AdminsAmong(group, rows[..i + 1]) == AdminsAmong(group, rows[..i]);
    }
  }

  class GroupHandler {
    const repo: GroupRepository

    constructor (repo: GroupRepository)
      ensures this.repo == repo
    {
      this.repo := repo;
    }

    method CountAdmins(group: G.Group) returns (count: nat)
      ensures count == |G.Admins(group)|
    {
      var rows := RowOrder(group.members.Keys);
      RowOrderLists(group.members.Keys);
      count := 0;
      var i := 0;
      while i < |rows|
        invariant 0 <= i <= |rows| && count == |AdminsAmong(group, rows[..i])|
      {
        assert rows[i] in rows;
        AdminsStep(group, rows, i);
        if group.members[rows[i]].isAdmin {
          count := count + 1;
        }
        i := i + 1;
      }
      assert rows[..i] == rows;
      assert AdminsAmong(group, rows) == G.Admins(group);
    }

    /** Only members leave, and not the last admin. */
    method Leave(g: GroupId, user: UserId) returns (error: Option<Error>)
      modifies repo.db
      ensures var n := old(repo.db.Tables());
        var o := InGroup(n, g, G.Leave(user));
        error == Failure(o) && repo.db.Tables() == Left(n, o)
    {
      if g !in repo.db.groups || user !in repo.db.groups[g].members {
        return Some(NotMember);
      }
      if repo.db.groups[g].members[user].isAdmin {
        var count := CountAdmins(repo.db.groups[g]);
        if count <= 1 {
          return Some(LastAdmin);
        }
      }
      error := repo.RemoveMember(g, user);
    }
  }
}
