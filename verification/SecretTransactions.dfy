// EncryptedSecretRepository: the statements that insert, flag, rewrite and delete
// wrapped-key rows in place (internal/database/encrypted_secrets.go).
module SecretTransactions {
  import opened Prelude
  import opened Network
  import opened Database
  import opened Eviction
  import opened Custody
  import opened Users

  lemma WrappedRowsStep(wrapped: seq<WrappedKey>, i: nat)
    requires i < |wrapped|
    ensures WrappedRows(wrapped[..i + 1]) == WrappedRows(wrapped[..i])[wrapped[i].user := wrapped[i].dek]
  {
    assert wrapped[..i + 1][..i] == wrapped[..i];
  }

  lemma FreshRowsStep(rows: map<UserId, string>, user: UserId, dek: string)
    ensures FreshRows(rows[user := dek]) == FreshRows(rows)[user := KeyRow(dek, false, false)]
  {
  }

  lemma RepeatsStep(wrapped: seq<WrappedKey>, i: nat)
    requires i < |wrapped| && !UsersRepeat(wrapped[..i])
    ensures UsersRepeat(wrapped[..i + 1]) <==> wrapped[i].user in WrappedRows(wrapped[..i])
    ensures wrapped[i].user in WrappedRows(wrapped[..i]) ==> UsersRepeat(wrapped)
  {
    RowsOfAll(wrapped[..i]);
    if wrapped[i].user in WrappedRows(wrapped[..i]) {
      var j :| 0 <= j < i && wrapped[..i][j].user == wrapped[i].user;
      assert wrapped[..i + 1][j].user == wrapped[..i + 1][i].user;
      assert wrapped[j].user == wrapped[i].user;
    } else {
      assert forall j :: 0 <= j < i ==> wrapped[..i][j].user in Named(wrapped[..i]);
      assert forall j :: 0 <= j < i ==> wrapped[..i][j] == wrapped[j];
    }
  }

  lemma MatchingCanBeInserted(wrapped: seq<WrappedKey>, current: set<UserId>, users: set<UserId>)
    requires EntriesMatch(wrapped, current) && current <= users
    ensures !UsersRepeat(wrapped) && WrappedRows(wrapped).Keys <= users
  {
    EntriesMatchIff(wrapped, current);
    RowsOfAll(wrapped);
  }

  class EncryptedSecretRepository {
    const db: DB

    constructor (db: DB)
      ensures this.db == db
    {
      this.db := db;
    }

    /** CreateTx: the secret row, then one key row after the other; a repeated user
        violates the primary key, a user that does not exist the foreign key. The caller's transaction rolls back on failure. */
    method CreateTx(owner: SecretOwner, payload: string, iv: string, author: UserId, wrapped: seq<WrappedKey>)
      returns (error: Option<Error>)
      modifies db`next, db`secrets
      ensures var n := old(db.Tables());
        var o := CreateSecret(n, owner, payload, iv, author, wrapped);
        error == Failure(o) && (o.Ok? ==> db.Tables() == o.value)
    {
      if (owner.OfSignalGroup? && owner.signal !in db.signals) || author !in db.users {
        return Some(ConstraintViolation);
      }
      var id := db.NewId();
      db.secrets := db.secrets[id := Secret(owner, payload, iv, author, map[])];
      var ok := InsertKeys(id, wrapped);
      return if ok then None else Some(ConstraintViolation);
    }

    /** The key rows one after the other; the first repeated or missing user stops it. */
    method InsertKeys(id: SecretId, wrapped: seq<WrappedKey>) returns (ok: bool)
      requires id in db.secrets && db.secrets[id].keys == map[]
      modifies db`secrets
      ensures ok == (!UsersRepeat(wrapped) && WrappedRows(wrapped).Keys <= db.users)
      ensures ok ==> db.secrets == old(db.secrets)[id := old(db.secrets)[id].(keys := FreshRows(WrappedRows(wrapped)))]
    {
      var i := 0;
      while i < |wrapped|
        invariant 0 <= i <= |wrapped| && !UsersRepeat(wrapped[..i]) && WrappedRows(wrapped[..i]).Keys <= db.users
        invariant db.secrets == old(db.secrets)[id := old(db.secrets)[id].(keys := FreshRows(WrappedRows(wrapped[..i])))]
      {
        RepeatsStep(wrapped, i);
        var keys := db.secrets[id].keys;
        if wrapped[i].user in keys {
          return false;
        }
        if wrapped[i].user !in db.users {
          RowsOfAll(wrapped);
          assert wrapped[i].user in Named(wrapped);
          return false;
        }
        WrappedRowsStep(wrapped, i);
        FreshRowsStep(WrappedRows(wrapped[..i]), wrapped[i].user, wrapped[i].dek);
        db.secrets := db.secrets[id := db.secrets[id].(keys := keys[wrapped[i].user := KeyRow(wrapped[i].dek, false, false)])];
        i := i + 1;
      }
      assert wrapped[..i] == wrapped;
      return true;
    }

    method FlagRekeyForUser(user: UserId)
      modifies db`secrets
      ensures db.Tables() == Network.FlagRekeyForUser(old(db.Tables()), user)
    {
      db.secrets := map s | s in db.secrets :: db.secrets[s].(keys := FlagKeys(db.secrets[s].keys, user));
    }

    method GetPendingRekeys(caller: UserId, publicKeys: set<UserId>) returns (pairs: set<(SecretId, UserId)>)
      ensures pairs == PendingRekeys(db.Tables(), caller, publicKeys)
    {
      pairs := PendingRekeys(db.Tables(), caller, publicKeys);
    }

    /** SubmitRekey reports whether a waiting row was there to update. */
    method SubmitRekey(s: SecretId, target: UserId, dek: string) returns (updated: bool)
      modifies db`secrets
      ensures updated == RekeyWaits(old(db.Tables()), s, target)
      ensures db.Tables() == if updated then Network.SubmitRekey(old(db.Tables()), s, target, dek) else old(db.Tables())
    {
      updated := s in db.secrets && target in db.secrets[s].keys && db.secrets[s].keys[target].rekeyNeeded;
      if updated {
        var keys := db.secrets[s].keys;
        db.secrets := db.secrets[s := db.secrets[s].(keys := keys[target := keys[target].(dek := dek, rekeyNeeded := false)])];
      }
    }

    /** SubmitGroupRotation: the caller must be flagged, the entries must name each
        recipient once, and only then are the rows replaced. The foreign key on the
        rows there are lets the new ones, of the same users, be inserted. */
    method SubmitGroupRotation(s: SecretId, caller: UserId, payload: string, iv: string, wrapped: seq<WrappedKey>)
      returns (error: Option<Error>)
      requires RecipientsKnown(db.Tables())
      modifies db`secrets
      ensures var n := old(db.Tables());
        var o := Rotate(n, s, caller, payload, iv, wrapped);
        error == Failure(o) && db.Tables() == Left(n, o)
    {
      if !(s in db.secrets && caller in db.secrets[s].keys && db.secrets[s].keys[caller].rotationPending) {
        return Some(NoPendingRotation);
      }
      var current := db.secrets[s].keys.Keys;
      assert current <= db.users;
      var matches := CheckEntries(wrapped, current);
      if !matches {
        return Some(WrongRecipients);
      }
      db.secrets := db.secrets[s := Secret(db.secrets[s].owner, payload, iv, caller, map[])];
      MatchingCanBeInserted(wrapped, current, db.users);
      var ok := InsertKeys(s, wrapped);
      return None;
    }

    /** The two loops over the entries and over the recipients. */
    static method CheckEntries(wrapped: seq<WrappedKey>, current: set<UserId>) returns (ok: bool)
      ensures ok == EntriesMatch(wrapped, current)
    {
      var submitted: set<UserId> := {};
      var i := 0;
      while i < |wrapped|
        invariant 0 <= i <= |wrapped|
        invariant submitted == Named(wrapped[..i]) <= current
        invariant !UsersRepeat(wrapped[..i])
        invariant forall j :: 0 <= j < i ==> wrapped[j].dek != "" && wrapped[j].user in current
      {
        RepeatsStep(wrapped, i);
        RowsOfAll(wrapped[..i]);
        if wrapped[i].dek == "" || wrapped[i].user in submitted || wrapped[i].user !in current {
          return false;
        }
        NamedStep(wrapped, i);
        submitted := submitted + {wrapped[i].user};
        i := i + 1;
      }
      assert wrapped[..i] == wrapped;
      ok := current <= submitted;
      EntriesMatchIff(wrapped, current);
      RepeatOrSize(wrapped);
      if ok {
        assert Named(wrapped) == current;
      }
    }

    static lemma NamedStep(wrapped: seq<WrappedKey>, i: nat)
      requires i < |wrapped|
      ensures Named(wrapped[..i + 1]) == Named(wrapped[..i]) + {wrapped[i].user}
    {
      var longer, shorter := wrapped[..i + 1], wrapped[..i];
      assert forall j :: 0 <= j < i ==> longer[j] == shorter[j];
      assert longer[i] == wrapped[i];
    }

    /** RevokeConnectionSecretKeysForGroup: one DELETE, then one UPDATE. */
    method RevokeConnectionSecretKeysForGroup(c: ConnId, g: GroupId)
      modifies db`secrets
      ensures db.Tables() == RevokeForGroup(old(db.Tables()), c, g)
      ensures var n := old(db.Tables());
        forall s :: SecretOf(n, s, c) ==> s in db.secrets && RowsWithout(n, c, g, n.secrets[s].keys, db.secrets[s].keys)
    {
      ghost var n := db.Tables();
      var ids := set s | s in db.secrets && ConnectionOf(db.Tables(), db.secrets[s]) == Some(c);
      if ids == {} {
        assert forall s :: s in db.secrets ==> s !in ids;
        NothingToRevoke(n, c, g);
        return;
      }
      var leaving := UsersOf(db.Tables(), g);
      db.secrets := map s | s in db.secrets ::
        if s in ids then db.secrets[s].(keys := WithoutUsers(db.secrets[s].keys, leaving)) else db.secrets[s];
      var surviving := MembersOfOthers(c, g);
      SurvivorsDoNotReadSecrets(n, db.Tables(), c, g);
      db.secrets := map s | s in db.secrets ::
        if s in ids then db.secrets[s].(keys := FlagRotation(db.secrets[s].keys, surviving)) else db.secrets[s];
      DeleteThenFlag(n, c, g, ids, db.secrets);
      forall s | SecretOf(n, s, c)
        ensures RowsWithout(n, c, g, n.secrets[s].keys, db.secrets[s].keys)
      {
        RevokedRows(n, c, g, n.secrets[s].keys);
      }
    }

    /** The users of the connection's other groups. */
    method MembersOfOthers(c: ConnId, g: GroupId) returns (users: set<UserId>)
      ensures users == SurvivingUsers(db.Tables(), c, g)
      ensures forall u :: u in users <==>
        exists h :: c in db.conns && h in db.conns[c] && h != g && h in db.groups && u in db.groups[h].members
    {
      users := {};
      var rows := RowOrder(MembersOf(db.Tables(), c));
      RowOrderLists(MembersOf(db.Tables(), c));
      var i := 0;
      while i < |rows|
        invariant 0 <= i <= |rows|
        invariant forall u :: u in users <==> exists k :: 0 <= k < i && rows[k] != g && u in UsersOf(db.Tables(), rows[k])
      {
        if rows[i] != g && rows[i] in db.groups {
          users := users + db.groups[rows[i]].members.Keys;
        }
        i := i + 1;
      }
      forall u
        ensures u in users <==> u in SurvivingUsers(db.Tables(), c, g)
        ensures u in users <==> exists h :: c in db.conns && h in db.conns[c] && h != g && h in db.groups && u in db.groups[h].members
      {
        SurvivorIff(db.Tables(), c, g, u);
      }
    }

    /** RevokeGroupSecretKeysForUser: the same for one user of an owner group. */
    method RevokeGroupSecretKeysForUser(g: GroupId, user: UserId)
      modifies db`secrets
      ensures db.Tables() == RevokeForUser(old(db.Tables()), g, user)
    {
      ghost var n := db.Tables();
      var ids := set s | s in db.secrets && OwnerGroupOf(db.Tables(), db.secrets[s]) == Some(g);
      db.secrets := map s | s in db.secrets ::
        if s in ids then db.secrets[s].(keys := WithoutUsers(db.secrets[s].keys, {user})) else db.secrets[s];
      db.secrets := map s | s in db.secrets ::
        if s in ids then db.secrets[s].(keys := FlagRotation(db.secrets[s].keys, db.secrets[s].keys.Keys)) else db.secrets[s];
      DeleteThenFlagAll(n, g, user, ids, db.secrets);
    }
  }

  function WithoutUsers(keys: map<UserId, KeyRow>, leaving: set<UserId>): map<UserId, KeyRow> {
    keys - leaving
  }

  function FlagRotation(keys: map<UserId, KeyRow>, users: set<UserId>): map<UserId, KeyRow> {
    map u | u in keys :: if u in users then keys[u].(rotationPending := true) else keys[u]
  }

  lemma DeletedThenFlagged(keys: map<UserId, KeyRow>, leaving: set<UserId>, surviving: set<UserId>)
    ensures FlagRotation(WithoutUsers(keys, leaving), surviving) == RevokeKeys(keys, leaving, surviving)
  {
  }

  lemma NothingToRevoke(n: Net, c: ConnId, g: GroupId)
    requires forall s :: s in n.secrets ==> ConnectionOf(n, n.secrets[s]) != Some(c)
    ensures RevokeForGroup(n, c, g) == n
  {
    assert RevokeForGroup(n, c, g).secrets == n.secrets;
  }

  lemma SurvivorsDoNotReadSecrets(n: Net, n1: Net, c: ConnId, g: GroupId)
    requires n1 == n.(secrets := n1.secrets)
    ensures SurvivingUsers(n1, c, g) == SurvivingUsers(n, c, g)
  {
    assert forall h :: UsersOf(n1, h) == UsersOf(n, h);
  }

  lemma DeleteThenFlag(n: Net, c: ConnId, g: GroupId, ids: set<SecretId>, after: map<SecretId, Secret>)
    requires forall s :: s in ids <==> s in n.secrets && ConnectionOf(n, n.secrets[s]) == Some(c)
    requires after.Keys == n.secrets.Keys
    requires forall s :: s in after ==>
      after[s] == if s in ids then n.secrets[s].(keys := FlagRotation(WithoutUsers(n.secrets[s].keys, UsersOf(n, g)), SurvivingUsers(n, c, g)))
                  else n.secrets[s]
    ensures after == RevokeForGroup(n, c, g).secrets
  {
    var want := RevokeForGroup(n, c, g).secrets;
    forall s | s in after
      ensures after[s] == want[s]
    {
      DeletedThenFlagged(n.secrets[s].keys, UsersOf(n, g), SurvivingUsers(n, c, g));
    }
  }

  lemma DeleteThenFlagAll(n: Net, g: GroupId, user: UserId, ids: set<SecretId>, after: map<SecretId, Secret>)
    requires forall s :: s in ids <==> s in n.secrets && OwnerGroupOf(n, n.secrets[s]) == Some(g)
    requires after.Keys == n.secrets.Keys
    requires forall s :: s in after ==>
      after[s] == if s in ids then n.secrets[s].(keys := FlagRotation(WithoutUsers(n.secrets[s].keys, {user}), (n.secrets[s].keys - {user}).Keys))
                  else n.secrets[s]
    ensures after == RevokeForUser(n, g, user).secrets
  {
    var want := RevokeForUser(n, g, user).secrets;
    forall s | s in after
      ensures after[s] == want[s]
    {
      var keys := n.secrets[s].keys;
      if s in ids {
        assert FlagRotation(WithoutUsers(keys, {user}), (keys - {user}).Keys) == RevokeKeys(keys, {user}, keys.Keys);
      }
    }
  }
}
