// The tables as one mutable object. A repository method runs inside one
// transaction: it begins, changes the tables step by step and, when a step fails,
// puts back the tables it began with (internal/database/database.go:50-68).
module Database {
  import opened Prelude
  import opened Network
  import G = Groups

  class DB {
    var next: nat
    var users: set<UserId>
    var groups: map<GroupId, G.Group>
    var blocks: set<(GroupId, GroupId)>
    var conns: map<ConnId, set<GroupId>>
    var proposals: map<PropId, Proposal>
    var chats: map<ChatId, Chat>
    var signals: map<SignalId, SignalGroup>
    var secrets: map<SecretId, Secret>
    var undo: Net                             // the tables the open transaction began with

    function Tables(): Net
      reads this
    {
      Net(next, users, groups, blocks, conns, proposals, chats, signals, secrets)
    }

    constructor ()
      ensures Tables() == EMPTY
    {
      next, users, groups, blocks, conns := 0, {}, map[], {}, map[];
      proposals, chats, signals, secrets := map[], map[], map[], map[];
      undo := EMPTY;
    }

    method NewId() returns (id: nat)
      modifies this`next
      ensures id == old(next) && next == id + 1
    {
      id := next;
      next := next + 1;
    }

    method Begin()
      modifies this`undo
      ensures undo == Tables()
    {
      undo := Tables();
    }

    /** Puts back the tables there were when the transaction began. */
    method Rollback()
      modifies this
      ensures Tables() == old(undo) && undo == old(undo)
    {
      next, users, groups, blocks, conns := undo.next, undo.users, undo.groups, undo.blocks, undo.conns;
      proposals, chats, signals, secrets := undo.proposals, undo.chats, undo.signals, undo.secrets;
    }
  }

  /** The error a transaction reports. */
  function Failure(o: Result<Net, Error>): Option<Error> {
    if o.Ok? then None else Some(o.error)
  }

  /** The tables a transaction leaves: its outcome, or those it found. */
  function Left(n: Net, o: Result<Net, Error>): Net {
    if o.Ok? then o.value else n
  }
}
