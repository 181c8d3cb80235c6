/** The key/value server: a store and one status object per client, updated in place. */
module KvServer {
  import opened KvStore

  class ClientStatus {
    var lastSeqNum: int

    constructor ()
      ensures lastSeqNum == 0
    {
      lastSeqNum := 0;
    }

    predicate Done(seqNum: int)
      reads this
    {
      lastSeqNum >= seqNum
    }

    method UpdateSeqNum(seqNum: int)
      modifies this
      ensures lastSeqNum == seqNum
    {
      lastSeqNum := seqNum;
    }
  }

  class Store {
    var data: map<string, string>

    constructor ()
      ensures data == map[]
    {
      data := map[];
    }

    method SetData(data: map<string, string>)
      modifies this
      ensures this.data == data
    {
      this.data := data;
    }

    method CloneData() returns (copy: map<string, string>)
      ensures copy == data
    {
      copy := map[];
      var left := data.Keys;
      while left != {}
        invariant left <= data.Keys && copy.Keys == data.Keys - left && forall k :: k in copy ==> copy[k] == data[k]
        decreases |left|
      {
        var key :| key in left;
        copy := copy[key := data[key]];
        left := left - {key};
      }
    }

    method Get(key: string) returns (value: string, exist: bool)
      ensures exist <==> key in data
      ensures value == if exist then data[key] else ""
    {
      exist := key in data;
      value := if exist then data[key] else "";
    }

    method Put(key: string, value: string)
      modifies this
      ensures data == old(data)[key := value]
    {
      data := data[key := value];
    }

    method Append(key: string, value: string)
      modifies this
      ensures data == old(data)[key := (if key in old(data) then old(data)[key] else "") + value]
    {
      if key in data {
        data := data[key := data[key] + value];
      } else {
        assert "" + value == value;
        data := data[key := value];
      }
    }
  }

  datatype Submitted = AlreadyDone | Started | WrongLeader

  class KVServer {
    const store: Store
    var clientsStatus: map<nat, ClientStatus>

    ghost predicate Valid()
      reads this
    {
      forall c, d :: c in clientsStatus && d in clientsStatus && c != d ==> clientsStatus[c] != clientsStatus[d]
    }

    ghost function View(): (st: KvState)
      reads this, store, clientsStatus.Values
      ensures st.data == store.data
    {
      KvState(store.data, map c | c in clientsStatus :: clientsStatus[c].lastSeqNum)
    }

    constructor ()
      ensures Valid() && View() == EMPTY && fresh(store)
    {
      store := new Store();
      clientsStatus := map[];
    }

    /** The status of a client, made on first use: nothing that is known changes. */
    method GetClientStatus(clientId: nat) returns (status: ClientStatus)
      requires Valid()
      modifies this
      ensures Valid() && clientId in clientsStatus && clientsStatus[clientId] == status
      ensures clientsStatus == old(clientsStatus)[clientId := status]
      ensures clientId in old(clientsStatus) ==> status == old(clientsStatus[clientId])
      ensures clientId !in old(clientsStatus) ==> fresh(status) && status.lastSeqNum == 0
      ensures status.lastSeqNum == LastSeq(old(View()), clientId) && Same(View(), old(View()))
    {
      if clientId in clientsStatus {
        return clientsStatus[clientId];
      }
      status := new ClientStatus();
      clientsStatus := clientsStatus[clientId := status];
    }

    /** Hands an operation to Raft unless it is done; `leader` is what Raft's Start answers. */
    method Submit(op: Op, leader: bool) returns (r: Submitted)
      requires Valid()
      modifies this
      ensures Valid() && Same(View(), old(View()))
      ensures r == if Done(old(View()), op) then AlreadyDone else if leader then Started else WrongLeader
    {
      var clientStatus := GetClientStatus(op.clientId);
      if clientStatus.Done(op.seqNum) {
        return AlreadyDone;
      }
      r := if leader then Started else WrongLeader;
    }

    /** A request may be answered once its operation is done here; a get then reads the store as it is. */
    method Answer(op: Op) returns (ready: bool, value: string)
      requires Valid()
      modifies this
      ensures Valid() && Same(View(), old(View()))
      ensures ready <==> Done(old(View()), op)
      ensures ready && op.kind == Get ==> value == if op.key in store.data then store.data[op.key] else ""
    {
      value := "";
      var clientStatus := GetClientStatus(op.clientId);
      ready := clientStatus.Done(op.seqNum);
      if ready && op.kind == Get {
        var exist;
        value, exist := store.Get(op.key);
      }
    }

    /** Sets one client's number, and no other. */
    method SetSeqNum(clientId: nat, seqNum: int)
      requires Valid()
      modifies this, clientsStatus.Values
      ensures Valid() && store.data == old(store.data)
      ensures forall c :: LastSeq(View(), c) == if c == clientId then seqNum else LastSeq(old(View()), c)
      ensures forall o :: o in clientsStatus.Values ==> o in old(clientsStatus.Values) || fresh(o)
    {
      var clientStatus := GetClientStatus(clientId);
      assert Same(View(), old(View()));
      clientStatus.UpdateSeqNum(seqNum);
      forall c ensures LastSeq(View(), c) == if c == clientId then seqNum else LastSeq(old(View()), c) {
        assert c in clientsStatus && c != clientId ==> clientsStatus[c] != clientStatus;
      }
    }

    method UpdateStore(op: Op)
      modifies store
      ensures View() == KvState(Execute(old(View()).data, op), old(View()).seqs)
    {
      match op.kind {
        case Put => store.Put(op.key, op.value);
        case Append => store.Append(op.key, op.value);
        case Get =>
      }
    }

    method ApplyOp(op: Op)
      requires Valid()
      modifies this, store, clientsStatus.Values
      ensures Valid() && Same(View(), Apply(old(View()), op))
    {
      hide KVServer.View, Apply, Execute;
      ghost var before := View();
      var clientStatus := GetClientStatus(op.clientId);
      if !clientStatus.Done(op.seqNum) {
        UpdateStore(op);
        SetSeqNum(op.clientId, op.seqNum);
      }
      ApplyNumbers(before, op, op.clientId);
      forall c ensures LastSeq(View(), c) == LastSeq(Apply(before, op), c) { ApplyNumbers(before, op, c); }
    }

    method ClientsSeqNum() returns (seqs: map<nat, int>)
      requires Valid()
      ensures seqs == View().seqs
    {
      seqs := map[];
      var left := clientsStatus.Keys;
      while left != {}
        invariant left <= clientsStatus.Keys && seqs.Keys == clientsStatus.Keys - left
        invariant forall c :: c in seqs ==> seqs[c] == clientsStatus[c].lastSeqNum
        decreases |left|
      {
        var c :| c in left;
        seqs := seqs[c := clientsStatus[c].lastSeqNum];
        left := left - {c};
      }
    }

    method TakeSnapshot(index: nat) returns (snap: Snapshot)
      requires Valid()
      ensures snap == Save(View(), index)
    {
      var seqs := ClientsSeqNum();
      snap := Snapshot(index, store.data, seqs);
    }

    method SetSeqNums(seqs: map<nat, int>)
      requires Valid()
      modifies this, clientsStatus.Values
      ensures Valid() && store.data == old(store.data)
      ensures forall c :: LastSeq(View(), c) == if c in seqs then seqs[c] else LastSeq(old(View()), c)
    {
      hide KVServer.View, LastSeq;
      ghost var before := View();
      var left := seqs.Keys;
      while left != {}
        invariant Valid() && left <= seqs.Keys && store.data == old(store.data)
        invariant forall o :: o in clientsStatus.Values ==> o in old(clientsStatus.Values) || fresh(o)
        invariant forall c :: LastSeq(View(), c) == if c in seqs && c !in left then seqs[c] else LastSeq(before, c)
        decreases |left|
      {
        var clientId :| clientId in left;
        SetSeqNum(clientId, seqs[clientId]);
        left := left - {clientId};
      }
    }

    /** Ingests a snapshot, or refuses one whose own index is not the announced one; -1 announces nothing. */
    method ApplySnap(snap: Snapshot, index: int) returns (ok: bool)
      requires Valid()
      modifies this, store, clientsStatus.Values
      ensures Valid() && (ok <==> index == -1 || index == snap.index)
      ensures if ok then Same(View(), Restore(old(View()), snap)) else View() == old(View())
    {
      if index != -1 && index != snap.index {
        return false;
      }
      store.SetData(snap.data);
      SetSeqNums(snap.seqs);
      ok := true;
    }
  }
}
