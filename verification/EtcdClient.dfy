/** The daemon's etcd client: optimistic transactions over a server that other
    clients keep writing to. */
module EtcdClient {
  import opened EtcdStore
  import opened StorageApi

  /** What happens to one request on the wire. */
  datatype Fault = Delivered | LostRequest | LostReply

  /** What the world does around one request of this client: the writes of other
      clients that reach the server first, and the fate of the request. */
  datatype Slot = Slot(foreign: seq<Op<string>>, fault: Fault)

  function Foreign(slots: seq<Slot>): seq<Op<string>> {
    if slots == [] then [] else slots[0].foreign + Foreign(slots[1..])
  }

  function Tail(slots: seq<Slot>): seq<Slot> {
    if slots == [] then [] else slots[1..]
  }

  function Head(slots: seq<Slot>): seq<Slot> {
    if slots == [] then [] else [slots[0]]
  }

  lemma HeadConcat(a: seq<Slot>, b: seq<Slot>)
    requires a == [] ==> b == []
    ensures Head(a + b) == Head(a)
  {
  }

  /** Some request of the call was not delivered and answered. */
  predicate Faulty(slots: seq<Slot>) {
    exists i :: 0 <= i < |slots| && slots[i].fault != Delivered
  }

  lemma {:induction false} ForeignConcat(a: seq<Slot>, b: seq<Slot>)
    ensures Foreign(a + b) == Foreign(a) + Foreign(b)
  {
    if a == [] {
      assert a + b == b;
    } else {
      assert (a + b)[1..] == a[1..] + b;
      ForeignConcat(a[1..], b);
    }
  }

  function RangeOf(s: Store<string>, k: string): seq<Versioned<string>> {
    if k in s.kv then [Read(s, k)] else []
  }

  function RangesOf(s: Store<string>, keys: seq<string>): seq<seq<Versioned<string>>> {
    seq(|keys|, i requires 0 <= i < |keys| => RangeOf(s, keys[i]))
  }

  datatype TxnReply =
    | RpcError
    | Ranges(responses: seq<seq<Versioned<string>>>)
    | Succeeded
    | Failed(responses: seq<seq<Versioned<string>>>)

  /** The server, together with the schedule of everything else that will happen. A
      finite schedule of any shape is allowed; past its end nothing interferes. */
  class Server {
    var store: Store<string>
    var schedule: seq<Slot>

    constructor (store: Store<string>, schedule: seq<Slot>)
      ensures this.store == store && this.schedule == schedule
    {
      this.store, this.schedule := store, schedule;
    }

    /** Foreign writes land, then the request meets its fate. */
    method Arrive() returns (fault: Fault, ghost used: seq<Slot>)
      modifies this
      ensures old(schedule) == used + schedule
      ensures store == ApplyAll(old(store), Foreign(used))
      ensures |used| == if old(schedule) == [] then 0 else 1
      ensures fault == if used == [] then Delivered else used[0].fault
    {
      if schedule == [] {
        fault, used := Delivered, [];
      } else {
        used := [schedule[0]];
        assert Foreign(used) == used[0].foreign + Foreign(used[1..]) == schedule[0].foreign;
        fault := schedule[0].fault;
        store := ApplyAll(store, schedule[0].foreign);
        schedule := schedule[1..];
      }
    }

    /** A transaction without compares whose only operations are reads. */
    method ReadTxn(keys: seq<string>) returns (reply: TxnReply, ghost used: seq<Slot>)
      modifies this
      ensures old(schedule) == used + schedule
      ensures store == ApplyAll(old(store), Foreign(used))
      ensures |used| == if old(schedule) == [] then 0 else 1
      ensures reply == if Faulty(used) then RpcError else Ranges(RangesOf(store, keys))
    {
      var fault;
      fault, used := Arrive();
      if fault == Delivered {
        reply := Ranges(RangesOf(store, keys));
      } else {
        reply := RpcError;
      }
    }

    /** A read of one key. */
    method Get(key: string) returns (ok: bool, found: bool, value: string, ghost used: seq<Slot>)
      modifies this
      ensures old(schedule) == used + schedule
      ensures store == ApplyAll(old(store), Foreign(used))
      ensures |used| == if old(schedule) == [] then 0 else 1
      ensures ok <==> !Faulty(used)
      ensures ok ==> (found <==> key in store.kv) && (found ==> value == store.kv[key].value)
    {
      var fault;
      fault, used := Arrive();
      ok, found := fault == Delivered, key in store.kv;
      value := if found then store.kv[key].value else "";
    }

    /** A put or delete without conditions: done when it is answered, and done or not when
        it is not. */
    method Write(op: Op<string>) returns (ok: bool, ghost used: seq<Slot>)
      modifies this
      ensures old(schedule) == used + schedule
      ensures |used| == if old(schedule) == [] then 0 else 1
      ensures
        var before := ApplyAll(old(store), Foreign(used));
        store == Apply(before, op) || (!ok && store == before)
      ensures ok <==> !Faulty(used)
    {
      var fault;
      fault, used := Arrive();
      if fault != LostRequest {
        store := Apply(store, op);
      }
      ok := fault == Delivered;
    }

    /** All values whose key begins with the prefix, each once. */
    method Range(prefix: string) returns (ok: bool, values: seq<string>, ghost keys: seq<string>, ghost used: seq<Slot>)
      modifies this
      ensures old(schedule) == used + schedule
      ensures store == ApplyAll(old(store), Foreign(used))
      ensures ok <==> !Faulty(used)
      ensures ok ==> IsListing(Contents(store), prefix, keys, values)
    {
      var fault;
      fault, used := Arrive();
      ok := fault == Delivered;
      values, keys := List(store, prefix);
    }

    /** If(compares).Then(puts).Else(gets). The server refuses a request that puts one
        key twice, before it looks at the compares. */
    method CommitTxn(compares: seq<Compare>, puts: seq<KeyValueData>, gets: seq<string>)
      returns (reply: TxnReply, ghost used: seq<Slot>)
      modifies this
      ensures old(schedule) == used + schedule
      ensures |used| == if old(schedule) == [] then 0 else 1
      ensures
        var before := ApplyAll(old(store), Foreign(used));
        var holds := forall i :: 0 <= i < |compares| ==> Holds(before, compares[i]);
        match reply
        case Succeeded => holds && DistinctKeys(puts) && store == PutAll(before, UpdateMap(puts))
        case Failed(responses) => !holds && store == before && responses == RangesOf(before, gets)
        case RpcError =>
          && (Faulty(used) || !DistinctKeys(puts))
          && (store == before || (holds && DistinctKeys(puts) && store == PutAll(before, UpdateMap(puts))))
        case Ranges(_) => false
      ensures reply == RpcError <==> Faulty(used) || !DistinctKeys(puts)
    {
      var fault;
      fault, used := Arrive();
      if fault == LostRequest || !DistinctKeys(puts) {
        return RpcError, used;
      }
      if forall i :: 0 <= i < |compares| ==> Holds(store, compares[i]) {
        store := PutAll(store, UpdateMap(puts));
        reply := Succeeded;
      } else {
        reply := Failed(RangesOf(store, gets));
      }
      if fault == LostReply {
        reply := RpcError;
      }
    }
  }

  method List(s: Store<string>, prefix: string) returns (values: seq<string>, ghost keys: seq<string>)
    ensures IsListing(Contents(s), prefix, keys, values)
  {
    var rest := set k | k in s.kv && prefix <= k;
    values, keys := [], [];
    while rest != {}
      invariant |keys| == |values|
      invariant rest <= s.kv.Keys
      invariant forall k :: k in keys <==> k in s.kv && prefix <= k && k !in rest
      invariant forall k :: k in rest ==> prefix <= k
      invariant forall i, j :: 0 <= i < j < |keys| ==> keys[i] != keys[j]
      invariant forall i :: 0 <= i < |keys| ==> keys[i] in s.kv && values[i] == s.kv[keys[i]].value
      decreases rest
    {
      var k :| k in rest;
      assert k !in keys;
      values, keys, rest := values + [s.kv[k].value], keys + [k], rest - {k};
    }
  }

  function Value(c: Versioned<string>): KeyValueData {
    match c
    case Present(k, v, _) => KeyValueData(k, v, true)
    case Absent(k) => KeyValueData(k, "", false)
  }

  function Values(cv: seq<Versioned<string>>): (r: seq<KeyValueData>)
    ensures |r| == |cv| && forall i :: 0 <= i < |cv| ==> r[i] == Value(cv[i])
  {
    seq(|cv|, i requires 0 <= i < |cv| => Value(cv[i]))
  }

  class Transaction {
    const conditionKeys: seq<string>
    var conditionValues: seq<Versioned<string>>

    constructor (keys: seq<string>, values: seq<Versioned<string>>)
      ensures conditionKeys == keys && conditionValues == values
    {
      conditionKeys, conditionValues := keys, values;
    }
  }

  /** The entries that were read, in response order, and the keys no response had. */
  method GetStates(keys: seq<string>, responses: seq<seq<Versioned<string>>>, ghost s: Store<string>)
    returns (states: seq<Versioned<string>>, keySet: set<string>)
    requires responses == RangesOf(s, keys)
    ensures states == PresentReads(s, keys)
    ensures keySet == set k | k in keys && k !in s.kv
  {
    keySet := set k | k in keys;
    states := [];
    for i := 0 to |responses|
      invariant states == PresentReads(s, keys[..i])
      invariant keySet == set k | k in keys && !(k in s.kv && k in keys[..i])
    {
      PresentReadsSnoc(s, keys[..i], keys[i]);
      assert keys[..i + 1] == keys[..i] + [keys[i]];
      ghost var unread := keySet;
      for j := 0 to |responses[i]|
        invariant keySet == if j == 0 then unread else unread - {keys[i]}
      {
        keySet := keySet - {responses[i][j].key};
      }
      assert responses[i] == RangeOf(s, keys[i]);
      states := states + responses[i];
    }
    assert keys[..|keys|] == keys;
  }

  /** One absent entry for every key that no response mentioned. The keys come out of
      a hash map, so in no fixed order. */
  method AbsentStates(keys: set<string>) returns (states: seq<Versioned<string>>)
    ensures forall i :: 0 <= i < |states| ==> states[i].Absent? && states[i].key in keys
    ensures forall i, j :: 0 <= i < j < |states| ==> states[i].key != states[j].key
    ensures forall k :: k in keys ==> Absent(k) in states
  {
    var keySet := keys;
    states := [];
    while keySet != {}
      invariant keySet <= keys
      invariant forall i :: 0 <= i < |states| ==>
        states[i].Absent? && states[i].key in keys && states[i].key !in keySet
      invariant forall i, j :: 0 <= i < j < |states| ==> states[i].key != states[j].key
      invariant forall k :: k in keys ==> k in keySet || Absent(k) in states
      decreases keySet
    {
      var k :| k in keySet;
      states := states + [Absent(k)];
      keySet := keySet - {k};
    }
  }

  method CheckTxnResponse(keys: seq<string>, responses: seq<seq<Versioned<string>>>, ghost s: Store<string>)
    returns (latest: seq<Versioned<string>>)
    requires responses == RangesOf(s, keys)
    ensures IsSnapshot(s, keys, latest)
  {
    var states, keySet := GetStates(keys, responses, s);
    var absent := AbsentStates(keySet);
    latest := states + absent;
    assert latest[..|states|] == states && latest[|states|..] == absent;
  }

  method StartTransaction(server: Server, keys: seq<string>)
    returns (ok: bool, transaction: Transaction?, ghost used: seq<Slot>)
    modifies server
    ensures old(server.schedule) == used + server.schedule
    ensures |used| == if old(server.schedule) == [] then 0 else 1
    ensures server.store == ApplyAll(old(server.store), Foreign(used))
    ensures ok ==> transaction != null && fresh(transaction) && transaction.conditionKeys == keys
    ensures ok ==> IsSnapshot(server.store, keys, transaction.conditionValues)
    ensures ok <==> !Faulty(used)
  {
    var reply;
    reply, used := server.ReadTxn(keys);
    if reply.RpcError? {
      return false, null, used;
    }
    var latest := CheckTxnResponse(keys, reply.responses, server.store);
    transaction := new Transaction(keys, latest);
    ok := true;
  }

  datatype CommitResult = CommitError | Answer(ok: bool)

  /** Commits the update if the snapshot is still current; otherwise replaces the
      snapshot by the one the server sent back with the refusal. */
  method CompleteTransaction(server: Server, transaction: Transaction, update: seq<KeyValueData>)
    returns (r: CommitResult, ghost used: seq<Slot>)
    requires Valid(server.store)
    requires IsSnapshot(server.store, transaction.conditionKeys, transaction.conditionValues)
    modifies server, transaction
    ensures old(server.schedule) == used + server.schedule
    ensures |used| == if old(server.schedule) == [] then 0 else 1
    ensures
      var before := ApplyAll(old(server.store), Foreign(used));
      var applied := PutAll(before, UpdateMap(update));
      var current := IsSnapshot(before, transaction.conditionKeys, old(transaction.conditionValues));
      match r
      case Answer(true) => current && DistinctKeys(update) && server.store == applied
      case Answer(false) =>
        && server.store == before
        && IsSnapshot(before, transaction.conditionKeys, transaction.conditionValues)
        && Interference(Foreign(used), transaction.conditionKeys) > 0
      case CommitError =>
        && (Faulty(used) || !DistinctKeys(update))
        && (server.store == before || (current && DistinctKeys(update) && server.store == applied))
    // Success needs nothing more than a current snapshot and an answer.
    ensures
      var before := ApplyAll(old(server.store), Foreign(used));
      r == Answer(true) <==>
        && IsSnapshot(before, transaction.conditionKeys, old(transaction.conditionValues))
        && DistinctKeys(update) && !Faulty(used)
  {
    var cv := transaction.conditionValues;
    var compares := seq(|cv|, i requires 0 <= i < |cv| => CompareFor(cv[i]));
    var reply;
    label Sent:
    reply, used := server.CommitTxn(compares, update, transaction.conditionKeys);
    ghost var before := ApplyAll(old(server.store), Foreign(used));
    ApplyAllEvolves(old(server.store), Foreign(used));
    MatchingSnapshotIsCurrent(old(server.store), before, transaction.conditionKeys, cv);
    if IsSnapshot(before, transaction.conditionKeys, cv) {
      SnapshotMatches(before, transaction.conditionKeys, cv);
    }
    assert (forall i :: 0 <= i < |compares| ==> Holds(before, compares[i])) <==> Matches(before, cv) by {
      if forall i :: 0 <= i < |compares| ==> Holds(before, compares[i]) {
        forall i | 0 <= i < |cv| ensures Holds(before, CompareFor(cv[i])) {
          assert Holds(before, compares[i]);
        }
      }
    }
    match reply
    case RpcError => r := CommitError;
    case Succeeded => r := Answer(true);
    case Failed(responses) =>
      RefusalNeedsInterference(old(server.store), Foreign(used), transaction.conditionKeys, cv);
      var latest := CheckTxnResponse(transaction.conditionKeys, responses, server.store);
      transaction.conditionValues := latest;
      r := Answer(false);
  }

  datatype TxResult = Done(ok: bool) | ReadFailed | UpdateFailed | CommitFailed

  /** One atomic step: the update function was applied to a reading of the condition
      keys as they are in before, and its writes made before into after. */
  ghost predicate Linearized(request: CASRequest, before: Store<string>, cv: seq<Versioned<string>>,
                             after: Store<string>) {
    && IsSnapshot(before, request.conditionKeys, cv)
    && var u := request.update(Values(cv));
       u.Proceed? && DistinctKeys(u.update) && after == PutAll(before, UpdateMap(u.update))
  }

  /** One round of the retry loop, after the update function has agreed. */
  method Attempt(server: Server, transaction: Transaction, request: CASRequest, update: seq<KeyValueData>)
    returns (r: TxResult, ghost used: seq<Slot>)
    requires Valid(server.store)
    requires transaction.conditionKeys == request.conditionKeys
    requires IsSnapshot(server.store, request.conditionKeys, transaction.conditionValues)
    requires request.update(Values(transaction.conditionValues)) == Proceed(update)
    modifies server, transaction
    ensures Valid(server.store)
    ensures old(server.schedule) == used + server.schedule
    ensures |used| == if old(server.schedule) == [] then 0 else 1
    ensures r.Done? || r == CommitFailed
    ensures Effect(request, r, ApplyAll(old(server.store), Foreign(used)), old(transaction.conditionValues), server.store)
    ensures r == Done(false) ==>
      && IsSnapshot(server.store, request.conditionKeys, transaction.conditionValues)
      && Interference(Foreign(used), request.conditionKeys) > 0
    ensures r == CommitFailed ==> Faulty(used) || !DistinctKeys(update)
    ensures r == Done(true) <==>
      && IsSnapshot(ApplyAll(old(server.store), Foreign(used)), request.conditionKeys, old(transaction.conditionValues))
      && DistinctKeys(update) && !Faulty(used)
  {
    var answer;
    answer, used := CompleteTransaction(server, transaction, update);
    ApplyAllEvolves(old(server.store), Foreign(used));
    r := if answer.CommitError? then CommitFailed else Done(answer.ok);
  }

  /** What a call may have done to the store: at the moment of its last request only
      other clients had written (that is before); a success is one atomic step from
      there, and anything else but a failing commit wrote nothing. */
  ghost predicate Effect(request: CASRequest, r: TxResult, before: Store<string>, cv: seq<Versioned<string>>,
                         after: Store<string>) {
    match r
    case Done(true) => Linearized(request, before, cv, after)
    case CommitFailed => after == before || Linearized(request, before, cv, after)
    case _ => after == before
  }

  /** Why a call gave up: its update function declined or failed on values that are
      current, or it was not to retry and somebody wrote a condition key, or a message
      was lost, or the update names a key twice. */
  ghost predicate Reason(request: CASRequest, r: TxResult, cv: seq<Versioned<string>>, after: Store<string>,
                         interference: nat, faulty: bool) {
    && (r == Done(false) ==>
          || (IsSnapshot(after, request.conditionKeys, cv) && request.update(Values(cv)) == Refused)
          || (!request.retryTillSuccessOrError && interference > 0))
    && (r == UpdateFailed ==>
          IsSnapshot(after, request.conditionKeys, cv) && request.update(Values(cv)) == UpdateError)
    && (r == ReadFailed ==> faulty)
    && (r == CommitFailed ==>
          var u := request.update(Values(cv));
          faulty || (u.Proceed? && !DistinctKeys(u.update)))
  }

  /** A transaction that does not retry succeeds exactly when no message was lost, the
      update function agreed to the snapshot it read, naming no key twice, and that
      snapshot was still current at the commit. */
  ghost predicate SingleAttempt(request: CASRequest, r: TxResult, read: Store<string>, before: Store<string>,
                                cv: seq<Versioned<string>>, faulty: bool) {
    && (r != ReadFailed ==> IsSnapshot(read, request.conditionKeys, cv))
    && var u := request.update(Values(cv));
       r == Done(true) <==>
         && r != ReadFailed && u.Proceed? && DistinctKeys(u.update) && !faulty
         && IsSnapshot(before, request.conditionKeys, cv)
  }

  method ExecuteTransaction(server: Server, request: CASRequest)
    returns (r: TxResult, ghost used: seq<Slot>, ghost cv: seq<Versioned<string>>, ghost attempts: nat)
    requires Valid(server.store)
    modifies server
    ensures Valid(server.store)
    ensures old(server.schedule) == used + server.schedule
    ensures Effect(request, r, ApplyAll(old(server.store), Foreign(used)), cv, server.store)
    ensures Reason(request, r, cv, server.store, Interference(Foreign(Tail(used)), request.conditionKeys), Faulty(used))
    // Each commit after the first answers a foreign write to a condition key.
    ensures attempts <= 1 + Interference(Foreign(Tail(used)), request.conditionKeys)
    // Without retries, success is a matter of the one snapshot that was read first.
    ensures !request.retryTillSuccessOrError ==>
      SingleAttempt(request, r, ApplyAll(old(server.store), Foreign(Head(used))),
                    ApplyAll(old(server.store), Foreign(used)), cv, Faulty(used))
  {
    attempts := 0;
    var ok, transaction;
    ok, transaction, used := StartTransaction(server, request.conditionKeys);
    ApplyAllEvolves(old(server.store), Foreign(used));
    cv := [];
    if !ok {
      return ReadFailed, used, cv, attempts;
    }
    while true
      invariant fresh(transaction) && transaction.conditionKeys == request.conditionKeys
      invariant Valid(server.store)
      invariant old(server.schedule) == used + server.schedule
      invariant server.schedule != [] ==> used != []
      invariant server.store == ApplyAll(old(server.store), Foreign(used))
      invariant IsSnapshot(server.store, request.conditionKeys, transaction.conditionValues)
      invariant attempts <= Interference(Foreign(Tail(used)), request.conditionKeys)
      invariant !request.retryTillSuccessOrError ==> used == Head(used) && !Faulty(used)
      decreases |server.schedule|
    {
      cv := transaction.conditionValues;
      var u := request.update(Values(transaction.conditionValues));
      if u.UpdateError? {
        return UpdateFailed, used, cv, attempts;
      }
      if u.Refused? {
        return Done(false), used, cv, attempts;
      }
      ghost var more;
      r, more := Attempt(server, transaction, request, u.update);
      attempts := attempts + 1;
      UsedExtends(old(server.store), used, more, request.conditionKeys);
      ConcatAssociates(used, more, server.schedule);
      FaultyConcat(used, more);
      HeadConcat(used, more);
      used := used + more;
      if r != Done(false) || !request.retryTillSuccessOrError {
        return r, used, cv, attempts;
      }
    }
  }

  lemma FaultyConcat(a: seq<Slot>, b: seq<Slot>)
    ensures Faulty(a + b) <==> Faulty(a) || Faulty(b)
  {
    if Faulty(a) {
      var i :| 0 <= i < |a| && a[i].fault != Delivered;
      assert (a + b)[i] == a[i];
    }
    if Faulty(b) {
      var i :| 0 <= i < |b| && b[i].fault != Delivered;
      assert (a + b)[|a| + i] == b[i];
    }
  }

  lemma ConcatAssociates<T>(a: seq<T>, b: seq<T>, c: seq<T>)
    ensures a + (b + c) == (a + b) + c
  {
  }

  lemma UsedExtends(s: Store<string>, used: seq<Slot>, more: seq<Slot>, keys: seq<string>)
    requires used == [] ==> more == []
    ensures ApplyAll(s, Foreign(used + more)) == ApplyAll(ApplyAll(s, Foreign(used)), Foreign(more))
    ensures Interference(Foreign(Tail(used + more)), keys)
         == Interference(Foreign(Tail(used)), keys) + Interference(Foreign(more), keys)
  {
    ForeignConcat(used, more);
    ApplyAllConcat(s, Foreign(used), Foreign(more));
    if used != [] {
      assert Tail(used + more) == Tail(used) + more;
      ForeignConcat(Tail(used), more);
      InterferenceConcat(Foreign(Tail(used)), Foreign(more), keys);
    }
  }

  function SwapUpdate(key: string, prevValue: string, newValue: string): UpdateFunc {
    (values: seq<KeyValueData>) =>
      if values != [] && values[0].present && values[0].value == prevValue
      then Proceed([KeyValueData(key, newValue, false)]) else Refused
  }

  function InsertUpdate(key: string, value: string): UpdateFunc {
    (values: seq<KeyValueData>) =>
      if values != [] && values[0].present then Refused else Proceed([KeyValueData(key, value, false)])
  }

  /** With a single condition key a snapshot is one entry. */
  lemma SingleKeySnapshot<V>(s: Store<V>, key: string, cv: seq<Versioned<V>>)
    ensures IsSnapshot(s, [key], cv) <==> cv == [Read(s, key)]
  {
    assert PresentReads(s, [key]) == (if key in s.kv then [Read(s, key)] else []) + PresentReads(s, [key][1..]);
    var n := |PresentReads(s, [key])|;
    if IsSnapshot(s, [key], cv) {
      var tail := cv[n..];
      assert |tail| <= 1 || tail[0].key != tail[1].key by { assert IsAbsentTail(s, [key], tail); }
      assert forall i :: 0 <= i < |tail| ==> tail[i].key == key && tail[i].key !in s.kv;
      assert |tail| == 0 || tail[0].key !in s.kv;
      assert key !in s.kv ==> Absent(key) in tail;
      assert cv == cv[..n] + tail;
    }
    if cv == [Read(s, key)] {
      assert n <= |cv| && cv[..n] == PresentReads(s, [key]);
      var tail := cv[n..];
      assert key !in s.kv ==> tail[0] == Absent(key);
      assert IsAbsentTail(s, [key], tail);
    }
  }

  lemma SingleWrite(k: string, v: string)
    ensures UpdateMap([KeyValueData(k, v, false)]) == map[k := v]
    ensures DistinctKeys([KeyValueData(k, v, false)])
  {
    var u := [KeyValueData(k, v, false)];
    assert u[..|u| - 1] == [];
    assert UpdateMap(u) == UpdateMap(u[..|u| - 1])[k := v];
  }

  ghost predicate HasValue(s: Store<string>, key: string, v: string) {
    key in s.kv && s.kv[key].value == v
  }

  /** True means the swap happened atomically on the value that was current then.
      False means nothing was written and the value differs, or somebody else wrote
      the key between this call's read and its commit. */
  method CompareAndSwap(server: Server, key: string, prevValue: string, newValue: string)
    returns (r: TxResult, ghost used: seq<Slot>)
    requires Valid(server.store)
    modifies server
    ensures Valid(server.store) && old(server.schedule) == used + server.schedule
    ensures
      var before := ApplyAll(old(server.store), Foreign(used));
      var swapped := HasValue(before, key, prevValue) && server.store == PutAll(before, map[key := newValue]);
      match r
      case Done(true) => swapped
      case CommitFailed => server.store == before || swapped
      case _ => server.store == before
    ensures r == Done(false) ==>
      !HasValue(server.store, key, prevValue) || Interference(Foreign(Tail(used)), [key]) > 0
    ensures !r.Done? ==> Faulty(used)
    // If the value was there when this call read it, the swap succeeds exactly when nobody
    // wrote or deleted the key after that and no message was lost.
    ensures HasValue(ApplyAll(old(server.store), Foreign(Head(used))), key, prevValue) ==>
      (r == Done(true) <==> Interference(Foreign(Tail(used)), [key]) == 0 && !Faulty(used))
  {
    var request := CASRequest(false, [key], SwapUpdate(key, prevValue, newValue));
    ghost var cv, attempts;
    r, used, cv, attempts := ExecuteTransaction(server, request);
    SingleWrite(key, newValue);
    SwapIs(request, r, ApplyAll(old(server.store), Foreign(used)), cv, server.store, key, prevValue, newValue);
    SingleKeySnapshot(server.store, key, cv);
    SwapSucceedsIff(old(server.store), used, key, prevValue, newValue, r, cv);
  }

  lemma SwapIs(request: CASRequest, r: TxResult, before: Store<string>, cv: seq<Versioned<string>>, after: Store<string>,
               key: string, prevValue: string, newValue: string)
    requires request == CASRequest(false, [key], SwapUpdate(key, prevValue, newValue)) && Effect(request, r, before, cv, after)
    ensures
      var swapped := HasValue(before, key, prevValue) && after == PutAll(before, map[key := newValue]);
      match r
      case Done(true) => swapped
      case CommitFailed => after == before || swapped
      case _ => after == before
  {
    SingleWrite(key, newValue);
    SingleKeySnapshot(before, key, cv);
  }

  lemma SwapSucceedsIff(s: Store<string>, used: seq<Slot>, key: string, prevValue: string, newValue: string,
                        r: TxResult, cv: seq<Versioned<string>>)
    requires Valid(s)
    requires SingleAttempt(CASRequest(false, [key], SwapUpdate(key, prevValue, newValue)), r,
                           ApplyAll(s, Foreign(Head(used))), ApplyAll(s, Foreign(used)), cv, Faulty(used))
    requires r == ReadFailed ==> Faulty(used)
    ensures HasValue(ApplyAll(s, Foreign(Head(used))), key, prevValue) ==>
      (r == Done(true) <==> Interference(Foreign(Tail(used)), [key]) == 0 && !Faulty(used))
  {
    var read := ApplyAll(s, Foreign(Head(used)));
    if HasValue(read, key, prevValue) && r != ReadFailed {
      var before := ApplyAll(s, Foreign(used));
      ApplyAllEvolves(s, Foreign(Head(used)));
      ReadThenRest(s, used);
      ApplyAllEvolves(read, Foreign(Tail(used)));
      SingleKeySnapshot(read, key, cv);
      SingleKeySnapshot(before, key, cv);
      SingleWrite(key, newValue);
      PresentKeyUntouchedIff(read, Foreign(Tail(used)), key);
      assert Read(before, key) == Read(read, key) <==> SameAt(read, before, key);
    }
  }

  lemma ReadThenRest(s: Store<string>, used: seq<Slot>)
    ensures ApplyAll(s, Foreign(used)) == ApplyAll(ApplyAll(s, Foreign(Head(used))), Foreign(Tail(used)))
  {
    if used != [] {
      assert Foreign(Head(used)) == used[0].foreign;
      ApplyAllConcat(s, used[0].foreign, Foreign(Tail(used)));
    }
  }

  method PutIfAbsent(server: Server, key: string, value: string)
    returns (r: TxResult, ghost used: seq<Slot>)
    requires Valid(server.store)
    modifies server
    ensures Valid(server.store) && old(server.schedule) == used + server.schedule
    ensures
      var before := ApplyAll(old(server.store), Foreign(used));
      var inserted := key !in before.kv && server.store == PutAll(before, map[key := value]);
      match r
      case Done(true) => inserted
      case CommitFailed => server.store == before || inserted
      case _ => server.store == before
    ensures r == Done(false) ==>
      key in server.store.kv || Interference(Foreign(Tail(used)), [key]) > 0
    ensures !r.Done? ==> Faulty(used)
  {
    var request := CASRequest(false, [key], InsertUpdate(key, value));
    ghost var cv, attempts;
    r, used, cv, attempts := ExecuteTransaction(server, request);
    SingleWrite(key, value);
    InsertIs(request, r, ApplyAll(old(server.store), Foreign(used)), cv, server.store, key, value);
    SingleKeySnapshot(server.store, key, cv);
  }

  lemma InsertIs(request: CASRequest, r: TxResult, before: Store<string>, cv: seq<Versioned<string>>, after: Store<string>,
                 key: string, value: string)
    requires request == CASRequest(false, [key], InsertUpdate(key, value)) && Effect(request, r, before, cv, after)
    ensures
      var inserted := key !in before.kv && after == PutAll(before, map[key := value]);
      match r
      case Done(true) => inserted
      case CommitFailed => after == before || inserted
      case _ => after == before
  {
    SingleWrite(key, value);
    SingleKeySnapshot(before, key, cv);
  }

  /** The storage interface says a swap answers false because the value differs. The
      revisions are finer than that: a rewrite of the very same value between the read
      and the commit also makes it answer false. */
  lemma RewritingTheSameValueRefusesTheSwap(s: Store<string>, key: string, v: string)
    requires Valid(s) && HasValue(s, key, v)
    ensures
      var t := ApplyAll(s, [OpPut(map[key := v])]);
      HasValue(t, key, v) && !Matches(t, [Read(s, key)])
  {
    var update := map[key := v];
    var ops := [OpPut(update)];
    assert ApplyAll(s, ops) == ApplyAll(Apply(s, ops[0]), ops[1..]) == PutAll(s, update);
    assert key in update;
    assert PutAll(s, update).kv[key].mod == s.rev + 1;
    var cv := [Read(s, key)];
    assert !Holds(PutAll(s, update), CompareFor(cv[0]));
  }
}
