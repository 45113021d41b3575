/** Prepaid usage: three counters per channel, updated by optimistic transactions that
    read all three, and the calls that are charged against them. */
module Prepaid {
  import opened Wrappers
  import opened Decimal
  import opened EtcdStore
  import opened StorageApi
  import opened EtcdClient
  import opened Layers
  import opened TypedStorage
  import opened Sums
  import MemoryStorage

  const USED_AMOUNT := "U"
  const PLANNED_AMOUNT := "P"
  const REFUND_AMOUNT := "R"

  datatype DataKey = DataKey(channelID: int, usageType: string)

  /** PrePaidUsageData, without the fields that only carry the request around. */
  datatype Usage = Usage(planned: int, used: int, refund: int)

  type Reading = TypedKeyValue<DataKey, int>

  function Absorb(usage: Usage, r: Reading): Option<Usage> {
    if r.value.None? then Some(usage)
    else if r.key.usageType == USED_AMOUNT then Some(usage.(used := r.value.value))
    else if r.key.usageType == PLANNED_AMOUNT then Some(usage.(planned := r.value.value))
    else if r.key.usageType == REFUND_AMOUNT then Some(usage.(refund := r.value.value))
    else None
  }

  function ToUsage(data: seq<Reading>): Option<Usage> {
    if data == [] then Some(Usage(0, 0, 0))
    else
      var rest := ToUsage(data[..|data| - 1]);
      if rest.None? then None else Absorb(rest.value, data[|data| - 1])
  }

  /** convertTypedDataToPrePaidUsage */
  method ConvertToUsage(data: seq<Reading>) returns (r: Option<Usage>)
    ensures r == ToUsage(data)
    ensures r.None? <==> exists i :: 0 <= i < |data| && IsUnknown(data[i])
    ensures r.Some? ==> r.value == Usage(LastOf(data, "P"), LastOf(data, "U"), LastOf(data, "R"))
  {
    UsageExactly(data);
    r := Some(Usage(0, 0, 0));
    for i := 0 to |data|
      invariant r.Some? && r == ToUsage(data[..i])
    {
      assert data[..i + 1][..i] == data[..i];
      r := Absorb(r.value, data[i]);
      if r.None? {
        UnknownTypeSticks(data, i + 1);
        return;
      }
    }
    assert data[..|data|] == data;
  }

  predicate IsUnknown(r: Reading) {
    r.value.Some? && r.key.usageType != "U" && r.key.usageType != "P" && r.key.usageType != "R"
  }

  /** The last amount that was read for this usage type, and 0 if there is none. */
  function LastOf(data: seq<Reading>, usageType: string): int {
    if data == [] then 0
    else
      var r := data[|data| - 1];
      if r.value.Some? && r.key.usageType == usageType then r.value.value else LastOf(data[..|data| - 1], usageType)
  }

  /** The readings give the last amount of each type, unless there is one of a type that
      nobody knows. */
  lemma {:induction false} UsageExactly(data: seq<Reading>)
    ensures ToUsage(data).None? <==> exists i :: 0 <= i < |data| && IsUnknown(data[i])
    ensures ToUsage(data).Some? ==>
      ToUsage(data).value == Usage(LastOf(data, "P"), LastOf(data, "U"), LastOf(data, "R"))
  {
    if data != [] {
      var n := |data| - 1;
      UsageExactly(data[..n]);
      if ToUsage(data[..n]).None? {
        var i :| 0 <= i < n && IsUnknown(data[..n][i]);
        assert IsUnknown(data[i]);
      } else {
        assert forall i :: 0 <= i < n ==> data[..n][i] == data[i];
      }
    }
  }

  lemma {:induction false} UnknownTypeSticks(data: seq<Reading>, i: nat)
    requires i <= |data| && ToUsage(data[..i]) == None
    ensures ToUsage(data) == None
    decreases |data|
  {
    if i == |data| {
      assert data[..i] == data;
    } else {
      assert data[..|data| - 1][..i] == data[..i];
      UnknownTypeSticks(data[..|data| - 1], i);
    }
  }

  datatype Kind = Used | Planned | Refund

  function TypeOf(kind: Kind): string {
    match kind case Used => USED_AMOUNT case Planned => PLANNED_AMOUNT case Refund => REFUND_AMOUNT
  }

  /** The three condition functions: the new value of the counter they write, or None
      when the usage would exceed what is planned and refunded. */
  function Increment(kind: Kind, usage: Usage, amount: int): Option<int> {
    match kind
    case Used => if amount + usage.used > usage.planned + usage.refund then None else Some(amount + usage.used)
    case Planned => Some(amount + usage.planned)
    case Refund => Some(amount + usage.refund)
  }

  function With(kind: Kind, usage: Usage, value: int): Usage {
    match kind
    case Used => usage.(used := value)
    case Planned => usage.(planned := value)
    case Refund => usage.(refund := value)
  }

  /** What an update may do: charges stay within what is planned and refunded. */
  predicate Fits(kind: Kind, usage: Usage, amount: int) {
    kind == Used ==> usage.used + amount <= usage.planned + usage.refund
  }

  /** What it does: it adds the amount to its own counter. */
  function Raised(kind: Kind, usage: Usage, amount: int): Usage {
    Usage(usage.planned + (if kind == Planned then amount else 0),
          usage.used + (if kind == Used then amount else 0),
          usage.refund + (if kind == Refund then amount else 0))
  }

  /** The condition functions do just that. */
  lemma IncrementExactly(kind: Kind, usage: Usage, amount: int)
    ensures
      var value := Increment(kind, usage, amount);
      && (value.Some? <==> Fits(kind, usage, amount))
      && (value.Some? ==> With(kind, usage, value.value) == Raised(kind, usage, amount))
  {
  }

  function ConditionKeys(channelID: int): seq<DataKey> {
    [DataKey(channelID, REFUND_AMOUNT), DataKey(channelID, PLANNED_AMOUNT), DataKey(channelID, USED_AMOUNT)]
  }

  function UpdateFunction(kind: Kind, channelID: int, amount: int): seq<Reading> -> TypedResult<DataKey, int> {
    (values: seq<Reading>) =>
      var usage := ToUsage(values);
      if usage.None? then TypedError
      else
        var value := Increment(kind, usage.value, amount);
        if value.None? then TypedError
        else TypedProceed([TypedKeyValue(DataKey(channelID, TypeOf(kind)), value)])
  }

  /** The transaction UpdateUsage runs. */
  function UsageRequest(kind: Kind, channelID: int, amount: int): TypedRequest<DataKey, int> {
    TypedRequest(true, ConditionKeys(channelID), UpdateFunction(kind, channelID, amount))
  }

  function AmountIn(T: map<DataKey, int>, id: int, usageType: string): int {
    var k := DataKey(id, usageType);
    if k in T then T[k] else 0
  }

  function UsageIn(T: map<DataKey, int>, id: int): Usage {
    Usage(AmountIn(T, id, PLANNED_AMOUNT), AmountIn(T, id, USED_AMOUNT), AmountIn(T, id, REFUND_AMOUNT))
  }

  lemma ReadingsGiveUsage(T: map<DataKey, int>, id: int)
    ensures ToUsage(TypedReads(T, ConditionKeys(id))) == Some(UsageIn(T, id))
  {
    var d := TypedReads(T, ConditionKeys(id));
    assert d == [d[0], d[1], d[2]];
    assert d[..2] == [d[0], d[1]] && d[..2][..1] == [d[0]] && d[..2][..1][..0] == [];
    assert ToUsage([]) == Some(Usage(0, 0, 0));
    assert ToUsage(d[..2][..1]) == Absorb(Usage(0, 0, 0), d[0]);
  }

  /** Writing one counter of one channel moves no other. */
  lemma OneCounterMoves(T: map<DataKey, int>, kind: Kind, id: int, v: int)
    ensures
      var T' := T[DataKey(id, TypeOf(kind)) := v];
      && UsageIn(T', id) == With(kind, UsageIn(T, id), v)
      && forall id' :: id' != id ==> UsageIn(T', id') == UsageIn(T, id')
  {
  }

  /** On the typed map: an update is accepted exactly when it is no charge, or used plus the
      amount is at most planned plus refund; it then adds the amount to the one counter of
      the one channel, and no other entry changes. */
  lemma UpdateOnMap(T: map<DataKey, int>, kind: Kind, id: int, amount: int)
    ensures
      var u := UsageRequest(kind, id, amount).update(TypedReads(T, ConditionKeys(id)));
      && (u.TypedProceed? <==>
            kind != Used || AmountIn(T, id, "U") + amount <= AmountIn(T, id, "P") + AmountIn(T, id, "R"))
      && (u.TypedProceed? ==>
            && AllPresent(u.update)
            && var T' := T + TypedMap(u.update);
               && T' == Written(T, kind, id, amount)
               && UsageIn(T', id) == Raised(kind, UsageIn(T, id), amount)
               && (forall id' :: id' != id ==> UsageIn(T', id') == UsageIn(T, id')))
  {
    ReadingsGiveUsage(T, id);
    IncrementExactly(kind, UsageIn(T, id), amount);
    var value := Increment(kind, UsageIn(T, id), amount);
    if value.Some? {
      SingleTypedWrite(T, DataKey(id, TypeOf(kind)), value.value);
      OneCounterMoves(T, kind, id, value.value);
    }
  }

  /** The typed map with the amount added to one counter of one channel. */
  function Written(T: map<DataKey, int>, kind: Kind, id: int, amount: int): map<DataKey, int> {
    var usageType := match kind case Used => "U" case Planned => "P" case Refund => "R";
    T[DataKey(id, usageType) := AmountIn(T, id, usageType) + amount]
  }

  lemma WrittenUsage(T: map<DataKey, int>, kind: Kind, id: int, amount: int)
    ensures UsageIn(Written(T, kind, id, amount), id) == Raised(kind, UsageIn(T, id), amount)
    ensures forall id' :: id' != id ==> UsageIn(Written(T, kind, id, amount), id') == UsageIn(T, id')
  {
  }

  /** No channel has used more than was planned for it and refunded to it. */
  ghost predicate Bounded(T: map<DataKey, int>) {
    forall id {:trigger UsageIn(T, id)} :: UsageIn(T, id).used <= UsageIn(T, id).planned + UsageIn(T, id).refund
  }

  lemma UpdateKeepsBound(T: map<DataKey, int>, kind: Kind, id: int, amount: int)
    requires Bounded(T) && amount >= 0 && Fits(kind, UsageIn(T, id), amount)
    ensures Bounded(Written(T, kind, id, amount))
  {
    var T' := Written(T, kind, id, amount);
    WrittenUsage(T, kind, id, amount);
    forall id' {:trigger UsageIn(T', id')} ensures UsageIn(T', id').used <= UsageIn(T', id').planned + UsageIn(T', id').refund {
      assert UsageIn(T, id').used <= UsageIn(T, id').planned + UsageIn(T, id').refund;
    }
  }

  // ---------------------------------------------------------------------------
  // Over the etcd stack

  function KeyCodec(encode: int -> string, decode: string -> Option<int>): Codec<DataKey, int> {
    Codec((k: DataKey) => PrepaidKey(k.channelID, k.usageType), encode, decode)
  }

  /** With any exact value encoding the whole codec is faithful. */
  lemma CodecFaithful(encode: int -> string, decode: string -> Option<int>)
    requires (forall v :: decode(encode(v)) == Some(v)) && decode("") == None
    ensures Faithful(KeyCodec(encode, decode))
  {
    var c := KeyCodec(encode, decode);
    forall k: DataKey, k': DataKey | c.key(k) == c.key(k') ensures k == k' {
      PrepaidKeyInjective(k.channelID, k.usageType, k'.channelID, k'.usageType);
    }
  }

  /** The prepaid storage of one daemon group: what it is behind, and how amounts are
      serialized. */
  datatype Place = Place(base: seq<string>, encode: int -> string, decode: string -> Option<int>)

  ghost predicate Proper(at: Place) {
    SlashFree(at.base) && (forall v :: at.decode(at.encode(v)) == Some(v)) && at.decode("") == None
  }

  function StoragePath(at: Place): seq<string> {
    at.base + ["/PrePaid/storage"]
  }

  function Counters(at: Place): Codec<DataKey, int> {
    KeyCodec(at.encode, at.decode)
  }

  lemma PlaceIsSound(at: Place)
    requires Proper(at)
    ensures SlashFree(StoragePath(at)) && Faithful(Counters(at))
  {
    CodecFaithful(at.encode, at.decode);
    assert !EndsInSlash("/PrePaid/storage");
  }

  /** The request UpdateUsage sends down the layers. */
  function Sent(at: Place, kind: Kind, channelID: int, amount: int): CASRequest {
    StackRequest(StoragePath(at), Counters(at), UsageRequest(kind, channelID, amount))
  }

  ghost predicate Shows(at: Place, s: Store<string>, T: map<DataKey, int>) {
    Holding(StoragePath(at), Counters(at), s, T)
  }

  datatype UpdateOutcome = UnknownType | Ran(result: TxResult)

  /** UpdateUsage against the live store. Success moves one counter of one channel in one
      step, from the values that are current at that moment; an error of the update
      itself means that the usage would exceed the current bound; nothing else is
      written. */
  method UpdateUsage(server: Server, at: Place, channelID: int, amount: int, usageType: string)
    returns (outcome: UpdateOutcome, ghost used: seq<Slot>, ghost cv: seq<Versioned<string>>)
    requires Valid(server.store) && Proper(at)
    modifies server
    ensures Valid(server.store) && old(server.schedule) == used + server.schedule
    ensures outcome == UnknownType <==> usageType !in {USED_AMOUNT, PLANNED_AMOUNT, REFUND_AMOUNT}
    ensures
      var before := ApplyAll(old(server.store), Foreign(used));
      match outcome
      case UnknownType => server.store == old(server.store) && used == []
      case Ran(result) =>
        var kind := KindOf(usageType);
        && Effect(Sent(at, kind, channelID, amount), result, before, cv, server.store)
        && result != Done(false) && (!Faulty(used) ==> result == Done(true) || result == UpdateFailed)
        && (forall T | Shows(at, before, T) :: UsageOutcome(at, result, kind, channelID, amount, T, server.store))
  {
    if usageType != USED_AMOUNT && usageType != PLANNED_AMOUNT && usageType != REFUND_AMOUNT {
      assert ApplyAll(server.store, Foreign([])) == server.store;
      return UnknownType, [], [];
    }
    var kind := KindOf(usageType);
    var r;
    ghost var attempts;
    r, used, cv, attempts := ExecuteTransaction(server, Sent(at, kind, channelID, amount));
    NeverRefuses(at, kind, channelID, amount, Values(cv));
    WritesOneKey(at, kind, channelID, amount, Values(cv));
    ghost var before := ApplyAll(old(server.store), Foreign(used));
    forall T | Shows(at, before, T) ensures UsageOutcome(at, r, kind, channelID, amount, T, server.store) {
      OutcomeOnMap(at, r, kind, channelID, amount, T, before, cv, server.store);
    }
    outcome := Ran(r);
  }

  function KindOf(usageType: string): Kind {
    if usageType == USED_AMOUNT then Used else if usageType == PLANNED_AMOUNT then Planned else Refund
  }

  /** What the result of an update says about the typed map T that was there. */
  ghost predicate UsageOutcome(at: Place, r: TxResult, kind: Kind, id: int, amount: int, T: map<DataKey, int>,
                               after: Store<string>) {
    && (r == Done(true) ==> Fits(kind, UsageIn(T, id), amount) && Shows(at, after, Written(T, kind, id, amount)))
    && (r == UpdateFailed ==> !Fits(kind, UsageIn(T, id), amount))
  }

  lemma NeverRefuses(at: Place, kind: Kind, id: int, amount: int, vals: seq<KeyValueData>)
    ensures Sent(at, kind, id, amount).update(vals) != Refused && Sent(at, kind, id, amount).retryTillSuccessOrError
  {
    var request, c := UsageRequest(kind, id, amount), Counters(at);
    ThroughRequest(StoragePath(at), StringRequest(c, request), vals);
    var own := RemoveThrough(StoragePath(at), vals);
    var typed := ToTyped(c, request.conditionKeys, own);
    assert StringRequest(c, request).update(own) == StringResult(c, request, typed);
    assert typed.Some? ==> !request.update(typed.value).TypedRefused?;
  }

  lemma WritesOneKey(at: Place, kind: Kind, id: int, amount: int, vals: seq<KeyValueData>)
    ensures
      var u := Sent(at, kind, id, amount).update(vals);
      u.Proceed? ==> DistinctKeys(u.update)
  {
    var request, c := UsageRequest(kind, id, amount), Counters(at);
    ThroughRequest(StoragePath(at), StringRequest(c, request), vals);
    var own := RemoveThrough(StoragePath(at), vals);
    var typed := ToTyped(c, request.conditionKeys, own);
    assert StringRequest(c, request).update(own) == StringResult(c, request, typed);
    if typed.Some? && request.update(typed.value).TypedProceed? {
      ThroughUpdateKeys(StoragePath(at), ToStrings(c, request.update(typed.value).update));
    }
  }

  lemma OutcomeOnMap(at: Place, r: TxResult, kind: Kind, id: int, amount: int, T: map<DataKey, int>,
                     before: Store<string>, cv: seq<Versioned<string>>, after: Store<string>)
    requires Proper(at) && Shows(at, before, T)
    requires
      var request := Sent(at, kind, id, amount);
      && (r == Done(true) ==> Linearized(request, before, cv, after))
      && (r == UpdateFailed ==>
            after == before && IsSnapshot(before, request.conditionKeys, cv) && request.update(Values(cv)) == UpdateError)
    ensures UsageOutcome(at, r, kind, id, amount, T, after)
  {
    if r == Done(true) {
      UpdateShows(at, kind, id, amount, T, before, cv, after);
    } else if r == UpdateFailed {
      ErrorShows(at, kind, id, amount, T, before, cv);
    }
  }

  /** An error of the update function on a current snapshot means that the bound would be
      exceeded. */
  lemma ErrorShows(at: Place, kind: Kind, id: int, amount: int, T: map<DataKey, int>, s: Store<string>,
                   cv: seq<Versioned<string>>)
    requires Proper(at) && Shows(at, s, T)
    requires IsSnapshot(s, Sent(at, kind, id, amount).conditionKeys, cv)
    requires Sent(at, kind, id, amount).update(Values(cv)) == UpdateError
    ensures !Fits(kind, UsageIn(T, id), amount)
  {
    PlaceIsSound(at);
    UpdateOnMap(T, kind, id, amount);
    StackSeesTypedMap(StoragePath(at), Counters(at), UsageRequest(kind, id, amount), s, T, cv);
    ErrorIsTyped(at, UsageRequest(kind, id, amount), TypedReads(T, ConditionKeys(id)));
  }

  lemma ErrorIsTyped(at: Place, request: TypedRequest<DataKey, int>, values: seq<Reading>)
    requires ThroughResult(StoragePath(at), StringResult(Counters(at), request, Some(values))) == UpdateError
    ensures request.update(values) == TypedError
  {
  }

  /** A linearized update moves the typed map as the counter's rule says. */
  lemma UpdateShows(at: Place, kind: Kind, id: int, amount: int, T: map<DataKey, int>,
                    before: Store<string>, cv: seq<Versioned<string>>, after: Store<string>)
    requires Proper(at) && Shows(at, before, T) && Linearized(Sent(at, kind, id, amount), before, cv, after)
    ensures Fits(kind, UsageIn(T, id), amount) && Shows(at, after, Written(T, kind, id, amount))
  {
    PlaceIsSound(at);
    UpdateOnMap(T, kind, id, amount);
    StackRefinesTypedMap(StoragePath(at), Counters(at), UsageRequest(kind, id, amount), before, T, cv, after);
  }

  lemma SingleTypedWrite(T: map<DataKey, int>, k: DataKey, v: int)
    ensures T + TypedMap([TypedKeyValue(k, Some(v))]) == T[k := v]
  {
    var update := [TypedKeyValue(k, Some(v))];
    assert update[..|update| - 1] == [];
    assert TypedMap(update) == map[k := v];
  }

  /** Usage updates are requests on which the in-memory store agrees with etcd. */
  lemma UsageWritesConditionKeys(kind: Kind, id: int, amount: int)
    ensures MemoryStorage.TypedWritesConditionKeys(UsageRequest(kind, id, amount))
    ensures
      var keys := UsageRequest(kind, id, amount).conditionKeys;
      forall i, j :: 0 <= i < j < |keys| ==> keys[i] != keys[j]
  {
    var request := UsageRequest(kind, id, amount);
    forall values | request.update(values).TypedProceed?
      ensures |request.update(values).update| == 1 && request.update(values).update[0].key in request.conditionKeys
    {
      assert request.update(values).update[0].key == DataKey(id, TypeOf(kind));
    }
  }

  /** What can happen to the store: a usage update of any daemon takes effect, or somebody
      writes or deletes behind another storage. */
  datatype Event =
    | Update(kind: Kind, id: int, amount: int, cv: seq<Versioned<string>>)
    | Elsewhere(behind: seq<string>, op: Op<string>)

  ghost predicate Happens(at: Place, s: Store<string>, e: Event, t: Store<string>) {
    match e
    case Update(kind, id, amount, cv) => amount >= 0 && Linearized(Sent(at, kind, id, amount), s, cv, t)
    case Elsewhere(behind, op) => t == Apply(s, op) && Apart(StoragePath(at), behind) && Within(behind, op)
  }

  ghost predicate Behaviour(at: Place, stores: seq<Store<string>>, events: seq<Event>) {
    |stores| == |events| + 1 && forall i :: 0 <= i < |events| ==> Happens(at, stores[i], events[i], stores[i + 1])
  }

  ghost predicate GoodStore(at: Place, s: Store<string>) {
    exists T :: Shows(at, s, T) && Bounded(T)
  }

  lemma EventKeepsBound(at: Place, s: Store<string>, e: Event, t: Store<string>, T: map<DataKey, int>)
    returns (T': map<DataKey, int>)
    requires Proper(at) && Shows(at, s, T) && Bounded(T) && Happens(at, s, e, t)
    ensures Shows(at, t, T') && Bounded(T')
  {
    match e
    case Update(kind, id, amount, cv) =>
      UpdateShows(at, kind, id, amount, T, s, cv, t);
      T' := Written(T, kind, id, amount);
      UpdateKeepsBound(T, kind, id, amount);
    case Elsewhere(behind, op) =>
      Isolation(StoragePath(at), behind, s, op);
      T' := T;
  }

  /** Any interleaving of used, planned and refund updates, by any number of daemons, with
      operations of other storages, keeps every channel within what was planned for it and
      refunded to it. */
  lemma {:induction false} UsageStaysBounded(at: Place, stores: seq<Store<string>>, events: seq<Event>, n: nat)
    requires Proper(at) && Behaviour(at, stores, events) && GoodStore(at, stores[0]) && n < |stores|
    ensures GoodStore(at, stores[n])
  {
    if n > 0 {
      UsageStaysBounded(at, stores, events, n - 1);
      GoodStoreNext(at, stores[n - 1], events[n - 1], stores[n]);
    }
  }

  lemma GoodStoreNext(at: Place, s: Store<string>, e: Event, t: Store<string>)
    requires Proper(at) && GoodStore(at, s) && Happens(at, s, e, t)
    ensures GoodStore(at, t)
  {
    var T :| Shows(at, s, T) && Bounded(T);
    var T' := EventKeepsBound(at, s, e, t, T);
  }

  // ---------------------------------------------------------------------------
  // Calls on one channel: charged first, refunded on error

  datatype Pc = Idle | Running(price: int) | Refunding(price: int)

  /** The counters, the calls, and the fate of past calls: prices of calls that
      succeeded, charges whose caller was told they failed, refunds that were not
      written. */
  datatype State = State(usage: Usage, procs: map<nat, Pc>, succeeded: int, orphaned: int, unrefunded: int)

  datatype Label =
    | Charge(p: nat, price: int, fault: Fault)
    | Complete(p: nat)
    | CompleteAfterError(p: nat)
    | WriteRefund(p: nat, fault: Fault)
    | PlanMore(amount: int)

  function Next(s: State, l: Label): State {
    match l
    case Charge(p, price, fault) =>
      if p in s.procs && s.procs[p] == Idle && price >= 0 then
        var used := Increment(Used, s.usage, price);
        if used.None? || fault == LostRequest then s
        else if fault == Delivered then s.(usage := With(Used, s.usage, used.value), procs := s.procs[p := Running(price)])
        else s.(usage := With(Used, s.usage, used.value), orphaned := s.orphaned + price)
      else s
    case Complete(p) =>
      if p in s.procs && s.procs[p].Running?
      then s.(procs := s.procs[p := Idle], succeeded := s.succeeded + s.procs[p].price) else s
    case CompleteAfterError(p) =>
      if p in s.procs && s.procs[p].Running? then s.(procs := s.procs[p := Refunding(s.procs[p].price)]) else s
    case WriteRefund(p, fault) =>
      if p in s.procs && s.procs[p].Refunding? then
        var price, s' := s.procs[p].price, s.(procs := s.procs[p := Idle]);
        var refund := Increment(Refund, s.usage, price);
        if fault == LostRequest || refund.None? then s'.(unrefunded := s.unrefunded + price)
        else s'.(usage := With(Refund, s.usage, refund.value))
      else s
    case PlanMore(amount) =>
      var planned := Increment(Planned, s.usage, amount);
      if amount >= 0 && planned.Some? then s.(usage := With(Planned, s.usage, planned.value)) else s
  }

  function Run(s: State, labels: seq<Label>): State
    decreases |labels|
  {
    if labels == [] then s else Run(Next(s, labels[0]), labels[1..])
  }

  function Price(pc: Pc): int {
    if pc.Idle? then 0 else pc.price
  }

  /** Prices of the calls that are running or being refunded. */
  ghost function InProgress(s: State): int {
    SumOver(s.procs, Price)
  }

  ghost predicate Conserved(s: State) {
    && s.usage.used - s.usage.refund == InProgress(s) + s.succeeded + s.orphaned + s.unrefunded
    && s.usage.used <= s.usage.planned + s.usage.refund
    && s.succeeded >= 0 && s.orphaned >= 0 && s.unrefunded >= 0
    && forall p :: p in s.procs ==> Price(s.procs[p]) >= 0
  }

  lemma StepConserves(s: State, l: Label)
    requires Conserved(s)
    ensures Conserved(Next(s, l))
  {
    var t := Next(s, l);
    if t.procs != s.procs {
      assert t.procs == s.procs[l.p := t.procs[l.p]];
      SumUpdate(s.procs, Price, l.p, t.procs[l.p]);
      forall q | q in t.procs ensures Price(t.procs[q]) >= 0 {
        assert q in s.procs && Price(s.procs[q]) >= 0;
      }
    }
  }

  lemma {:induction false} RunConserves(s: State, labels: seq<Label>)
    requires Conserved(s)
    ensures Conserved(Run(s, labels))
    decreases |labels|
  {
    if labels != [] {
      StepConserves(s, labels[0]);
      RunConserves(Next(s, labels[0]), labels[1..]);
    }
  }

  ghost predicate Init(s: State) {
    s.usage == Usage(0, 0, 0) && s.succeeded == s.orphaned == s.unrefunded == 0
    && forall p :: p in s.procs ==> s.procs[p] == Idle
  }

  predicate Faultless(l: Label) {
    (l.Charge? || l.WriteRefund?) ==> l.fault == Delivered
  }

  lemma {:induction false} NoLossesWithoutFaults(s: State, labels: seq<Label>)
    requires Conserved(s)
    requires forall i :: 0 <= i < |labels| ==> Faultless(labels[i])
    ensures Run(s, labels).orphaned == s.orphaned && Run(s, labels).unrefunded == s.unrefunded
    decreases |labels|
  {
    if labels != [] {
      assert Faultless(labels[0]);
      StepConserves(s, labels[0]);
      NoLossesWithoutFaults(Next(s, labels[0]), labels[1..]);
    }
  }

  /** Conservation: what is used and not refunded is the price of the calls that are in
      progress or succeeded, plus exactly what lost messages cost; and all of it together
      stays within the planned amount. */
  lemma PrepaidConservation(s: State, labels: seq<Label>)
    requires Init(s)
    ensures
      var t := Run(s, labels);
      && t.usage.used - t.usage.refund == InProgress(t) + t.succeeded + t.orphaned + t.unrefunded
      && InProgress(t) + t.succeeded + t.orphaned + t.unrefunded <= t.usage.planned
      && ((forall i :: 0 <= i < |labels| ==> Faultless(labels[i])) ==>
            t.usage.used - t.usage.refund == InProgress(t) + t.succeeded)
  {
    SumZero(s.procs, Price);
    RunConserves(s, labels);
    if forall i :: 0 <= i < |labels| ==> Faultless(labels[i]) {
      NoLossesWithoutFaults(s, labels);
    }
  }

  /** A charge that fits, up to the last token of the room, is made and the call runs; if
      it fails, it costs nothing in the end: charging and refunding leave the room for
      further calls as it was. A charge that does not fit changes nothing. */
  lemma RefundRestoresRoom(s: State, p: nat, price: int)
    requires p in s.procs && s.procs[p] == Idle && 0 <= price
    ensures
      var fits := s.usage.used + price <= s.usage.planned + s.usage.refund;
      var charged := Next(s, Charge(p, price, Delivered));
      var t := Run(charged, [CompleteAfterError(p), WriteRefund(p, Delivered)]);
      && (!fits ==> charged == s)
      && (fits ==>
            && charged.procs == s.procs[p := Running(price)] && charged.usage == s.usage.(used := s.usage.used + price)
            && t.procs == s.procs && t.usage == charged.usage.(refund := s.usage.refund + price)
            && t.usage.planned + t.usage.refund - t.usage.used == s.usage.planned + s.usage.refund - s.usage.used)
  {
    var s1 := Next(s, Charge(p, price, Delivered));
    var l := [CompleteAfterError(p), WriteRefund(p, Delivered)];
    var s2 := Next(s1, l[0]);
    assert l[1..] == [l[1]] && l[1..][1..] == [];
    assert Run(s1, l) == Run(s2, l[1..]) == Run(Next(s2, l[1]), []);
  }

  // ---------------------------------------------------------------------------
  // The counters of these calls are the stored ones

  /** What a step of the calls asks of the store, if anything: a usage update of one kind
      by one amount, which arrives. */
  datatype Asked = Nothing | AskUpdate(kind: Kind, amount: int)

  function AskedBy(s: State, l: Label): Asked {
    match l
    case Charge(p, price, fault) =>
      if p in s.procs && s.procs[p] == Idle && price >= 0 && fault != LostRequest then AskUpdate(Used, price) else Nothing
    case WriteRefund(p, fault) =>
      if p in s.procs && s.procs[p].Refunding? && fault != LostRequest then AskUpdate(Refund, s.procs[p].price) else Nothing
    case PlanMore(amount) => if amount >= 0 then AskUpdate(Planned, amount) else Nothing
    case _ => Nothing
  }

  /** The step moves the counters by the rule of the counter it asks for, or not at all. */
  lemma StepFollowsRule(s: State, l: Label)
    ensures
      var asked := AskedBy(s, l);
      Next(s, l).usage ==
        if asked.AskUpdate? && Fits(asked.kind, s.usage, asked.amount)
        then Raised(asked.kind, s.usage, asked.amount) else s.usage
  {
    var asked := AskedBy(s, l);
    if asked.AskUpdate? {
      IncrementExactly(asked.kind, s.usage, asked.amount);
    }
  }

  /** The counters of channel id, as the store shows them. */
  ghost predicate ShowsUsage(at: Place, s: Store<string>, id: int, usage: Usage) {
    exists T :: Shows(at, s, T) && UsageIn(T, id) == usage
  }

  /** What may happen between two stores: a step of the calls on channel id, whose request
      is a linearized UpdateUsage on the stack when its update function agrees and leaves
      the store alone when it does not; an update of another channel; or operations of
      other storages. */
  datatype Move =
    | OfCalls(l: Label, cv: seq<Versioned<string>>)
    | OfOthers(e: Event)

  ghost predicate Carries(at: Place, id: int, s: State, before: Store<string>, e: Move, t: State, after: Store<string>) {
    match e
    case OfCalls(l, cv) =>
      var asked := AskedBy(s, l);
      && t == Next(s, l)
      && (if asked.AskUpdate? && Fits(asked.kind, s.usage, asked.amount)
          then Linearized(Sent(at, asked.kind, id, asked.amount), before, cv, after) else after == before)
    case OfOthers(e) => t == s && Happens(at, before, e, after) && (e.Update? ==> e.id != id)
  }

  lemma CarriedUpdate(at: Place, kind: Kind, of: int, amount: int, T: map<DataKey, int>, before: Store<string>,
                      cv: seq<Versioned<string>>, after: Store<string>, id: int)
    requires Proper(at) && Shows(at, before, T) && Linearized(Sent(at, kind, of, amount), before, cv, after)
    ensures
      ShowsUsage(at, after, id, if of == id then Raised(kind, UsageIn(T, id), amount) else UsageIn(T, id))
  {
    UpdateShows(at, kind, of, amount, T, before, cv, after);
    ShownAfter(at, kind, of, amount, T, after, id);
  }

  lemma ShownAfter(at: Place, kind: Kind, of: int, amount: int, T: map<DataKey, int>, after: Store<string>, id: int)
    requires Shows(at, after, Written(T, kind, of, amount))
    ensures ShowsUsage(at, after, id, if of == id then Raised(kind, UsageIn(T, id), amount) else UsageIn(T, id))
  {
    WrittenUsage(T, kind, of, amount);
  }

  lemma CarriedCall(at: Place, id: int, s: State, before: Store<string>, l: Label, cv: seq<Versioned<string>>,
                    after: Store<string>)
    requires Proper(at) && ShowsUsage(at, before, id, s.usage) && Carries(at, id, s, before, OfCalls(l, cv), Next(s, l), after)
    ensures ShowsUsage(at, after, id, Next(s, l).usage)
  {
    var T :| Shows(at, before, T) && UsageIn(T, id) == s.usage;
    StepFollowsRule(s, l);
    var asked := AskedBy(s, l);
    if asked.AskUpdate? && Fits(asked.kind, s.usage, asked.amount) {
      CarriedUpdate(at, asked.kind, id, asked.amount, T, before, cv, after, id);
    }
  }

  lemma CarriedElsewhere(at: Place, id: int, usage: Usage, before: Store<string>, e: Event, after: Store<string>)
    requires Proper(at) && ShowsUsage(at, before, id, usage) && Happens(at, before, e, after) && (e.Update? ==> e.id != id)
    ensures ShowsUsage(at, after, id, usage)
  {
    var T :| Shows(at, before, T) && UsageIn(T, id) == usage;
    match e
    case Update(kind, of, amount, cv) => CarriedUpdate(at, kind, of, amount, T, before, cv, after, id);
    case Elsewhere(behind, op) =>
      Isolation(StoragePath(at), behind, before, op);
      assert Shows(at, after, T);
  }

  /** One step keeps the abstract counters equal to the stored ones. */
  lemma CarriedStep(at: Place, id: int, s: State, before: Store<string>, e: Move, t: State, after: Store<string>)
    requires Proper(at) && ShowsUsage(at, before, id, s.usage) && Carries(at, id, s, before, e, t, after)
    ensures ShowsUsage(at, after, id, t.usage)
  {
    match e
    case OfCalls(l, cv) => CarriedCall(at, id, s, before, l, cv, after);
    case OfOthers(other) => CarriedElsewhere(at, id, s.usage, before, other, after);
  }

  ghost predicate IsCarried(at: Place, id: int, states: seq<State>, stores: seq<Store<string>>, events: seq<Move>) {
    && |states| == |stores| == |events| + 1
    && forall i :: 0 <= i < |events| ==> Carries(at, id, states[i], stores[i], events[i], states[i + 1], stores[i + 1])
  }

  /** Over every run of calls on a channel against the stack, among updates of other
      channels and operations of other storages, the counters of the calls are the stored
      counters of the channel. */
  lemma {:induction false} CountersAreStored(at: Place, id: int, states: seq<State>, stores: seq<Store<string>>,
                                             events: seq<Move>, n: nat)
    requires Proper(at) && IsCarried(at, id, states, stores, events) && n < |states|
    requires ShowsUsage(at, stores[0], id, states[0].usage)
    ensures ShowsUsage(at, stores[n], id, states[n].usage)
  {
    if n > 0 {
      CountersAreStored(at, id, states, stores, events, n - 1);
      CarriedAt(at, id, states, stores, events, n - 1);
      CarriedStep(at, id, states[n - 1], stores[n - 1], events[n - 1], states[n], stores[n]);
    }
  }

  lemma CarriedAt(at: Place, id: int, states: seq<State>, stores: seq<Store<string>>, events: seq<Move>, i: nat)
    requires IsCarried(at, id, states, stores, events) && i < |events|
    ensures Carries(at, id, states[i], stores[i], events[i], states[i + 1], stores[i + 1])
  {
  }
}
