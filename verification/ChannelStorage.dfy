/** Where the channel protocol keeps its state: records and pending claims in two typed
    storages behind the network's and the contract's prefix. Every step of the protocol
    is at most one put or delete of one key in one of them. */
module ChannelStorage {
  import opened Wrappers
  import opened EtcdStore
  import opened EtcdClient
  import opened Layers
  import opened TypedStorage
  import Decimal
  import opened Channel
  import Protocol
  import opened SharedWorld

  /** Payment.ID: what a pending claim is stored under. */
  datatype ClaimKey = ClaimKey(id: int, nonce: int)

  function KeyOf(payment: Payment): ClaimKey {
    ClaimKey(payment.channelID, payment.nonce)
  }

  function PaymentCodec(encode: Payment -> string, decode: string -> Option<Payment>): Codec<ClaimKey, Payment> {
    Codec((k: ClaimKey) => Decimal.PaymentID(k.id, k.nonce), encode, decode)
  }

  function ChannelCodec(encode: ChannelData -> string, decode: string -> Option<ChannelData>): Codec<int, ChannelData> {
    Codec((id: int) => Decimal.ChannelKey(id), encode, decode)
  }

  /** With any exact value encoding both codecs are faithful, because no two claims and no
      two channels share a key. */
  lemma PaymentCodecFaithful(encode: Payment -> string, decode: string -> Option<Payment>)
    requires (forall v :: decode(encode(v)) == Some(v)) && decode("") == None
    ensures Faithful(PaymentCodec(encode, decode))
  {
    var c := PaymentCodec(encode, decode);
    forall k: ClaimKey, k': ClaimKey | c.key(k) == c.key(k') ensures k == k' {
      Decimal.PaymentIDInjective(k.id, k.nonce, k'.id, k'.nonce);
    }
  }

  lemma ChannelCodecFaithful(encode: ChannelData -> string, decode: string -> Option<ChannelData>)
    requires (forall v :: decode(encode(v)) == Some(v)) && decode("") == None
    ensures Faithful(ChannelCodec(encode, decode))
  {
    var c := ChannelCodec(encode, decode);
    forall id, id' | c.key(id) == c.key(id') ensures id == id' {
      Decimal.ChannelKeyInjective(id, id');
    }
  }

  /** The two storages of one daemon group on one contract. */
  datatype Place = Place(
    base: seq<string>,
    mpe: string,
    encodeRecord: ChannelData -> string, decodeRecord: string -> Option<ChannelData>,
    encodeClaim: Payment -> string, decodeClaim: string -> Option<Payment>)

  ghost predicate Proper(at: Place) {
    && at.mpe != "" && at.mpe[0] != '/' && at.mpe[0] != 'L'
    && (forall v :: at.decodeRecord(at.encodeRecord(v)) == Some(v)) && at.decodeRecord("") == None
    && (forall v :: at.decodeClaim(at.encodeClaim(v)) == Some(v)) && at.decodeClaim("") == None
  }

  function RecordPath(at: Place): seq<string> {
    at.base + Path(at.mpe, 0)
  }

  function ClaimPath(at: Place): seq<string> {
    at.base + Path(at.mpe, 1)
  }

  function Records(at: Place): Codec<int, ChannelData> {
    ChannelCodec(at.encodeRecord, at.decodeRecord)
  }

  function Claims(at: Place): Codec<ClaimKey, Payment> {
    PaymentCodec(at.encodeClaim, at.decodeClaim)
  }

  /** The store holds these records and these claims. */
  ghost predicate Keeps(at: Place, s: Store<string>, R: map<int, ChannelData>, T: map<ClaimKey, Payment>) {
    Holding(RecordPath(at), Records(at), s, R) && Holding(ClaimPath(at), Claims(at), s, T)
  }

  lemma KeyWithin<K, V>(ps: seq<string>, c: Codec<K, V>, key: K, v: string)
    ensures Within(ps, OpPut(map[StackKey(ps, c, key) := v])) && Within(ps, OpDelete(StackKey(ps, c, key)))
  {
    UnderIs(ps, c.key(key));
  }

  /** Storing a record changes that record, no other record, and no claim. */
  lemma RecordStored(at: Place, s: Store<string>, R: map<int, ChannelData>, T: map<ClaimKey, Payment>, id: int, data: ChannelData)
    requires Proper(at) && Keeps(at, s, R, T)
    ensures Keeps(at, PutAll(s, map[StackKey(RecordPath(at), Records(at), id) := at.encodeRecord(data)]), R[id := data], T)
  {
    ChannelCodecFaithful(at.encodeRecord, at.decodeRecord);
    HoldingAfterPut(RecordPath(at), Records(at), s, R, id, data);
    var op := OpPut(map[StackKey(RecordPath(at), Records(at), id) := at.encodeRecord(data)]);
    KeyWithin(RecordPath(at), Records(at), id, at.encodeRecord(data));
    StoragesAreApart(at.base, at.mpe, 1, 0);
    Isolation(ClaimPath(at), RecordPath(at), s, op);
  }

  /** Storing a claim changes that claim, no other claim, and no record. */
  lemma ClaimStored(at: Place, s: Store<string>, R: map<int, ChannelData>, T: map<ClaimKey, Payment>, payment: Payment)
    requires Proper(at) && Keeps(at, s, R, T)
    ensures Keeps(at, PutAll(s, map[StackKey(ClaimPath(at), Claims(at), KeyOf(payment)) := at.encodeClaim(payment)]),
                  R, T[KeyOf(payment) := payment])
  {
    PaymentCodecFaithful(at.encodeClaim, at.decodeClaim);
    HoldingAfterPut(ClaimPath(at), Claims(at), s, T, KeyOf(payment), payment);
    var op := OpPut(map[StackKey(ClaimPath(at), Claims(at), KeyOf(payment)) := at.encodeClaim(payment)]);
    KeyWithin(ClaimPath(at), Claims(at), KeyOf(payment), at.encodeClaim(payment));
    StoragesAreApart(at.base, at.mpe, 0, 1);
    Isolation(RecordPath(at), ClaimPath(at), s, op);
  }

  lemma ClaimDeleted(at: Place, s: Store<string>, R: map<int, ChannelData>, T: map<ClaimKey, Payment>, key: ClaimKey)
    requires Proper(at) && Keeps(at, s, R, T)
    ensures Keeps(at, Delete(s, StackKey(ClaimPath(at), Claims(at), key)), R, T - {key})
  {
    PaymentCodecFaithful(at.encodeClaim, at.decodeClaim);
    HoldingAfterDelete(ClaimPath(at), Claims(at), s, T, key);
    var op := OpDelete(StackKey(ClaimPath(at), Claims(at), key));
    KeyWithin(ClaimPath(at), Claims(at), key, "");
    StoragesAreApart(at.base, at.mpe, 0, 1);
    Isolation(RecordPath(at), ClaimPath(at), s, op);
  }

  // ---------------------------------------------------------------------------
  // The protocol's view

  /** The pending claims of one channel, by nonce. */
  ghost function ClaimsOf(T: map<ClaimKey, Payment>, id: int): map<int, Payment> {
    map k | k in T && k.id == id :: k.nonce := T[k]
  }

  /** Records and claims are those of the channels m. */
  ghost predicate Mirrors(m: map<int, Protocol.State>, R: map<int, ChannelData>, T: map<ClaimKey, Payment>) {
    && (forall id :: id in m ==> LookUp(R, id) == m[id].core.record && ClaimsOf(T, id) == m[id].core.claims)
    && R.Keys <= m.Keys
    && (forall k :: k in T ==> k.id in m)
  }

  datatype Request = Nothing | PutRecord(data: ChannelData) | PutClaim(payment: Payment) | DeleteClaim(nonce: int)

  /** What a step of the protocol on channel id writes. */
  function Writes(s: Protocol.State, l: Protocol.Label): Request {
    var c := s.core;
    match l
    case CommitPayment(p, fault) =>
      if p in c.procs && c.procs[p].PayReady? && fault != LostRequest
      then PutRecord(Committed(c.procs[p].payment, c.procs[p].channel)) else Nothing
    case ClaimMove(p, fault) =>
      if p in c.procs && c.procs[p].ClaimRead? && fault != LostRequest
      then PutRecord(IncrementNonce(c.procs[p].channel)) else Nothing
    case ClaimStore(p, fault) =>
      if p in c.procs && c.procs[p].ClaimMoved? && fault != LostRequest then PutClaim(c.procs[p].claim) else Nothing
    case FinishDelete(p, fault) =>
      if p in c.procs && c.procs[p].Finishing? && fault != LostRequest then DeleteClaim(c.procs[p].nonce) else Nothing
    case _ => Nothing
  }

  /** The request as the storages send it to etcd. */
  ghost function Sent(at: Place, s: Store<string>, id: int, r: Request): Store<string> {
    match r
    case Nothing => s
    case PutRecord(data) => PutAll(s, map[StackKey(RecordPath(at), Records(at), id) := at.encodeRecord(data)])
    case PutClaim(payment) =>
      PutAll(s, map[StackKey(ClaimPath(at), Claims(at), KeyOf(payment)) := at.encodeClaim(payment)])
    case DeleteClaim(nonce) => Delete(s, StackKey(ClaimPath(at), Claims(at), ClaimKey(id, nonce)))
  }

  ghost function RecordsAfter(R: map<int, ChannelData>, id: int, r: Request): map<int, ChannelData> {
    if r.PutRecord? then R[id := r.data] else R
  }

  ghost function ClaimsAfter(T: map<ClaimKey, Payment>, id: int, r: Request): map<ClaimKey, Payment> {
    match r
    case PutClaim(payment) => T[KeyOf(payment) := payment]
    case DeleteClaim(nonce) => T - {ClaimKey(id, nonce)}
    case _ => T
  }

  lemma SentKeeps(at: Place, s: Store<string>, R: map<int, ChannelData>, T: map<ClaimKey, Payment>, id: int, r: Request)
    requires Proper(at) && Keeps(at, s, R, T)
    ensures Keeps(at, Sent(at, s, id, r), RecordsAfter(R, id, r), ClaimsAfter(T, id, r))
  {
    match r
    case Nothing =>
    case PutRecord(data) => RecordStored(at, s, R, T, id, data);
    case PutClaim(payment) => ClaimStored(at, s, R, T, payment);
    case DeleteClaim(nonce) => ClaimDeleted(at, s, R, T, ClaimKey(id, nonce));
  }

  /** Storing or deleting one claim leaves all other claims unchanged: those of the
      channel, and those of all other channels. */
  lemma OneClaimChanges(T: map<ClaimKey, Payment>, id: int, r: Request, other: int)
    requires r.PutClaim? ==> r.payment.channelID == id
    ensures
      var before := ClaimsOf(T, other);
      ClaimsOf(ClaimsAfter(T, id, r), other) ==
        if other != id then before
        else
          match r
          case PutClaim(payment) => before[payment.nonce := payment]
          case DeleteClaim(nonce) => before - {nonce}
          case _ => before
  {
    var after := ClaimsAfter(T, id, r);
    forall n
      ensures n in ClaimsOf(after, other) <==> ClaimKey(other, n) in after
      ensures n in ClaimsOf(T, other) <==> ClaimKey(other, n) in T
    {
      InClaimsOf(after, other, n);
      InClaimsOf(T, other, n);
    }
  }

  lemma InClaimsOf(T: map<ClaimKey, Payment>, id: int, n: int)
    ensures n in ClaimsOf(T, id) <==> ClaimKey(id, n) in T
    ensures n in ClaimsOf(T, id) ==> ClaimsOf(T, id)[n] == T[ClaimKey(id, n)]
  {
    assert ClaimKey(id, n) in T ==> ClaimKey(id, n).nonce in ClaimsOf(T, id);
  }

  lemma ProtocolWrites(cfg: Config, s: Protocol.State, l: Protocol.Label)
    ensures
      var t, r := Protocol.Next(cfg, s, l), Writes(s, l);
      && t.core.record == (if r.PutRecord? then Some(r.data) else s.core.record)
      && t.core.claims == (match r
                           case PutClaim(payment) => s.core.claims[payment.nonce := payment]
                           case DeleteClaim(nonce) => s.core.claims - {nonce}
                           case _ => s.core.claims)
  {
  }

  lemma ClaimsKnowTheirChannel(cfg: Config, s: Protocol.State, l: Protocol.Label)
    requires Protocol.Inv(cfg, s) && Writes(s, l).PutClaim?
    ensures Writes(s, l).payment.channelID == cfg.id
  {
    assert Protocol.PcInv(cfg, s, l.p, s.core.procs[l.p]);
  }

  /** Every step of the protocol, on whatever channel, is at most one request to one of
      the storages: if the store mirrored the channels before, it does so after. */
  lemma StepIsOneRequest(at: Place, template: Config, m: map<int, Protocol.State>, e: Event, s: Store<string>,
                         R: map<int, ChannelData>, T: map<ClaimKey, Payment>)
    requires Proper(at) && Keeps(at, s, R, T) && Mirrors(m, R, T)
    requires e.id in m && Protocol.Inv(For(template, e.id), m[e.id])
    ensures
      var r := Writes(m[e.id], e.step);
      var R', T' := RecordsAfter(R, e.id, r), ClaimsAfter(T, e.id, r);
      Keeps(at, Sent(at, s, e.id, r), R', T') && Mirrors(Step(template, m, e), R', T')
  {
    var r, cfg := Writes(m[e.id], e.step), For(template, e.id);
    SentKeeps(at, s, R, T, e.id, r);
    if r.PutClaim? {
      ClaimsKnowTheirChannel(cfg, m[e.id], e.step);
    }
    ProtocolWrites(cfg, m[e.id], e.step);
    MirrorsAfter(m, e.id, Protocol.Next(cfg, m[e.id], e.step), R, T, r);
  }

  lemma MirrorsAfter(m: map<int, Protocol.State>, id: int, t: Protocol.State, R: map<int, ChannelData>,
                     T: map<ClaimKey, Payment>, r: Request)
    requires Mirrors(m, R, T) && id in m && (r.PutClaim? ==> r.payment.channelID == id)
    requires t.core.record == (if r.PutRecord? then Some(r.data) else m[id].core.record)
    requires t.core.claims == (match r
                               case PutClaim(payment) => m[id].core.claims[payment.nonce := payment]
                               case DeleteClaim(nonce) => m[id].core.claims - {nonce}
                               case _ => m[id].core.claims)
    ensures Mirrors(m[id := t], RecordsAfter(R, id, r), ClaimsAfter(T, id, r))
  {
    forall other | other in m
      ensures ClaimsOf(ClaimsAfter(T, id, r), other) == m[id := t][other].core.claims
      ensures LookUp(RecordsAfter(R, id, r), other) == m[id := t][other].core.record
    {
      OneClaimChanges(T, id, r, other);
    }
  }

  /** The operation belongs to storages that are apart from these two. */
  ghost predicate IsElsewhere(at: Place, op: Op<string>) {
    IsBeside(RecordPath(at), op) && IsBeside(ClaimPath(at), op)
  }

  ghost predicate AllElsewhere(at: Place, foreign: seq<seq<Op<string>>>) {
    forall i, j :: 0 <= i < |foreign| && 0 <= j < |foreign[i]| ==> IsElsewhere(at, foreign[i][j])
  }

  /** Puts and deletes of other storages touch neither records nor claims. */
  lemma KeepsAmongOthers(at: Place, s: Store<string>, ops: seq<Op<string>>, R: map<int, ChannelData>, T: map<ClaimKey, Payment>)
    requires Keeps(at, s, R, T) && forall j :: 0 <= j < |ops| ==> IsElsewhere(at, ops[j])
    ensures Keeps(at, ApplyAll(s, ops), R, T)
  {
    ForeignWritesElsewhere(RecordPath(at), Records(at), s, R, ops);
    ForeignWritesElsewhere(ClaimPath(at), Claims(at), s, T, ops);
  }

  /** The store after all requests of a sequence of protocol steps, with the operations
      foreign[i] of other storages before the i-th. */
  ghost function SentAll(at: Place, template: Config, m: map<int, Protocol.State>, s: Store<string>, events: seq<Event>,
                         foreign: seq<seq<Op<string>>>): Store<string>
    requires |foreign| == |events|
    decreases |events|
  {
    if events == [] then s
    else
      var n := |events| - 1;
      var now := Replay(template, m, events[..n]);
      var t := ApplyAll(SentAll(at, template, m, s, events[..n], foreign[..n]), foreign[n]);
      if events[n].id in now then Sent(at, t, events[n].id, Writes(now[events[n].id], events[n].step)) else t
  }

  /** From an empty store and untouched channels, any run of the protocol on any number of
      channels, among any operations of other storages, is what its requests leave in the
      two storages. */
  lemma {:induction false} RunIsStored(at: Place, template: Config, m: map<int, Protocol.State>, s: Store<string>,
                                       events: seq<Event>, foreign: seq<seq<Op<string>>>)
    returns (R: map<int, ChannelData>, T: map<ClaimKey, Payment>)
    requires Proper(at) && Keeps(at, s, map[], map[])
    requires forall id :: id in m ==> Protocol.Init(m[id])
    requires |foreign| == |events| && AllElsewhere(at, foreign)
    ensures Keeps(at, SentAll(at, template, m, s, events, foreign), R, T) && Mirrors(Replay(template, m, events), R, T)
    decreases |events|
  {
    if events == [] {
      R, T := map[], map[];
    } else {
      var n := |events| - 1;
      R, T := RunIsStored(at, template, m, s, events[..n], foreign[..n]);
      var before := SentAll(at, template, m, s, events[..n], foreign[..n]);
      KeepsAmongOthers(at, before, foreign[n], R, T);
      R, T := EventIsStored(at, template, m, ApplyAll(before, foreign[n]), events, R, T);
    }
  }

  lemma EventIsStored(at: Place, template: Config, m: map<int, Protocol.State>, t: Store<string>, events: seq<Event>,
                      R: map<int, ChannelData>, T: map<ClaimKey, Payment>)
    returns (R': map<int, ChannelData>, T': map<ClaimKey, Payment>)
    requires Proper(at) && Keeps(at, t, R, T) && events != []
    requires forall id :: id in m ==> Protocol.Init(m[id])
    requires Mirrors(Replay(template, m, events[..|events| - 1]), R, T)
    ensures
      var e, now := events[|events| - 1], Replay(template, m, events[..|events| - 1]);
      Keeps(at, if e.id in now then Sent(at, t, e.id, Writes(now[e.id], e.step)) else t, R', T')
    ensures Mirrors(Replay(template, m, events), R', T')
  {
    var before, e := events[..|events| - 1], events[|events| - 1];
    var now := Replay(template, m, before);
    R', T' := R, T;
    if e.id in now {
      ReplayKeys(template, m, before);
      ReplayIsRun(template, m, before, e.id);
      Protocol.InitInv(For(template, e.id), m[e.id]);
      Protocol.RunKeeps(For(template, e.id), m[e.id], On(before, e.id));
      StepIsOneRequest(at, template, now, e, t, R, T);
      var r := Writes(now[e.id], e.step);
      R', T' := RecordsAfter(R, e.id, r), ClaimsAfter(T, e.id, r);
    }
  }
}
