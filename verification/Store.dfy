/**
 * `TxMetadataStore`: a map in memory that is written through to a key-value store, and rebuilt from it
 * when the wallet starts.
 */
module Store {
  import opened Wrappers
  import opened Metadata

  type MetadataMap = map<PaymentId, TxMetadata>
  type Disk = map<string, seq<Byte>>

  predicate IsPlain(mem: MetadataMap, id: PaymentId) {
    id in mem && mem[id].ty.Payment?
  }

  predicate IsTrigger(mem: MetadataMap, id: PaymentId) {
    id in mem && mem[id].ty.PaymentTriggeringTransferToNonCustodial?
  }

  predicate IsTransfer(mem: MetadataMap, id: PaymentId) {
    id in mem && mem[id].ty.TransferToNonCustodial?
  }

  /** The store as a value: what is in memory and what has been persisted. */
  datatype StoreState = StoreState(mem: MetadataMap, disk: Disk) {

    /** The disk holds exactly the entries of the memory. */
    ghost predicate Mirrored(c: Codec) {
      && (forall id :: id in mem ==> c.keyText(id) in disk && disk[c.keyText(id)] == c.encode(mem[id]))
      && (forall key :: key in disk ==> exists id :: id in mem && c.keyText(id) == key)
    }

    predicate HasPayment(id: PaymentId) {
      IsPlain(mem, id)
    }

    predicate HasTrigger(id: PaymentId) {
      IsTrigger(mem, id)
    }

    predicate HasTransfer(id: PaymentId) {
      IsTransfer(mem, id)
    }

    /** `do_set`, which is all that `insert` and `upsert` do in a release build. */
    function Set(c: Codec, id: PaymentId, metadata: TxMetadata): StoreState {
      StoreState(mem[id := metadata], disk[c.keyText(id) := c.encode(metadata)])
    }

    /** `set_tx_caused_rebalance`: only a plain payment can be marked. */
    function Mark(c: Codec, id: PaymentId): StoreState {
      if HasPayment(id) then
        Set(c, id, mem[id].(ty := PaymentTriggeringTransferToNonCustodial(mem[id].ty.ty)))
      else this
    }
  }

  /** Marking turns a plain payment into a trigger with the same time and type, and leaves everything else alone. */
  lemma MarkMeans(c: Codec, s: StoreState, id: PaymentId)
    ensures var t := s.Mark(c, id);
      && t.mem.Keys == s.mem.Keys
      && (forall other :: other in s.mem && other != id ==> t.mem[other] == s.mem[other])
      && (s.HasPayment(id) ==>
            t.mem[id] == TxMetadata(s.mem[id].time, PaymentTriggeringTransferToNonCustodial(s.mem[id].ty.ty)) &&
            t.disk == s.disk[c.keyText(id) := c.encode(t.mem[id])])
      && (!s.HasPayment(id) ==> t == s)
  {
  }

  lemma SetMirrored(c: Codec, s: StoreState, id: PaymentId, metadata: TxMetadata)
    requires c.Lawful() && s.Mirrored(c)
    ensures s.Set(c, id, metadata).Mirrored(c)
  {
    var t := s.Set(c, id, metadata);
    forall key | key in t.disk
      ensures exists other :: other in t.mem && c.keyText(other) == key
    {
      if key == c.keyText(id) {
        assert id in t.mem;
      } else {
        var other :| other in s.mem && c.keyText(other) == key;
        assert other in t.mem;
      }
    }
  }

  // ----- Loading

  /** The map that `new` builds from the keys in the order listed; `None` where it panics. */
  function Loaded(c: Codec, keys: seq<string>, disk: Disk): Option<MetadataMap>
    requires forall key :: key in keys ==> key in disk
  {
    if keys == [] then Some(map[])
    else
      var last := keys[|keys| - 1];
      match (Loaded(c, keys[..|keys| - 1], disk), c.readKey(last), c.decode(disk[last]))
      case (Some(m), Some(id), Some(metadata)) => Some(m[id := metadata])
      case _ => None
  }

  ghost predicate Lists(keys: seq<string>, disk: Disk) {
    forall key :: key in keys <==> key in disk
  }

  /** Loading panics exactly on an entry that cannot be read. */
  lemma {:induction false} LoadedExactly(c: Codec, keys: seq<string>, disk: Disk)
    requires forall key :: key in keys ==> key in disk
    ensures Loaded(c, keys, disk).Some? <==>
            forall key :: key in keys ==> c.readKey(key).Some? && c.decode(disk[key]).Some?
  {
    if keys == [] {
    } else {
      LoadedExactly(c, keys[..|keys| - 1], disk);
      assert keys == keys[..|keys| - 1] + [keys[|keys| - 1]];
      assert keys[|keys| - 1] in keys;
    }
  }

  lemma {:induction false} LoadedPrefix(c: Codec, keys: seq<string>, s: StoreState)
    requires c.Lawful() && s.Mirrored(c)
    requires forall key :: key in keys ==> key in s.disk
    ensures Loaded(c, keys, s.disk).Some?
    ensures var m := Loaded(c, keys, s.disk).value;
      && (forall id :: id in m ==> id in s.mem && m[id] == s.mem[id])
      && (forall id :: id in s.mem && c.keyText(id) in keys ==> id in m)
  {
    if keys == [] {
    } else {
      var last := keys[|keys| - 1];
      LoadedPrefix(c, keys[..|keys| - 1], s);
      assert last in keys;
      var id :| id in s.mem && c.keyText(id) == last;
      assert Loaded(c, keys, s.disk) == Some(Loaded(c, keys[..|keys| - 1], s.disk).value[id := s.mem[id]]);
      assert keys == keys[..|keys| - 1] + [last];
    }
  }

  /** A restart rebuilds exactly the memory, in whatever order the keys are listed. */
  lemma ReloadExact(c: Codec, keys: seq<string>, s: StoreState)
    requires c.Lawful() && s.Mirrored(c) && Lists(keys, s.disk)
    ensures Loaded(c, keys, s.disk) == Some(s.mem)
  {
    LoadedPrefix(c, keys, s);
    var m := Loaded(c, keys, s.disk).value;
    assert forall id :: id in s.mem ==> id in m;
    assert m.Keys == s.mem.Keys;
    assert m == s.mem;
  }

  // ----- Sequences of operations

  datatype Operation = Upsert(id: PaymentId, metadata: TxMetadata)
                     | Insert(id: PaymentId, metadata: TxMetadata)
                     | SetTxCausedRebalance(id: PaymentId)

  function After(c: Codec, s: StoreState, operations: seq<Operation>): StoreState {
    if operations == [] then s
    else
      var before := After(c, s, operations[..|operations| - 1]);
      match operations[|operations| - 1]
      case Upsert(id, metadata) => before.Set(c, id, metadata)
      case Insert(id, metadata) => before.Set(c, id, metadata)
      case SetTxCausedRebalance(id) => before.Mark(c, id)
  }

  /** The last operation decides about its own payment, and the ones before it about the others. */
  lemma AfterOneMore(c: Codec, s: StoreState, operations: seq<Operation>, last: Operation)
    ensures var before, after := After(c, s, operations).mem, After(c, s, operations + [last]).mem;
      && (forall id :: id in before && id != last.id ==> id in after && after[id] == before[id])
      && (last.SetTxCausedRebalance? ==>
            && after.Keys == before.Keys
            && (IsPlain(before, last.id) ==>
                  after[last.id].time == before[last.id].time &&
                  after[last.id].ty == PaymentTriggeringTransferToNonCustodial(before[last.id].ty.ty))
            && (last.id in before && !IsPlain(before, last.id) ==> after[last.id] == before[last.id]))
      && (!last.SetTxCausedRebalance? ==>
            after.Keys == before.Keys + {last.id} && after[last.id] == last.metadata)
  {
    assert (operations + [last])[..|operations|] == operations;
  }

  lemma {:induction false} AfterMirrored(c: Codec, s: StoreState, operations: seq<Operation>)
    requires c.Lawful() && s.Mirrored(c)
    ensures After(c, s, operations).Mirrored(c)
  {
    if operations == [] {
    } else {
      var before := After(c, s, operations[..|operations| - 1]);
      AfterMirrored(c, s, operations[..|operations| - 1]);
      match operations[|operations| - 1]
      case Upsert(id, metadata) => SetMirrored(c, before, id, metadata);
      case Insert(id, metadata) => SetMirrored(c, before, id, metadata);
      case SetTxCausedRebalance(id) =>
        if before.HasPayment(id) {
          var marked := PaymentTriggeringTransferToNonCustodial(before.mem[id].ty.ty);
          SetMirrored(c, before, id, before.mem[id].(ty := marked));
        }
    }
  }

  /** After any operations on a new store, a restart rebuilds exactly what was in memory. */
  lemma ReloadAfterOperations(c: Codec, operations: seq<Operation>, keys: seq<string>)
    requires c.Lawful()
    requires Lists(keys, After(c, StoreState(map[], map[]), operations).disk)
    ensures var s := After(c, StoreState(map[], map[]), operations); Loaded(c, keys, s.disk) == Some(s.mem)
  {
    var empty := StoreState(map[], map[]);
    assert empty.Mirrored(c);
    AfterMirrored(c, empty, operations);
    ReloadExact(c, keys, After(c, empty, operations));
  }

  // ----- The classes

  const STORE_PRIMARY_KEY := "libbtcwallet"
  const STORE_SECONDARY_KEY := "payment_store"

  /** The persistent key-value store, shared with other users under other namespaces. */
  class KvStore {
    var spaces: map<(string, string), Disk>

    constructor ()
      ensures spaces == map[]
    {
      spaces := map[];
    }

    function Space(primary: string, secondary: string): Disk
      reads this
    {
      if (primary, secondary) in spaces then spaces[(primary, secondary)] else map[]
    }

    /** The keys of a namespace, in no particular order. */
    method List(primary: string, secondary: string) returns (keys: seq<string>)
      ensures Lists(keys, Space(primary, secondary))
    {
      keys := [];
      var left := Space(primary, secondary).Keys;
      while left != {}
        invariant forall key :: key in Space(primary, secondary) <==> key in keys || key in left
        decreases |left|
      {
        var key :| key in left;
        keys := keys + [key];
        left := left - {key};
      }
    }

    method Write(primary: string, secondary: string, key: string, value: seq<Byte>)
      modifies this
      ensures Space(primary, secondary) == old(Space(primary, secondary))[key := value]
      ensures forall p, s :: (p, s) != (primary, secondary) ==> Space(p, s) == old(Space(p, s))
    {
      spaces := spaces[(primary, secondary) := Space(primary, secondary)[key := value]];
    }
  }

  class TxMetadataStore {
    const codec: Codec
    const store: KvStore
    var txMetadata: MetadataMap

    ghost function State(): StoreState
      reads this, store
    {
      StoreState(txMetadata, store.Space(STORE_PRIMARY_KEY, STORE_SECONDARY_KEY))
    }

    /** The refinement invariant: the persisted namespace mirrors the map. */
    ghost predicate Valid()
      reads this, store
    {
      codec.Lawful() && State().Mirrored(codec)
    }

    /**
     * `new`: fills the map from the persisted entries, in the order listed. It panics on an entry
     * that it cannot read; entries that the store itself wrote give back the map that wrote them.
     */
    constructor (codec: Codec, store: KvStore)
      requires codec.Lawful()
      requires forall key :: key in store.Space(STORE_PRIMARY_KEY, STORE_SECONDARY_KEY) ==>
                 && codec.readKey(key).Some?
                 && codec.decode(store.Space(STORE_PRIMARY_KEY, STORE_SECONDARY_KEY)[key]).Some?
      ensures this.codec == codec && this.store == store
      ensures exists keys: seq<string> ::
                Lists(keys, State().disk) && Loaded(codec, keys, State().disk) == Some(txMetadata)
      ensures forall mem: MetadataMap ::
                StoreState(mem, State().disk).Mirrored(codec) ==> Valid() && txMetadata == mem
    {
      var disk := store.Space(STORE_PRIMARY_KEY, STORE_SECONDARY_KEY);
      var keys := store.List(STORE_PRIMARY_KEY, STORE_SECONDARY_KEY);
      var loaded: MetadataMap := map[];
      for i := 0 to |keys|
        invariant Loaded(codec, keys[..i], disk) == Some(loaded)
      {
        assert keys[..i + 1][..i] == keys[..i];
        assert keys[i] in keys;
        loaded := loaded[codec.readKey(keys[i]).value := codec.decode(disk[keys[i]]).value];
      }
      assert keys[..|keys|] == keys;
      this.codec := codec;
      this.store := store;
      txMetadata := loaded;
      new;
      assert State().disk == disk;
      assert Lists(keys, State().disk) && Loaded(this.codec, keys, State().disk) == Some(txMetadata);
      forall mem: MetadataMap | StoreState(mem, disk).Mirrored(codec)
        ensures Valid() && txMetadata == mem
      {
        ReloadExact(codec, keys, StoreState(mem, disk));
      }
    }

    method DoSet(id: PaymentId, metadata: TxMetadata) returns (hadOld: bool)
      requires Valid()
      modifies this, store
      ensures Valid() && State() == old(State()).Set(codec, id, metadata)
      ensures hadOld == (id in old(txMetadata))
      ensures txMetadata == old(txMetadata)[id := metadata]
      ensures forall p, s :: (p, s) != (STORE_PRIMARY_KEY, STORE_SECONDARY_KEY) ==>
                store.Space(p, s) == old(store.Space(p, s))
    {
      SetMirrored(codec, State(), id, metadata);
      hadOld := id in txMetadata;
      txMetadata := txMetadata[id := metadata];
      store.Write(STORE_PRIMARY_KEY, STORE_SECONDARY_KEY, codec.keyText(id), codec.encode(metadata));
    }

    method Upsert(id: PaymentId, metadata: TxMetadata)
      requires Valid()
      modifies this, store
      ensures Valid() && State() == old(State()).Set(codec, id, metadata)
      ensures txMetadata == old(txMetadata)[id := metadata]
    {
      var _ := DoSet(id, metadata);
    }

    /** A debug build also asserts that the key was new; a release build overwrites. */
    method Insert(id: PaymentId, metadata: TxMetadata)
      requires Valid()
      modifies this, store
      ensures Valid() && State() == old(State()).Set(codec, id, metadata)
      ensures txMetadata == old(txMetadata)[id := metadata]
    {
      var _ := DoSet(id, metadata);
    }

    method SetTxCausedRebalance(id: PaymentId) returns (marked: bool)
      requires Valid()
      modifies this, store
      ensures Valid() && State() == old(State()).Mark(codec, id)
      ensures marked == old(State()).HasPayment(id)
      ensures marked ==> txMetadata[id].time == old(txMetadata)[id].time && State().HasTrigger(id)
    {
      if id in txMetadata && txMetadata[id].ty.Payment? {
        var metadata := txMetadata[id].(ty := PaymentTriggeringTransferToNonCustodial(txMetadata[id].ty.ty));
        SetMirrored(codec, State(), id, metadata);
        txMetadata := txMetadata[id := metadata];
        store.Write(STORE_PRIMARY_KEY, STORE_SECONDARY_KEY, codec.keyText(id), codec.encode(metadata));
        marked := true;
      } else {
        marked := false;
      }
    }
  }
}
