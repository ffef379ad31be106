// internal/services/dataObjectServices.go:38-195: the key/value editor of
// ConfigMaps and Secrets, and its saves against a store with versions.

module DataObject {
  import opened Options
  import opened Utf8
  import opened Base64

  type Bytes = seq<Byte>

  datatype Kind = ConfigMap | Secret

  /** What the object holds: a ConfigMap's data and binaryData, or a Secret's data alone. */
  datatype Content = Content(data: map<string, Bytes>, binary: map<string, Bytes>)

  datatype Entry = Entry(key: string, value: string, binary: bool)

  datatype Error = BadKey(key: string) | Twice(key: string) | NotBase64(key: string) | Immutable | Conflict | NotFound

  datatype Result<T> = Ok(value: T) | Err(error: Error)

  // ---- Loading ----

  /** `e` is the entry of one key of `o`. */
  predicate EntryOf(kind: Kind, o: Content, e: Entry) {
    match kind
    case ConfigMap =>
      if e.binary then e.key in o.binary && e.value == Encode(o.binary[e.key])
      else e.key in o.data && e.value == Encode(o.data[e.key])
    case Secret =>
      e.key in o.data && e.value == Encode(o.data[e.key]) && e.binary == !Valid(o.data[e.key])
  }

  /** The entries are those of `o`, each once, in some order. */
  ghost predicate Lists(kind: Kind, o: Content, entries: seq<Entry>) {
    && (forall i :: 0 <= i < |entries| ==> EntryOf(kind, o, entries[i]))
    && (forall i, j :: 0 <= i < j < |entries| ==> entries[i] != entries[j])
    && (forall e :: EntryOf(kind, o, e) ==> e in entries)
  }

  /** GetDataObject's loops; the map order is any, and the sort that follows does not matter here. */
  method Load(kind: Kind, o: Content) returns (entries: seq<Entry>)
    ensures Lists(kind, o, entries)
  {
    hide Encode, Valid;
    entries := [];
    var todo := o.data.Keys;
    while todo != {}
      invariant todo <= o.data.Keys
      invariant forall i :: 0 <= i < |entries| ==>
        EntryOf(kind, o, entries[i]) && entries[i].key in o.data && entries[i].key !in todo && (kind == ConfigMap ==> !entries[i].binary)
      invariant forall i, j :: 0 <= i < j < |entries| ==> entries[i] != entries[j]
      invariant forall k :: k in o.data && k !in todo ==> DataEntry(kind, o, k) in entries
      decreases todo
    {
      var k :| k in todo;
      todo := todo - {k};
      entries := entries + [DataEntry(kind, o, k)];
    }
    if kind == ConfigMap {
      todo := o.binary.Keys;
      while todo != {}
        invariant todo <= o.binary.Keys
        invariant forall i :: 0 <= i < |entries| ==>
          EntryOf(kind, o, entries[i]) && (entries[i].binary ==> entries[i].key !in todo)
        invariant forall i, j :: 0 <= i < j < |entries| ==> entries[i] != entries[j]
        invariant forall k :: k in o.data ==> DataEntry(kind, o, k) in entries
        invariant forall k :: k in o.binary && k !in todo ==> Entry(k, Encode(o.binary[k]), true) in entries
        decreases todo
      {
        var k :| k in todo;
        todo := todo - {k};
        entries := entries + [Entry(k, Encode(o.binary[k]), true)];
      }
    }
  }

  function DataEntry(kind: Kind, o: Content, k: string): Entry
    requires k in o.data
  {
    Entry(k, Encode(o.data[k]), kind == Secret && !Valid(o.data[k]))
  }

  // ---- Decoding what is saved ----

  predicate ToBinary(kind: Kind, e: Entry, v: Bytes) { e.binary || (kind == ConfigMap && !Valid(v)) }

  /** decodeEntries on the first `n` entries. `legal` is the API server's rule for keys. */
  function Split(kind: Kind, entries: seq<Entry>, n: nat, legal: string -> bool): Result<Content>
    requires n <= |entries|
  {
    if n == 0 then Ok(Content(map[], map[]))
    else
      var before := Split(kind, entries, n - 1, legal);
      if before.Err? then before
      else
        var e, c := entries[n - 1], before.value;
        if !legal(e.key) then Err(BadKey(e.key))
        else if e.key in c.data || e.key in c.binary then Err(Twice(e.key))
        else
          var v := Decode(e.value);
          if v.None? then Err(NotBase64(e.key))
          else Ok(With(kind, c, e, v.value))
  }

  function With(kind: Kind, c: Content, e: Entry, v: Bytes): Content {
    if ToBinary(kind, e, v) then c.(binary := c.binary[e.key := v]) else c.(data := c.data[e.key := v])
  }

  method DecodeEntries(kind: Kind, entries: seq<Entry>, legal: string -> bool) returns (r: Result<Content>)
    ensures r == Split(kind, entries, |entries|, legal)
  {
    hide Decode, Valid;
    var data: map<string, Bytes>, binary: map<string, Bytes> := map[], map[];
    for n := 0 to |entries|
      invariant Split(kind, entries, n, legal) == Ok(Content(data, binary))
    {
      var e := entries[n];
      if !legal(e.key) {
        ErrStays(kind, entries, n + 1, legal);
        return Err(BadKey(e.key));
      }
      if e.key in data || e.key in binary {
        ErrStays(kind, entries, n + 1, legal);
        return Err(Twice(e.key));
      }
      var v := Decode(e.value);
      if v.None? {
        ErrStays(kind, entries, n + 1, legal);
        return Err(NotBase64(e.key));
      }
      if e.binary || (kind == ConfigMap && !Valid(v.value)) {
        binary := binary[e.key := v.value];
      } else {
        data := data[e.key := v.value];
      }
    }
    return Ok(Content(data, binary));
  }

  lemma {:induction false} ErrStays(kind: Kind, entries: seq<Entry>, n: nat, legal: string -> bool)
    requires n <= |entries| && Split(kind, entries, n, legal).Err?
    ensures Split(kind, entries, |entries|, legal) == Split(kind, entries, n, legal)
    decreases |entries| - n
  {
    if n < |entries| {
      ErrStays(kind, entries, n + 1, legal);
    }
  }

  predicate Good(entries: seq<Entry>, n: nat, legal: string -> bool)
    requires n <= |entries|
  {
    && (forall i :: 0 <= i < n ==> legal(entries[i].key) && Decode(entries[i].value).Some?)
    && (forall i, j :: 0 <= i < j < n ==> entries[i].key != entries[j].key)
  }

  /** `e` is stored in `c` with its decoded value, on the side its kind, flag and bytes put it. */
  predicate Placed(kind: Kind, e: Entry, c: Content) {
    var v := Decode(e.value);
    v.Some? && if ToBinary(kind, e, v.value) then e.key in c.binary && c.binary[e.key] == v.value
               else e.key in c.data && c.data[e.key] == v.value
  }

  /** `c` holds the first `n` entries and nothing else. */
  predicate Splits(kind: Kind, entries: seq<Entry>, n: nat, c: Content)
    requires n <= |entries|
  {
    && c.data.Keys !! c.binary.Keys
    && (forall i :: 0 <= i < n ==> Placed(kind, entries[i], c))
    && (forall k :: k in c.data.Keys + c.binary.Keys ==> exists i :: 0 <= i < n && entries[i].key == k)
  }

  lemma SplitsMore(kind: Kind, entries: seq<Entry>, n: nat, c: Content, next: Content)
    requires n < |entries| && Splits(kind, entries, n, c)
    requires entries[n].key !in c.data && entries[n].key !in c.binary && Decode(entries[n].value).Some?
    requires next == With(kind, c, entries[n], Decode(entries[n].value).value)
    ensures Splits(kind, entries, n + 1, next)
  {
    hide Decode, Valid;
    forall k | k in next.data.Keys + next.binary.Keys ensures exists i :: 0 <= i < n + 1 && entries[i].key == k {
      if k == entries[n].key {
        assert entries[n].key == k;
      } else {
        assert k in c.data.Keys + c.binary.Keys;
        var i :| 0 <= i < n && entries[i].key == k;
      }
    }
  }

  lemma GoodMore(kind: Kind, entries: seq<Entry>, n: nat, c: Content, legal: string -> bool)
    requires n < |entries| && Good(entries, n, legal) && Splits(kind, entries, n, c)
    ensures Good(entries, n + 1, legal) <==>
            (legal(entries[n].key) && Decode(entries[n].value).Some? && entries[n].key !in c.data && entries[n].key !in c.binary)
  {
    hide Decode, Valid;
    var k := entries[n].key;
    assert forall i :: 0 <= i < n ==> Placed(kind, entries[i], c) && entries[i].key in c.data.Keys + c.binary.Keys;
    if k in c.data.Keys + c.binary.Keys {
      var i :| 0 <= i < n && entries[i].key == k;
    }
  }

  /** Exactly the lists of legal, different keys with base 64 values are accepted, and each value goes to its side. */
  lemma {:induction false} SplitIff(kind: Kind, entries: seq<Entry>, n: nat, legal: string -> bool)
    requires n <= |entries|
    ensures var r := Split(kind, entries, n, legal);
      (r.Ok? <==> Good(entries, n, legal)) && (r.Ok? ==> Splits(kind, entries, n, r.value))
  {
    hide Decode, Valid, Good, Splits;
    if n == 0 {
      Nothing(kind, entries, legal);
    } else {
      SplitIff(kind, entries, n - 1, legal);
      var before := Split(kind, entries, n - 1, legal);
      if before.Ok? {
        GoodMore(kind, entries, n - 1, before.value, legal);
        var r := Split(kind, entries, n, legal);
        if r.Ok? {
          SplitsMore(kind, entries, n - 1, before.value, r.value);
        }
      } else {
        GoodLess(entries, n, legal);
      }
    }
  }

  lemma Nothing(kind: Kind, entries: seq<Entry>, legal: string -> bool)
    ensures Good(entries, 0, legal) && Splits(kind, entries, 0, Content(map[], map[]))
  {
  }

  lemma GoodLess(entries: seq<Entry>, n: nat, legal: string -> bool)
    requires 0 < n <= |entries|
    ensures Good(entries, n, legal) ==> Good(entries, n - 1, legal)
  {
  }

  // ---- Loading and saving unedited ----

  /** What SaveDataObject writes: a Secret keeps both sides in its data. */
  function Stored(kind: Kind, c: Content): Content {
    if kind == ConfigMap then c else Content(c.data + c.binary, map[])
  }

  function ValueOf(kind: Kind, o: Content, e: Entry): Bytes
    requires EntryOf(kind, o, e)
  {
    if kind == ConfigMap && e.binary then o.binary[e.key] else o.data[e.key]
  }

  lemma LoadedDecodes(kind: Kind, o: Content, e: Entry)
    requires EntryOf(kind, o, e)
    ensures Decode(e.value) == Some(ValueOf(kind, o, e))
  {
    RoundTrip(ValueOf(kind, o, e));
  }

  lemma Listed(kind: Kind, o: Content, entries: seq<Entry>, k: string)
    requires Lists(kind, o, entries)
    ensures k in o.data ==> DataEntry(kind, o, k) in entries
    ensures kind == ConfigMap && k in o.binary ==> Entry(k, Encode(o.binary[k]), true) in entries
  {
    hide Encode, Valid;
    if k in o.data {
      assert EntryOf(kind, o, DataEntry(kind, o, k));
    }
    if kind == ConfigMap && k in o.binary {
      assert EntryOf(kind, o, Entry(k, Encode(o.binary[k]), true));
    }
  }

  /** Loaded entries decode, and their keys are the object's. */
  lemma LoadedKeys(kind: Kind, o: Content, entries: seq<Entry>)
    requires Lists(kind, o, entries) && (kind == Secret ==> o.binary == map[])
    ensures forall i :: 0 <= i < |entries| ==>
      Decode(entries[i].value).Some? && entries[i].key in o.data.Keys + o.binary.Keys
    ensures forall k :: k in o.data.Keys + o.binary.Keys ==> exists i :: 0 <= i < |entries| && entries[i].key == k
  {
    hide Encode, Valid, Decode;
    forall i | 0 <= i < |entries| ensures Decode(entries[i].value).Some? {
      LoadedDecodes(kind, o, entries[i]);
    }
    forall k | k in o.data.Keys + o.binary.Keys ensures exists i :: 0 <= i < |entries| && entries[i].key == k {
      Listed(kind, o, entries, k);
    }
  }

  /** Two loaded entries have the same key exactly when the key is on both sides. */
  lemma SameKeyTwice(kind: Kind, o: Content, entries: seq<Entry>)
    requires Lists(kind, o, entries) && (kind == Secret ==> o.binary == map[])
    ensures o.data.Keys !! o.binary.Keys <==> forall i, j :: 0 <= i < j < |entries| ==> entries[i].key != entries[j].key
  {
    hide Encode, Valid;
    if k :| k in o.data && k in o.binary {
      Listed(kind, o, entries, k);
      var i :| 0 <= i < |entries| && entries[i] == DataEntry(kind, o, k);
      var j :| 0 <= j < |entries| && entries[j] == Entry(k, Encode(o.binary[k]), true);
      assert entries[i].key == entries[j].key && i != j;
    }
  }

  /** What is loaded can be saved again exactly when the keys are legal and no key is on both sides. */
  lemma UneditedIsAccepted(kind: Kind, o: Content, entries: seq<Entry>, legal: string -> bool)
    requires Lists(kind, o, entries) && (kind == Secret ==> o.binary == map[])
    ensures Split(kind, entries, |entries|, legal).Ok? <==>
            ((forall k :: k in o.data.Keys + o.binary.Keys ==> legal(k)) && o.data.Keys !! o.binary.Keys)
  {
    hide Encode, Valid, Decode, Split, Lists, Splits;
    SplitIff(kind, entries, |entries|, legal);
    LoadedKeys(kind, o, entries);
    SameKeyTwice(kind, o, entries);
  }

  /** Where the split puts each key of a loaded object. */
  lemma Lands(kind: Kind, o: Content, entries: seq<Entry>, c: Content, k: string)
    requires Lists(kind, o, entries) && (kind == Secret ==> o.binary == map[]) && Splits(kind, entries, |entries|, c)
    ensures k in o.data ==>
      if Valid(o.data[k]) then k in c.data && c.data[k] == o.data[k] else k in c.binary && c.binary[k] == o.data[k]
    ensures k in o.binary ==> k in c.binary && c.binary[k] == o.binary[k]
    ensures k in c.data.Keys + c.binary.Keys ==> k in o.data.Keys + o.binary.Keys
  {
    hide Encode, Valid, Decode;
    Listed(kind, o, entries, k);
    LoadedKeys(kind, o, entries);
    if k in o.data {
      LoadedDecodes(kind, o, DataEntry(kind, o, k));
      assert Placed(kind, DataEntry(kind, o, k), c);
    }
    if k in o.binary {
      LoadedDecodes(kind, o, Entry(k, Encode(o.binary[k]), true));
      assert Placed(kind, Entry(k, Encode(o.binary[k]), true), c);
    }
  }

  /**
   * Loading and saving unedited keeps a Secret's data always, and a ConfigMap's
   * data/binaryData split exactly when every value of its data is valid UTF-8.
   */
  lemma UneditedSaveKeeps(kind: Kind, o: Content, entries: seq<Entry>, legal: string -> bool)
    requires Lists(kind, o, entries) && (kind == Secret ==> o.binary == map[])
    requires Split(kind, entries, |entries|, legal).Ok?
    ensures Stored(kind, Split(kind, entries, |entries|, legal).value) == o <==>
            (kind == Secret || forall k :: k in o.data ==> Valid(o.data[k]))
  {
    hide Encode, Valid, Decode, Split, Lists, Splits;
    var c := Split(kind, entries, |entries|, legal).value;
    SplitIff(kind, entries, |entries|, legal);
    UneditedIsAccepted(kind, o, entries, legal);
    forall k
      ensures k in o.data ==>
        if Valid(o.data[k]) then k in c.data && c.data[k] == o.data[k] else k in c.binary && c.binary[k] == o.data[k]
      ensures k in o.binary ==> k in c.binary && c.binary[k] == o.binary[k]
      ensures k in c.data.Keys + c.binary.Keys ==> k in o.data.Keys + o.binary.Keys
    {
      Lands(kind, o, entries, c, k);
    }
    SidesApart(kind, entries, c);
    if kind == Secret {
      assert Stored(kind, c).data == o.data;
    } else if forall k :: k in o.data ==> Valid(o.data[k]) {
      assert c.data == o.data && c.binary == o.binary;
    }
  }

  lemma SidesApart(kind: Kind, entries: seq<Entry>, c: Content)
    requires Splits(kind, entries, |entries|, c)
    ensures c.data.Keys !! c.binary.Keys
  {
  }
}
