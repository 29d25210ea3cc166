/** Browser persistence (services/storageService.ts), modelled as state held by one object:
    the two localStorage entries as a map from key to parsed entry, and the IndexedDB object
    store `documents` as a map from document id (its key path) to document. Each engine has an
    availability flag: when it is off, every call into it throws, and the service swallows the
    failure. */
module StorageService {
  import opened Wrappers
  import opened Types

  const ExamplesKey := "vertex_demo_examples"
  const ChatKey := "vertex_demo_chat"

  /** What `JSON.parse` makes of one localStorage entry. */
  datatype Entry = ExampleList(examples: seq<TrainingExample>) | ChatLog(messages: seq<Message>) | Unparseable

  /** `loadExamples` on a working localStorage: the parsed list, or [] for a missing or unreadable entry. */
  function ExamplesIn(local: map<string, Entry>): (r: seq<TrainingExample>)
    ensures ExamplesKey !in local || !local[ExamplesKey].ExampleList? ==> r == []
    ensures ExamplesKey in local && local[ExamplesKey].ExampleList? ==> r == local[ExamplesKey].examples
  {
    if ExamplesKey in local && local[ExamplesKey].ExampleList? then local[ExamplesKey].examples else []
  }

  /** `loadChatHistory` on a working localStorage. */
  function ChatIn(local: map<string, Entry>): (r: seq<Message>)
    ensures ChatKey !in local || !local[ChatKey].ChatLog? ==> r == []
    ensures ChatKey in local && local[ChatKey].ChatLog? ==> r == local[ChatKey].messages
  {
    if ChatKey in local && local[ChatKey].ChatLog? then local[ChatKey].messages else []
  }

  // ---------------------------------------------------------------------------------------
  // The object store, keyed by document id

  /** The ids occurring in a list of documents. */
  function IdSet(ds: seq<TrainingDocument>): (r: set<string>)
    ensures forall i | 0 <= i < |ds| :: ds[i].id in r
  {
    if ds == [] then {} else IdSet(ds[..|ds| - 1]) + {ds[|ds| - 1].id}
  }

  /** Every id in `IdSet(ds)` is the id of some document of `ds`. */
  lemma {:induction false} IdSetWitness(ds: seq<TrainingDocument>, id: string)
    ensures id in IdSet(ds) ==> exists i :: 0 <= i < |ds| && ds[i].id == id
  {
    if ds != [] && id != ds[|ds| - 1].id {
      IdSetWitness(ds[..|ds| - 1], id);
      if id in IdSet(ds) {
        var i :| 0 <= i < |ds| - 1 && ds[..|ds| - 1][i].id == id;
        assert ds[i].id == id;
      }
    }
  }

  predicate DistinctIds(ds: seq<TrainingDocument>) {
    forall i, j | 0 <= i < j < |ds| :: ds[i].id != ds[j].id
  }

  /** The store's contents after an empty store has had `put(d)` run for each `d` of `ds` in order. */
  function Keyed(ds: seq<TrainingDocument>): (m: map<string, TrainingDocument>)
    ensures m.Keys == IdSet(ds)
    ensures forall id | id in m :: m[id].id == id
  {
    if ds == [] then map[]
    else
      var last := ds[|ds| - 1];
      Keyed(ds[..|ds| - 1])[last.id := last]
  }

  /** A put overwrites: the record kept under an id is the LAST document with that id. */
  lemma {:induction false} KeyedLastWins(ds: seq<TrainingDocument>, i: nat)
    requires i < |ds|
    requires forall j | i < j < |ds| :: ds[j].id != ds[i].id
    ensures ds[i].id in Keyed(ds) && Keyed(ds)[ds[i].id] == ds[i]
  {
    var n := |ds| - 1;
    if i < n {
      KeyedLastWins(ds[..n], i);
    }
  }

  lemma {:induction false} DistinctIdsCard(ds: seq<TrainingDocument>)
    requires DistinctIds(ds)
    ensures |IdSet(ds)| == |ds|
  {
    if ds != [] {
      var n := |ds| - 1;
      DistinctIdsCard(ds[..n]);
      IdSetWitness(ds[..n], ds[n].id);
      assert forall i | 0 <= i < n :: ds[..n][i].id != ds[n].id;
    }
  }

  // ---------------------------------------------------------------------------------------
  // Key order: IndexedDB's `getAll` lists records by ascending key

  /** Lexicographic order on strings: a proper prefix comes first. */
  predicate LexLess(a: string, b: string) {
    if a == [] then b != []
    else if b == [] then false
    else if a[0] < b[0] then true
    else if a[0] == b[0] then LexLess(a[1..], b[1..])
    else false
  }

  lemma LexIrreflexive(a: string)
    ensures !LexLess(a, a)
  {
  }

  lemma {:induction false} LexTransitive(a: string, b: string, c: string)
    requires LexLess(a, b) && LexLess(b, c)
    ensures LexLess(a, c)
  {
    if a != [] && b != [] && c != [] && a[0] == b[0] && b[0] == c[0] {
      LexTransitive(a[1..], b[1..], c[1..]);
    }
  }

  lemma {:induction false} LexTotal(a: string, b: string)
    requires a != b
    ensures LexLess(a, b) || LexLess(b, a)
  {
    if a != [] && b != [] && a[0] == b[0] {
      assert a == [a[0]] + a[1..] && b == [b[0]] + b[1..];
      LexTotal(a[1..], b[1..]);
    }
  }

  predicate IsLeast(k: string, s: set<string>) {
    k in s && forall j | j in s :: j == k || LexLess(k, j)
  }

  /** Every non-empty finite set of keys has a least key. */
  lemma {:induction false} LeastExists(s: set<string>)
    requires s != {}
    ensures exists k :: IsLeast(k, s)
  {
    var x :| x in s;
    if s != {x} {
      LeastExists(s - {x});
      var m :| IsLeast(m, s - {x});
      if LexLess(x, m) {
        forall j | j in s && j != x ensures LexLess(x, j) {
          if j != m {
            LexTransitive(x, m, j);
          }
        }
        assert IsLeast(x, s);
      } else {
        LexTotal(x, m);
        assert IsLeast(m, s);
      }
    } else {
      assert IsLeast(x, s);
    }
  }

  predicate SortedById(ds: seq<TrainingDocument>) {
    forall i, j | 0 <= i < j < |ds| :: LexLess(ds[i].id, ds[j].id)
  }

  /** `ds` is what `getAll` returns for the store `m`: every record once, ascending by key. */
  ghost predicate ListsStore(ds: seq<TrainingDocument>, m: map<string, TrainingDocument>) {
    && SortedById(ds)
    && (forall i | 0 <= i < |ds| :: ds[i].id in m && m[ds[i].id] == ds[i])
    && (forall id | id in m :: m[id] in ds)
  }

  lemma SortedDistinct(ds: seq<TrainingDocument>)
    requires SortedById(ds)
    ensures DistinctIds(ds)
  {
    forall i, j | 0 <= i < j < |ds| ensures ds[i].id != ds[j].id {
      LexIrreflexive(ds[i].id);
    }
  }

  lemma ListedIds(ds: seq<TrainingDocument>, m: map<string, TrainingDocument>)
    requires ListsStore(ds, m)
    requires forall id | id in m :: m[id].id == id
    ensures IdSet(ds) == m.Keys && |ds| == |m.Keys|
  {
    forall id | id in m ensures id in IdSet(ds) {
      var i :| 0 <= i < |ds| && ds[i] == m[id];
      assert ds[i].id == id;
    }
    forall id | id in IdSet(ds) ensures id in m {
      IdSetWitness(ds, id);
    }
    assert IdSet(ds) == m.Keys;
    SortedDistinct(ds);
    DistinctIdsCard(ds);
  }

  /** Every stored record is one of the documents put. */
  lemma {:induction false} KeyedValueIn(ds: seq<TrainingDocument>, id: string)
    ensures id in Keyed(ds) ==> Keyed(ds)[id] in ds
  {
    if ds != [] && id != ds[|ds| - 1].id {
      KeyedValueIn(ds[..|ds| - 1], id);
    }
  }

  /** Saving a list with distinct ids and listing the store gives back the same documents, each
      once (in key order, which need not be the order saved). */
  lemma DocumentsRoundTrip(ds: seq<TrainingDocument>, loaded: seq<TrainingDocument>)
    requires DistinctIds(ds)
    requires ListsStore(loaded, Keyed(ds))
    ensures |loaded| == |ds|
    ensures forall d :: d in loaded <==> d in ds
  {
    var m := Keyed(ds);
    ListedIds(loaded, m);
    DistinctIdsCard(ds);
    forall d | d in ds ensures d in loaded {
      var i :| 0 <= i < |ds| && ds[i] == d;
      KeyedLastWins(ds, i);
    }
    forall d | d in loaded ensures d in ds {
      KeyedValueIn(ds, d.id);
    }
  }

  /** Saving what the store lists leaves the store as it was. */
  lemma {:induction false} ResaveListed(loaded: seq<TrainingDocument>, m: map<string, TrainingDocument>)
    requires ListsStore(loaded, m)
    requires forall id | id in m :: m[id].id == id
    ensures Keyed(loaded) == m
  {
    ListedIds(loaded, m);
    SortedDistinct(loaded);
    forall id | id in m ensures Keyed(loaded)[id] == m[id] {
      var i :| 0 <= i < |loaded| && loaded[i] == m[id];
      KeyedLastWins(loaded, i);
    }
  }

  // ---------------------------------------------------------------------------------------

  class Storage {
    var local: map<string, Entry>
    var localAvailable: bool
    var docs: map<string, TrainingDocument>
    var dbAvailable: bool

    /** Every record sits under its own id, the object store's key path. */
    ghost predicate Valid()
      reads this
    {
      forall id | id in docs :: docs[id].id == id
    }

    /** What `loadExamples` and `loadChatHistory` return in this state. */
    function ExamplesView(): seq<TrainingExample>
      reads this
    {
      if localAvailable then ExamplesIn(local) else []
    }

    function ChatView(): seq<Message>
      reads this
    {
      if localAvailable then ChatIn(local) else []
    }

    constructor (local: map<string, Entry>, localAvailable: bool,
                 docs: map<string, TrainingDocument>, dbAvailable: bool)
      requires forall id | id in docs :: docs[id].id == id
      ensures Valid()
      ensures this.local == local && this.localAvailable == localAvailable
      ensures this.docs == docs && this.dbAvailable == dbAvailable
    {
      this.local := local;
      this.localAvailable := localAvailable;
      this.docs := docs;
      this.dbAvailable := dbAvailable;
    }

    method SaveExamples(examples: seq<TrainingExample>)
      requires Valid()
      modifies this`local
      ensures Valid()
      ensures local == if localAvailable then old(local)[ExamplesKey := ExampleList(examples)] else old(local)
    {
      if localAvailable {
        local := local[ExamplesKey := ExampleList(examples)];
      }
    }

    method LoadExamples() returns (examples: seq<TrainingExample>)
      ensures examples == ExamplesView()
    {
      if !localAvailable {
        return [];
      }
      if ExamplesKey in local && local[ExamplesKey].ExampleList? {
        examples := local[ExamplesKey].examples;
      } else {
        examples := [];
      }
    }

    method SaveChatHistory(messages: seq<Message>)
      requires Valid()
      modifies this`local
      ensures Valid()
      ensures local == if localAvailable then old(local)[ChatKey := ChatLog(messages)] else old(local)
    {
      if localAvailable {
        local := local[ChatKey := ChatLog(messages)];
      }
    }

    method LoadChatHistory() returns (messages: seq<Message>)
      ensures messages == ChatView()
    {
      if !localAvailable {
        return [];
      }
      if ChatKey in local && local[ChatKey].ChatLog? {
        messages := local[ChatKey].messages;
      } else {
        messages := [];
      }
    }

    /** Clear the object store, then put every document in order. */
    method SaveDocuments(ds: seq<TrainingDocument>)
      requires Valid()
      modifies this`docs
      ensures Valid()
      ensures docs == if dbAvailable then Keyed(ds) else old(docs)
    {
      if !dbAvailable {
        return;
      }
      docs := map[];
      for i := 0 to |ds|
        invariant docs == Keyed(ds[..i])
      {
        assert ds[..i + 1][..i] == ds[..i];
        docs := docs[ds[i].id := ds[i]];
      }
      assert ds[..|ds|] == ds;
    }

    /** `getAll`: every record once, ascending by key; [] when the database cannot be opened. */
    method LoadDocuments() returns (ds: seq<TrainingDocument>)
      requires Valid()
      ensures !dbAvailable ==> ds == []
      ensures dbAvailable ==> ListsStore(ds, docs)
    {
      ds := [];
      if !dbAvailable {
        return;
      }
      var rest := docs.Keys;
      while rest != {}
        invariant rest <= docs.Keys
        invariant SortedById(ds)
        invariant forall i | 0 <= i < |ds| :: ds[i].id in docs && docs[ds[i].id] == ds[i] && ds[i].id !in rest
        invariant forall i, k | 0 <= i < |ds| && k in rest :: LexLess(ds[i].id, k)
        invariant forall id | id in docs && id !in rest :: docs[id] in ds
        decreases rest
      {
        LeastExists(rest);
        var k :| IsLeast(k, rest);
        ds := ds + [docs[k]];
        rest := rest - {k};
      }
    }

    /** Remove both localStorage keys, then clear the object store. The removals are not guarded:
        when localStorage throws, the call rejects before the object store is touched. */
    method ClearAllData() returns (completed: bool)
      requires Valid()
      modifies this`local, this`docs
      ensures Valid()
      ensures completed == localAvailable
      ensures local == if localAvailable then old(local) - {ExamplesKey, ChatKey} else old(local)
      ensures docs == if localAvailable && dbAvailable then map[] else old(docs)
    {
      if !localAvailable {
        return false;
      }
      local := local - {ExamplesKey, ChatKey};
      if dbAvailable {
        docs := map[];
      }
      completed := true;
    }
  }

  // ---------------------------------------------------------------------------------------
  // Properties of the localStorage entries

  /** Loading after saving gives back what was saved, for either key. */
  lemma LocalRoundTrip(local: map<string, Entry>, examples: seq<TrainingExample>, messages: seq<Message>)
    ensures ExamplesIn(local[ExamplesKey := ExampleList(examples)]) == examples
    ensures ChatIn(local[ChatKey := ChatLog(messages)]) == messages
  {
  }

  /** The two keys are distinct, so saving one leaves the other's value alone. */
  lemma KeysIsolated(local: map<string, Entry>, examples: seq<TrainingExample>, messages: seq<Message>)
    ensures ChatIn(local[ExamplesKey := ExampleList(examples)]) == ChatIn(local)
    ensures ExamplesIn(local[ChatKey := ChatLog(messages)]) == ExamplesIn(local)
  {
    assert ExamplesKey[12] == 'e' && ChatKey[12] == 'c';
  }

  /** After both keys are removed, both loads find nothing. */
  lemma ClearedLoadsEmpty(local: map<string, Entry>)
    ensures ExamplesIn(local - {ExamplesKey, ChatKey}) == []
    ensures ChatIn(local - {ExamplesKey, ChatKey}) == []
  {
  }
}
