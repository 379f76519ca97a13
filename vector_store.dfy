/**
 * The vector collection shared by `VectorStore` (src/services/vector_store.py) and
 * `DocumentProcessor`. The remote collection is an in-memory sequence of records;
 * `delete_many({"source_key": k})` removes the records of one source and
 * `insert_many(docs)` appends.
 */
module VectorStore {
  import opened Wrappers

  /** An embedding vector; the model never computes with it. */
  type Embedding = seq<real>

  /**
   * A document of the collection. `created_at` and `type` exist only on the records that
   * `VectorStore.insert_embeddings` writes.
   */
  datatype Record = Record(
    text: string,
    vector: Embedding,
    sourceKey: string,
    sourceLabel: string,
    createdAt: Option<string>,
    kind: Option<string>)

  /** Python's `zip(xs, ys)`: pairs up to the shorter of the two. */
  function Zip<A, B>(xs: seq<A>, ys: seq<B>): (r: seq<(A, B)>)
    ensures |r| == if |xs| <= |ys| then |xs| else |ys|
    ensures forall i | 0 <= i < |r| :: r[i] == (xs[i], ys[i])
  {
    if xs == [] || ys == [] then []
    else
      var rest := Zip(xs[1..], ys[1..]);
      assert forall i | 1 <= i < |rest| + 1 :: xs[i] == xs[1..][i - 1] && ys[i] == ys[1..][i - 1];
      [(xs[0], ys[0])] + rest
  }

  /** The records that survive `delete_many({"source_key": key})`, in order. */
  function WithoutSource(records: seq<Record>, key: string): (r: seq<Record>)
    ensures |r| <= |records|
    ensures forall x | x in r :: x in records && x.sourceKey != key
    ensures forall x | x in records && x.sourceKey != key :: x in r
  {
    if records == [] then []
    else (if records[0].sourceKey != key then [records[0]] else []) + WithoutSource(records[1..], key)
  }

  /** The records of one source, in order. */
  function WithSource(records: seq<Record>, key: string): (r: seq<Record>)
    ensures |r| <= |records|
    ensures forall x | x in r :: x in records && x.sourceKey == key
    ensures forall x | x in records && x.sourceKey == key :: x in r
  {
    if records == [] then []
    else (if records[0].sourceKey == key then [records[0]] else []) + WithSource(records[1..], key)
  }

  lemma {:induction false} WithSourceDistributes(a: seq<Record>, b: seq<Record>, key: string)
    ensures WithSource(a + b, key) == WithSource(a, key) + WithSource(b, key)
  {
    if a == [] {
      assert a + b == b;
    } else {
      assert (a + b)[1..] == a[1..] + b;
      WithSourceDistributes(a[1..], b, key);
    }
  }

  lemma {:induction false} WithoutSourceDistributes(a: seq<Record>, b: seq<Record>, key: string)
    ensures WithoutSource(a + b, key) == WithoutSource(a, key) + WithoutSource(b, key)
  {
    if a == [] {
      assert a + b == b;
    } else {
      assert (a + b)[1..] == a[1..] + b;
      WithoutSourceDistributes(a[1..], b, key);
    }
  }

  /** Deleting a source empties it and leaves every other source exactly as it was. */
  lemma {:induction false} WithSourceAfterDelete(records: seq<Record>, key: string, other: string)
    ensures WithSource(WithoutSource(records, key), other) == if other == key then [] else WithSource(records, other)
  {
    if records != [] {
      WithSourceAfterDelete(records[1..], key, other);
      var head := if records[0].sourceKey != key then [records[0]] else [];
      WithSourceDistributes(head, WithoutSource(records[1..], key), other);
    }
  }

  /** A sequence whose records all belong to `key` is its own `WithSource` and vanishes under `WithoutSource`. */
  lemma {:induction false} SingleSource(records: seq<Record>, key: string)
    requires forall i | 0 <= i < |records| :: records[i].sourceKey == key
    ensures WithSource(records, key) == records
    ensures WithoutSource(records, key) == []
    ensures forall other | other != key :: WithSource(records, other) == []
  {
    if records != [] {
      SingleSource(records[1..], key);
      assert [records[0]] + records[1..] == records;
    }
  }

  class Collection {
    var records: seq<Record>

    constructor (initial: seq<Record>)
      ensures records == initial
    {
      records := initial;
    }

    /** `delete_many({"source_key": key})`. */
    method DeleteMany(key: string)
      modifies this
      ensures records == WithoutSource(old(records), key)
    {
      records := WithoutSource(records, key);
    }

    /** `insert_many(documents)`. */
    method InsertMany(documents: seq<Record>)
      modifies this
      ensures records == old(records) + documents
    {
      records := records + documents;
    }
  }

  /**
   * The documents `insert_embeddings` builds: one per (chunk, embedding) pair, each with
   * the given source and type and its own reading of the clock.
   */
  function StampedRecords(chunks: seq<string>, embeddings: seq<Embedding>, key: string, sourceLabel: string,
                          kind: string, clock: nat -> string): (r: seq<Record>)
    ensures |r| == if |chunks| <= |embeddings| then |chunks| else |embeddings|
    ensures forall i | 0 <= i < |r| ::
      && r[i].text == chunks[i] && r[i].vector == embeddings[i]
      && r[i].sourceKey == key && r[i].sourceLabel == sourceLabel
      && r[i].createdAt == Some(clock(i)) && r[i].kind == Some(kind)
  {
    var pairs := Zip(chunks, embeddings);
    seq(|pairs|, i requires 0 <= i < |pairs| => Record(pairs[i].0, pairs[i].1, key, sourceLabel, Some(clock(i)), Some(kind)))
  }

  class VectorStore {
    const collection: Collection

    constructor (collection: Collection)
      ensures this.collection == collection
    {
      this.collection := collection;
    }

    /** `delete_embeddings`: removes exactly the records of `key`. */
    method DeleteEmbeddings(key: string)
      modifies collection
      ensures collection.records == WithoutSource(old(collection.records), key)
      ensures WithSource(collection.records, key) == []
      ensures forall other | other != key ::
        WithSource(collection.records, other) == WithSource(old(collection.records), other)
    {
      WithSourceAfterDelete(collection.records, key, key);
      forall other | other != key
        ensures WithSource(WithoutSource(collection.records, key), other) == WithSource(collection.records, other)
      {
        WithSourceAfterDelete(collection.records, key, other);
      }
      collection.DeleteMany(key);
    }

    /** `insert_embeddings`: appends the stamped documents. */
    method InsertEmbeddings(chunks: seq<string>, embeddings: seq<Embedding>, key: string, sourceLabel: string,
                            kind: string, clock: nat -> string)
      modifies collection
      ensures collection.records == old(collection.records) + StampedRecords(chunks, embeddings, key, sourceLabel, kind, clock)
    {
      collection.InsertMany(StampedRecords(chunks, embeddings, key, sourceLabel, kind, clock));
    }
  }
}
