/**
 * `DocumentProcessor` (src/services/document_processor.py): ingestion of text, PDFs and
 * web pages into the vector collection. Every ingestion replaces one source: it deletes
 * every record with the source's key, then inserts one record per (chunk, embedding).
 *
 * The text splitter, the embedding model, SHA-256 and the PDF and web loaders are
 * uninterpreted functions, gathered in a `Pipeline`.
 */
module DocumentProcessor {
  import opened Wrappers
  import opened PyValues
  import opened PyStrings
  import opened VectorStore

  datatype Pipeline = Pipeline(
    splitText: string -> seq<string>,              // RecursiveCharacterTextSplitter.split_text
    embedDocuments: seq<string> -> seq<Embedding>, // embedding_model.embed_documents
    sha256Hex: string -> string,                   // hashlib.sha256(s.encode('utf-8')).hexdigest()
    loadPdf: seq<bv8> -> seq<string>,              // page contents PyPDFLoader reads from the file
    loadUrl: string -> seq<string>)                // page contents WebBaseLoader fetches

  /** The documents `_insert_embeddings` builds: one per (chunk, embedding) pair. */
  function Documents(chunks: seq<string>, embeddings: seq<Embedding>, key: string, sourceLabel: string): (r: seq<Record>)
    ensures |r| == if |chunks| <= |embeddings| then |chunks| else |embeddings|
    ensures forall i | 0 <= i < |r| ::
      && r[i].text == chunks[i] && r[i].vector == embeddings[i]
      && r[i].sourceKey == key && r[i].sourceLabel == sourceLabel
      && r[i].createdAt.None? && r[i].kind.None?
  {
    var pairs := Zip(chunks, embeddings);
    seq(|pairs|, i requires 0 <= i < |pairs| => Record(pairs[i].0, pairs[i].1, key, sourceLabel, None, None))
  }

  /** The records one text becomes: split, embed, build. */
  function Chunked(p: Pipeline, text: string, key: string, sourceLabel: string): seq<Record> {
    var chunks := p.splitText(text);
    Documents(chunks, p.embedDocuments(chunks), key, sourceLabel)
  }

  /** Delete every record of `key`, then append `added`. */
  function Replace(records: seq<Record>, key: string, added: seq<Record>): seq<Record> {
    WithoutSource(records, key) + added
  }

  /** The collection after `process_text_with_source_key(text, key, sourceLabel)`. */
  function Ingest(p: Pipeline, records: seq<Record>, text: string, key: string, sourceLabel: string): seq<Record> {
    Replace(records, key, Chunked(p, text, key, sourceLabel))
  }

  /** The collection after one iteration of `process_urls`. */
  function IngestUrl(p: Pipeline, records: seq<Record>, url: string): seq<Record> {
    Ingest(p, records, Join(p.loadUrl(url), " "), p.sha256Hex(url), url)
  }

  /** The collection after `process_urls(urls)`: the URLs in list order. */
  function IngestUrls(p: Pipeline, records: seq<Record>, urls: seq<string>): seq<Record> {
    if urls == [] then records
    else IngestUrl(p, IngestUrls(p, records, urls[..|urls| - 1]), urls[|urls| - 1])
  }

  /** After a replacement the only records of the source are the new ones. */
  lemma {:induction false} ReplaceLeavesOnlyNew(records: seq<Record>, key: string, added: seq<Record>)
    requires forall i | 0 <= i < |added| :: added[i].sourceKey == key
    ensures WithSource(Replace(records, key, added), key) == added
  {
    WithSourceDistributes(WithoutSource(records, key), added, key);
    WithSourceAfterDelete(records, key, key);
    SingleSource(added, key);
  }

  /** A replacement leaves the records of every other source untouched. */
  lemma {:induction false} ReplaceKeepsOthers(records: seq<Record>, key: string, added: seq<Record>, other: string)
    requires forall i | 0 <= i < |added| :: added[i].sourceKey == key
    requires other != key
    ensures WithSource(Replace(records, key, added), other) == WithSource(records, other)
  {
    WithSourceDistributes(WithoutSource(records, key), added, other);
    WithSourceAfterDelete(records, key, other);
    SingleSource(added, key);
  }

  /** Replacing a source twice is the same as replacing it once with the second records. */
  lemma {:induction false} ReplaceSupersedes(records: seq<Record>, key: string, first: seq<Record>, second: seq<Record>)
    requires forall i | 0 <= i < |first| :: first[i].sourceKey == key
    ensures Replace(Replace(records, key, first), key, second) == Replace(records, key, second)
  {
    var kept := WithoutSource(records, key);
    WithoutSourceDistributes(kept, first, key);
    WithoutSourceIdempotent(records, key);
    SingleSource(first, key);
    assert WithoutSource(kept + first, key) == kept + [];
    assert kept + [] == kept;
  }

  lemma {:induction false} WithoutSourceIdempotent(records: seq<Record>, key: string)
    ensures WithoutSource(WithoutSource(records, key), key) == WithoutSource(records, key)
  {
    if records != [] {
      WithoutSourceIdempotent(records[1..], key);
      var head := if records[0].sourceKey != key then [records[0]] else [];
      WithoutSourceDistributes(head, WithoutSource(records[1..], key), key);
    }
  }

  lemma ChunkedHasKey(p: Pipeline, text: string, key: string, sourceLabel: string)
    ensures forall i | 0 <= i < |Chunked(p, text, key, sourceLabel)| :: Chunked(p, text, key, sourceLabel)[i].sourceKey == key
  {
  }

  /**
   * `process_text` keys the records by the title alone: ingesting a second text under the
   * same title replaces the first text's records, whatever the texts are.
   */
  lemma SameTitleReplaces(p: Pipeline, records: seq<Record>, title: string, text1: string, text2: string)
    ensures var key := p.sha256Hex(title);
      Ingest(p, Ingest(p, records, text1, key, title), text2, key, title) == Ingest(p, records, text2, key, title)
  {
    var key := p.sha256Hex(title);
    ChunkedHasKey(p, text1, key, title);
    ReplaceSupersedes(records, key, Chunked(p, text1, key, title), Chunked(p, text2, key, title));
  }

  /** URLs whose key differs from `key` leave the records of `key` as they were. */
  lemma {:induction false} IngestUrlsKeepsUnrelated(p: Pipeline, records: seq<Record>, urls: seq<string>, key: string)
    requires forall i | 0 <= i < |urls| :: p.sha256Hex(urls[i]) != key
    ensures WithSource(IngestUrls(p, records, urls), key) == WithSource(records, key)
  {
    if urls != [] {
      var init, url := urls[..|urls| - 1], urls[|urls| - 1];
      IngestUrlsKeepsUnrelated(p, records, init, key);
      var k := p.sha256Hex(url);
      var text := Join(p.loadUrl(url), " ");
      ChunkedHasKey(p, text, k, url);
      ReplaceKeepsOthers(IngestUrls(p, records, init), k, Chunked(p, text, k, url), key);
    }
  }

  /**
   * A URL whose key no later URL shares ends up with exactly the records built from its
   * own page text.
   */
  lemma {:induction false} IngestUrlsLatestWins(p: Pipeline, records: seq<Record>, urls: seq<string>, i: nat)
    requires i < |urls|
    requires forall j | i < j < |urls| :: p.sha256Hex(urls[j]) != p.sha256Hex(urls[i])
    ensures var url := urls[i]; var key := p.sha256Hex(url);
      WithSource(IngestUrls(p, records, urls), key) == Chunked(p, Join(p.loadUrl(url), " "), key, url)
  {
    var url := urls[i];
    var key := p.sha256Hex(url);
    var text := Join(p.loadUrl(url), " ");
    var pre, post := urls[..i + 1], urls[i + 1..];
    assert pre + post == urls;
    assert pre[..|pre| - 1] == urls[..i];
    var mid := IngestUrls(p, records, pre);
    assert mid == IngestUrl(p, IngestUrls(p, records, urls[..i]), url);
    ChunkedHasKey(p, text, key, url);
    ReplaceLeavesOnlyNew(IngestUrls(p, records, urls[..i]), key, Chunked(p, text, key, url));
    IngestUrlsSplit(p, records, pre, post);
    forall j | 0 <= j < |post|
      ensures p.sha256Hex(post[j]) != key
    {
      assert post[j] == urls[i + 1 + j];
    }
    IngestUrlsKeepsUnrelated(p, mid, post, key);
  }

  /** Processing a list is processing its first part, then the rest. */
  lemma {:induction false} IngestUrlsSplit(p: Pipeline, records: seq<Record>, a: seq<string>, b: seq<string>)
    ensures IngestUrls(p, records, a + b) == IngestUrls(p, IngestUrls(p, records, a), b)
  {
    if b == [] {
      assert a + b == a;
    } else {
      var init := b[..|b| - 1];
      assert (a + b)[..|a + b| - 1] == a + init;
      IngestUrlsSplit(p, records, a, init);
    }
  }

  class DocumentProcessor {
    const collection: Collection
    const pipeline: Pipeline

    constructor (collection: Collection, pipeline: Pipeline)
      ensures this.collection == collection && this.pipeline == pipeline
    {
      this.collection := collection;
      this.pipeline := pipeline;
    }

    /** `generate_source_key`: the SHA-256 hex digest of the input. */
    function GenerateSourceKey(input: string): string {
      pipeline.sha256Hex(input)
    }

    /** `_delete_existing_embeddings`. */
    method DeleteExistingEmbeddings(key: string)
      modifies collection
      ensures collection.records == WithoutSource(old(collection.records), key)
    {
      collection.DeleteMany(key);
    }

    /** `_insert_embeddings`. */
    method InsertEmbeddings(chunks: seq<string>, embeddings: seq<Embedding>, key: string, sourceLabel: string)
      modifies collection
      ensures collection.records == old(collection.records) + Documents(chunks, embeddings, key, sourceLabel)
    {
      collection.InsertMany(Documents(chunks, embeddings, key, sourceLabel));
    }

    /** `process_text_with_source_key`: delete the source, then insert the text's records. */
    method ProcessTextWithSourceKey(text: string, key: string, sourceLabel: string)
      modifies collection
      ensures collection.records == Ingest(pipeline, old(collection.records), text, key, sourceLabel)
      ensures WithSource(collection.records, key) == Chunked(pipeline, text, key, sourceLabel)
      ensures forall other | other != key ::
        WithSource(collection.records, other) == WithSource(old(collection.records), other)
    {
      ghost var before := collection.records;
      DeleteExistingEmbeddings(key);
      var chunks := pipeline.splitText(text);
      var embeddings := pipeline.embedDocuments(chunks);
      InsertEmbeddings(chunks, embeddings, key, sourceLabel);
      ChunkedHasKey(pipeline, text, key, sourceLabel);
      ReplaceLeavesOnlyNew(before, key, Chunked(pipeline, text, key, sourceLabel));
      forall other | other != key
        ensures WithSource(collection.records, other) == WithSource(before, other)
      {
        ReplaceKeepsOthers(before, key, Chunked(pipeline, text, key, sourceLabel), other);
      }
    }

    /** `process_text`: the key comes from the title (`admin_input`), which is also the label. */
    method ProcessText(text: string, adminInput: string)
      modifies collection
      ensures collection.records == Ingest(pipeline, old(collection.records), text, GenerateSourceKey(adminInput), adminInput)
    {
      var key := GenerateSourceKey(adminInput);
      DeleteExistingEmbeddings(key);
      var chunks := pipeline.splitText(text);
      var embeddings := pipeline.embedDocuments(chunks);
      InsertEmbeddings(chunks, embeddings, key, adminInput);
    }

    /**
     * `process_pdf`: the page contents joined by single spaces, keyed and labelled by the
     * title. A missing title (None) fails in `generate_source_key` before anything changes.
     */
    method ProcessPdf(fileBytes: seq<bv8>, adminInput: Option<string>) returns (r: Result<(), PyError>)
      modifies collection
      ensures adminInput.None? ==> r == Err(AttributeError) && collection.records == old(collection.records)
      ensures adminInput.Some? ==> r == Ok(()) && collection.records == Ingest(pipeline, old(collection.records),
        Join(pipeline.loadPdf(fileBytes), " "), GenerateSourceKey(adminInput.value), adminInput.value)
    {
      if adminInput.None? {
        return Err(AttributeError);
      }
      var key := GenerateSourceKey(adminInput.value);
      var text := Join(pipeline.loadPdf(fileBytes), " ");
      ProcessTextWithSourceKey(text, key, adminInput.value);
      return Ok(());
    }

    /** `process_urls`: each URL in list order, keyed by its hash and labelled by itself. */
    method ProcessUrls(urls: seq<string>)
      modifies collection
      ensures collection.records == IngestUrls(pipeline, old(collection.records), urls)
    {
      for i := 0 to |urls|
        invariant collection.records == IngestUrls(pipeline, old(collection.records), urls[..i])
      {
        var url := urls[i];
        var key := GenerateSourceKey(url);
        var text := Join(pipeline.loadUrl(url), " ");
        ProcessTextWithSourceKey(text, key, url);
        assert urls[..i + 1][..i] == urls[..i];
      }
      assert urls[..|urls|] == urls;
    }
  }
}
