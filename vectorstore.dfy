/** `SimpleVectorStore` of `src/rag/vectorstore.py`: documents and their
    embedding rows kept side by side, appended to in batches, searched for
    the rows most similar to a query, and written to and read back from a
    file. The sentence encoder and the cosine similarity are parameters
    (`encode`, `similarity`); the file system is the `Disk` class, a map
    from path to saved payload. */
module VectorStore {
  import opened Wrappers
  import opened Json

  /** A stored document: the dicts the preload script builds. */
  datatype Document = Document(id: string, text: string, meta: Json)

  /** One embedding row. */
  type Embedding = seq<real>

  /** One query result: `{'score': ..., 'doc': ...}`. */
  datatype Hit = Hit(score: real, doc: Document)

  /** The texts of the hits, in order. */
  function Texts(hits: seq<Hit>): (ts: seq<string>)
    ensures |ts| == |hits|
    ensures forall i | 0 <= i < |hits| :: ts[i] == hits[i].doc.text
  {
    seq(|hits|, i requires 0 <= i < |hits| => hits[i].doc.text)
  }

  /** What `save` pickles. */
  datatype Payload = Payload(docs: seq<Document>, embeddings: Option<seq<Embedding>>)

  /** The embedding rows of a batch of documents, one per document. */
  function Encoded(docs: seq<Document>, encode: string -> Embedding): (rows: seq<Embedding>)
    ensures |rows| == |docs|
    ensures forall i | 0 <= i < |docs| :: rows[i] == encode(docs[i].text)
  {
    seq(|docs|, i requires 0 <= i < |docs| => encode(docs[i].text))
  }

  /** How many items `xs[:k]` keeps of `n`, negative `k` counting from the end. */
  function SliceCount(n: nat, k: int): (c: nat)
    ensures c <= n
    ensures k >= 0 ==> c <= k && (c == k || c == n)
    ensures k < 0 ==> c + (-k) >= n && (c == 0 || c + (-k) == n)
  {
    if k >= 0 then (if k < n then k else n)
    else if n + k > 0 then n + k else 0
  }

  /** `idxs` lists distinct positions of `scores` from the highest score
      down, and no position left out scores above one listed. Ties may come
      in any order. */
  predicate Ranked(scores: seq<real>, idxs: seq<nat>) {
    && (forall i | 0 <= i < |idxs| :: idxs[i] < |scores|)
    && (forall i, j | 0 <= i < j < |idxs| :: idxs[i] != idxs[j])
    && (forall i, j | 0 <= i < j < |idxs| :: scores[idxs[i]] >= scores[idxs[j]])
    && (forall x, i | 0 <= x < |scores| && x !in idxs && 0 <= i < |idxs| :: scores[x] <= scores[idxs[i]])
  }

  /** Dropping the entry holding `n - 1` from distinct positions below `n`
      leaves distinct positions below `n - 1`, and every other entry. */
  lemma DropTop(idxs: seq<nat>, n: nat, p: nat) returns (rest: seq<nat>)
    requires forall i | 0 <= i < |idxs| :: idxs[i] < n
    requires forall i, j | 0 <= i < j < |idxs| :: idxs[i] != idxs[j]
    requires p < |idxs| && idxs[p] == n - 1
    ensures |rest| == |idxs| - 1
    ensures forall i | 0 <= i < |rest| :: rest[i] < n - 1
    ensures forall i, j | 0 <= i < j < |rest| :: rest[i] != rest[j]
    ensures forall q | 0 <= q < |idxs| && q != p :: idxs[q] in rest
  {
    rest := idxs[..p] + idxs[p + 1..];
    forall i | 0 <= i < |rest| ensures rest[i] == idxs[if i < p then i else i + 1] {
    }
    forall i | 0 <= i < |rest| ensures rest[i] < n - 1 {
      var a := if i < p then i else i + 1;
      assert rest[i] == idxs[a] && a != p;
    }
    forall i, j | 0 <= i < j < |rest| ensures rest[i] != rest[j] {
      var a := if i < p then i else i + 1;
      var c := if j < p then j else j + 1;
      assert rest[i] == idxs[a] && rest[j] == idxs[c] && a < c;
    }
    forall q | 0 <= q < |idxs| && q != p ensures idxs[q] in rest {
      assert idxs[q] == rest[if q < p then q else q - 1];
    }
  }

  /** Distinct positions below `n`, fewer than `n` of them, leave one out. */
  lemma {:induction false} SomePositionLeft(idxs: seq<nat>, n: nat)
    requires forall i | 0 <= i < |idxs| :: idxs[i] < n
    requires forall i, j | 0 <= i < j < |idxs| :: idxs[i] != idxs[j]
    requires |idxs| < n
    ensures exists x | 0 <= x < n :: x !in idxs
    decreases n
  {
    if n - 1 in idxs {
      var p :| 0 <= p < |idxs| && idxs[p] == n - 1;
      var rest := DropTop(idxs, n, p);
      SomePositionLeft(rest, n - 1);
      var x :| 0 <= x < n - 1 && x !in rest;
      forall q | 0 <= q < |idxs| ensures idxs[q] != x {
        if q != p {
          assert idxs[q] in rest;
        }
      }
      assert x !in idxs && x < n;
    } else {
      assert n - 1 !in idxs && n - 1 < n;
    }
  }

  /** `np.argsort(scores)[::-1][:count]`: the `count` best positions, best
      first; ties between equal scores are left in an unspecified order. */
  method SelectTop(scores: seq<real>, count: nat) returns (idxs: seq<nat>)
    requires count <= |scores|
    ensures |idxs| == count && Ranked(scores, idxs)
  {
    idxs := [];
    while |idxs| < count
      invariant |idxs| <= count
      invariant Ranked(scores, idxs)
    {
      SomePositionLeft(idxs, |scores|);
      var best: nat := 0;
      var found := false;
      var j := 0;
      while j < |scores|
        invariant 0 <= j <= |scores|
        invariant found ==> best < |scores| && best !in idxs
        invariant found ==> forall x | 0 <= x < j && x !in idxs :: scores[x] <= scores[best]
        invariant !found ==> forall x | 0 <= x < j :: x in idxs
      {
        if j !in idxs && (!found || scores[j] > scores[best]) {
          best := j;
          found := true;
        }
        j := j + 1;
      }
      if !found {
        assert false;
      }
      idxs := idxs + [best];
    }
  }

  /** The similarity of the query row to each stored row. */
  function Scores(q: Embedding, rows: seq<Embedding>, similarity: (Embedding, Embedding) -> real): (s: seq<real>)
    ensures |s| == |rows|
    ensures forall i | 0 <= i < |rows| :: s[i] == similarity(q, rows[i])
  {
    seq(|rows|, i requires 0 <= i < |rows| => similarity(q, rows[i]))
  }

  /** `hits` are the documents at the ranked positions `idxs` of `scores`,
      each with its own score. */
  predicate HitsAt(docs: seq<Document>, scores: seq<real>, idxs: seq<nat>, hits: seq<Hit>) {
    && |hits| == |idxs|
    && (forall i | 0 <= i < |idxs| :: idxs[i] < |docs| && idxs[i] < |scores|)
    && (forall i | 0 <= i < |idxs| :: hits[i] == Hit(scores[idxs[i]], docs[idxs[i]]))
  }

  /** What `query` answers for `text` over `docs` and `embeddings`: nothing
      when the store is empty; otherwise the documents at the ranked
      positions `idxs`, as many as the slice `[:k]` keeps, each with its
      score, or IndexError when a ranked row has no document behind it. */
  predicate Answers(docs: seq<Document>, embeddings: Option<seq<Embedding>>, text: string, k: int,
                    encode: string -> Embedding, similarity: (Embedding, Embedding) -> real,
                    r: Result<seq<Hit>, string>, idxs: seq<nat>)
  {
    if embeddings.None? || docs == [] then r == Ok([]) && idxs == []
    else
      var scores := Scores(encode(text), embeddings.value, similarity);
      && |idxs| == SliceCount(|scores|, k)
      && Ranked(scores, idxs)
      && (r.Ok? <==> forall i | 0 <= i < |idxs| :: idxs[i] < |docs|)
      && (r.Ok? ==> HitsAt(docs, scores, idxs, r.value))
      && (r.Err? ==> r.error == "IndexError")
  }

  class SimpleVectorStore {
    var docs: seq<Document>
    var embeddings: Option<seq<Embedding>>

    /** The stored embedding rows, none before the first batch. */
    function Rows(): seq<Embedding>
      reads this
    {
      match embeddings
      case None => []
      case Some(rows) => rows
    }

    /** One embedding row per document: what `add_documents` keeps, and what
        a loaded payload need not satisfy. */
    predicate Aligned()
      reads this
    {
      match embeddings
      case None => docs == []
      case Some(rows) => |rows| == |docs|
    }

    /** `__init__`: no documents, no embedding matrix yet. */
    constructor ()
      ensures docs == [] && embeddings == None
      ensures Aligned()
    {
      docs := [];
      embeddings := None;
    }

    /** `add_documents`: the batch is appended in order and one row per
        document is appended to the matrix; what was stored stays. The
        first batch becomes the matrix as it is; later ones go through
        `np.vstack`, which raises ValueError, changing nothing, when an
        empty batch (a shape-(0,) array) meets a matrix with rows, or when
        a non-empty batch meets the shape-(0,) array an empty first batch
        left behind (`Some([])`). */
    method AddDocuments(batch: seq<Document>, encode: string -> Embedding) returns (r: Result<(), string>)
      modifies this
      ensures r.Err? <==> old(embeddings).Some? && (batch == [] <==> old(embeddings).value != [])
      ensures r.Err? ==> r.error == "ValueError" && docs == old(docs) && embeddings == old(embeddings)
      ensures r.Ok? ==> docs == old(docs) + batch && embeddings == Some(old(Rows()) + Encoded(batch, encode))
      ensures old(Aligned()) ==> Aligned()
    {
      var embs := Encoded(batch, encode);
      if embeddings.Some? && (batch == [] <==> embeddings.value != []) {
        return Err("ValueError");
      }
      embeddings := Some(Rows() + embs);
      docs := docs + batch;
      return Ok(());
    }

    /** `query`: nothing when the store is empty, without encoding the
        query; otherwise the documents at the best-scoring rows, at most `k`
        of them (Python slice count), best first. A row with no document
        behind it (possible only after loading an unaligned payload) raises
        IndexError. */
    method Query(text: string, k: int, encode: string -> Embedding,
                 similarity: (Embedding, Embedding) -> real)
      returns (r: Result<seq<Hit>, string>, ghost idxs: seq<nat>)
      ensures Answers(docs, embeddings, text, k, encode, similarity, r, idxs)
      ensures r.Ok? ==> |r.value| <= |docs|
      ensures r.Ok? && k >= 0 ==> |r.value| <= k
      ensures Aligned() ==> r.Ok?
    {
      if embeddings.None? || |docs| == 0 {
        return Ok([]), [];
      }
      var scores := Scores(encode(text), embeddings.value, similarity);
      var top := SelectTop(scores, SliceCount(|scores|, k));
      idxs := top;
      var results: seq<Hit> := [];
      var i := 0;
      while i < |top|
        invariant 0 <= i <= |top|
        invariant forall j | 0 <= j < i :: top[j] < |docs|
        invariant HitsAt(docs, scores, top[..i], results)
      {
        if top[i] >= |docs| {
          return Err("IndexError"), idxs;
        }
        results := results + [Hit(scores[top[i]], docs[top[i]])];
        i := i + 1;
      }
      assert top[..i] == top;
      DistinctBelow(top, |docs|);
      return Ok(results), idxs;
    }

    /** `save`: the directory of the path is created and the payload is
        written there. A path without a '/' has an empty directory name,
        on which `os.makedirs` raises. */
    method Save(disk: Disk, path: string) returns (r: Result<(), string>)
      modifies disk
      ensures '/' !in path ==> r.Err? && disk.files == old(disk.files)
      ensures '/' in path ==> r.Ok? && disk.files == old(disk.files)[path := Payload(docs, embeddings)]
    {
      if '/' !in path {
        return Err("FileNotFoundError");
      }
      disk.files := disk.files[path := Payload(docs, embeddings)];
      return Ok(());
    }

    /** `load`: both fields are replaced by the saved ones, unchecked; a
        missing file raises and changes nothing. */
    method Load(disk: Disk, path: string) returns (r: Result<(), string>)
      modifies this
      ensures path !in disk.files ==> r.Err? && docs == old(docs) && embeddings == old(embeddings)
      ensures path in disk.files ==>
        r.Ok? && docs == disk.files[path].docs && embeddings == disk.files[path].embeddings
    {
      if path !in disk.files {
        return Err("FileNotFoundError");
      }
      docs := disk.files[path].docs;
      embeddings := disk.files[path].embeddings;
      return Ok(());
    }
  }

  /** `save` followed by `load` of the same path gives the store back
      what it had. */
  method SaveThenLoad(store: SimpleVectorStore, disk: Disk, path: string) returns (r: Result<(), string>)
    requires '/' in path
    modifies store, disk
    ensures r.Ok?
    ensures store.docs == old(store.docs) && store.embeddings == old(store.embeddings)
    ensures disk.files == old(disk.files)[path := Payload(old(store.docs), old(store.embeddings))]
  {
    var saved := store.Save(disk, path);
    r := store.Load(disk, path);
  }

  /** Distinct positions below `n` are at most `n` many. */
  lemma DistinctBelow(idxs: seq<nat>, n: nat)
    requires forall i | 0 <= i < |idxs| :: idxs[i] < n
    requires forall i, j | 0 <= i < j < |idxs| :: idxs[i] != idxs[j]
    ensures |idxs| <= n
  {
    if |idxs| > n {
      PigeonholeTight(idxs[..n + 1], n);
    }
  }

  /** `n + 1` distinct positions cannot all lie below `n`. */
  lemma {:induction false} PigeonholeTight(idxs: seq<nat>, n: nat)
    requires |idxs| == n + 1
    requires forall i | 0 <= i < |idxs| :: idxs[i] < n
    requires forall i, j | 0 <= i < j < |idxs| :: idxs[i] != idxs[j]
    ensures false
    decreases n
  {
    var last := idxs[n];
    var rest := idxs[..n];
    if n == 0 {
    } else {
      // Replace the value n - 1, wherever it is, by `last`, and drop the end.
      var swapped := seq(n, i requires 0 <= i < n => if rest[i] == n - 1 then last else rest[i]);
      if last == n - 1 {
        assert forall i | 0 <= i < n :: rest[i] != n - 1;
        PigeonholeTight(rest, n - 1);
      } else {
        assert forall i | 0 <= i < n :: swapped[i] < n - 1;
        PigeonholeTight(swapped, n - 1);
      }
    }
  }

  /** The file system as `save` and `load` see it. */
  class Disk {
    var files: map<string, Payload>

    constructor (files0: map<string, Payload>)
      ensures files == files0
    {
      files := files0;
    }
  }
}
