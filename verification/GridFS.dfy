/** GridFS files: written and read in chunks, they are flat sequences of bytes. */
module GridFS {
  import opened Basics

  type Byte = b: int | 0 <= b < 256

  type Bytes = seq<Byte>

  // The stored chunks of a file, by number.
  type Chunks = map<nat, Bytes>

  function Min(a: int, b: int): int {
    if a < b then a else b
  }

  function Offset(k: nat, size: nat): (r: nat) {
    k * size
  }

  /** Where chunk `k` starts, or the end of the file if that is earlier. */
  function Start(size: nat, length: nat, k: nat): (r: nat)
    ensures r <= length
  {
    Min(Offset(k, size), length)
  }

  /** Part `k` of a file cut into chunks. */
  function Part(content: Bytes, size: nat, k: nat): (r: Bytes)
    ensures size > 0 && Offset(k, size) < |content| ==> r != [] && |r| <= size
  {
    Ordered(k, size);
    content[Start(size, |content|, k)..Start(size, |content|, k + 1)]
  }

  lemma Ordered(k: nat, size: nat)
    ensures Offset(k + 1, size) == Offset(k, size) + size
  {
  }

  /** The chunks are the parts of the file, all of them. */
  ghost predicate Holds(chunks: Chunks, size: nat, content: Bytes) {
    && (forall k: nat :: k in chunks <==> Offset(k, size) < |content|)
    && (forall k | k in chunks :: chunks[k] == Part(content, size, k))
  }

  // ---- writing

  /** Full chunks have been handed over for insertion, the rest is in the buffer. */
  ghost predicate Buffered(size: nat, count: nat, wbuf: Bytes, sent: Chunks, written: Bytes) {
    && Offset(count, size) + |wbuf| == |written| && |wbuf| <= size
    && written[Offset(count, size)..] == wbuf
    && (forall k: nat :: k in sent <==> k < count)
    && (forall k | k in sent :: Offset(k, size) + size <= |written| && sent[k] == written[Offset(k, size)..Offset(k, size) + size])
  }

  /** One more full chunk. */
  lemma ChunkSent(size: nat, count: nat, wbuf: Bytes, sent: Chunks, written: Bytes, data: Bytes)
    requires Buffered(size, count, wbuf, sent, written) && |data| == size && wbuf <= data
    ensures Buffered(size, count + 1, [], sent[count := data], written + data[|wbuf|..])
  {
    hide Offset;
    var more, start := data[|wbuf|..], Offset(count, size);
    var w, sent' := written + more, sent[count := data];
    Ordered(count, size);
    assert wbuf + more == data;
    assert w[start..] == data;
    forall k | k in sent' ensures Offset(k, size) + size <= |w| && sent'[k] == w[Offset(k, size)..Offset(k, size) + size] {
      if k == count {
        assert w[start..start + size] == data;
      } else {
        SliceKept(written, more, Offset(k, size), Offset(k, size) + size);
      }
    }
    assert w[Offset(count + 1, size)..] == [];
  }

  lemma SliceKept(s: Bytes, more: Bytes, a: nat, b: nat)
    requires a <= b <= |s|
    ensures (s + more)[a..b] == s[a..b]
  {
  }

  lemma NextIsNew(size: nat, count: nat, wbuf: Bytes, sent: Chunks, written: Bytes)
    requires Buffered(size, count, wbuf, sent, written)
    ensures count !in sent && |wbuf| <= size
  {
  }

  lemma BytesKept(size: nat, count: nat, wbuf: Bytes, sent: Chunks, written: Bytes, data: Bytes)
    requires Buffered(size, count, wbuf, sent, written) && |wbuf| + |data| <= size
    ensures Buffered(size, count, wbuf + data, sent, written + data)
  {
    hide Offset;
    forall k | k in sent ensures (written + data)[Offset(k, size)..Offset(k, size) + size] == sent[k] {
      SliceKept(written, data, Offset(k, size), Offset(k, size) + size);
    }
    assert (written + data)[Offset(count, size)..] == wbuf + data;
  }

  lemma Monotone(a: nat, b: nat, size: nat)
    requires a < b
    ensures Offset(a, size) + size <= Offset(b, size)
  {
    assert (b - a - 1) * size >= 0;
    assert b * size == a * size + size + (b - a - 1) * size;
  }

  /** With the rest of the buffer as a last chunk, the chunks hold the file. */
  lemma AllSent(size: nat, count: nat, wbuf: Bytes, sent: Chunks, written: Bytes)
    requires size > 0 && Buffered(size, count, wbuf, sent, written)
    ensures Holds(if wbuf == [] then sent else sent[count := wbuf], size, written)
  {
    hide Offset;
    var all := if wbuf == [] then sent else sent[count := wbuf];
    Ordered(count, size);
    forall k: nat ensures k in all <==> Offset(k, size) < |written| {
      if k < count {
        Monotone(k, count, size);
      } else if k > count {
        Monotone(count, k, size);
      }
    }
    forall k | k in all ensures all[k] == Part(written, size, k) {
      Ordered(k, size);
      if k < count {
        Monotone(k, count, size);
      }
    }
  }

  /** Each chunk handed over is either stored or still being inserted. */
  ghost predicate Accounted(sent: Chunks, pending: Chunks, store: Chunks) {
    && (forall n :: n in sent <==> n in pending || n in store)
    && (forall n :: !(n in pending && n in store))
    && (forall n | n in pending :: pending[n] == sent[n])
    && (forall n | n in store :: store[n] == sent[n])
  }

  lemma Inserted(sent: Chunks, pending: Chunks, store: Chunks, n: nat)
    requires n in pending
    ensures |pending - {n}| < |pending|
    ensures Accounted(sent, pending, store) ==> Accounted(sent, pending - {n}, store[n := pending[n]])
  {
    assert (pending - {n}).Keys == pending.Keys - {n};
  }

  lemma Started(sent: Chunks, pending: Chunks, store: Chunks, n: nat, data: Bytes)
    requires Accounted(sent, pending, store) && n !in sent
    ensures Accounted(sent[n := data], pending[n := data], store)
  {
  }

  lemma AllStored(sent: Chunks, store: Chunks)
    requires Accounted(sent, map[], store)
    ensures store == sent
  {
  }

  lemma OneMorePending(size: nat, before: nat, after: nat)
    requires size * before < MAX_PENDING && after <= before + 1
    ensures size * (after - 1) < MAX_PENDING
  {
    if after > 0 {
      var less: nat := before - (after - 1);
      assert size * before == size * (after - 1) + size * less;
    }
  }

  lemma SomePending(pending: Chunks)
    requires pending != map[]
    ensures exists n :: n in pending
  {
    assert pending.Keys != {};
  }

  const MAX_PENDING := 1024 * 1024

  // A file open for writing, and the chunks collection.
  class Upload {
    const size: nat
    var chunk: nat
    var length: nat
    var wbuf: Bytes
    var err: bool
    // insertions that run in the background, and what they have stored
    var pending: Chunks
    var store: Chunks
    // the file document: its length
    var file: Option<nat>
    // of the insertions, in the order in which they end, these are refused
    const refused: set<nat>
    var inserts: nat
    ghost var sent: Chunks
    ghost var written: Bytes

    constructor (size: nat, refused: set<nat>)
      requires size > 0
      ensures this.size == size && this.refused == refused && Valid() && Honest() && written == [] && file.None? && !err
    {
      this.size, chunk, length, wbuf, err, pending, store, file := size, 0, 0, [], false, map[], map[], None;
      this.refused, inserts := refused, 0;
      sent, written := map[], [];
    }

    /** There is an error exactly if an insertion has been refused. */
    ghost predicate Honest()
      reads this
    {
      err <==> exists n :: n in refused && n < inserts
    }

    ghost predicate Valid()
      reads this
    {
      size > 0 && (!err ==> Accounted(sent, pending, store) && Buffered(size, chunk, wbuf, sent, written) && length == |written|)
    }

    /** A background insertion ends, in whatever order, and with or without success. */
    method Complete()
      requires pending != map[]
      modifies this`pending, this`store, this`err, this`inserts
      ensures old(Honest()) ==> Honest()
      ensures |pending| < |old(pending)|
      ensures !err ==> !old(err) && (Accounted(old(sent), old(pending), old(store)) ==> Accounted(sent, pending, store))
    {
      hide Accounted;
      SomePending(pending);
      var n :| n in pending;
      Inserted(sent, pending, store, n);
      if inserts in refused {
        err := true;
      } else {
        store := store[n := pending[n]];
      }
      inserts := inserts + 1;
      pending := pending - {n};
    }

    method InsertChunk(data: Bytes)
      requires size > 0 && (!err ==> Accounted(sent, pending, store) && chunk !in sent)
      modifies this`chunk, this`pending, this`store, this`err, this`sent, this`inserts
      ensures old(Honest()) ==> Honest()
      ensures !err ==> !old(err)
      ensures !err ==> Accounted(sent, pending, store) && chunk == old(chunk) + 1 && sent == old(sent)[old(chunk) := data]
      ensures !err ==> size * (|pending| - 1) < 0x10_0000
    {
      hide Accounted;
      var n := chunk;
      chunk := chunk + 1;
      while size * |pending| >= MAX_PENDING
        invariant !err ==> !old(err) && Accounted(sent, pending, store)
        invariant old(Honest()) ==> Honest()
        invariant sent == old(sent) && chunk == n + 1
        decreases |pending|
      {
        assert pending != map[];
        Complete();
        if err {
          return;
        }
      }
      if !err {
        Started(sent, pending, store, n, data);
      }
      OneMorePending(size, |pending|, |pending[n := data]|);
      pending := pending[n := data];
      sent := sent[n := data];
    }

    /** What is written goes to the end of the file. */
    method Write(data: Bytes) returns (n: nat, failed: bool)
      requires Valid() && Honest() && file.None?
      modifies this`chunk, this`length, this`wbuf, this`pending, this`store, this`err, this`sent, this`written, this`inserts
      ensures Valid() && Honest() && failed == err && (old(err) ==> err && n == 0)
      ensures !old(err) ==> n == |data|
      ensures !err ==> written == old(written) + data
      // a chunk is sent if there is something in the buffer and it gets full, or for data of more than a chunk
      ensures !err ==> (chunk > old(chunk) <==> (old(wbuf) != [] && old(|wbuf|) + |data| >= size) || |data| > size)
    {
      hide Buffered, Accounted;
      if err {
        return 0, true;
      }
      n := |data|;
      NextIsNew(size, chunk, wbuf, sent, written);
      length := length + n;
      if |wbuf| + |data| < size {
        BytesKept(size, chunk, wbuf, sent, written, data);
        wbuf, written := wbuf + data, written + data;
        return n, false;
      }
      var rest := data;
      ghost var done := written;
      if |wbuf| > 0 {
        var missing := size - |wbuf|;
        if missing > |rest| {
          missing := |rest|;
        }
        ChunkSent(size, chunk, wbuf, sent, written, wbuf + rest[..missing]);
        assert (wbuf + rest[..missing])[|wbuf|..] == rest[..missing];
        done := written + rest[..missing];
        wbuf := wbuf + rest[..missing];
        rest := rest[missing..];
        assert done + rest == written + data;
        InsertChunk(wbuf);
        wbuf := [];
      }
      while |rest| > size
        invariant !err ==> Accounted(sent, pending, store) && Buffered(size, chunk, [], sent, done) && done + rest == old(written) + data
        invariant Honest() && wbuf == [] && size > 0 && length == |old(written) + data|
        invariant |rest| <= |data| && (!err ==> chunk >= old(chunk))
        invariant !err ==> if chunk > old(chunk) then old(wbuf) != [] || |data| > size else old(wbuf) == [] && |rest| == |data|
        decreases |rest|
      {
        ghost var before := done;
        if !err {
          NextIsNew(size, chunk, [], sent, done);
          ChunkSent(size, chunk, [], sent, done, rest[..size]);
          assert rest[..size][0..] == rest[..size];
          assert done + rest[..size] + rest[size..] == done + rest;
        }
        done := done + rest[..size];
        InsertChunk(rest[..size]);
        rest := rest[size..];
      }
      if !err {
        BytesKept(size, chunk, [], sent, done, rest);
      }
      wbuf, written := wbuf + rest, done + rest;
      failed := err;
    }

    /** Stores what is left, waits for all insertions, and stores the file document if none has failed. */
    method Close() returns (failed: bool)
      requires Valid() && Honest() && file.None?
      modifies this
      ensures Honest() && failed == err && (old(err) ==> err) && (file.Some? <==> !err)
      ensures !err ==> Holds(store, size, old(written)) && file == Some(|old(written)|)
    {
      hide Buffered, Accounted, Holds;
      if !err {
        NextIsNew(size, chunk, wbuf, sent, written);
        AllSent(size, chunk, wbuf, sent, written);
      }
      if |wbuf| > 0 {
        InsertChunk(wbuf);
        wbuf := [];
      }
      while pending != map[]
        invariant !err ==> !old(err) && Accounted(sent, pending, store) && Holds(sent, size, old(written)) && length == |old(written)|
        invariant Honest() && file.None? && (old(err) ==> err)
        decreases |pending|
      {
        Complete();
      }
      if !err {
        AllStored(sent, store);
        file := Some(length);
      }
      failed := err;
    }
  }

  // ---- reading

  // A chunk fetched ahead, or none if fetching it has failed.
  datatype Cached = Cached(n: nat, data: Option<Bytes>)

  ghost predicate CacheOk(chunks: Chunks, cache: Option<Cached>) {
    cache.Some? && cache.value.data.Some? ==> cache.value.n in chunks && chunks[cache.value.n] == cache.value.data.value
  }

  /** What is buffered is the rest of the chunks fetched, up to `chunk`. */
  ghost predicate Fetched(chunks: Chunks, size: nat, content: Bytes, chunk: nat, rbuf: Bytes) {
    && size > 0 && Holds(chunks, size, content)
    && |rbuf| <= Start(size, |content|, chunk)
    && rbuf == content[Start(size, |content|, chunk) - |rbuf|..Start(size, |content|, chunk)]
  }

  /** The chunk that follows what is buffered. */
  lemma NextChunk(chunks: Chunks, size: nat, content: Bytes, chunk: nat)
    requires Fetched(chunks, size, content, chunk, [])
    ensures chunk in chunks ==> chunks[chunk] != [] && Fetched(chunks, size, content, chunk + 1, chunks[chunk])
    ensures chunk in chunks ==> Start(size, |content|, chunk + 1) == Start(size, |content|, chunk) + |chunks[chunk]|
    ensures chunk !in chunks ==> Start(size, |content|, chunk) == Start(size, |content|, chunk + 1) == |content|
    ensures Fetched(chunks, size, content, chunk + 1, [])
  {
    hide Offset;
    Ordered(chunk, size);
  }

  /** Taking `n` bytes out of the buffer. */
  lemma Taken(chunks: Chunks, size: nat, content: Bytes, chunk: nat, rbuf: Bytes, n: nat)
    requires Fetched(chunks, size, content, chunk, rbuf) && n <= |rbuf|
    ensures Fetched(chunks, size, content, chunk, rbuf[n..])
    ensures var place := Start(size, |content|, chunk) - |rbuf|;
      place + n <= |content| && rbuf[..n] == content[place..place + n]
  {
    hide Holds;
  }

  /** Moving into chunk `k`, `rest` bytes behind its start. */
  lemma Moved(chunks: Chunks, size: nat, content: Bytes, k: nat, rest: nat)
    requires size > 0 && Holds(chunks, size, content) && rest < size && Offset(k, size) + rest <= |content|
    ensures k in chunks <==> Offset(k, size) + rest < |content| || rest != 0
    ensures k in chunks ==> rest <= |chunks[k]| && Fetched(chunks, size, content, k + 1, chunks[k][rest..])
    ensures k in chunks ==> Start(size, |content|, k + 1) - |chunks[k][rest..]| == Offset(k, size) + rest
    ensures k in chunks ==> Start(size, |content|, k + 1) > Offset(k, size)
    ensures k !in chunks ==> Start(size, |content|, k + 1) == |content| == Offset(k, size)
    ensures Fetched(chunks, size, content, k + 1, [])
    ensures Start(size, |content|, k + 1) == Offset(k, size) + rest <==> Offset(k, size) + rest == |content|
  {
    hide Offset;
    Ordered(k, size);
    if k in chunks {
      assert chunks[k] == content[Offset(k, size)..Start(size, |content|, k + 1)];
      assert chunks[k][rest..] == content[Offset(k, size) + rest..Start(size, |content|, k + 1)];
    }
  }

  lemma Quotient(a: nat, b: nat)
    requires b > 0
    ensures a == Offset(a / b, b) + a % b && a % b < b
  {
  }

  datatype Sought = Found | Failed | Panicked

  // A file open for reading. The fetches with the numbers in `faults` fail, even for a chunk that is stored.
  class Download {
    const size: nat
    const length: nat
    const store: Chunks
    const faults: set<nat>
    var fetches: nat
    var offset: nat
    var chunk: nat
    var rbuf: Bytes
    var rcache: Option<Cached>
    ghost const content: Bytes

    constructor (size: nat, length: nat, store: Chunks, faults: set<nat>, ghost content: Bytes)
      requires size > 0 && Holds(store, size, content) && length == |content|
      ensures this.size == size && this.store == store && this.content == content && this.faults == faults
      ensures Valid() && offset == 0 && chunk == 0 && rbuf == [] && rcache == None && fetches == 0
    {
      this.size, this.length, this.store, this.faults, this.content := size, length, store, faults, content;
      offset, chunk, rbuf, rcache, fetches := 0, 0, [], None, 0;
      FirstChunk(store, size, content);
    }

    ghost predicate Sane()
      reads this
    {
      && length == |content| && Fetched(store, size, content, chunk, rbuf) && offset <= Start(size, |content|, chunk) - |rbuf|
      && CacheOk(store, rcache) && CacheMissed(rcache)
    }

    /** What could not be fetched ahead was the last fetch. */
    ghost predicate CacheMissed(cache: Option<Cached>)
      reads this`fetches
    {
      cache.Some? && cache.value.data.None? ==> fetches > 0 && fetches - 1 in faults
    }

    /** No fetch fails from now on. */
    ghost predicate Undisturbed()
      reads this`fetches, this`rcache
    {
      (forall n | n in faults :: n < fetches) && (rcache.Some? ==> rcache.value.data.Some?)
    }

    /** Where in the file the next byte is that will be read. */
    ghost function Place(): (r: nat)
      reads this
      requires Sane()
    {
      Start(size, |content|, chunk) - |rbuf|
    }

    /** That is where the offset says it is. */
    ghost predicate Valid()
      reads this
    {
      Sane() && offset == Place()
    }

    /** The chunk from the cache or from the store, and the next one fetched ahead. The number moves on in any case. */
    method GetChunk() returns (ok: bool, data: Bytes)
      requires size > 0 && Holds(store, size, content) && length == |content| && CacheOk(store, rcache)
      modifies this`chunk, this`rcache, this`fetches
      ensures ok ==> old(chunk) in store
      ensures old(rcache).None? ==>
        && (ok <==> old(chunk) in store && old(fetches) !in faults)
        && fetches == old(fetches) + 1 + (if Offset(chunk, size) < length then 1 else 0)
      ensures old(Undisturbed()) ==> (ok <==> old(chunk) in store) && Undisturbed()
      ensures data == if ok then store[old(chunk)] else []
      ensures chunk == old(chunk) + 1 && CacheOk(store, rcache) && CacheMissed(rcache) && fetches >= old(fetches)
    {
      hide Holds, Offset, Part;
      var cache := rcache;
      rcache := None;
      if cache.Some? && cache.value.n == chunk {
        ok, data := cache.value.data.Some?, if cache.value.data.Some? then cache.value.data.value else [];
      } else {
        ok := Fetches(chunk);
        data := if ok then store[chunk] else [];
      }
      chunk := chunk + 1;
      if Offset(chunk, size) < length {
        IsStored(chunk);
        var ahead := Fetches(chunk);
        rcache := Some(Cached(chunk, if ahead then Some(store[chunk]) else None));
      }
    }

    method Fetches(n: nat) returns (ok: bool)
      modifies this`fetches
      ensures (ok <==> n in store && old(fetches) !in faults) && fetches == old(fetches) + 1
    {
      ok := n in store && fetches !in faults;
      fetches := fetches + 1;
    }

    lemma IsStored(n: nat)
      requires size > 0 && Holds(store, size, content) && length == |content| && Offset(n, size) < length
      ensures n in store
    {
    }

    /** What is in the buffer, but no more than `capacity` bytes. */
    method Take(capacity: nat) returns (taken: Bytes)
      requires Sane()
      modifies this`offset, this`rbuf
      ensures Sane() && taken == old(rbuf)[..Min(capacity, |old(rbuf)|)] && rbuf == old(rbuf)[|taken|..]
      ensures offset == old(offset) + |taken| && Place() == old(Place()) + |taken| <= |content|
      ensures taken == content[old(Place())..Place()]
    {
      hide Holds, Fetched, Start, CacheOk, Offset, Part;
      FetchedIs(store, size, content, chunk, rbuf);
      var i := Min(capacity, |rbuf|);
      Taken(store, size, content, chunk, rbuf, i);
      taken := rbuf[..i];
      offset := offset + i;
      rbuf := rbuf[i..];
      FetchedIs(store, size, content, chunk, rbuf);
    }

    /** The next chunk, when the buffer is empty. */
    method Refill() returns (ok: bool)
      requires Sane() && rbuf == [] && offset < |content|
      modifies this`chunk, this`rbuf, this`rcache, this`fetches
      ensures Sane() && (ok ==> rbuf != [] && Place() == old(Place())) && chunk == old(chunk) + 1
      ensures !ok ==> rbuf == [] && (Place() == |content| || Place() > old(Place())) && old(Place()) == Start(size, |content|, chunk - 1)
      ensures old(Undisturbed()) ==> (ok <==> old(Place()) < |content|) && Undisturbed()
      ensures offset == old(Place()) && !ok ==> Place() > offset
      ensures old(rcache).None? && old(fetches) in faults ==>
        !ok && fetches == old(fetches) + 1 + (if Offset(chunk, size) < length then 1 else 0)
      ensures fetches >= old(fetches)
    {
      hide Holds, Fetched, Start, CacheOk, Offset, Part;
      NextChunk(store, size, content, chunk);
      FetchedIs(store, size, content, chunk, rbuf);
      ok, rbuf := GetChunk();
      FetchedIs(store, size, content, chunk, rbuf);
    }

    /** The next bytes, `capacity` of them unless the file ends earlier or a fetch fails. They are those at the offset if
        the place of the next byte is; a fetch that fails moves that place on by a chunk, and not the offset. */
    method Read(capacity: nat) returns (b: Bytes, eof: bool, ok: bool)
      requires Sane()
      modifies this`offset, this`chunk, this`rbuf, this`rcache, this`fetches
      ensures Sane() && (eof <==> old(offset) == |content|) && (eof ==> ok)
      ensures old(Place()) + |b| <= |content| && b == content[old(Place())..old(Place()) + |b|]
      ensures offset == old(offset) + |b| && |b| <= Min(capacity, |content| - old(offset))
      ensures ok ==> |b| == Min(capacity, |content| - old(offset)) && Place() == old(Place()) + |b|
      ensures !ok ==> offset < |content| && rbuf == [] && (Place() == |content| || Place() > old(Place()) + |b|)
      ensures !ok ==> chunk > 0 && Start(size, |content|, chunk - 1) == old(Place()) + |b|
      ensures old(Undisturbed()) && old(Place()) + Min(capacity, |content| - old(offset)) <= |content| ==> ok
      ensures old(Valid()) ==> (old(Undisturbed()) ==> ok) && (ok <==> Valid()) && b == content[old(offset)..offset]
      ensures old(offset) < |content| && capacity > 0 && old(rbuf) == [] && old(rcache).None? && old(fetches) in faults ==>
        && !ok && b == [] && chunk == old(chunk) + 1
        && fetches == old(fetches) + 1 + (if Offset(chunk, size) < length then 1 else 0)
    {
      hide Holds, Fetched, Start, CacheOk, Offset, Part;
      FetchedIs(store, size, content, chunk, rbuf);
      b, ok := [], true;
      if offset == length {
        return b, true, true;
      }
      eof := false;
      while true
        invariant Sane() && offset == old(offset) + |b| && Place() == old(Place()) + |b| <= |content|
        invariant b == content[old(Place())..Place()]
        invariant |b| <= capacity && old(offset) < |content| && (old(Undisturbed()) ==> Undisturbed())
        invariant old(rbuf) == [] && old(rcache).None? && old(fetches) in faults ==>
          b == [] && rbuf == [] && rcache.None? && fetches == old(fetches) && chunk == old(chunk)
        decreases |content| - offset, rbuf == []
      {
        ghost var before := Place();
        var taken := Take(capacity - |b|);
        Joined(content, old(Place()), before, Place());
        b := b + taken;
        if |b| == capacity || offset == length {
          break;
        }
        ok := Refill();
        if !ok {
          break;
        }
      }
    }

    /** Moves to `target`. It fails behind the end, and at the end if that is the end of a full chunk that is not the one
        at hand, and if the chunk cannot be fetched. Within the chunk at hand nothing is fetched: there the place of the
        next byte moves as far as the offset, and it panics if a failed fetch has left too little in the buffer. */
    method Seek(target: nat) returns (pos: nat, o: Sought)
      requires Sane()
      modifies this`offset, this`chunk, this`rbuf, this`rcache, this`fetches
      ensures Sane() && pos == offset
      ensures target > |content| ==> o.Failed? && offset == old(offset) && Place() == old(Place())
      ensures target <= |content| && Near(target, old(chunk), old(offset)) ==>
        && (o.Panicked? <==> target - old(offset) > |old(rbuf)|) && !o.Failed?
        && (o.Found? ==> offset == target && Place() == old(Place()) + (target - old(offset)))
      ensures target <= |content| && !Near(target, old(chunk), old(offset)) ==>
        && offset == target && !o.Panicked? && (o.Found? ==> Valid())
        && (old(Undisturbed()) ==> (o.Found? <==> target < |content| || target % size != 0))
        && (o.Failed? ==> (Valid() <==> target == |content|))
      ensures old(Valid()) ==> !o.Panicked? && (o.Found? ==> Valid())
      ensures old(Undisturbed()) ==> Undisturbed()
    {
      hide Holds, Offset, Fetched, Start, CacheOk;
      FetchedIs(store, size, content, chunk, rbuf);
      if target > length {
        return offset, Failed;
      }
      if Near(target, chunk, offset) {
        NearIs(size, |content|, target, chunk, offset);
        if target - offset > |rbuf| {
          return offset, Panicked;
        }
        Taken(store, size, content, chunk, rbuf, target - offset);
        rbuf := rbuf[target - offset..];
        offset := target;
        FetchedIs(store, size, content, chunk, rbuf);
        return offset, Found;
      }
      var ok := SeekChunk(target);
      pos, o := offset, if ok then Found else Failed;
    }

    /** Fetches the chunk of `target`. */
    method SeekChunk(target: nat) returns (ok: bool)
      requires Sane() && target <= |content|
      modifies this`offset, this`chunk, this`rbuf, this`rcache, this`fetches
      ensures Sane() && offset == target && (ok ==> Valid())
      ensures old(Undisturbed()) ==> (ok <==> target < |content| || target % size != 0) && Undisturbed()
      ensures !ok ==> (Valid() <==> target == |content|)
    {
      hide Holds, Offset, Fetched, Start, CacheOk;
      FetchedIs(store, size, content, chunk, rbuf);
      var k: nat, rest: nat := target / size, target % size;
      Quotient(target, size);
      Moved(store, size, content, k, rest);
      offset := target;
      chunk := k;
      rbuf := [];
      ok, rbuf := GetChunk();
      if ok {
        rbuf := rbuf[offset - Offset(k, size)..];
      }
      FetchedIs(store, size, content, chunk, rbuf);
    }

    /** The target is in the chunk at hand, and not before the offset. */
    predicate Near(target: nat, chunk: nat, offset: nat) {
      size > 0 && target / size + 1 == chunk && target >= offset
    }
  }

  lemma Joined(content: Bytes, a: nat, b: nat, c: nat)
    requires a <= b <= c <= |content|
    ensures content[a..b] + content[b..c] == content[a..c]
  {
  }

  lemma NearIs(size: nat, length: nat, target: nat, chunk: nat, offset: nat)
    requires size > 0 && target / size + 1 == chunk && target <= length
    ensures target <= Start(size, length, chunk)
  {
    Quotient(target, size);
    Ordered(target / size, size);
  }

  lemma FetchedIs(chunks: Chunks, size: nat, content: Bytes, chunk: nat, rbuf: Bytes)
    requires Fetched(chunks, size, content, chunk, rbuf)
    ensures size > 0 && Holds(chunks, size, content) && |rbuf| <= Start(size, |content|, chunk) <= |content|
  {
    hide Holds;
  }

  lemma FirstChunk(chunks: Chunks, size: nat, content: Bytes)
    requires size > 0 && Holds(chunks, size, content)
    ensures Fetched(chunks, size, content, 0, []) && Start(size, |content|, 0) == 0
  {
  }

  function Concat(pieces: seq<Bytes>): (r: Bytes) {
    if pieces == [] then [] else Concat(pieces[..|pieces| - 1]) + pieces[|pieces| - 1]
  }

  /** What is written in pieces of any sizes is there to be read from any position on, unless an insertion fails. */
  method StoreAndRead(size: nat, pieces: seq<Bytes>, from: nat, capacity: nat, refused: set<nat>, faults: set<nat>)
    returns (failed: bool, b: Bytes, read: bool)
    requires size > 0
    ensures refused == {} ==> !failed
    ensures !failed && from < |Concat(pieces)| && read ==>
      b == Concat(pieces)[from..Min(from + capacity, |Concat(pieces)|)]
    ensures !failed && from < |Concat(pieces)| && faults == {} ==> read
  {
    hide Buffered, Accounted, Holds, Fetched, Offset, Part, Start, CacheOk;
    var upload := new Upload(size, refused);
    b, read := [], false;
    for k := 0 to |pieces|
      invariant fresh(upload) && upload.size == size && upload.refused == refused && upload.Valid() && upload.Honest() && upload.file.None?
      invariant !upload.err ==> upload.written == Concat(pieces[..k])
    {
      var n;
      n, failed := upload.Write(pieces[k]);
      assert pieces[..k + 1][..k] == pieces[..k];
    }
    assert pieces[..|pieces|] == pieces;
    ghost var content := upload.written;
    failed := upload.Close();
    if failed {
      return;
    }
    var download := new Download(size, upload.file.value, upload.store, faults, content);
    var pos, o, eof;
    pos, o := download.Seek(from);
    if o.Found? && from < upload.file.value {
      b, eof, read := download.Read(capacity);
    }
  }

  /** A file of one full chunk: a seek to its end fails. */
  method SeekToTheEnd(x: Byte) returns (o: Sought)
    ensures o.Failed?
  {
    hide Holds, Fetched, Part, CacheOk;
    OneChunk(x);
    var download := new Download(1, 1, map[0 := [x]], {}, [x]);
    var pos;
    NotNear(1);
    pos, o := download.Seek(1);
  }

  /** At the start of a file no chunk is at hand. */
  lemma NotNear(target: nat)
    ensures forall d: Download {:trigger d.Near(target, 0, 0)} :: !d.Near(target, 0, 0)
    ensures target % 1 == 0
  {
  }

  lemma OneChunk(x: Byte)
    ensures Holds(map[0 := [x]], 1, [x])
  {
    assert Part([x], 1, 0) == [x];
  }

  /** A file of two chunks, the first of which cannot be fetched at first: a read fails, and the next one delivers the second
      byte as the first. */
  method ReadTheWrongByte(x: Byte, y: Byte) returns (ok: bool, b: Bytes)
    ensures ok && b == [y]
  {
    hide Holds, Fetched, Part, CacheOk;
    TwoChunks(x, y);
    var download := new Download(1, 2, map[0 := [x], 1 := [y]], {0}, [x, y]);
    var eof;
    b, eof, ok := download.Read(1);
    assert Offset(1, 1) == 1 && download.Place() == 1;
    b, eof, ok := download.Read(1);
    assert [x, y][1..2] == [y];
  }

  lemma TwoChunks(x: Byte, y: Byte)
    ensures Holds(map[0 := [x], 1 := [y]], 1, [x, y])
  {
    assert Part([x, y], 1, 0) == [x] && Part([x, y], 1, 1) == [y];
  }

  /** A file of one chunk of two bytes that cannot be fetched: a read fails, and then a seek to the second byte panics. */
  method SeekPanics(x: Byte, y: Byte) returns (o: Sought)
    ensures o.Panicked?
  {
    hide Holds, Fetched, Part, CacheOk;
    OneLongChunk(x, y);
    var download := new Download(2, 2, map[0 := [x, y]], {0}, [x, y]);
    var b, eof, ok := download.Read(1);
    assert download.Near(1, 1, 0);
    var pos;
    pos, o := download.Seek(1);
  }

  lemma OneLongChunk(x: Byte, y: Byte)
    ensures Holds(map[0 := [x, y]], 2, [x, y])
  {
    assert Part([x, y], 2, 0) == [x, y];
  }
}
