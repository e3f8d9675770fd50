// An abstract model of the Google Cloud Storage client library that the
// Cloud Storage backend calls (cloudstorage.open, stat, delete, listbucket
// and cloudstorage_api._copy2). The library itself is foreign code: here it
// is a value, a Store of named objects, and each library call is a function
// over that value. Object names are full paths "/bucket/object"; the
// listing order is the byte order of names, kept as a strictly sorted
// sequence beside the map of objects.

module CloudStore {
  import opened Results

  type Bytes = seq<bv8>

  /** One stored object: its bytes, the content type and options it was
      written with, and its creation time. */
  datatype Blob = Blob(content: Bytes, contentType: Option<string>,
                       options: Option<map<string, string>>, ctime: int)

  /** What stat reports about an object. */
  datatype FileStat = FileStat(filename: string, stCtime: int, stSize: nat,
                               contentType: Option<string>)

  /** A keyword-argument value passed to the library's open. */
  datatype Arg = NoneArg | Text(text: string) | Headers(headers: map<string, string>)

  /** An open file: a reader holding the object's bytes, or a writer that
      creates the object when it is closed. */
  datatype Handle =
    | Reader(filename: string, content: Bytes)
    | Writer(filename: string, contentType: Option<string>, options: Option<map<string, string>>)

  /** Errors raised by the library: NotFoundError for a missing object and
      the ValueError its open raises for a mode other than 'r' and 'w'. */
  datatype CloudError = NotFoundError(detail: string) | InvalidMode(mode: Arg)

  // ---------------------------------------------------------------------
  // Listing order

  /** Strict lexicographic order on names. */
  predicate Below(a: string, b: string)
    decreases |a|
  {
    if a == [] then b != []
    else b != [] && (a[0] < b[0] || (a[0] == b[0] && Below(a[1..], b[1..])))
  }

  lemma {:induction false} BelowIrreflexive(a: string)
    ensures !Below(a, a)
    decreases |a|
  {
    if a != [] {
      BelowIrreflexive(a[1..]);
    }
  }

  lemma {:induction false} BelowAsymmetric(a: string, b: string)
    requires Below(a, b)
    ensures !Below(b, a)
    decreases |a|
  {
    if a != [] && a[0] == b[0] {
      BelowAsymmetric(a[1..], b[1..]);
    }
  }

  lemma {:induction false} BelowTransitive(a: string, b: string, c: string)
    requires Below(a, b) && Below(b, c)
    ensures Below(a, c)
    decreases |a|
  {
    if a != [] && a[0] == b[0] && b[0] == c[0] {
      BelowTransitive(a[1..], b[1..], c[1..]);
    }
  }

  lemma {:induction false} BelowTotal(a: string, b: string)
    ensures a == b || Below(a, b) || Below(b, a)
    decreases |a|
  {
    if a != [] && b != [] && a[0] == b[0] {
      BelowTotal(a[1..], b[1..]);
      if a[1..] == b[1..] {
        assert a == [a[0]] + a[1..] && b == [b[0]] + b[1..];
      }
    }
  }

  predicate StrictlySorted(s: seq<string>)
  {
    forall i, j | 0 <= i < j < |s| :: Below(s[i], s[j])
  }

  // ---------------------------------------------------------------------
  // The store

  /** The bucket contents: the sorted names and the objects they name. */
  datatype Store = Store(names: seq<string>, blobs: map<string, Blob>) {
    ghost predicate Valid()
    {
      && StrictlySorted(names)
      && (forall k :: k in names <==> k in blobs)
    }
  }

  /** Sorted insertion of a new name. */
  function Insert(names: seq<string>, x: string): seq<string>
  {
    if names == [] then [x]
    else if Below(x, names[0]) then [x] + names
    else [names[0]] + Insert(names[1..], x)
  }

  /** The names other than x, in their order. */
  function Remove(names: seq<string>, x: string): seq<string>
  {
    if names == [] then []
    else if names[0] == x then Remove(names[1..], x)
    else [names[0]] + Remove(names[1..], x)
  }

  lemma {:induction false} InsertSorted(names: seq<string>, x: string)
    requires StrictlySorted(names) && x !in names
    ensures StrictlySorted(Insert(names, x))
    ensures forall y :: y in Insert(names, x) <==> y == x || y in names
  {
    if names == [] {
    } else if Below(x, names[0]) {
      forall i, j | 0 <= i < j < |[x] + names|
        ensures Below(([x] + names)[i], ([x] + names)[j])
      {
        if i == 0 && j > 1 {
          BelowTransitive(x, names[0], names[j - 1]);
        }
      }
    } else {
      var t := names[1..];
      assert StrictlySorted(t);
      InsertSorted(t, x);
      BelowTotal(x, names[0]);
      assert Below(names[0], x);
      forall y | y in Insert(t, x)
        ensures Below(names[0], y)
      {
        if y != x {
          var k :| 0 <= k < |t| && t[k] == y;
          assert names[k + 1] == y;
        }
      }
      var r := [names[0]] + Insert(t, x);
      forall i, j | 0 <= i < j < |r|
        ensures Below(r[i], r[j])
      {
        if i == 0 {
          assert r[j] in Insert(t, x);
        }
      }
    }
  }

  lemma {:induction false} RemoveSorted(names: seq<string>, x: string)
    requires StrictlySorted(names)
    ensures StrictlySorted(Remove(names, x))
    ensures forall y :: y in Remove(names, x) <==> y != x && y in names
  {
    if names != [] {
      var t := names[1..];
      assert StrictlySorted(t);
      RemoveSorted(t, x);
      if names[0] != x {
        var r := [names[0]] + Remove(t, x);
        forall i, j | 0 <= i < j < |r|
          ensures Below(r[i], r[j])
        {
          if i == 0 {
            assert r[j] in t;
            var k :| 0 <= k < |t| && t[k] == r[j];
            assert names[k + 1] == r[j];
          }
        }
      }
    }
  }

  /** The store after an object is created or replaced. */
  function Put(store: Store, name: string, blob: Blob): (r: Store)
    requires store.Valid()
    ensures r.Valid()
    ensures r.blobs == store.blobs[name := blob]
  {
    if name in store.blobs then Store(store.names, store.blobs[name := blob])
    else
      InsertSorted(store.names, name);
      Store(Insert(store.names, name), store.blobs[name := blob])
  }

  /** The store after an object is removed. */
  function Drop(store: Store, name: string): (r: Store)
    requires store.Valid()
    ensures r.Valid()
    ensures r.blobs == store.blobs - {name}
  {
    RemoveSorted(store.names, name);
    Store(Remove(store.names, name), store.blobs - {name})
  }

  // ---------------------------------------------------------------------
  // Library calls

  /** cloudstorage.stat */
  function CloudStat(store: Store, filename: string): Result<FileStat, CloudError>
  {
    if filename in store.blobs then
      var b := store.blobs[filename];
      Ok(FileStat(filename, b.ctime, |b.content|, b.contentType))
    else Err(NotFoundError(filename))
  }

  /** cloudstorage.open: mode 'r' (the default) opens an existing object for
      reading, mode 'w' opens a writer, any other mode is refused. */
  function CloudOpen(store: Store, filename: string, kwargs: map<string, Arg>): Result<Handle, CloudError>
  {
    var mode := if "mode" in kwargs then kwargs["mode"] else Text("r");
    if mode == Text("r") then
      if filename in store.blobs then Ok(Reader(filename, store.blobs[filename].content))
      else Err(NotFoundError(filename))
    else if mode == Text("w") then
      var ctype := if "content_type" in kwargs && kwargs["content_type"].Text?
                   then Some(kwargs["content_type"].text) else None;
      var options := if "options" in kwargs && kwargs["options"].Headers?
                     then Some(kwargs["options"].headers) else None;
      Ok(Writer(filename, ctype, options))
    else Err(InvalidMode(mode))
  }

  /** cloudstorage.open(filename).read() */
  function CloudReadAll(store: Store, filename: string): Result<Bytes, CloudError>
  {
    if filename in store.blobs then Ok(store.blobs[filename].content)
    else Err(NotFoundError(filename))
  }

  /** Writing content to a handle and closing it: a writer creates or
      replaces its object, stamped with the clock value now. */
  function WriteAndClose(store: Store, h: Handle, content: Bytes, now: int): Store
    requires store.Valid()
  {
    match h
    case Reader(_, _) => store
    case Writer(name, ctype, options) => Put(store, name, Blob(content, ctype, options, now))
  }

  /** cloudstorage.delete */
  function CloudDelete(store: Store, filename: string): (r: Result<Store, CloudError>)
    requires store.Valid()
  {
    if filename in store.blobs then Ok(Drop(store, filename))
    else Err(NotFoundError(filename))
  }

  /** cloudstorage_api._copy2: the target becomes a copy of the source. */
  function CloudCopy(store: Store, src: string, dst: string): (r: Result<Store, CloudError>)
    requires store.Valid()
  {
    if src in store.blobs then Ok(Put(store, dst, store.blobs[src]))
    else Err(NotFoundError(src))
  }

  /** The names in listing order that start with start and, when a marker
      is given, come strictly after it. */
  function Listing(names: seq<string>, start: string, marker: Option<string>): seq<string>
  {
    if names == [] then []
    else
      var rest := Listing(names[1..], start, marker);
      if start <= names[0] && (marker.None? || Below(marker.value, names[0]))
      then [names[0]] + rest
      else rest
  }

  /** The first n elements of s, or all of s when it is shorter. */
  function Take<T>(s: seq<T>, n: nat): (r: seq<T>)
  {
    if |s| <= n then s else s[..n]
  }

  /** cloudstorage.listbucket(pathPrefix, prefix=prefix, max_keys=maxKeys,
      marker=marker): the filenames of the objects of the bucket whose
      object name starts with prefix, after the marker, at most maxKeys. */
  function ListBucket(store: Store, pathPrefix: string, prefix: string, maxKeys: nat,
                      marker: Option<string>): seq<string>
  {
    Take(Listing(store.names, pathPrefix + "/" + prefix, marker), maxKeys)
  }

  lemma {:induction false} ListingMembers(names: seq<string>, start: string, marker: Option<string>)
    ensures forall x :: x in Listing(names, start, marker) <==>
      x in names && start <= x && (marker.None? || Below(marker.value, x))
  {
    if names != [] {
      ListingMembers(names[1..], start, marker);
      assert names == [names[0]] + names[1..];
    }
  }

  lemma {:induction false} ListingAllAfter(names: seq<string>, start: string, m: string)
    requires forall i | 0 <= i < |names| :: Below(m, names[i])
    ensures Listing(names, start, Some(m)) == Listing(names, start, None)
  {
    if names != [] {
      ListingAllAfter(names[1..], start, m);
    }
  }

  /** Over a sorted bucket, listing after the k-th listed name yields exactly
      the names listed after it: each page continues where the last ended. */
  lemma {:induction false} ListingAfter(names: seq<string>, start: string, k: nat)
    requires StrictlySorted(names)
    requires k < |Listing(names, start, None)|
    ensures Listing(names, start, Some(Listing(names, start, None)[k]))
         == Listing(names, start, None)[k + 1..]
  {
    var h, t := names[0], names[1..];
    assert StrictlySorted(t);
    var lt := Listing(t, start, None);
    if start <= h {
      if k == 0 {
        assert forall i | 0 <= i < |t| :: Below(h, t[i]) by {
          forall i | 0 <= i < |t| ensures Below(h, t[i]) { assert t[i] == names[i + 1]; }
        }
        BelowIrreflexive(h);
        ListingAllAfter(t, start, h);
      } else {
        var m := lt[k - 1];
        ListingMembers(t, start, None);
        assert m in lt;
        var i :| 0 <= i < |t| && t[i] == m;
        assert names[i + 1] == m;
        BelowAsymmetric(h, m);
        ListingAfter(t, start, k - 1);
      }
    } else {
      ListingAfter(t, start, k);
    }
  }
}
