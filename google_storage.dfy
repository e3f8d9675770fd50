// The Cloud Storage backend of pod storage: CloudStorage (path
// normalisation, open with mode coercion, read/stat/modified/exists/delete
// with their error translation, write with its content-type choice, copy and
// move, listdir's paging loop) and CloudStorageLoader, the template loader
// reading from the same store. The bucket is the abstract Store of module
// CloudStore; the clock and mimetypes.guess_type are parameters.

module GoogleStorage {
  import opened Results
  import opened CloudStore

  /** Errors the backend raises. Library errors that pass through untouched
      (copy_to, move_to, an invalid open mode) are wrapped in Library. */
  datatype Error =
    | IOError(message: string)
    | PathError(message: string)
    | ValueError
    | TemplateNotFound(template: string)
    | Library(cause: CloudError)

  /** The message of the IOError that replaces a NotFoundError. */
  function NotFoundMessage(filename: string): string
  {
    "File " + filename + " not found."
  }

  // ---------------------------------------------------------------------
  // normalize_path

  /** The path contains the substring "..". */
  predicate HasDotDot(s: string)
  {
    exists i | 0 <= i < |s| - 1 :: s[i] == '.' && s[i + 1] == '.'
  }

  function NormalizePath(path: string): (r: Result<string, Error>)
    ensures r.Err? <==> HasDotDot(path)
    ensures r.Err? ==> r.error == PathError("\"..\" not allowed in path: " + path)
    ensures r.Ok? ==> |r.value| > 0 && r.value[0] == '/'
    ensures r.Ok? && |path| > 0 && path[0] == '/' ==> r.value == path
    ensures r.Ok? && !(|path| > 0 && path[0] == '/') ==> r.value == "/" + path
  {
    if HasDotDot(path) then Err(PathError("\"..\" not allowed in path: " + path))
    else if |path| > 0 && path[0] == '/' then Ok(path)
    else Ok("/" + path)
  }

  /** A leading '/' neither creates nor removes a "..". */
  lemma SlashKeepsDotDot(path: string)
    ensures HasDotDot("/" + path) <==> HasDotDot(path)
  {
    var s := "/" + path;
    if HasDotDot(s) {
      var i :| 0 <= i < |s| - 1 && s[i] == '.' && s[i + 1] == '.';
      assert path[i - 1] == '.' && path[i] == '.';
    }
    if HasDotDot(path) {
      var i :| 0 <= i < |path| - 1 && path[i] == '.' && path[i + 1] == '.';
      assert s[i + 1] == '.' && s[i + 2] == '.';
    }
  }

  /** Normalising a normalised path changes nothing. */
  lemma NormalizePathIdempotent(path: string)
    requires NormalizePath(path).Ok?
    ensures NormalizePath(NormalizePath(path).value) == NormalizePath(path)
  {
    if !(|path| > 0 && path[0] == '/') {
      SlashKeepsDotDot(path);
    }
  }

  // ---------------------------------------------------------------------
  // open

  /** The keyword arguments after open's mode coercion. */
  function CoercedArgs(kwargs: map<string, Arg>): (r: map<string, Arg>)
    ensures r.Keys == kwargs.Keys
    ensures "mode" in kwargs ==> r["mode"] != NoneArg && r["mode"] != Text("rb")
    ensures "mode" in kwargs && (kwargs["mode"] == NoneArg || kwargs["mode"] == Text("rb"))
            ==> r["mode"] == Text("r")
    ensures "mode" in kwargs && kwargs["mode"] != NoneArg && kwargs["mode"] != Text("rb")
            ==> r["mode"] == kwargs["mode"]
    ensures forall k | k in kwargs && k != "mode" :: r[k] == kwargs[k]
  {
    if "mode" in kwargs && (kwargs["mode"] == NoneArg || kwargs["mode"] == Text("rb"))
    then kwargs["mode" := Text("r")]
    else kwargs
  }

  /** What open returns: the library's open on the coerced arguments, with
      NotFoundError turned into IOError. */
  function OpenResult(store: Store, filename: string, kwargs: map<string, Arg>): Result<Handle, Error>
  {
    match CloudOpen(store, filename, CoercedArgs(kwargs))
    case Ok(h) => Ok(h)
    case Err(NotFoundError(_)) => Err(IOError(NotFoundMessage(filename)))
    case Err(e) => Err(Library(e))
  }

  /** CloudStorage.open: coerces the mode in its own copy of the keyword
      arguments, then opens. */
  method Open(store: Store, filename: string, kwargs: map<string, Arg>) returns (r: Result<Handle, Error>)
    ensures r == OpenResult(store, filename, kwargs)
  {
    var kw := kwargs;
    if "mode" in kw {
      if kw["mode"] == NoneArg || kw["mode"] == Text("rb") {
        kw := kw["mode" := Text("r")];
      }
    }
    var outcome := CloudOpen(store, filename, kw);
    if outcome.Err? && outcome.error.NotFoundError? {
      r := Err(IOError(NotFoundMessage(filename)));
    } else if outcome.Err? {
      r := Err(Library(outcome.error));
    } else {
      r := Ok(outcome.value);
    }
  }

  /** Opening for reading with no mode, mode None, 'r' or 'rb' gives the
      object's bytes, or IOError when the object does not exist. */
  lemma OpenForReading(store: Store, filename: string, kwargs: map<string, Arg>)
    requires "mode" in kwargs ==> kwargs["mode"] in {NoneArg, Text("r"), Text("rb")}
    ensures filename in store.blobs ==>
      OpenResult(store, filename, kwargs) == Ok(Reader(filename, store.blobs[filename].content))
    ensures filename !in store.blobs ==>
      OpenResult(store, filename, kwargs) == Err(IOError(NotFoundMessage(filename)))
  {
  }

  // ---------------------------------------------------------------------
  // read, modified, stat, exists

  function Read(store: Store, filename: string): (r: Result<Bytes, Error>)
    ensures r.Ok? <==> filename in store.blobs
    ensures r.Ok? ==> r.value == store.blobs[filename].content
    ensures r.Err? ==> r.error.IOError?
  {
    match CloudReadAll(store, filename)
    case Ok(content) => Ok(content)
    case Err(e) => Err(IOError(e.detail))
  }

  function Modified(store: Store, filename: string): (r: Result<int, Error>)
    ensures r.Ok? <==> filename in store.blobs
    ensures r.Ok? ==> r.value == store.blobs[filename].ctime
    ensures r.Err? ==> r.error == IOError(NotFoundMessage(filename))
  {
    match CloudStat(store, filename)
    case Ok(st) => Ok(st.stCtime)
    case Err(_) => Err(IOError(NotFoundMessage(filename)))
  }

  function Stat(store: Store, filename: string): (r: Result<FileStat, Error>)
    ensures r.Ok? <==> filename in store.blobs
    ensures r.Ok? ==> r.value.filename == filename && r.value.stSize == |store.blobs[filename].content|
    ensures r.Err? ==> r.error == IOError(NotFoundMessage(filename))
  {
    match CloudStat(store, filename)
    case Ok(st) => Ok(st)
    case Err(_) => Err(IOError(NotFoundMessage(filename)))
  }

  /** exists: whether stat finds the object. */
  function Exists(store: Store, filename: string): (r: bool)
    ensures r <==> filename in store.blobs
  {
    // the library's stat raises nothing but NotFoundError
    match CloudStat(store, filename)
    case Ok(_) => true
    case Err(_) => false
  }

  /** exists holds exactly when stat finds the object, and then stat,
      modified and read all succeed. */
  lemma ExistsIffStat(store: Store, filename: string)
    ensures Exists(store, filename) <==> filename in store.blobs
    ensures Exists(store, filename) <==> Stat(store, filename).Ok?
    ensures Exists(store, filename) <==> Modified(store, filename).Ok?
    ensures Exists(store, filename) <==> Read(store, filename).Ok?
  {
  }

  // ---------------------------------------------------------------------
  // write, delete, copy_to, move_to

  /** Python truthiness of an optional string. */
  predicate Truthy(s: Option<string>)
  {
    s.Some? && s.value != ""
  }

  /** The content type write uses: the explicit one, else the guessed one,
      else "text/html". */
  function ContentType(explicit: Option<string>, guessed: Option<string>): (r: string)
    ensures r != ""
    ensures Truthy(explicit) ==> r == explicit.value
    ensures !Truthy(explicit) && Truthy(guessed) ==> r == guessed.value
    ensures !Truthy(explicit) && !Truthy(guessed) ==> r == "text/html"
  {
    if Truthy(explicit) then explicit.value
    else if Truthy(guessed) then guessed.value
    else "text/html"
  }

  /** The outcome of write: the new store and the closed file object. */
  datatype Written = Written(store: Store, file: Handle)

  /** CloudStorage.write: fails only on a path with "..". Otherwise it
      stores the content under the normalised path with the chosen content
      type and the given options, leaves every other object as it was, and
      returns the closed writer. */
  function Write(store: Store, path: string, content: Bytes, options: Option<map<string, string>>,
                 contentType: Option<string>, guessType: string -> Option<string>, now: int): (r: Result<Written, Error>)
    requires store.Valid()
    ensures r.Err? <==> HasDotDot(path)
    ensures r.Err? ==> r.error.PathError?
    ensures r.Ok? ==>
      var p := NormalizePath(path).value;
      var ctype := ContentType(contentType, guessType(p));
      && r.value.store.Valid()
      && r.value.store.blobs == store.blobs[p := Blob(content, Some(ctype), options, now)]
      && r.value.file == Writer(p, Some(ctype), options)
  {
    match NormalizePath(path)
    case Err(e) => Err(e)
    case Ok(p) =>
      var ctype := ContentType(contentType, guessType(p));
      var kwargs := map["mode" := Text("w"), "options" := OptionArg(options), "content_type" := Text(ctype)];
      match OpenResult(store, p, kwargs)
      case Err(e) => Err(e)
      case Ok(h) => Ok(Written(WriteAndClose(store, h, content, now), h))
  }

  function OptionArg(options: Option<map<string, string>>): Arg
  {
    if options.Some? then Headers(options.value) else NoneArg
  }

  /** What write stores reads back, exists, and every other object reads
      as before. */
  lemma WriteThenRead(store: Store, path: string, content: Bytes, options: Option<map<string, string>>,
                      contentType: Option<string>, guessType: string -> Option<string>, now: int)
    requires store.Valid()
    ensures var r := Write(store, path, content, options, contentType, guessType, now);
      r.Ok? ==>
        var p := NormalizePath(path).value;
        && Read(r.value.store, p) == Ok(content)
        && Exists(r.value.store, p)
        && forall q | q != p :: Read(r.value.store, q) == Read(store, q)
  {
  }

  /** CloudStorage.delete: refuses a path with "..", reports IOError for a
      missing object, and otherwise removes exactly the object at the
      normalised path. */
  function Delete(store: Store, path: string): (r: Result<Store, Error>)
    requires store.Valid()
    ensures HasDotDot(path) ==> r.Err? && r.error.PathError?
    ensures !HasDotDot(path) ==>
      var p := NormalizePath(path).value;
      && (p !in store.blobs ==> r == Err(IOError(NotFoundMessage(p))))
      && (p in store.blobs ==> r.Ok? && r.value.Valid() && r.value.blobs == store.blobs - {p})
  {
    match NormalizePath(path)
    case Err(e) => Err(e)
    case Ok(p) =>
      match CloudDelete(store, p)
      case Ok(s) => Ok(s)
      case Err(_) => Err(IOError(NotFoundMessage(p)))
  }

  /** After a delete the object no longer exists, every other object
      reads as before, and deleting it again reports IOError. */
  lemma DeleteRemoves(store: Store, path: string)
    requires store.Valid()
    ensures Delete(store, path).Ok? ==>
      var p := NormalizePath(path).value;
      var s := Delete(store, path).value;
      && !Exists(s, p)
      && (forall q | q != p :: Read(s, q) == Read(store, q))
      && Delete(s, path) == Err(IOError(NotFoundMessage(p)))
  {
  }

  /** CloudStorage.copy_to: the library's NotFoundError passes through
      for a missing source; otherwise the target becomes a copy of it. */
  function CopyTo(store: Store, path: string, target: string): (r: Result<Store, Error>)
    requires store.Valid()
    ensures path !in store.blobs ==> r == Err(Library(NotFoundError(path)))
    ensures path in store.blobs ==>
      r.Ok? && r.value.Valid() && r.value.blobs == store.blobs[target := store.blobs[path]]
  {
    match CloudCopy(store, path, target)
    case Ok(s) => Ok(s)
    case Err(e) => Err(Library(e))
  }

  /** CloudStorage.move_to: copy, then delete the source. A missing source
      gives the library's NotFoundError; moving onto another name relocates
      the object, and moving onto itself removes it. */
  function MoveTo(store: Store, path: string, target: string): (r: Result<Store, Error>)
    requires store.Valid()
    ensures path !in store.blobs ==> r == Err(Library(NotFoundError(path)))
    ensures path in store.blobs ==> r.Ok? && r.value.Valid()
    ensures path in store.blobs && path != target ==>
      r.value.blobs == (store.blobs - {path})[target := store.blobs[path]]
    ensures path in store.blobs && path == target ==> r.value.blobs == store.blobs - {path}
  {
    match CopyTo(store, path, target)
    case Err(e) => Err(e)
    case Ok(s) =>
      assert path != target ==> s.blobs - {path} == (store.blobs - {path})[target := store.blobs[path]];
      match CloudDelete(s, path)
      case Ok(s2) => Ok(s2)
      case Err(e) => Err(Library(e))
  }

  /** After copy_to the target reads what the source read and the source
      is untouched; after move_to onto another name the target reads what
      the source read and the source no longer exists. */
  lemma CopyAndMove(store: Store, path: string, target: string)
    requires store.Valid()
    ensures CopyTo(store, path, target).Ok? ==>
      var s := CopyTo(store, path, target).value;
      Read(s, target) == Read(store, path) && Read(s, path) == Read(store, path)
    ensures MoveTo(store, path, target).Ok? && path != target ==>
      var s := MoveTo(store, path, target).value;
      Read(s, target) == Read(store, path) && !Exists(s, path)
  {
  }

  // ---------------------------------------------------------------------
  // listdir

  const PageSize: nat := 20

  /** The index of the first '/' of s, if any. */
  function FirstSlash(s: string): (r: Option<nat>)
    ensures r.None? <==> '/' !in s
    ensures r.Some? ==> r.value < |s| && s[r.value] == '/' && '/' !in s[..r.value]
  {
    if s == [] then None
    else if s[0] == '/' then Some(0)
    else match FirstSlash(s[1..])
      case None => None
      case Some(j) => assert s[..j + 1] == [s[0]] + s[1..][..j]; Some(j + 1)
  }

  /** listdir's bucket path and prefix, split from filename[1:] at its first
      '/': the split fails (ValueError) exactly when filename[1:] has no '/'.
      Otherwise the bucket path starts with '/' and has no other '/', and
      filename is the bucket path, a '/', and the prefix (after its first
      character). */
  function SplitBucket(filename: string): (r: Result<(string, string), Error>)
    ensures r.Err? <==> |filename| == 0 || '/' !in filename[1..]
    ensures r.Err? ==> r.error == ValueError
    ensures r.Ok? ==>
      var (bucket, prefix) := r.value;
      && |bucket| > 0 && bucket[0] == '/' && '/' !in bucket[1..]
      && filename[1..] == bucket[1..] + "/" + prefix
  {
    var rest := if |filename| == 0 then "" else filename[1..];
    match FirstSlash(rest)
    case None => Err(ValueError)
    case Some(j) =>
      assert rest == rest[..j] + "/" + rest[j + 1..];
      Ok(("/" + rest[..j], rest[j + 1..]))
  }

  /** Python's s[k:]. */
  function Suffix(s: string, k: nat): string
  {
    if k <= |s| then s[k..] else ""
  }

  /** The names listdir keeps: non-empty, and without '/' unless recursive. */
  predicate Keep(name: string, recursive: bool)
  {
    name != "" && (recursive || '/' !in name)
  }

  /** What one item filename f adds to the names: f after its first cut
      characters, when that is kept. */
  function Kept(f: string, cut: nat, recursive: bool): set<string>
  {
    var name := Suffix(f, cut);
    if Keep(name, recursive) then {name} else {}
  }

  /** The names gathered from the first n item filenames of fs. */
  function Gathered(fs: seq<string>, n: nat, cut: nat, recursive: bool): set<string>
    requires n <= |fs|
  {
    if n == 0 then {} else Gathered(fs, n - 1, cut, recursive) + Kept(fs[n - 1], cut, recursive)
  }

  lemma {:induction false} GatheredMembers(fs: seq<string>, n: nat, cut: nat, recursive: bool)
    requires n <= |fs|
    ensures forall x :: x in Gathered(fs, n, cut, recursive) <==>
      Keep(x, recursive) && exists i | 0 <= i < n :: Suffix(fs[i], cut) == x
  {
    if n > 0 {
      GatheredMembers(fs, n - 1, cut, recursive);
    }
  }

  /** The names listdir(filename) returns, for the bucket path and prefix
      split from filename. */
  function ListdirNames(store: Store, bucket: string, prefix: string, recursive: bool): set<string>
  {
    var l := Listing(store.names, bucket + "/" + prefix, None);
    Gathered(l, |l|, |bucket| + |prefix| + 1, recursive)
  }

  /** ListdirNames unfolded for the listing start and the cut length the
      paging loop computes. */
  lemma ListdirNamesOf(store: Store, bucket: string, prefix: string, recursive: bool, start: string, cut: nat)
    requires start == bucket + "/" + prefix && cut == |bucket| + |prefix| + 1
    ensures var l := Listing(store.names, start, None);
      ListdirNames(store, bucket, prefix, recursive) == Gathered(l, |l|, cut, recursive)
  {
  }

  /** A name is listed exactly when it is non-empty, has no '/' unless the
      listing is recursive, and bucket + "/" + prefix + name is a stored
      object. So no listed name is empty, a non-recursive listing has no
      name with '/', and each listed name is a stored name with the bucket
      and prefix stripped. */
  lemma ListdirNamesIff(store: Store, bucket: string, prefix: string, recursive: bool)
    requires store.Valid()
    ensures forall x :: x in ListdirNames(store, bucket, prefix, recursive) <==>
      Keep(x, recursive) && bucket + "/" + prefix + x in store.blobs
  {
    forall x ensures x in ListdirNames(store, bucket, prefix, recursive) <==>
      Keep(x, recursive) && bucket + "/" + prefix + x in store.blobs
    {
      ListdirNamesAt(store, bucket + "/" + prefix, bucket, prefix, recursive, x);
    }
  }

  /** ListdirNamesIff for one name. */
  lemma ListdirNamesAt(store: Store, start: string, bucket: string, prefix: string, recursive: bool, x: string)
    requires store.Valid() && start == bucket + "/" + prefix
    ensures x in ListdirNames(store, bucket, prefix, recursive) <==> Keep(x, recursive) && start + x in store.blobs
  {
    var l := Listing(store.names, start, None);
    var g := Gathered(l, |l|, |start|, recursive);
    ListdirNamesOf(store, bucket, prefix, recursive, start, |start|);
    ListingStarts(store.names, start);
    GatheredPrefixed(l, start, recursive, x);
    ListedAt(store, start, x);
    assert x in g <==> Keep(x, recursive) && start + x in store.blobs;
  }

  /** Every name listed from start starts with start. */
  lemma ListingStarts(names: seq<string>, start: string)
    ensures var l := Listing(names, start, None);
      forall i | 0 <= i < |l| :: start <= l[i]
  {
    var l := Listing(names, start, None);
    ListingMembers(names, start, None);
    forall i | 0 <= i < |l| ensures start <= l[i] {
      assert l[i] in l;
    }
  }

  /** start + x is listed from start exactly when it is stored. */
  lemma ListedAt(store: Store, start: string, x: string)
    requires store.Valid()
    ensures start + x in Listing(store.names, start, None) <==> start + x in store.blobs
  {
    ListingMembers(store.names, start, None);
    assert start <= start + x;
  }

  /** Over a listing whose names all start with start, the gathered names
      are the kept remainders of its names after start. */
  lemma GatheredPrefixed(l: seq<string>, start: string, recursive: bool, x: string)
    requires forall i | 0 <= i < |l| :: start <= l[i]
    ensures x in Gathered(l, |l|, |start|, recursive) <==> Keep(x, recursive) && start + x in l
  {
    GatheredMembers(l, |l|, |start|, recursive);
    if x in Gathered(l, |l|, |start|, recursive) {
      var i :| 0 <= i < |l| && Suffix(l[i], |start|) == x;
      assert l[i] == start + x;
    }
    if Keep(x, recursive) && start + x in l {
      var i :| 0 <= i < |l| && l[i] == start + x;
      assert Suffix(l[i], |start|) == x;
    }
  }

  /** A file written under bucket + "/" + prefix + rest is listed as rest
      by the next listing of that bucket and prefix, when rest is a name
      listdir keeps. */
  lemma ListdirAfterWrite(store: Store, bucket: string, prefix: string, rest: string, recursive: bool,
                          content: Bytes, options: Option<map<string, string>>,
                          contentType: Option<string>, guessType: string -> Option<string>, now: int)
    requires store.Valid()
    requires Keep(rest, recursive) && |bucket| > 0 && bucket[0] == '/'
    requires !HasDotDot(bucket + "/" + prefix + rest)
    ensures var w := Write(store, bucket + "/" + prefix + rest, content, options, contentType, guessType, now);
      w.Ok? && rest in ListdirNames(w.value.store, bucket, prefix, recursive)
  {
    var path := bucket + "/" + prefix + rest;
    var w := Write(store, path, content, options, contentType, guessType, now);
    assert NormalizePath(path).value == path;
    ListdirNamesIff(w.value.store, bucket, prefix, recursive);
  }

  predicate Distinct(s: seq<string>)
  {
    forall i, j | 0 <= i < j < |s| :: s[i] != s[j]
  }

  /** list(names): the elements of a set, each once, in some order. */
  method ListOf(names: set<string>) returns (r: seq<string>)
    ensures Distinct(r)
    ensures forall x :: x in r <==> x in names
  {
    r := [];
    var rest := names;
    while rest != {}
      invariant Distinct(r)
      invariant forall x :: x in r ==> x !in rest
      invariant forall x :: x in names <==> x in r || x in rest
      decreases |rest|
    {
      var x :| x in rest;
      r := r + [x];
      rest := rest - {x};
    }
  }

  /** The markers of listdir's listbucket requests over the listing l,
      after pages full pages: none for the first request, then the last
      filename of each full page. */
  ghost predicate MarkersSoFar(l: seq<string>, pages: nat, markers: seq<Option<string>>)
  {
    && |markers| == pages + 1
    && markers[0] == None
    && forall k | 0 < k <= pages :: PageSize * k <= |l| && markers[k] == Some(l[PageSize * k - 1])
  }

  /** The markers of all of listdir's listbucket requests over the listing
      l: one request per full page of l and one more, so that there are
      |l| / PageSize + 1 of them. */
  ghost predicate Markers(l: seq<string>, markers: seq<Option<string>>)
  {
    && |markers| >= 1
    && MarkersSoFar(l, |markers| - 1, markers)
    && |l| < PageSize * |markers|
  }

  /** One page of listdir's inner loop over the items l[pos..pos + |items|]:
      counts them, adds their kept names, and remembers the last filename. */
  method CollectPage(items: seq<string>, cut: nat, recursive: bool, names: set<string>,
                     ghost l: seq<string>, ghost pos: nat)
    returns (names': set<string>, count: nat, last: string)
    requires pos + |items| <= |l| && forall k | 0 <= k < |items| :: items[k] == l[pos + k]
    requires names == Gathered(l, pos, cut, recursive)
    ensures names' == Gathered(l, pos + |items|, cut, recursive)
    ensures count == |items|
    ensures |items| > 0 ==> last == items[|items| - 1]
  {
    names', count, last := names, 0, "";
    for j := 0 to |items|
      invariant count == j
      invariant names' == Gathered(l, pos + j, cut, recursive)
      invariant j > 0 ==> last == items[j - 1]
    {
      count := count + 1;
      var name := Suffix(items[j], cut);
      assert Gathered(l, pos + j + 1, cut, recursive) == names' + Kept(items[j], cut, recursive) by {
        assert items[j] == l[pos + j];
      }
      if Keep(name, recursive) {
        names' := names' + {name};
      }
      last := items[j];
    }
  }

  /** The state of listdir's paging loop before it handles the page that
      starts at pos, the pages-th full page boundary of the listing l:
      items is that page, names holds the names gathered from everything
      before it, and markers the markers of the requests made so far. */
  ghost predicate Paging(l: seq<string>, cut: nat, recursive: bool, pos: nat, pages: nat,
                         items: seq<string>, names: set<string>, markers: seq<Option<string>>)
  {
    && pos == PageSize * pages && pos + |items| <= |l|
    && items == Take(l[pos..], PageSize)
    && names == Gathered(l, pos, cut, recursive)
    && MarkersSoFar(l, pages, markers)
  }

  lemma PagingStart(l: seq<string>, cut: nat, recursive: bool)
    ensures Paging(l, cut, recursive, 0, 0, Take(l, PageSize), {}, [None])
  {
    assert l[0..] == l;
  }

  /** A page is the slice of the listing it covers. */
  lemma PageSlice(l: seq<string>, pos: nat, items: seq<string>)
    requires pos <= |l| && items == Take(l[pos..], PageSize)
    ensures pos + |items| <= |l| && forall k | 0 <= k < |items| :: items[k] == l[pos + k]
    ensures |items| < PageSize ==> pos + |items| == |l|
  {
  }

  /** After a full page the loop asks for the page after the page's last
      filename, which is the next page of the listing l of the names that
      start with start. */
  lemma PagingNext(names: seq<string>, start: string, l: seq<string>, cut: nat, recursive: bool,
                   pos: nat, pages: nat, items: seq<string>, gathered: set<string>,
                   markers: seq<Option<string>>, gathered': set<string>, last: string)
    requires StrictlySorted(names) && l == Listing(names, start, None)
    requires Paging(l, cut, recursive, pos, pages, items, gathered, markers)
    requires gathered' == Gathered(l, pos + |items|, cut, recursive)
    requires |items| == PageSize && last == items[PageSize - 1]
    ensures Paging(l, cut, recursive, pos + PageSize, pages + 1,
                   Take(Listing(names, start, Some(last)), PageSize), gathered', markers + [Some(last)])
  {
    assert last == l[pos + PageSize - 1];
    ListingAfter(names, start, pos + PageSize - 1);
    MarkersExtend(l, pages, markers, last);
  }

  /** A full page's last filename extends the markers by one. */
  lemma MarkersExtend(l: seq<string>, pages: nat, markers: seq<Option<string>>, last: string)
    requires MarkersSoFar(l, pages, markers)
    requires PageSize * (pages + 1) <= |l| && last == l[PageSize * (pages + 1) - 1]
    ensures MarkersSoFar(l, pages + 1, markers + [Some(last)])
  {
  }

  /** After a page shorter than PageSize the loop has gathered the names of
      the whole listing and made one request per full page plus one. */
  lemma PagingEnd(l: seq<string>, cut: nat, recursive: bool, pos: nat, pages: nat,
                  items: seq<string>, gathered: set<string>, markers: seq<Option<string>>,
                  gathered': set<string>)
    requires Paging(l, cut, recursive, pos, pages, items, gathered, markers)
    requires gathered' == Gathered(l, pos + |items|, cut, recursive)
    requires |items| != PageSize
    ensures gathered' == Gathered(l, |l|, cut, recursive)
    ensures Markers(l, markers)
  {
  }

  /** listdir's paging loop: pages through the bucket PageSize items at a
      time, each page after the last filename of the one before, and
      collects the kept names in a set. The ghost markers are the markers of
      the successive listbucket requests. */
  method CollectNames(store: Store, bucket: string, prefix: string, recursive: bool)
    returns (names: set<string>, ghost markers: seq<Option<string>>)
    requires StrictlySorted(store.names)
    ensures names == ListdirNames(store, bucket, prefix, recursive)
    ensures var l := Listing(store.names, bucket + "/" + prefix, None);
      Markers(l, markers)
  {
    var cut := |bucket| + |prefix| + 1;
    ghost var start := bucket + "/" + prefix;
    ghost var l := Listing(store.names, start, None);
    names := {};
    var items := ListBucket(store, bucket, prefix, PageSize, None);
    ghost var pos: nat := 0;
    ghost var pages: nat := 0;
    markers := [None];
    PagingStart(l, cut, recursive);
    while true
      invariant Paging(l, cut, recursive, pos, pages, items, names, markers)
      decreases |l| - pos
    {
      PageSlice(l, pos, items);
      var count, last;
      ghost var before := names;
      names, count, last := CollectPage(items, cut, recursive, names, l, pos);
      if count != PageSize || count == 0 {
        PagingEnd(l, cut, recursive, pos, pages, items, before, markers, names);
        ListdirNamesOf(store, bucket, prefix, recursive, start, cut);
        break;
      }
      PagingNext(store.names, start, l, cut, recursive, pos, pages, items, before, markers, names, last);
      items := ListBucket(store, bucket, prefix, PageSize, Some(last));
      pos := pos + PageSize;
      pages := pages + 1;
      markers := markers + [Some(last)];
    }
  }

  /** CloudStorage.listdir: splits the bucket path and prefix off filename,
      collects the names, and returns them as a list. */
  method Listdir(store: Store, filename: string, recursive: bool)
    returns (r: Result<seq<string>, Error>, ghost markers: seq<Option<string>>)
    requires store.Valid()
    ensures r.Err? <==> SplitBucket(filename).Err?
    ensures r.Err? ==> r.error == ValueError
    ensures r.Ok? ==>
      var bucket, prefix := SplitBucket(filename).value.0, SplitBucket(filename).value.1;
      var l := Listing(store.names, bucket + "/" + prefix, None);
      && Distinct(r.value)
      && (forall x :: x in r.value <==> x in ListdirNames(store, bucket, prefix, recursive))
      && Markers(l, markers)
  {
    var split := SplitBucket(filename);
    if split.Err? {
      return Err(ValueError), [];
    }
    var names;
    names, markers := CollectNames(store, split.value.0, split.value.1, recursive);
    var list := ListOf(names);
    r := Ok(list);
  }

  // ---------------------------------------------------------------------
  // CloudStorageLoader

  datatype CloudStorageLoader = CloudStorageLoader(path: string)

  /** CloudStorage.JinjaLoader: a loader rooted at the normalised path. */
  function JinjaLoader(path: string): (r: Result<CloudStorageLoader, Error>)
    ensures r.Err? <==> HasDotDot(path)
    ensures r.Ok? ==> r.value.path == NormalizePath(path).value && r.value.path[0] == '/'
  {
    match NormalizePath(path)
    case Err(e) => Err(e)
    case Ok(p) => Ok(CloudStorageLoader(p))
  }

  /** str.lstrip(c): s without its leading run of c. */
  function LStrip(s: string, c: char): (r: string)
    ensures |r| <= |s| && r == s[|s| - |r|..]
    ensures r == [] || r[0] != c
    ensures forall i | 0 <= i < |s| - |r| :: s[i] == c
  {
    if s != [] && s[0] == c then LStrip(s[1..], c) else s
  }

  /** posixpath.join(a, b). */
  function Join(a: string, b: string): (r: string)
    ensures |b| > 0 && b[0] == '/' ==> r == b
    ensures !(|b| > 0 && b[0] == '/') ==> r == a + b || r == a + "/" + b
    ensures !(|b| > 0 && b[0] == '/') ==> (r == a + "/" + b <==> a != "" && a[|a| - 1] != '/')
  {
    if |b| > 0 && b[0] == '/' then b
    else if a == "" || a[|a| - 1] == '/' then a + b
    else a + "/" + b
  }

  /** The template source and the path it was read from; the uptodate
      callback, which always answers true, is not part of this value. */
  datatype Source = Source(source: Bytes, filename: string)

  /** The path get_source reads a template from. */
  function TemplatePath(loader: CloudStorageLoader, template: string): string
  {
    Join(loader.path, LStrip(template, '/'))
  }

  /** CloudStorageLoader.get_source: a missing template object becomes
      TemplateNotFound(template); an existing one yields its bytes and the
      path it was read from. */
  function GetSource(store: Store, loader: CloudStorageLoader, template: string): (r: Result<Source, Error>)
    ensures var path := TemplatePath(loader, template);
      && (path in store.blobs ==> r == Ok(Source(store.blobs[path].content, path)))
      && (path !in store.blobs ==> r == Err(TemplateNotFound(template)))
  {
    var path := TemplatePath(loader, template);
    match Read(store, path)
    case Ok(source) => Ok(Source(source, path))
    case Err(IOError(_)) => Err(TemplateNotFound(template))
    case Err(e) => Err(e)
  }

  /** get_source reads loader.path joined with the template stripped of its
      leading slashes. The stripped template never starts with '/', so it
      never replaces loader.path: the path is loader.path and the stripped
      template, with a '/' between them exactly when loader.path is
      non-empty and does not already end in '/'. */
  lemma TemplatePathInside(loader: CloudStorageLoader, template: string)
    ensures var path := TemplatePath(loader, template);
      var stripped := LStrip(template, '/');
      && (stripped == [] || stripped[0] != '/')
      && (path == loader.path + stripped || path == loader.path + "/" + stripped)
      && (path == loader.path + "/" + stripped <==> loader.path != "" && loader.path[|loader.path| - 1] != '/')
  {
    var stripped := LStrip(template, '/');
    assert stripped == [] || stripped[0] != '/';
  }
}
