# Grow pod watchers and Cloud Storage backend, modelled in Dafny

This project models two parts of Grow, the static site generator.

1. **The pod file watcher** (`grow/pods/preprocessors/file_watchers.py`). A
   `ManagedObserver` is a watchdog observer with three pieces of state:
   - the table of scheduled watches;
   - the list of watches it scheduled for the pod's preprocessors (the
     "tracked" list);
   - its child observers.

   The podspec handler reschedules the children of its observer. The
   preprocessor handler runs its preprocessor. The model is imperative, in
   `file_watchers.dfy`:
   - `ManagedObserver` is a class with fields `watches`, `nextId`,
     `preprocessorWatches` and `children`, and methods that change them.
   - The pod is a class whose `preprocessors` field is what
     `list_preprocessors()` returns at the moment it is asked.
   - Calls that leave the model are appended to the ghost log of a
     `Journal`: a thread's `start`, `stop` or `join`, a preprocessor's
     `run()`, and an invocation of `reschedule_children`.

2. **The Cloud Storage backend** (`grow/pods/storage/google_storage.py`).
   This is `CloudStorage` with its path normalisation, `open` with its mode
   coercion, the error translation of `read`, `modified`, `stat`, `exists`
   and `delete`, the content-type choice of `write`, `copy_to`/`move_to`, and
   the paging loop of `listdir`. It also covers `CloudStorageLoader.get_source`.
   - The Google Cloud Storage client library is foreign code. It is modelled
     in `cloud_store.dfy` as a value: a `Store` holding the sorted object
     names and a map from name to object. Each library call is a function
     over that value.
   - `listbucket` returns, in name order, the names that start with the
     requested prefix and come strictly after the marker, at most
     `max_keys` of them.
   - `google_storage.dfy` holds the backend. Pure code is written as
     functions. `open`, the `listdir` loop and `list(names)` are written as
     methods proved against functions.

`results.dfy` holds the `Option` and `Result` types. Errors the Python code
raises are `Err` values of `GoogleStorage.Error`.

## Model

| member | source | states |
|---|---|---|
| FileWatchers.ManagedObserver.constructor | grow/pods/preprocessors/file_watchers.py:45-49 | a new observer has an empty watch table, an empty tracked list and no children |
| FileWatchers.ManagedObserver.SchedulePodspec | grow/pods/preprocessors/file_watchers.py:51-53 | appends exactly one watch: non-recursive, on the pod root, with a podspec handler for this observer; the tracked list is untouched |
| FileWatchers.ManagedObserver.ScheduleTranslation | grow/pods/preprocessors/file_watchers.py:55-57 | appends one recursive watch on `pod.abs_path('/translations/')` for the translation preprocessor, which is not tracked |
| FileWatchers.ManagedObserver.SchedulePreprocessor | grow/pods/preprocessors/file_watchers.py:66-69 | appends one recursive watch on `pod.abs_path(path)` whose handler runs the preprocessor, and returns that watch's identity |
| FileWatchers.ManagedObserver.SchedulePreprocessors | grow/pods/preprocessors/file_watchers.py:59-64 | the previous tracked list is discarded without unscheduling anything, and the existing table is kept as a prefix; the new watches are one per (preprocessor, watched dir) pair in loop order; the tracked list is exactly their identities |
| FileWatchers.ManagedObserver.ScheduleDirs | grow/pods/preprocessors/file_watchers.py:62-64 | the inner loop over one preprocessor's dirs: keeps the table as a prefix and appends one recursive watch per dir in order, each tracked |
| FileWatchers.PreprocessorShapesLength | grow/pods/preprocessors/file_watchers.py:61-64 | schedule_preprocessors installs exactly as many watches as there are (preprocessor, dir) pairs |
| FileWatchers.PreprocessorShapesAt | grow/pods/preprocessors/file_watchers.py:61-64 | the watch for the j-th dir of the k-th preprocessor sits right after the watches of the preprocessors before it, and has that dir and that preprocessor |
| FileWatchers.PreprocessorShapesOnly | grow/pods/preprocessors/file_watchers.py:66-69 | every preprocessor watch is recursive and sits on `pod.abs_path` of a dir its own preprocessor lists, with a handler for a listed preprocessor |
| FileWatchers.ManagedObserver.Unschedule | grow/pods/preprocessors/file_watchers.py:73-74 | removes exactly the watch with that identity; it reports not-found (watchdog's KeyError) exactly when the identity is not scheduled, and then the table is unchanged |
| FileWatchers.ManagedObserver.UnscheduleTracked | grow/pods/preprocessors/file_watchers.py:73-74 | after the inner loop, the table is the old table without exactly the tracked watches |
| FileWatchers.ManagedObserver.RebuildTracked | grow/pods/preprocessors/file_watchers.py:73-75 | one child's turn: the untracked watches survive in order, followed by the freshly scheduled preprocessor watches, which form the new tracked list |
| FileWatchers.ManagedObserver.RebuildAgain | grow/pods/preprocessors/file_watchers.py:73-75 | one child's turn when the same child may already have had its turn earlier in the list: the result still keeps exactly the untracked watches of its table before the first turn |
| FileWatchers.RebuildChildren | grow/pods/preprocessors/file_watchers.py:72-75 | the loop over the children: each child, listed once or several times, ends with its untracked watches kept and its tracked watches rebuilt, and stays consistent |
| FileWatchers.ManagedObserver.RescheduleChildren | grow/pods/preprocessors/file_watchers.py:71-75 | every child loses exactly its tracked watches and gets them rebuilt from its pod's current preprocessors, even when a child appears twice in the list; the untracked watches of each child survive, and so do the podspec and translation watches; the parent's own table and tracked list are unchanged |
| FileWatchers.ReplacedTwice | grow/pods/preprocessors/file_watchers.py:71-75 | a second reschedule still keeps exactly the watches the first one kept |
| FileWatchers.FreshNotTracked | grow/pods/preprocessors/file_watchers.py:51-57 | the watch schedule_podspec or schedule_translation adds gets an identity that no tracked entry holds |
| FileWatchers.UntrackedSurvive | grow/pods/preprocessors/file_watchers.py:71-75 | a watch that is not tracked, such as the podspec or translation watch, survives a reschedule and is still not tracked afterwards |
| FileWatchers.TrackedArePreprocessorWatches | grow/pods/preprocessors/file_watchers.py:59-75 | after a reschedule every tracked watch runs a preprocessor the pod lists, so a podspec watch is never tracked |
| FileWatchers.WithoutMembers | grow/pods/preprocessors/file_watchers.py:73-74 | unscheduling a list of identities keeps exactly the watches whose identity is not in the list |
| FileWatchers.ManagedObserver.AddChild | grow/pods/preprocessors/file_watchers.py:77-79 | appends the observer at the end without de-duplication (the count grows by one), returns the same object, and keeps the children a tree |
| FileWatchers.ManagedObserver.Start | grow/pods/preprocessors/file_watchers.py:81-84 | the calls made are the whole subtree of each child in list order, then this observer's own start |
| FileWatchers.ManagedObserver.Stop | grow/pods/preprocessors/file_watchers.py:86-89 | the same order as start, with stop; afterwards every observer reachable from this one has an empty watch table that is still well numbered, and the tracked lists are not touched |
| FileWatchers.ManagedObserver.ClearTables | grow/pods/preprocessors/file_watchers.py:86-89 | watchdog's unschedule_all as each stopped thread runs it, children first: every reachable observer's table becomes empty, and no table changes to anything but empty |
| FileWatchers.ManagedObserver.Join | grow/pods/preprocessors/file_watchers.py:91-94 | the same order as start, with join |
| FileWatchers.ManagedObserver.Fanout | grow/pods/preprocessors/file_watchers.py:81-94 | the shared loop of start, stop and join: its log is the recursive lifecycle order |
| FileWatchers.ManagedObserver.LifecycleOrderShape | grow/pods/preprocessors/file_watchers.py:81-94 | every call in the order is the same operation on an observer of the tree; this observer's own call comes last and nowhere else |
| FileWatchers.ManagedObserver.ChildBeforeParent | grow/pods/preprocessors/file_watchers.py:81-94 | child k's own call comes before the parent's, and after child k-1's |
| FileWatchers.ManagedObserver.RunHandlers | grow/pods/preprocessors/file_watchers.py:96-99 | handle() runs with no event once per handler in table order; the table itself is unchanged; the children are rescheduled when a podspec handler is registered, and are otherwise untouched |
| FileWatchers.ManagedObserver.HandleInRun | grow/pods/preprocessors/file_watchers.py:98-99 | one handler call of run_handlers: logs exactly that call; a podspec handler reschedules the children, a preprocessor handler leaves them as they were |
| FileWatchers.RunHandlersOncePerHandler | grow/pods/preprocessors/file_watchers.py:96-99 | the calls of run_handlers number one per handler, and each handler's call occurs exactly as often as that handler is registered |
| FileWatchers.HandlePodspec | grow/pods/preprocessors/file_watchers.py:15-16 | whatever the event, exactly one reschedule_children call on the managed observer, with its effect on every child |
| FileWatchers.PodspecOnCreated | grow/pods/preprocessors/file_watchers.py:18-19 | a created event makes exactly one reschedule_children call |
| FileWatchers.PodspecOnModified | grow/pods/preprocessors/file_watchers.py:21-22 | a modified event makes exactly one reschedule_children call |
| FileWatchers.HandlePreprocessor | grow/pods/preprocessors/file_watchers.py:31-34 | run() is called exactly once for no event or a non-directory event, and not at all for a directory event |
| FileWatchers.PreprocessorOnCreated | grow/pods/preprocessors/file_watchers.py:36-37 | created event: run() is called once unless the event is a directory event |
| FileWatchers.PreprocessorOnModified | grow/pods/preprocessors/file_watchers.py:39-40 | modified event: run() is called once unless the event is a directory event |
| GoogleStorage.NormalizePath | grow/pods/storage/google_storage.py:89-95 | PathError with its message exactly when the path contains ".."; otherwise the path itself if it starts with '/', else '/' + path; the result always starts with '/' |
| GoogleStorage.NormalizePathIdempotent | grow/pods/storage/google_storage.py:89-95 | normalising a normalised path changes nothing |
| GoogleStorage.CoercedArgs | grow/pods/storage/google_storage.py:27-32 | a mode of None or 'rb' becomes 'r'; any other mode passes through unchanged; no mode key is added when none was given; the other arguments are untouched |
| GoogleStorage.Open | grow/pods/storage/google_storage.py:25-37 | coerces the mode in the keyword arguments, then opens; NotFoundError becomes IOError('File … not found.') |
| GoogleStorage.OpenForReading | grow/pods/storage/google_storage.py:25-37 | with no mode, None, 'r' or 'rb', open gives a reader over the object's bytes, or IOError when the object is missing |
| GoogleStorage.Read | grow/pods/storage/google_storage.py:39-45 | succeeds exactly when the object exists, with its bytes; a missing object gives IOError |
| GoogleStorage.Modified | grow/pods/storage/google_storage.py:47-53 | the object's creation time, or IOError('File … not found.') exactly when it is missing |
| GoogleStorage.Stat | grow/pods/storage/google_storage.py:55-60 | the library's stat of an existing object (name and size), or IOError('File … not found.') exactly when it is missing |
| GoogleStorage.Exists | grow/pods/storage/google_storage.py:118-124 | exists is true exactly when the object is stored |
| GoogleStorage.ExistsIffStat | grow/pods/storage/google_storage.py:118-124 | exists is true exactly when the object is stored, and then stat, modified and read succeed; when it is false, all three fail |
| GoogleStorage.ContentType | grow/pods/storage/google_storage.py:102 | the explicit content type if truthy, else the guessed one if truthy, else 'text/html'; never empty |
| GoogleStorage.Write | grow/pods/storage/google_storage.py:97-107 | write fails exactly on a path with ".." (PathError). Otherwise it stores the content under the normalised path with the chosen content type and options, changes no other object, and returns the writer |
| GoogleStorage.WriteThenRead | grow/pods/storage/google_storage.py:97-107 | what write stored reads back and exists, and every other object reads as before |
| GoogleStorage.Delete | grow/pods/storage/google_storage.py:109-116 | PathError for "..", IOError('File … not found.') with the normalised path for a missing object; otherwise exactly that object is removed |
| GoogleStorage.DeleteRemoves | grow/pods/storage/google_storage.py:109-116 | after a delete the object no longer exists, every other object reads as before, and a second delete reports IOError |
| GoogleStorage.CopyTo | grow/pods/storage/google_storage.py:126-129 | a missing source gives the library's NotFoundError untranslated; otherwise the target becomes a copy of the source |
| GoogleStorage.MoveTo | grow/pods/storage/google_storage.py:131-134 | a missing source gives the library's NotFoundError untranslated; a move to another name relocates the object; a move onto itself removes it |
| GoogleStorage.CopyAndMove | grow/pods/storage/google_storage.py:126-134 | after copy_to the target reads what the source read and the source is untouched; after move_to to another name the target reads what the source read and the source no longer exists |
| GoogleStorage.SplitBucket | grow/pods/storage/google_storage.py:64-65 | the split fails (ValueError) exactly when filename[1:] has no '/'; otherwise the bucket is '/' plus the text before the first '/' (so it has no other '/'), and the prefix is the rest |
| GoogleStorage.ListdirNamesIff | grow/pods/storage/google_storage.py:74-76 | a name is listed exactly when it is non-empty, has no '/' unless recursive, and bucket + '/' + prefix + name is a stored object |
| GoogleStorage.ListdirAfterWrite | grow/pods/storage/google_storage.py:74-76 | a file written under bucket + '/' + prefix + rest is listed as rest when rest is a name listdir keeps |
| GoogleStorage.ListOf | grow/pods/storage/google_storage.py:82 | list(names) holds each element of the set exactly once |
| GoogleStorage.CollectPage | grow/pods/storage/google_storage.py:71-76 | one page: counts its items, adds the kept names, and remembers the last filename |
| GoogleStorage.CollectNames | grow/pods/storage/google_storage.py:66-81 | the paging loop gathers the names of the whole listing, not just the first page. It makes one request per full page of 20 plus one: the first without a marker, each later one after the last filename of the page before. It stops after a short or empty page |
| GoogleStorage.Listdir | grow/pods/storage/google_storage.py:62-82 | ValueError exactly when the split fails; otherwise a list without duplicates whose members are exactly the names described by ListdirNamesIff, collected through the paging requests |
| CloudStore.ListingAfter | grow/pods/storage/google_storage.py:79-81 | over a sorted bucket, the listing after the k-th listed name is exactly the rest of the listing, so each page continues where the last ended |
| GoogleStorage.JinjaLoader | grow/pods/storage/google_storage.py:84-87 | fails exactly on a path with ".."; otherwise a loader rooted at the normalised path |
| GoogleStorage.LStrip | grow/pods/storage/google_storage.py:150 | template.lstrip('/'): a suffix of the template that does not start with '/', and everything removed is '/' |
| GoogleStorage.Join | grow/pods/storage/google_storage.py:150 | os.path.join: an absolute second part replaces the first; otherwise the result is the two parts joined with a '/' exactly when the first is non-empty and does not end in '/', and joined directly otherwise |
| GoogleStorage.TemplatePathInside | grow/pods/storage/google_storage.py:150 | get_source reads loader.path joined with the template stripped of leading '/': the stripped template never starts with '/', so the path is loader.path and the stripped template, with a '/' between them exactly when loader.path is non-empty and does not end in '/' |
| GoogleStorage.GetSource | grow/pods/storage/google_storage.py:149-158 | a missing object becomes TemplateNotFound(template); an existing one yields its bytes and the path it was read from |

## Left out

- Threads, the event queue and OS notification back-ends of watchdog are not modelled. When an observer thread stops, watchdog unschedules all its watches; the model does this at the end of `stop` (`ClearTables`) and leaves `_preprocessor_watches` stale, as the code does, so a later `reschedule_children` over stopped children that still track watches cannot be called in the model (in the code it raises KeyError). `schedule` hands out a fresh identity per call and appends to the table. `unschedule` removes by identity.
- watchdog merges watches with equal (path, recursive) and keeps a set of handlers per watch. That merging is left out, so every schedule call makes its own table entry, and `run_handlers` visits the handlers in table order. In Python 2 the order of `self._handlers.values()` is unspecified. Leaving the merge out hides two failures. Two (preprocessor, dir) pairs with the same absolute path share one watch in watchdog, so the second `unschedule` in `reschedule_children` raises KeyError. A preprocessor that watches `/translations/` shares the translation watch, so rescheduling removes the translation handler too. The claims that untracked watches, the podspec and translation watches among them, survive a reschedule hold only when no two watches share a path and recursive flag.
- The pattern filtering of `PatternMatchingEventHandler` (`*/podspec.yaml`, ignored directories) happens before `on_created`/`on_modified` are called and is not modelled.
- `TranslationPreprocessor`, `pod.list_preprocessors()`, `list_watched_dirs()` and `pod.abs_path()` are opaque. A preprocessor is a name with a list of dirs. A path is written `PodAbsPath(dir)`.
- FileWatchers.ManagedObserver.AddChild requires that the new child's subtree does not contain the parent. The source has no such guard. A cycle would make `start`, `stop` and `join` recurse without end. The model also keeps each observer's set of descendants in the observer itself, and `add_child` updates only the observer it is called on. So an observer must receive its children before it is attached to a parent. Adding a child below an observer that already has a parent is not modelled: after `p.add_child(a); a.add_child(c)`, `p` no longer satisfies the tree invariant, and `p`'s methods that require it cannot be called.
- FileWatchers.ManagedObserver.RescheduleChildren requires every child's tracked list to be scheduled in the child's table. This is the invariant that `schedule_preprocessors` and `reschedule_children` keep. Breaking it from outside makes watchdog raise KeyError, and that path is not modelled inside the loop.
- `schedule_podspec` is not idempotent in the code. A second call adds a second podspec handler (a second table entry in the model), so each podspec event calls `reschedule_children` twice, and `schedule_preprocessors` likewise leaves the old watches in the table. The model follows the code.
- The cloudstorage client library, `cloudstorage_api._copy2`, `mimetypes.guess_type` and the clock are modelled as functions over an abstract store, or taken as parameters.
- `open`'s positional `*args` are not modelled.
- `update_headers` and blobstore are left out: they are a foreign App Engine call with no logic of the backend's own.
- The unicode-to-UTF-8 encoding in `write` and the UTF-8 decoding in `get_source` are left out. Content is bytes throughout.
- `logging.error` calls are left out.
- The `uptodate` callback that `get_source` returns (always true) is not part of the model's result.
- GoogleStorage.Read: the IOError message is the library's NotFoundError text. The model takes that text to be the filename and does not state it further.
- Exceptions other than NotFoundError from the library (network, permission) are not modelled. `exists` therefore answers false only for a missing object.
- FileWatchers.ManagedObserver.Start: a thread can be started only once, and a second `start()` raises RuntimeError. When a child is listed twice, or appears twice in the tree, the second start of it raises in Python, and the later children and the parent are never started. The model logs every start in the order of `LifecycleOrder` and does not model that failure.
- FileWatchers.ManagedObserver.RunHandlers: an exception from a preprocessor's `run()` ends `run_handlers` at that handler in Python. The model assumes every handler returns, and logs one call per handler.
