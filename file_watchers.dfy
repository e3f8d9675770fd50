/**
 * The pod file watcher (grow/pods/preprocessors/file_watchers.py).
 *
 * A ManagedObserver holds watchdog's table of scheduled watches, the list
 * of watches it scheduled for the pod's preprocessors, and its child
 * observers. Two handler kinds route events: the podspec handler
 * reschedules the children of its observer, the preprocessor handler runs
 * its preprocessor. Threads and OS notifications are not modelled; calls
 * that leave the model are recorded in a Journal.
 */
module FileWatchers {
  import opened Results

  /** A preprocessor as the watcher sees it: what it is and the directories
      its list_watched_dirs() reports. */
  datatype Preprocessor = Preprocessor(name: string, watchedDirs: seq<string>)

  /** The translation preprocessor that schedule_translation creates; its
      own watched dirs are not consulted there. */
  const TranslationPreprocessor: Preprocessor := Preprocessor("translation", [])

  /** The pod as the watcher uses it: what list_preprocessors() returns right
      now (this changes when podspec.yaml changes). Its root directory only
      appears symbolically, as the watch path PodRoot. */
  class Pod {
    var preprocessors: seq<Preprocessor>

    constructor (preprocessors: seq<Preprocessor>)
      ensures this.preprocessors == preprocessors
    {
      this.preprocessors := preprocessors;
    }
  }

  /** Where a watch is placed: pod.root, or pod.abs_path(podPath). */
  datatype WatchPath = PodRoot | PodAbsPath(podPath: string)

  datatype Handler =
    | PodspecHandler(observer: ManagedObserver)
    | PreprocessorHandler(preprocessor: Preprocessor)

  type WatchId = nat

  /** One entry of an observer's watch table: the identity schedule() handed
      out, the watched path, the recursive flag and the handler. */
  datatype Watch = Watch(id: WatchId, path: WatchPath, recursive: bool, handler: Handler)

  /** A watch without its identity. */
  datatype Shape = Shape(path: WatchPath, recursive: bool, handler: Handler)

  /** A watchdog event, reduced to the one attribute the handlers read. */
  datatype FileEvent = FileEvent(isDirectory: bool)

  datatype Lifecycle = Start | Stop | Join

  /** Calls that leave the model: the observer thread's own start, stop or
      join, a preprocessor's run(), and an invocation of reschedule_children. */
  datatype Call =
    | LifecycleCall(op: Lifecycle, observer: ManagedObserver)
    | RunCall(preprocessor: Preprocessor)
    | RescheduleCall(observer: ManagedObserver)

  /** The calls made so far, in order. */
  class Journal {
    ghost var log: seq<Call>

    constructor ()
      ensures log == []
    {
      log := [];
    }
  }

  // ---------------------------------------------------------------------
  // The watch table as a value

  function ShapeOf(w: Watch): Shape
  {
    Shape(w.path, w.recursive, w.handler)
  }

  function Shapes(ws: seq<Watch>): seq<Shape>
  {
    seq(|ws|, i requires 0 <= i < |ws| => ShapeOf(ws[i]))
  }

  function Ids(ws: seq<Watch>): seq<WatchId>
  {
    seq(|ws|, i requires 0 <= i < |ws| => ws[i].id)
  }

  ghost predicate IdsIncreasing(ws: seq<Watch>)
  {
    forall i, j :: 0 <= i < j < |ws| ==> ws[i].id < ws[j].id
  }

  /** The table left after unscheduling every watch whose identity is in ids. */
  function Without(ws: seq<Watch>, ids: seq<WatchId>): seq<Watch>
  {
    if ws == [] then []
    else (if ws[0].id in ids then [] else [ws[0]]) + Without(ws[1..], ids)
  }

  /** The watches _schedule_preprocessor installs for p, one per directory. */
  function DirShapes(p: Preprocessor, dirs: seq<string>): seq<Shape>
  {
    seq(|dirs|, k requires 0 <= k < |dirs| => Shape(PodAbsPath(dirs[k]), true, PreprocessorHandler(p)))
  }

  /** The watches schedule_preprocessors installs for the preprocessors ps,
      in the order of its two nested loops. */
  function PreprocessorShapes(ps: seq<Preprocessor>): seq<Shape>
  {
    if ps == [] then []
    else PreprocessorShapes(ps[..|ps| - 1]) + DirShapes(ps[|ps| - 1], ps[|ps| - 1].watchedDirs)
  }

  /** The number of (preprocessor, watched dir) pairs of ps. */
  function PairCount(ps: seq<Preprocessor>): nat
  {
    if ps == [] then 0 else PairCount(ps[..|ps| - 1]) + |ps[|ps| - 1].watchedDirs|
  }

  /** What a reschedule of one child leaves behind: the watches of oldWatches
      that were not tracked, in their order, followed by one new watch per
      (preprocessor, dir) pair of ps; the tracked list is exactly the new ones. */
  ghost predicate Replaced(oldWatches: seq<Watch>, oldTracked: seq<WatchId>,
                           newWatches: seq<Watch>, newTracked: seq<WatchId>,
                           ps: seq<Preprocessor>)
  {
    var kept := Without(oldWatches, oldTracked);
    |kept| <= |newWatches| && newWatches[..|kept|] == kept &&
    Shapes(newWatches[|kept|..]) == PreprocessorShapes(ps) &&
    newTracked == Ids(newWatches[|kept|..])
  }

  /** True when some watch of ws carries a podspec handler. */
  predicate HasPodspecHandler(ws: seq<Watch>)
  {
    exists i :: 0 <= i < |ws| && ws[i].handler.PodspecHandler?
  }

  /** The call handle() makes when invoked with no event. */
  function CallOf(h: Handler): Call
  {
    match h
    case PodspecHandler(o) => RescheduleCall(o)
    case PreprocessorHandler(p) => RunCall(p)
  }

  /** The calls run_handlers makes, one per handler of the table. */
  function RunHandlersTrace(ws: seq<Watch>): seq<Call>
  {
    if ws == [] then [] else RunHandlersTrace(ws[..|ws| - 1]) + [CallOf(ws[|ws| - 1].handler)]
  }

  function Occurrences<T(==)>(s: seq<T>, x: T): nat
  {
    if s == [] then 0 else Occurrences(s[..|s| - 1], x) + (if s[|s| - 1] == x then 1 else 0)
  }

  /** The handlers of a watch table, in table order. */
  function Handlers(ws: seq<Watch>): seq<Handler>
  {
    seq(|ws|, i requires 0 <= i < |ws| => ws[i].handler)
  }

  /** The number of watches of ws whose handler is h. */
  function HandlerCount(ws: seq<Watch>, h: Handler): nat
  {
    Occurrences(Handlers(ws), h)
  }

  // ---------------------------------------------------------------------
  // Lemmas about the table values

  /** Unscheduling keeps exactly the watches whose identity is not in ids. */
  lemma {:induction false} WithoutMembers(ws: seq<Watch>, ids: seq<WatchId>)
    ensures forall i :: 0 <= i < |Without(ws, ids)| ==>
      Without(ws, ids)[i] in ws && Without(ws, ids)[i].id !in ids
    ensures forall i :: 0 <= i < |ws| && ws[i].id !in ids ==> ws[i] in Without(ws, ids)
  {
    if ws != [] {
      WithoutMembers(ws[1..], ids);
      var head := if ws[0].id in ids then [] else [ws[0]];
      var r := Without(ws, ids);
      assert r == head + Without(ws[1..], ids);
      forall i | 0 <= i < |ws| && ws[i].id !in ids ensures ws[i] in r {
        if i > 0 {
          assert ws[i] == ws[1..][i - 1];
        }
      }
    }
  }

  lemma {:induction false} WithoutAppend(a: seq<Watch>, b: seq<Watch>, ids: seq<WatchId>)
    ensures Without(a + b, ids) == Without(a, ids) + Without(b, ids)
  {
    if a != [] {
      var head := if a[0].id in ids then [] else [a[0]];
      assert (a + b)[0] == a[0] && (a + b)[1..] == a[1..] + b;
      assert Without(a + b, ids) == head + Without(a[1..] + b, ids);
      WithoutAppend(a[1..], b, ids);
      assert Without(a, ids) == head + Without(a[1..], ids);
    } else {
      assert a + b == b;
    }
  }

  lemma {:induction false} WithoutTwice(ws: seq<Watch>, a: seq<WatchId>, b: seq<WatchId>)
    ensures Without(Without(ws, a), b) == Without(ws, a + b)
  {
    if ws != [] {
      var head := if ws[0].id in a then [] else [ws[0]];
      WithoutAppend(head, Without(ws[1..], a), b);
      WithoutTwice(ws[1..], a, b);
    }
  }

  lemma {:induction false} WithoutKeepsAll(ws: seq<Watch>, ids: seq<WatchId>)
    requires forall i :: 0 <= i < |ws| ==> ws[i].id !in ids
    ensures Without(ws, ids) == ws
  {
    if ws != [] {
      WithoutKeepsAll(ws[1..], ids);
    }
  }

  lemma {:induction false} WithoutCovered(ws: seq<Watch>, ids: seq<WatchId>)
    requires forall i :: 0 <= i < |ws| ==> ws[i].id in ids
    ensures Without(ws, ids) == []
  {
    if ws != [] {
      WithoutCovered(ws[1..], ids);
    }
  }

  lemma WithoutDropsAll(ws: seq<Watch>)
    ensures Without(ws, Ids(ws)) == []
  {
    forall i | 0 <= i < |ws| ensures ws[i].id in Ids(ws) {
      assert Ids(ws)[i] == ws[i].id;
    }
    WithoutCovered(ws, Ids(ws));
  }

  lemma {:induction false} WithoutIncreasing(ws: seq<Watch>, ids: seq<WatchId>)
    requires IdsIncreasing(ws)
    ensures IdsIncreasing(Without(ws, ids))
  {
    if ws != [] {
      WithoutIncreasing(ws[1..], ids);
      WithoutMembers(ws[1..], ids);
      var rest := Without(ws[1..], ids);
      forall w | w in rest ensures ws[0].id < w.id {
        var k :| 0 <= k < |ws[1..]| && ws[1..][k] == w;
        assert ws[k + 1] == w;
      }
    }
  }

  lemma IdsMember(ws: seq<Watch>, w: Watch)
    requires w in ws
    ensures w.id in Ids(ws)
  {
    var k :| 0 <= k < |ws| && ws[k] == w;
    assert Ids(ws)[k] == w.id;
  }

  lemma UnscheduleKeeps(ws: seq<Watch>, id: WatchId, x: WatchId)
    requires x in Ids(ws) && x != id
    ensures x in Ids(Without(ws, [id]))
  {
    var n :| 0 <= n < |ws| && Ids(ws)[n] == x;
    assert ws[n].id !in [id];
    WithoutMembers(ws, [id]);
    IdsMember(Without(ws, [id]), ws[n]);
  }

  lemma ShapesAppend(ws: seq<Watch>, w: Watch)
    ensures Shapes(ws + [w]) == Shapes(ws) + [ShapeOf(w)]
    ensures Ids(ws + [w]) == Ids(ws) + [w.id]
  {
  }

  lemma AppendParts(a: seq<Watch>, b: seq<Watch>)
    ensures |a| <= |a + b| && (a + b)[..|a|] == a && (a + b)[|a|..] == b
  {
  }

  /** The watches for the first i + 1 preprocessors are those for the first
      i, then those for preprocessor i. */
  lemma PreprocessorShapesStep(ps: seq<Preprocessor>, i: nat)
    requires i < |ps|
    ensures PreprocessorShapes(ps[..i + 1]) == PreprocessorShapes(ps[..i]) + DirShapes(ps[i], ps[i].watchedDirs)
  {
    assert ps[..i + 1][..i] == ps[..i];
  }

  lemma DirShapesStep(p: Preprocessor, dirs: seq<string>, j: nat)
    requires j < |dirs|
    ensures DirShapes(p, dirs[..j + 1]) == DirShapes(p, dirs[..j]) + [Shape(PodAbsPath(dirs[j]), true, PreprocessorHandler(p))]
  {
  }

  /** Identities in the table increase and are below next. */
  ghost predicate WellNumbered(ws: seq<Watch>, next: WatchId)
  {
    IdsIncreasing(ws) && forall i :: 0 <= i < |ws| ==> ws[i].id < next
  }

  /** Every podspec handler in the table belongs to the observer o. */
  ghost predicate OwnedBy(ws: seq<Watch>, o: ManagedObserver)
  {
    forall i :: 0 <= i < |ws| && ws[i].handler.PodspecHandler? ==> ws[i].handler.observer == o
  }

  /** The tracked identities t increase and are all scheduled in ws. */
  ghost predicate TrackedIn(t: seq<WatchId>, ws: seq<Watch>)
  {
    (forall i, j :: 0 <= i < j < |t| ==> t[i] < t[j]) &&
    (forall id :: id in t ==> id in Ids(ws))
  }

  lemma TableAppend(ws: seq<Watch>, next: WatchId, o: ManagedObserver, w: Watch, t: seq<WatchId>)
    requires WellNumbered(ws, next) && OwnedBy(ws, o)
    requires w.id == next && (w.handler.PodspecHandler? ==> w.handler.observer == o)
    ensures WellNumbered(ws + [w], next + 1) && OwnedBy(ws + [w], o)
    ensures TrackedIn(t, ws) ==> TrackedIn(t, ws + [w])
  {
    if TrackedIn(t, ws) {
      forall id | id in t ensures id in Ids(ws + [w]) {
        var k :| 0 <= k < |ws| && Ids(ws)[k] == id;
        assert Ids(ws + [w])[k] == id;
      }
    }
  }

  lemma TableWithout(ws: seq<Watch>, next: WatchId, o: ManagedObserver, ids: seq<WatchId>)
    requires WellNumbered(ws, next) && OwnedBy(ws, o)
    ensures WellNumbered(Without(ws, ids), next) && OwnedBy(Without(ws, ids), o)
  {
    WithoutIncreasing(ws, ids);
    WithoutMembers(ws, ids);
    var r := Without(ws, ids);
    forall i | 0 <= i < |r| ensures r[i].id < next && (r[i].handler.PodspecHandler? ==> r[i].handler.observer == o) {
      assert r[i] in ws;
    }
  }

  /** The watches added after before are tracked correctly by their identities. */
  lemma TrackedSuffix(before: seq<Watch>, added: seq<Watch>, next: WatchId)
    requires WellNumbered(before + added, next)
    ensures TrackedIn(Ids(added), before + added)
  {
    var ws := before + added;
    forall i, j | 0 <= i < j < |added| ensures Ids(added)[i] < Ids(added)[j] {
      assert ws[|before| + i] == added[i] && ws[|before| + j] == added[j];
    }
    forall id | id in Ids(added) ensures id in Ids(ws) {
      var k :| 0 <= k < |added| && Ids(added)[k] == id;
      assert Ids(ws)[|before| + k] == id;
    }
  }

  /** Rescheduling keeps exactly the untracked watches: after a second
      reschedule the kept part is still the one the first kept. */
  lemma ReplacedTwice(w0: seq<Watch>, t0: seq<WatchId>, w1: seq<Watch>, t1: seq<WatchId>,
                      w2: seq<Watch>, t2: seq<WatchId>, ps1: seq<Preprocessor>, ps2: seq<Preprocessor>)
    requires Replaced(w0, t0, w1, t1, ps1) && IdsIncreasing(w1)
    requires Replaced(w1, t1, w2, t2, ps2)
    ensures Replaced(w0, t0, w2, t2, ps2)
  {
    var kept := Without(w0, t0);
    var added := w1[|kept|..];
    assert w1 == kept + added;
    WithoutAppend(kept, added, t1);
    forall i | 0 <= i < |kept| ensures kept[i].id !in t1 {
      forall j | 0 <= j < |added| ensures added[j].id != kept[i].id {
        assert w1[i] == kept[i] && w1[|kept| + j] == added[j];
      }
    }
    WithoutKeepsAll(kept, t1);
    WithoutDropsAll(added);
    assert Without(w1, t1) == kept;
  }

  /** A watch scheduled now, as schedule_podspec and schedule_translation
      do, gets an identity that no tracked entry holds. */
  lemma FreshNotTracked(ws: seq<Watch>, next: WatchId, t: seq<WatchId>)
    requires WellNumbered(ws, next) && TrackedIn(t, ws)
    ensures next !in t
  {
    forall id | id in t ensures id < next {
      var k :| 0 <= k < |ws| && Ids(ws)[k] == id;
    }
  }

  /** A watch that is not tracked survives a reschedule and is still not
      tracked afterwards, so it survives every later reschedule too. */
  lemma UntrackedSurvive(w0: seq<Watch>, t0: seq<WatchId>, w1: seq<Watch>, t1: seq<WatchId>,
                         ps: seq<Preprocessor>, w: Watch)
    requires Replaced(w0, t0, w1, t1, ps) && IdsIncreasing(w1)
    requires w in w0 && w.id !in t0
    ensures w in w1 && w.id !in t1
  {
    var kept := Without(w0, t0);
    var i :| 0 <= i < |w0| && w0[i] == w;
    WithoutMembers(w0, t0);
    var m :| 0 <= m < |kept| && kept[m] == w;
    assert w1[m] == w;
    var added := w1[|kept|..];
    forall j | 0 <= j < |added| ensures Ids(added)[j] != w.id {
      assert added[j] == w1[|kept| + j];
    }
  }

  /** After a reschedule every tracked watch runs a preprocessor the pod
      lists: a podspec watch is never tracked. */
  lemma TrackedArePreprocessorWatches(w0: seq<Watch>, t0: seq<WatchId>, w1: seq<Watch>, t1: seq<WatchId>,
                                      ps: seq<Preprocessor>)
    requires Replaced(w0, t0, w1, t1, ps) && IdsIncreasing(w1)
    ensures forall i | 0 <= i < |w1| && w1[i].id in t1 ::
      w1[i].handler.PreprocessorHandler? && w1[i].handler.preprocessor in ps
  {
    var kept := Without(w0, t0);
    var added := w1[|kept|..];
    PreprocessorShapesOnly(ps);
    forall i | 0 <= i < |w1| && w1[i].id in t1
      ensures w1[i].handler.PreprocessorHandler? && w1[i].handler.preprocessor in ps
    {
      var j :| 0 <= j < |added| && Ids(added)[j] == w1[i].id;
      assert w1[|kept| + j] == added[j];
      assert i == |kept| + j;
      assert ShapeOf(added[j]) == Shapes(added)[j];
      assert ShapeOf(added[j]) in PreprocessorShapes(ps);
    }
  }

  /** schedule_preprocessors installs as many watches as there are
      (preprocessor, dir) pairs. */
  lemma {:induction false} PreprocessorShapesLength(ps: seq<Preprocessor>)
    ensures |PreprocessorShapes(ps)| == PairCount(ps)
  {
    if ps != [] {
      PreprocessorShapesLength(ps[..|ps| - 1]);
    }
  }

  /** The watch for the j-th dir of the k-th preprocessor sits right after the
      watches of the preprocessors before it: recursive, on pod.abs_path(dir),
      with a handler for that preprocessor. */
  lemma {:induction false} PreprocessorShapesAt(ps: seq<Preprocessor>, k: nat, j: nat)
    requires k < |ps| && j < |ps[k].watchedDirs|
    ensures PairCount(ps[..k]) + j < |PreprocessorShapes(ps)|
    ensures PreprocessorShapes(ps)[PairCount(ps[..k]) + j] ==
            Shape(PodAbsPath(ps[k].watchedDirs[j]), true, PreprocessorHandler(ps[k]))
  {
    var init := ps[..|ps| - 1];
    PreprocessorShapesLength(init);
    if k == |ps| - 1 {
      assert ps[..k] == init;
    } else {
      assert init[..k] == ps[..k] && init[k] == ps[k];
      PreprocessorShapesAt(init, k, j);
    }
  }

  /** Every watch schedule_preprocessors installs is recursive, placed on
      pod.abs_path of a dir its preprocessor watches, with a handler for a
      listed preprocessor. */
  lemma {:induction false} PreprocessorShapesOnly(ps: seq<Preprocessor>)
    ensures forall s :: s in PreprocessorShapes(ps) ==>
      s.recursive && s.path.PodAbsPath? && s.handler.PreprocessorHandler? &&
      s.handler.preprocessor in ps && s.path.podPath in s.handler.preprocessor.watchedDirs
  {
    if ps != [] {
      var init := ps[..|ps| - 1];
      PreprocessorShapesOnly(init);
      forall s | s in PreprocessorShapes(ps)
        ensures s.recursive && s.path.PodAbsPath? && s.handler.PreprocessorHandler? &&
                s.handler.preprocessor in ps && s.path.podPath in s.handler.preprocessor.watchedDirs
      {
        if s in PreprocessorShapes(init) {
          assert s.handler.preprocessor in init;
        } else {
          var last := ps[|ps| - 1];
          assert s in DirShapes(last, last.watchedDirs);
        }
      }
    }
  }

  /** run_handlers calls handle() exactly once per handler in the table. */
  lemma {:induction false} RunHandlersOncePerHandler(ws: seq<Watch>, h: Handler)
    ensures |RunHandlersTrace(ws)| == |ws|
    ensures Occurrences(RunHandlersTrace(ws), CallOf(h)) == HandlerCount(ws, h)
  {
    if ws != [] {
      var init := ws[..|ws| - 1];
      RunHandlersOncePerHandler(init, h);
      assert RunHandlersTrace(ws)[..|ws| - 1] == RunHandlersTrace(init);
      assert Handlers(ws)[..|ws| - 1] == Handlers(init);
      // CallOf is one-to-one, so the last call is h's exactly when the last handler is h
      var last := ws[|ws| - 1].handler;
      assert CallOf(last) == CallOf(h) <==> last == h by {
        if CallOf(last) == CallOf(h) {
          match last
          case PodspecHandler(o) => assert CallOf(h) == RescheduleCall(o);
          case PreprocessorHandler(p) => assert CallOf(h) == RunCall(p);
        }
      }
    }
  }

  // ---------------------------------------------------------------------
  // The observer

  class ManagedObserver {
    const pod: Pod
    /** watchdog's table of scheduled watches and their handlers, in the
        order they were scheduled */
    var watches: seq<Watch>
    /** the identity the next schedule() hands out */
    var nextId: WatchId
    /** the tracked preprocessor watches (_preprocessor_watches) */
    var preprocessorWatches: seq<WatchId>
    /** the child observers (_child_observers) */
    var children: seq<ManagedObserver>
    /** this observer and every observer below it */
    ghost var Repr: set<ManagedObserver>

    /** The children form a tree below this observer: no observer is its own
        descendant. Only the structure is read, never the watch tables. */
    ghost predicate Valid()
      reads this`children, this`Repr, Repr`children, Repr`Repr
      decreases Repr
    {
      this in Repr &&
      forall c :: c in children ==>
        c in Repr && c.Repr <= Repr && this !in c.Repr && c.Valid()
    }

    /** Watch identities are handed out in increasing order, and every
        podspec handler in the table belongs to this observer. */
    ghost predicate TableValid()
      reads this`watches, this`nextId
    {
      WellNumbered(watches, nextId) && OwnedBy(watches, this)
    }

    /** Every tracked watch is still scheduled, and none is tracked twice. */
    ghost predicate Tracking()
      reads this`watches, this`preprocessorWatches
    {
      TrackedIn(preprocessorWatches, watches)
    }

    constructor (pod: Pod)
      ensures this.pod == pod && Valid() && TableValid() && Tracking()
      ensures watches == [] && preprocessorWatches == [] && children == [] && Repr == {this}
    {
      this.pod := pod;
      watches := [];
      nextId := 0;
      preprocessorWatches := [];
      children := [];
      Repr := {this};
    }

    /** watchdog's schedule: a new watch with a fresh identity at the end of
        the table. */
    method Schedule(handler: Handler, path: WatchPath, recursive: bool) returns (id: WatchId)
      requires TableValid()
      requires handler.PodspecHandler? ==> handler.observer == this
      modifies this`watches, this`nextId
      ensures TableValid() && (old(Tracking()) ==> Tracking())
      ensures id == old(nextId)
      ensures watches == old(watches) + [Watch(id, path, recursive, handler)]
    {
      id := nextId;
      TableAppend(watches, nextId, this, Watch(id, path, recursive, handler), preprocessorWatches);
      watches := watches + [Watch(id, path, recursive, handler)];
      nextId := nextId + 1;
    }

    /** watchdog's unschedule. found is false when the watch is not in the
        table, where watchdog raises KeyError; the table is then unchanged. */
    method Unschedule(id: WatchId) returns (found: bool)
      requires TableValid()
      modifies this`watches
      ensures TableValid()
      ensures found <==> id in Ids(old(watches))
      ensures watches == Without(old(watches), [id])
      ensures !found ==> watches == old(watches)
    {
      found := id in Ids(watches);
      TableWithout(watches, nextId, this, [id]);
      if !found {
        forall i | 0 <= i < |watches| ensures watches[i].id !in [id] {
          assert Ids(watches)[i] == watches[i].id;
        }
        WithoutKeepsAll(watches, [id]);
      }
      watches := Without(watches, [id]);
    }

    /** schedule_podspec: one non-recursive watch on the pod root whose
        handler reschedules this observer's children. */
    method SchedulePodspec()
      requires TableValid()
      modifies this`watches, this`nextId
      ensures TableValid() && (old(Tracking()) ==> Tracking())
      ensures watches == old(watches) + [Watch(old(nextId), PodRoot, false, PodspecHandler(this))]
    {
      var _ := Schedule(PodspecHandler(this), PodRoot, false);
    }

    /** _schedule_preprocessor: one recursive watch on pod.abs_path(path)
        whose handler runs p. */
    method SchedulePreprocessor(path: string, p: Preprocessor) returns (id: WatchId)
      requires TableValid()
      modifies this`watches, this`nextId
      ensures TableValid() && (old(Tracking()) ==> Tracking())
      ensures id == old(nextId)
      ensures watches == old(watches) + [Watch(id, PodAbsPath(path), true, PreprocessorHandler(p))]
    {
      id := Schedule(PreprocessorHandler(p), PodAbsPath(path), true);
    }

    /** schedule_translation: a recursive watch on /translations/ for the
        translation preprocessor, which is not tracked. */
    method ScheduleTranslation()
      requires TableValid()
      modifies this`watches, this`nextId
      ensures TableValid() && (old(Tracking()) ==> Tracking())
      ensures watches == old(watches) +
        [Watch(old(nextId), PodAbsPath("/translations/"), true, PreprocessorHandler(TranslationPreprocessor))]
    {
      var _ := SchedulePreprocessor("/translations/", TranslationPreprocessor);
    }

    /** schedule_preprocessors: forgets the tracked list (without unscheduling
        anything), then schedules and tracks one watch per (preprocessor, dir)
        pair the pod lists now. The existing table is kept as it was. */
    method SchedulePreprocessors()
      requires TableValid()
      modifies this`watches, this`nextId, this`preprocessorWatches
      ensures TableValid() && Tracking()
      ensures |old(watches)| <= |watches| && watches[..|old(watches)|] == old(watches)
      ensures Shapes(watches[|old(watches)|..]) == PreprocessorShapes(pod.preprocessors)
      ensures preprocessorWatches == Ids(watches[|old(watches)|..])
    {
      preprocessorWatches := [];
      ghost var before := watches;
      ghost var added: seq<Watch> := [];
      var ps := pod.preprocessors;
      for i := 0 to |ps|
        invariant TableValid()
        invariant watches == before + added
        invariant Shapes(added) == PreprocessorShapes(ps[..i])
        invariant preprocessorWatches == Ids(added)
      {
        added := ScheduleDirs(ps[i], before, added);
        PreprocessorShapesStep(ps, i);
      }
      assert ps[..|ps|] == ps;
      TrackedSuffix(before, added, nextId);
      AppendParts(before, added);
    }

    /** The inner loop of schedule_preprocessors: one tracked watch per dir
        that p watches, in order. added is what the loop has added to the
        table so far, and added' is what it has added afterwards. */
    method ScheduleDirs(p: Preprocessor, ghost before: seq<Watch>, ghost added: seq<Watch>)
      returns (ghost added': seq<Watch>)
      requires TableValid() && watches == before + added && preprocessorWatches == Ids(added)
      modifies this`watches, this`nextId, this`preprocessorWatches
      ensures TableValid() && watches == before + added' && preprocessorWatches == Ids(added')
      ensures Shapes(added') == Shapes(added) + DirShapes(p, p.watchedDirs)
    {
      added' := added;
      var dirs := p.watchedDirs;
      for j := 0 to |dirs|
        invariant TableValid()
        invariant watches == before + added'
        invariant Shapes(added') == Shapes(added) + DirShapes(p, dirs[..j])
        invariant preprocessorWatches == Ids(added')
      {
        var id := SchedulePreprocessor(dirs[j], p);
        preprocessorWatches := preprocessorWatches + [id];
        var w := Watch(id, PodAbsPath(dirs[j]), true, PreprocessorHandler(p));
        ShapesAppend(added', w);
        added' := added' + [w];
        DirShapesStep(p, dirs, j);
      }
      assert dirs[..|dirs|] == dirs;
    }

    /** The inner loop of reschedule_children: unschedules every tracked
        watch of this observer, one by one. */
    method UnscheduleTracked()
      requires TableValid() && Tracking()
      modifies this`watches
      ensures TableValid()
      ensures watches == Without(old(watches), preprocessorWatches)
    {
      ghost var t := preprocessorWatches;
      WithoutKeepsAll(watches, []);
      for k := 0 to |preprocessorWatches|
        invariant t == preprocessorWatches && TableValid()
        invariant watches == Without(old(watches), t[..k])
        invariant forall m :: k <= m < |t| ==> t[m] in Ids(watches)
      {
        assert t[..k + 1] == t[..k] + [t[k]];
        ghost var prev := watches;
        var found := Unschedule(preprocessorWatches[k]);
        WithoutTwice(old(watches), t[..k], [t[k]]);
        forall m | k + 1 <= m < |t| ensures t[m] in Ids(watches) {
          UnscheduleKeeps(prev, t[k], t[m]);
        }
      }
      assert t[..|t|] == t;
    }

    /** One child's turn in reschedule_children: its tracked watches are
        unscheduled and rebuilt from what its pod lists now. */
    method RebuildTracked()
      requires TableValid() && Tracking()
      modifies this`watches, this`nextId, this`preprocessorWatches
      ensures TableValid() && Tracking()
      ensures Replaced(old(watches), old(preprocessorWatches), watches, preprocessorWatches, pod.preprocessors)
    {
      UnscheduleTracked();
      SchedulePreprocessors();
    }

    /** A rebuild of a child that may already have been rebuilt earlier in
        the same loop (again): the result relates to the child's table
        before the loop, w0 and t0. */
    method RebuildAgain(ghost w0: seq<Watch>, ghost t0: seq<WatchId>, ghost again: bool)
      requires TableValid() && Tracking()
      requires again ==> Replaced(w0, t0, watches, preprocessorWatches, pod.preprocessors)
      requires !again ==> w0 == watches && t0 == preprocessorWatches
      modifies this`watches, this`nextId, this`preprocessorWatches
      ensures TableValid() && Tracking()
      ensures Replaced(w0, t0, watches, preprocessorWatches, pod.preprocessors)
    {
      ghost var w1, t1 := watches, preprocessorWatches;
      RebuildTracked();
      if again {
        ReplacedTwice(w0, t0, w1, t1, watches, preprocessorWatches, pod.preprocessors, pod.preprocessors);
      }
    }

    /** reschedule_children: for every child in order, unschedule exactly the
        watches it tracks, then rebuild them from what its pod lists now.
        Untracked watches of the children, and this observer's own table,
        survive. */
    method RescheduleChildren(ghost journal: Journal)
      requires Valid()
      requires forall c :: c in children ==> c.TableValid() && c.Tracking()
      modifies children`watches, children`nextId, children`preprocessorWatches, journal
      ensures journal.log == old(journal.log) + [RescheduleCall(this)]
      ensures forall c :: c in children ==> c.TableValid() && c.Tracking()
      ensures forall c :: c in children ==>
        Replaced(old(c.watches), old(c.preprocessorWatches), c.watches, c.preprocessorWatches, c.pod.preprocessors)
      ensures watches == old(watches) && preprocessorWatches == old(preprocessorWatches)
    {
      journal.log := journal.log + [RescheduleCall(this)];
      forall c | c in children ensures c != this {
        assert c.Valid() && c in c.Repr;
      }
      RebuildChildren(children);
    }

    /** add_child: appends the observer (no de-duplication) and returns it. */
    method AddChild(child: ManagedObserver) returns (r: ManagedObserver)
      requires Valid() && child.Valid() && this !in child.Repr
      modifies this`children, this`Repr
      ensures Valid()
      ensures r == child
      ensures children == old(children) + [child]
      ensures Repr == old(Repr) + child.Repr
    {
      children := children + [child];
      Repr := Repr + child.Repr;
      r := child;
    }

    /** The calls start, stop or join make, in order: the whole sub-tree of
        each child in list order, then this observer's own thread. */
    ghost function LifecycleOrder(op: Lifecycle): seq<Call>
      reads this`children, this`Repr, Repr`children, Repr`Repr
      requires Valid()
      decreases Repr, 1
    {
      ChildrenOrder(op, |children|) + [LifecycleCall(op, this)]
    }

    /** The calls made for the first n children. */
    ghost function ChildrenOrder(op: Lifecycle, n: nat): seq<Call>
      reads this`children, this`Repr, Repr`children, Repr`Repr
      requires Valid() && n <= |children|
      decreases Repr, 0, n
    {
      if n == 0 then [] else ChildrenOrder(op, n - 1) + children[n - 1].LifecycleOrder(op)
    }

    /** The position of child k's own call in the order. */
    ghost function ChildCallIndex(op: Lifecycle, k: nat): int
      reads this`children, this`Repr, Repr`children, Repr`Repr
      requires Valid() && k < |children|
    {
      |ChildrenOrder(op, k + 1)| - 1
    }

    /** The shared loop of start, stop and join: the same operation on
        every child in list order, then on this observer itself. */
    method Fanout(op: Lifecycle, ghost journal: Journal)
      requires Valid()
      modifies journal
      ensures journal.log == old(journal.log) + LifecycleOrder(op)
      decreases Repr
    {
      for i := 0 to |children|
        invariant journal.log == old(journal.log) + ChildrenOrder(op, i)
      {
        children[i].Fanout(op, journal);
      }
      journal.log := journal.log + [LifecycleCall(op, this)];
    }

    method Start(ghost journal: Journal)
      requires Valid()
      modifies journal
      ensures journal.log == old(journal.log) + LifecycleOrder(Lifecycle.Start)
    {
      Fanout(Lifecycle.Start, journal);
    }

    /** stop(): children first, then this observer. Stopping an observer
        thread unschedules all of its watches, so every table below this
        observer ends up empty, while the tracked lists are left as they were
        (and no longer match their tables). */
    method Stop(ghost journal: Journal)
      requires Valid()
      modifies journal, Repr`watches
      ensures journal.log == old(journal.log) + LifecycleOrder(Lifecycle.Stop)
      ensures forall o :: o in Observers() ==> o.watches == [] && o.TableValid()
    {
      Fanout(Lifecycle.Stop, journal);
      ClearTables();
    }

    /** This observer and every observer reachable through the children. */
    ghost function Observers(): (r: set<ManagedObserver>)
      requires Valid()
      reads this`children, this`Repr, Repr`children, Repr`Repr
      ensures this in r && r <= Repr
      decreases Repr
    {
      {this} + set j, o | 0 <= j < |children| && o in children[j].Observers() :: o
    }

    /** watchdog's unschedule_all, applied on the way back up from the
        children, as each observer thread stops. */
    method ClearTables()
      requires Valid()
      modifies Repr`watches
      ensures forall o :: o in Observers() ==> o.watches == []
      ensures forall o :: o in Repr ==> o.watches == [] || o.watches == old(o.watches)
      decreases Repr
    {
      for i := 0 to |children|
        invariant Valid()
        invariant forall j, o :: 0 <= j < i && o in children[j].Observers() ==> o.watches == []
        invariant forall o :: o in Repr ==> o.watches == [] || o.watches == old(o.watches)
      {
        children[i].ClearTables();
      }
      watches := [];
    }

    method Join(ghost journal: Journal)
      requires Valid()
      modifies journal
      ensures journal.log == old(journal.log) + LifecycleOrder(Lifecycle.Join)
    {
      Fanout(Lifecycle.Join, journal);
    }

    /** Every call of the order is the operation op on an observer of the
        tree, and this observer's own call comes last and only there. */
    lemma {:induction false} LifecycleOrderShape(op: Lifecycle)
      requires Valid()
      ensures |LifecycleOrder(op)| >= 1
      ensures LifecycleOrder(op)[|LifecycleOrder(op)| - 1] == LifecycleCall(op, this)
      ensures forall e :: e in LifecycleOrder(op) ==> e.LifecycleCall? && e.op == op && e.observer in Repr
      ensures forall k :: 0 <= k < |LifecycleOrder(op)| - 1 ==> LifecycleOrder(op)[k].observer != this
      decreases Repr, 1
    {
      ChildrenOrderShape(op, |children|);
      var order := LifecycleOrder(op);
      forall k | 0 <= k < |order| - 1 ensures order[k].observer != this {
        assert order[k] in ChildrenOrder(op, |children|);
      }
    }

    lemma {:induction false} ChildrenOrderShape(op: Lifecycle, n: nat)
      requires Valid() && n <= |children|
      ensures forall e :: e in ChildrenOrder(op, n) ==>
        e.LifecycleCall? && e.op == op && e.observer in Repr && e.observer != this
      decreases Repr, 0, n
    {
      if n > 0 {
        ChildrenOrderShape(op, n - 1);
        var c := children[n - 1];
        c.LifecycleOrderShape(op);
      }
    }

    /** Child k's own call comes before this observer's, and after child
        k - 1's. */
    lemma {:induction false} ChildBeforeParent(op: Lifecycle, k: nat)
      requires Valid() && k < |children|
      ensures 0 <= ChildCallIndex(op, k) < |LifecycleOrder(op)| - 1
      ensures LifecycleOrder(op)[ChildCallIndex(op, k)] == LifecycleCall(op, children[k])
      ensures k + 1 < |children| ==> ChildCallIndex(op, k) < ChildCallIndex(op, k + 1)
    {
      children[k].LifecycleOrderShape(op);
      ChildrenOrderPrefix(op, k + 1, |children|);
      if k + 1 < |children| {
        children[k + 1].LifecycleOrderShape(op);
      }
    }

    lemma {:induction false} ChildrenOrderPrefix(op: Lifecycle, m: nat, n: nat)
      requires Valid() && m <= n <= |children|
      ensures ChildrenOrder(op, m) <= ChildrenOrder(op, n)
      decreases n - m
    {
      if m < n {
        ChildrenOrderPrefix(op, m, n - 1);
      }
    }

    /** run_handlers: handle() with no event, once per handler of the table,
        in table order. A podspec handler reschedules the children; a
        preprocessor handler runs its preprocessor. */
    method RunHandlers(ghost journal: Journal)
      requires Valid() && TableValid()
      requires forall c :: c in children ==> c.TableValid() && c.Tracking()
      modifies children`watches, children`nextId, children`preprocessorWatches, journal
      ensures journal.log == old(journal.log) + RunHandlersTrace(watches)
      ensures watches == old(watches)
      ensures forall c :: c in children ==> c.TableValid() && c.Tracking()
      ensures forall c :: c in children ==>
        if HasPodspecHandler(watches)
        then Replaced(old(c.watches), old(c.preprocessorWatches), c.watches, c.preprocessorWatches, c.pod.preprocessors)
        else c.watches == old(c.watches) && c.preprocessorWatches == old(c.preprocessorWatches)
    {
      var ws := watches;
      ghost var orig := map c | c in children :: (c.watches, c.preprocessorWatches);
      for i := 0 to |ws|
        invariant watches == ws && Valid() && TableValid()
        invariant journal.log == old(journal.log) + RunHandlersTrace(ws[..i])
        invariant forall c :: c in children ==> c.TableValid() && c.Tracking()
        invariant forall c :: c in children ==>
          if HasPodspecHandler(ws[..i])
          then Replaced(orig[c].0, orig[c].1, c.watches, c.preprocessorWatches, c.pod.preprocessors)
          else orig[c] == (c.watches, c.preprocessorWatches)
      {
        assert ws[..i + 1][..i] == ws[..i] && ws[..i + 1][i] == ws[i];
        HandleInRun(ws[i].handler, orig, HasPodspecHandler(ws[..i]), journal);
        assert HasPodspecHandler(ws[..i + 1]) <==> HasPodspecHandler(ws[..i]) || ws[i].handler.PodspecHandler?;
      }
      assert ws[..|ws|] == ws;
    }

    /** One handler's turn in run_handlers: handle() with no event. A
        podspec handler reschedules the children once more; when they were
        already rescheduled earlier in the same run (again), the result
        still relates to their state before the run (orig). */
    method HandleInRun(h: Handler, ghost orig: map<ManagedObserver, (seq<Watch>, seq<WatchId>)>,
                       ghost again: bool, ghost journal: Journal)
      requires Valid() && (h.PodspecHandler? ==> h.observer == this)
      requires forall c :: c in children ==> c.TableValid() && c.Tracking() && c in orig
      requires forall c :: c in children ==>
        if again then Replaced(orig[c].0, orig[c].1, c.watches, c.preprocessorWatches, c.pod.preprocessors)
        else orig[c] == (c.watches, c.preprocessorWatches)
      modifies children`watches, children`nextId, children`preprocessorWatches, journal
      ensures journal.log == old(journal.log) + [CallOf(h)]
      ensures forall c :: c in children ==> c.TableValid() && c.Tracking()
      ensures forall c :: c in children ==>
        if again || h.PodspecHandler?
        then Replaced(orig[c].0, orig[c].1, c.watches, c.preprocessorWatches, c.pod.preprocessors)
        else orig[c] == (c.watches, c.preprocessorWatches)
      ensures watches == old(watches)
    {
      if h.PreprocessorHandler? {
        HandlePreprocessor(h.preprocessor, None, journal);
        return;
      }
      HandlePodspec(this, None, journal);
      forall c | c in children
        ensures Replaced(orig[c].0, orig[c].1, c.watches, c.preprocessorWatches, c.pod.preprocessors)
      {
        if again {
          assert old(c.TableValid());
          ReplacedTwice(orig[c].0, orig[c].1, old(c.watches), old(c.preprocessorWatches),
                        c.watches, c.preprocessorWatches, c.pod.preprocessors, c.pod.preprocessors);
        }
      }
    }
  }

  /** The loop of reschedule_children over the child observers cs, in
      order: each child's tracked watches are rebuilt, once per occurrence
      in cs, and the result relates to its table before the loop. */
  method RebuildChildren(cs: seq<ManagedObserver>)
    requires forall c :: c in cs ==> c.TableValid() && c.Tracking()
    modifies cs`watches, cs`nextId, cs`preprocessorWatches
    ensures forall c :: c in cs ==> c.TableValid() && c.Tracking()
    ensures forall c :: c in cs ==>
      Replaced(old(c.watches), old(c.preprocessorWatches), c.watches, c.preprocessorWatches, c.pod.preprocessors)
  {
    ghost var done: set<ManagedObserver> := {};
    for i := 0 to |cs|
      invariant forall k :: 0 <= k < i ==> cs[k] in done
      invariant forall c :: c in done ==> c in cs
      invariant forall c :: c in cs ==> c.TableValid() && c.Tracking()
      invariant forall c :: c in cs && c !in done ==>
        c.watches == old(c.watches) && c.preprocessorWatches == old(c.preprocessorWatches)
      invariant forall c :: c in done ==>
        Replaced(old(c.watches), old(c.preprocessorWatches), c.watches, c.preprocessorWatches, c.pod.preprocessors)
    {
      var child := cs[i];
      child.RebuildAgain(old(child.watches), old(child.preprocessorWatches), child in done);
      done := done + {child};
    }
  }

  // ---------------------------------------------------------------------
  // The two handlers

  /** PodspecFileEventHandler.handle: one reschedule of the managing
      observer's children, whatever the event. */
  method HandlePodspec(observer: ManagedObserver, event: Option<FileEvent>, ghost journal: Journal)
    requires observer.Valid()
    requires forall c :: c in observer.children ==> c.TableValid() && c.Tracking()
    modifies observer.children`watches, observer.children`nextId, observer.children`preprocessorWatches, journal
    ensures journal.log == old(journal.log) + [RescheduleCall(observer)]
    ensures forall c :: c in observer.children ==> c.TableValid() && c.Tracking()
    ensures forall c :: c in observer.children ==>
      Replaced(old(c.watches), old(c.preprocessorWatches), c.watches, c.preprocessorWatches, c.pod.preprocessors)
  {
    observer.RescheduleChildren(journal);
  }

  /** PodspecFileEventHandler.on_created */
  method PodspecOnCreated(observer: ManagedObserver, event: FileEvent, ghost journal: Journal)
    requires observer.Valid()
    requires forall c :: c in observer.children ==> c.TableValid() && c.Tracking()
    modifies observer.children`watches, observer.children`nextId, observer.children`preprocessorWatches, journal
    ensures journal.log == old(journal.log) + [RescheduleCall(observer)]
    ensures forall c :: c in observer.children ==> c.TableValid() && c.Tracking()
    ensures forall c :: c in observer.children ==>
      Replaced(old(c.watches), old(c.preprocessorWatches), c.watches, c.preprocessorWatches, c.pod.preprocessors)
  {
    HandlePodspec(observer, Some(event), journal);
  }

  /** PodspecFileEventHandler.on_modified */
  method PodspecOnModified(observer: ManagedObserver, event: FileEvent, ghost journal: Journal)
    requires observer.Valid()
    requires forall c :: c in observer.children ==> c.TableValid() && c.Tracking()
    modifies observer.children`watches, observer.children`nextId, observer.children`preprocessorWatches, journal
    ensures journal.log == old(journal.log) + [RescheduleCall(observer)]
    ensures forall c :: c in observer.children ==> c.TableValid() && c.Tracking()
    ensures forall c :: c in observer.children ==>
      Replaced(old(c.watches), old(c.preprocessorWatches), c.watches, c.preprocessorWatches, c.pod.preprocessors)
  {
    HandlePodspec(observer, Some(event), journal);
  }

  /** PreprocessorEventHandler.handle: runs the preprocessor exactly once,
      unless the event is a directory event. */
  method HandlePreprocessor(p: Preprocessor, event: Option<FileEvent>, ghost journal: Journal)
    modifies journal
    ensures event.Some? && event.value.isDirectory ==> journal.log == old(journal.log)
    ensures event.None? || !event.value.isDirectory ==> journal.log == old(journal.log) + [RunCall(p)]
  {
    if event.Some? && event.value.isDirectory {
      return;
    }
    journal.log := journal.log + [RunCall(p)];
  }

  /** PreprocessorEventHandler.on_created */
  method PreprocessorOnCreated(p: Preprocessor, event: FileEvent, ghost journal: Journal)
    modifies journal
    ensures journal.log == old(journal.log) + (if event.isDirectory then [] else [RunCall(p)])
  {
    HandlePreprocessor(p, Some(event), journal);
  }

  /** PreprocessorEventHandler.on_modified */
  method PreprocessorOnModified(p: Preprocessor, event: FileEvent, ghost journal: Journal)
    modifies journal
    ensures journal.log == old(journal.log) + (if event.isDirectory then [] else [RunCall(p)])
  {
    HandlePreprocessor(p, Some(event), journal);
  }
}
