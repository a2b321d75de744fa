/** When the relay collects garbage: never under a composition, never twice for one burst of activity. */
module IdleCollection {
  import opened Common
  import opened Relay
  import opened RelayOwnership
  import opened RelayRuns

  // ---------------------------------------------------------------------------
  // Nothing is composing.

  /** The collector is about to collect. */
  predicate Collecting(s: State) {
    s.collector == FoundCalm && s.clock.gcPending
  }

  /**
    On every run, when a collection is dispatched no state owner's last published STATE was preedit,
    candidate or registration, unless a session and an unscoped client share that owner's entry.
   */
  lemma NoCollectionWhileComposing(w: World, events: seq<Event>, o: Owner)
    requires Collecting(Run(w, START, events))
    ensures var sh := Run(w, START, events).shared;
      o in sh.modes && Unshared(o, sh) ==> !sh.modes[o]
  {
    hide OwnersWork, Numbered, Arbitrated, Unshared, KeyOf;
    RunIsSound(w, events);
  }

  // ---------------------------------------------------------------------------
  // The log of stamps, checks and collections.

  function LastStamp(log: seq<Mark>): nat {
    if log == [] then 0
    else if Last(log).StoredStamp? then Last(log).tick
    else LastStamp(DropLast(log))
  }

  /** A collection is due: noted, and not taken since. */
  predicate Due(log: seq<Mark>) {
    log != [] && (Last(log) == NotedDue || (Last(log) != Collected && Due(DropLast(log))))
  }

  /** The collector's last mark is a passed idle check. */
  predicate Checked(log: seq<Mark>) {
    log != [] && (Last(log).CheckedIdle? || (Last(log) != Collected && Checked(DropLast(log))))
  }

  /** The collector's last mark is the first read of a check. */
  predicate Checking(log: seq<Mark>) {
    log != [] &&
    (Last(log) == BeganCheck
     || (!Last(log).CheckedIdle? && Last(log) != Collected && Checking(DropLast(log))))
  }

  /** What was logged when the check under way began. */
  function AtBegin(log: seq<Mark>): seq<Mark> {
    if log == [] || Last(log) == BeganCheck then (if log == [] then [] else DropLast(log)) else AtBegin(DropLast(log))
  }

  /** Every stamp stored so far was taken by this time. */
  predicate StampedBy(log: seq<Mark>, now: nat) {
    forall k :: 0 <= k < |log| && log[k].StoredStamp? ==> log[k].tick <= now
  }

  /** The check read the last stamp stored by its end, or by its beginning, and a clock no older than that. */
  predicate CheckIsRead(w: World, log: seq<Mark>, now: nat, stamp: nat) {
    && Checking(log) && now < TICKS && Elapsed(now, stamp) >= w.idle
    && stamp == LastStamp(if w.clockFirst then log else AtBegin(log))
    && StampedBy(if w.clockFirst then AtBegin(log) else log, now)
  }

  predicate Justified(w: World, log: seq<Mark>) {
    log == [] ||
    (Justified(w, DropLast(log)) &&
     match Last(log)
     case CheckedIdle(now, stamp) => CheckIsRead(w, DropLast(log), now, stamp)
     case Collected => Due(DropLast(log)) && Checked(DropLast(log))
     case _ => true)
  }

  /** Stamps in hand were taken in the past. */
  predicate StampsArePast(s: State) {
    && s.clock.now < TICKS && StampedBy(s.log, s.clock.now)
    && (forall c :: c in s.workers && s.workers[c].stage.Stamped? ==> s.workers[c].stage.tick <= s.clock.now)
  }

  /** Between the two reads the first one is what the log says it was. */
  predicate ReadsAreRecorded(w: World, s: State) {
    && (s.collector.HasClock? ==>
          w.clockFirst && Checking(s.log) && StampedBy(AtBegin(s.log), s.collector.now) && s.collector.now <= s.clock.now)
    && (s.collector.HasStamp? ==>
          !w.clockFirst && Checking(s.log) && s.collector.last == LastStamp(AtBegin(s.log)))
  }

  predicate Recorded(w: World, s: State) {
    && Justified(w, s.log)
    && LastStamp(s.log) == s.clock.lastActivity
    && Due(s.log) == s.clock.gcPending
    && (s.collector == FoundIdle || s.collector == FoundCalm ==> Checked(s.log))
    && StampsArePast(s) && ReadsAreRecorded(w, s)
  }

  lemma Appending(log: seq<Mark>, mark: Mark)
    ensures DropLast(log + [mark]) == log && Last(log + [mark]) == mark
  {
  }

  /** A stamp or a note of activity changes neither the check under way nor what a passed check allows. */
  lemma NotesPass(w: World, log: seq<Mark>, mark: Mark)
    requires mark.StoredStamp? || mark == NotedDue
    ensures Justified(w, log + [mark]) == Justified(w, log)
    ensures Checked(log + [mark]) == Checked(log)
    ensures Checking(log + [mark]) == Checking(log) && AtBegin(log + [mark]) == AtBegin(log)
    ensures Due(log + [mark]) == (mark == NotedDue || Due(log))
    ensures LastStamp(log + [mark]) == if mark.StoredStamp? then mark.tick else LastStamp(log)
  {
    hide CheckIsRead;
    Appending(log, mark);
  }

  lemma NoteIsRecorded(w: World, s: State, client: nat)
    requires Recorded(w, s) && client in s.workers
    ensures Recorded(w, NoteStep(s, client))
  {
    hide Justified, Checked, Checking, AtBegin, Due, LastStamp;
    match s.workers[client].stage
    case Stamped(tick) => NotesPass(w, s.log, StoredStamp(tick));
    case Stored => NotesPass(w, s.log, NotedDue);
    case Flagged =>
    case _ =>
  }

  lemma FinishIsRecorded(w: World, s: State, now: nat, stamp: nat)
    requires Recorded(w, s) && Checking(s.log) && now < TICKS
    requires stamp == LastStamp(if w.clockFirst then s.log else AtBegin(s.log))
    requires StampedBy(if w.clockFirst then AtBegin(s.log) else s.log, now)
    ensures Recorded(w, FinishCheck(w, s, now, stamp))
  {
    hide AtBegin, Checking, Elapsed;
    Appending(s.log, CheckedIdle(now, stamp));
  }

  lemma BeginIsRecorded(w: World, s: State)
    requires Recorded(w, s) && s.collector == Locked
    ensures Recorded(w, CollectorStep(w, s))
  {
    hide CheckIsRead;
    Appending(s.log, BeganCheck);
  }

  lemma CollectIsRecorded(w: World, s: State)
    requires Recorded(w, s) && s.collector == FoundCalm
    ensures Recorded(w, CollectorStep(w, s))
  {
    hide Collect, CheckIsRead, AtBegin;
    Appending(s.log, Collected);
  }

  lemma CollectorIsRecorded(w: World, s: State)
    requires Recorded(w, s)
    ensures Recorded(w, CollectorStep(w, s))
  {
    hide Justified, LastStamp, Due, Checked, Checking, AtBegin, StampedBy, Elapsed, FinishCheck, Collect;
    match s.collector
    case Asleep =>
    case SawUse =>
    case SawStamp(last) =>
    case SawIdle =>
    case SawDue =>
    case AtMutex =>
    case Locked => BeginIsRecorded(w, s);
    case HasClock(now) => FinishIsRecorded(w, s, now, s.clock.lastActivity);
    case HasStamp(last) => FinishIsRecorded(w, s, s.clock.now, last);
    case FoundIdle =>
    case FoundCalm => CollectIsRecorded(w, s);
  }

  lemma ServeRecordsNothing(w: World, s: State, client: nat, delivered: bool)
    requires client in s.workers
    ensures var t := ServeStep(w, s, client, delivered);
      && t.log == s.log && t.clock == s.clock && t.collector == s.collector
      && (forall c :: c in t.workers && t.workers[c].stage.Stamped? ==> c in s.workers && s.workers[c] == t.workers[c])
  {
    hide Classify, ServeLocked;
  }

  lemma {:induction false} StampedLater(log: seq<Mark>, now: nat, later: nat)
    requires StampedBy(log, now) && now <= later
    ensures StampedBy(log, later)
  {
  }

  lemma StepIsRecorded(w: World, s: State, e: Event)
    requires Recorded(w, s)
    ensures Recorded(w, Step(w, s, e))
  {
    hide ServeStep, NoteStep, CollectorStep, CleanUp, Justified, LastStamp, Due, Checked, Checking, AtBegin, StampedBy, Lists, MutexFree;
    match e
    case Tick(elapsed) => StampedLater(s.log, s.clock.now, s.clock.now + elapsed);
    case Connect =>
    case Read(client, line) =>
    case Note(client) => if client in s.workers { NoteIsRecorded(w, s, client); }
    case Serve(client, delivered) => if client in s.workers { ServeRecordsNothing(w, s, client, delivered); }
    case Hangup(client) =>
    case Cleanup(client, order) =>
    case Collector => CollectorIsRecorded(w, s);
  }

  lemma {:induction false} RunIsRecorded(w: World, events: seq<Event>)
    ensures Recorded(w, Run(w, START, events))
  {
    hide Step;
    if events != [] {
      RunIsRecorded(w, DropLast(events));
      StepIsRecorded(w, Run(w, START, DropLast(events)), Last(events));
    }
  }

  // ---------------------------------------------------------------------------
  // What the log says.

  lemma {:induction false} JustifiedPrefix(w: World, log: seq<Mark>, n: nat)
    requires Justified(w, log) && n <= |log|
    ensures Justified(w, log[..n])
  {
    hide CheckIsRead;
    if n < |log| {
      JustifiedPrefix(w, DropLast(log), n);
      assert DropLast(log)[..n] == log[..n];
    } else {
      assert log[..n] == log;
    }
  }

  lemma {:induction false} DueWasNoted(log: seq<Mark>, i: nat)
    requires Due(log) && i < |log| && log[i] == Collected
    ensures exists k :: i < k < |log| && log[k] == NotedDue
    decreases |log|
  {
    if Last(log) == NotedDue {
      assert log[|log| - 1] == NotedDue;
    } else {
      DueWasNoted(DropLast(log), i);
      var k :| i < k < |DropLast(log)| && DropLast(log)[k] == NotedDue;
      assert log[k] == NotedDue;
    }
  }

  /** Between any two collections of a run, some request noted activity. */
  lemma ActivityBetweenCollections(w: World, events: seq<Event>, i: nat, j: nat)
    requires var log := Run(w, START, events).log; i < j < |log| && log[i] == Collected && log[j] == Collected
    ensures var log := Run(w, START, events).log; exists k :: i < k < j && log[k] == NotedDue
  {
    hide Checked, LastStamp, Step, StampsArePast, ReadsAreRecorded;
    RunIsRecorded(w, events);
    var log := Run(w, START, events).log;
    JustifiedPrefix(w, log, j + 1);
    assert DropLast(log[..j + 1]) == log[..j];
    DueWasNoted(log[..j], i);
    var k :| i < k < j && log[..j][k] == NotedDue;
    assert log[k] == NotedDue;
  }

  lemma {:induction false} CheckedWasChecked(log: seq<Mark>) returns (i: nat)
    requires Checked(log)
    ensures i < |log| && log[i].CheckedIdle?
    ensures forall k :: i < k < |log| ==> log[k] != Collected && !log[k].CheckedIdle?
    decreases |log|
  {
    if Last(log).CheckedIdle? {
      i := |log| - 1;
    } else {
      i := CheckedWasChecked(DropLast(log));
      assert forall k :: i < k < |DropLast(log)| ==> log[k] == DropLast(log)[k];
    }
  }

  /** Every collection follows its own passed check, with no other check or collection between. */
  lemma CollectionsAreChecked(w: World, events: seq<Event>, j: nat) returns (i: nat)
    requires var log := Run(w, START, events).log; j < |log| && log[j] == Collected
    ensures var log := Run(w, START, events).log;
      && i < j && log[i].CheckedIdle? && CheckIsRead(w, log[..i], log[i].now, log[i].stamp)
      && (forall k :: i < k < j ==> log[k] != Collected && !log[k].CheckedIdle?)
  {
    hide Due, Step, CheckIsRead, StampsArePast, ReadsAreRecorded;
    RunIsRecorded(w, events);
    var log := Run(w, START, events).log;
    JustifiedPrefix(w, log, j + 1);
    assert DropLast(log[..j + 1]) == log[..j];
    i := CheckedWasChecked(log[..j]);
    assert forall k :: i < k < j ==> log[..j][k] == log[k];
    ChecksAreRead(w, log, i);
  }

  lemma ChecksAreRead(w: World, log: seq<Mark>, i: nat)
    requires Justified(w, log) && i < |log| && log[i].CheckedIdle?
    ensures CheckIsRead(w, log[..i], log[i].now, log[i].stamp)
  {
    hide CheckIsRead;
    JustifiedPrefix(w, log, i + 1);
    assert DropLast(log[..i + 1]) == log[..i];
  }

  // ---------------------------------------------------------------------------
  // When a passed check means that the host was idle.

  /** No stamp stored before the check at `i` is younger than the interval. */
  predicate IdleAt(log: seq<Mark>, i: nat, idle: nat)
    requires i < |log| && log[i].CheckedIdle?
  {
    forall k :: 0 <= k < i && log[k].StoredStamp? ==> log[k].tick + idle <= log[i].now
  }

  /** The check's clock is not behind its stamp, and no stamp within the interval is younger than that stamp. */
  predicate Undeceived(log: seq<Mark>, i: nat, idle: nat)
    requires i < |log| && log[i].CheckedIdle?
  {
    && log[i].stamp <= log[i].now
    && (forall k :: 0 <= k < i && log[k].StoredStamp? && log[k].tick > log[i].stamp ==> log[k].tick + idle <= log[i].now)
  }

  lemma {:induction false} LastStampWasStored(log: seq<Mark>)
    ensures LastStamp(log) == 0 || exists k :: 0 <= k < |log| && log[k] == StoredStamp(LastStamp(log))
  {
    if log != [] {
      if Last(log).StoredStamp? {
        assert log[|log| - 1] == StoredStamp(LastStamp(log));
      } else {
        LastStampWasStored(DropLast(log));
        if LastStamp(log) != 0 {
          var k :| 0 <= k < |DropLast(log)| && DropLast(log)[k] == StoredStamp(LastStamp(log));
          assert log[k] == StoredStamp(LastStamp(log));
        }
      }
    }
  }

  /** What was logged at the beginning of the check under way is a prefix, followed by no other check. */
  lemma {:induction false} AtBeginIsPrefix(log: seq<Mark>) returns (f: nat)
    requires Checking(log)
    ensures f < |log| && log[f] == BeganCheck && AtBegin(log) == log[..f]
    ensures forall k :: f < k < |log| ==> log[k] != BeganCheck && !log[k].CheckedIdle? && log[k] != Collected
  {
    if Last(log) == BeganCheck {
      f := |log| - 1;
    } else {
      f := AtBeginIsPrefix(DropLast(log));
      assert DropLast(log)[..f] == log[..f];
      assert forall k :: f < k < |DropLast(log)| ==> log[k] == DropLast(log)[k];
    }
  }

  /** The stamp a check read is 0 or was stored before the check ended. */
  lemma ReadStampWasStored(w: World, log: seq<Mark>, now: nat, stamp: nat)
    requires CheckIsRead(w, log, now, stamp)
    ensures stamp == 0 || exists k :: 0 <= k < |log| && log[k] == StoredStamp(stamp)
  {
    hide Elapsed, StampedBy;
    if w.clockFirst {
      LastStampWasStored(log);
    } else {
      var f := AtBeginIsPrefix(log);
      LastStampWasStored(log[..f]);
      if stamp != 0 {
        var k :| 0 <= k < f && log[..f][k] == StoredStamp(stamp);
        assert log[k] == StoredStamp(stamp);
      }
    }
  }

  lemma CheckIsIdleExactly(w: World, log: seq<Mark>, i: nat)
    requires i < |log| && log[i].CheckedIdle? && CheckIsRead(w, log[..i], log[i].now, log[i].stamp)
    ensures IdleAt(log, i, w.idle) <==> Undeceived(log, i, w.idle)
  {
    hide Checking, AtBegin, LastStamp, StampedBy;
    ReadStampWasStored(w, log[..i], log[i].now, log[i].stamp);
    var stamp, now := log[i].stamp, log[i].now;
    if IdleAt(log, i, w.idle) && stamp != 0 {
      var k :| 0 <= k < i && log[..i][k] == StoredStamp(stamp);
      assert log[k].tick + w.idle <= now;
    }
    if stamp <= now { ElapsedIsDifference(now, stamp); }
  }

  lemma ElapsedIsDifference(now: nat, stamp: nat)
    requires stamp <= now < TICKS
    ensures Elapsed(now, stamp) == now - stamp
  {
  }

  /**
    On every run: every passed check found all stamps an interval old if and only if no check read a
    clock behind its stamp, or missed a stamp within the interval that is younger than the one it read.
   */
  lemma ChecksAreIdleExactly(w: World, events: seq<Event>)
    ensures var log := Run(w, START, events).log;
      (forall i :: 0 <= i < |log| && log[i].CheckedIdle? ==> IdleAt(log, i, w.idle))
      <==> (forall i :: 0 <= i < |log| && log[i].CheckedIdle? ==> Undeceived(log, i, w.idle))
  {
    hide Step, CheckIsRead, IdleAt, Undeceived, StampsArePast, ReadsAreRecorded;
    RunIsRecorded(w, events);
    var log := Run(w, START, events).log;
    forall i | 0 <= i < |log| && log[i].CheckedIdle? ensures IdleAt(log, i, w.idle) <==> Undeceived(log, i, w.idle) {
      ChecksAreRead(w, log, i);
      CheckIsIdleExactly(w, log, i);
    }
  }

  /**
    A check on this clock and this stamp tells the truth whatever interval is configured if and only
    if the stamp is the youngest stored by then and the clock is not behind it.
   */
  lemma HonestForEveryIntervalExactly(log: seq<Mark>, now: nat, stamp: nat)
    requires now < TICKS && stamp < TICKS
    requires stamp == 0 || exists k :: 0 <= k < |log| && log[k] == StoredStamp(stamp)
    ensures (forall idle: nat :: idle <= Elapsed(now, stamp) ==> OldBy(log, now, idle))
            <==> StampedBy(log, stamp) && stamp <= now
  {
    hide Elapsed;
    var all := Elapsed(now, stamp);
    if stamp <= now {
      ElapsedIsDifference(now, stamp);
      if k :| 0 <= k < |log| && log[k].StoredStamp? && log[k].tick > stamp { assert !OldBy(log, now, all); }
    } else {
      ElapsedWraps(now, stamp);
      var k :| 0 <= k < |log| && log[k] == StoredStamp(stamp);
      assert !OldBy(log, now, all);
    }
  }

  predicate OldBy(log: seq<Mark>, now: nat, idle: nat) {
    forall k :: 0 <= k < |log| && log[k].StoredStamp? ==> log[k].tick + idle <= now
  }

  /** A clock behind the stamp looks like an age of almost 2^64. */
  lemma ElapsedWraps(now: nat, stamp: nat)
    requires now < stamp < TICKS
    ensures Elapsed(now, stamp) == TICKS - (stamp - now)
  {
  }

  /** Stamps reach the shared word in the order they were taken. */
  predicate InOrder(log: seq<Mark>) {
    forall i, j :: 0 <= i < j < |log| && log[i].StoredStamp? && log[j].StoredStamp? ==> log[i].tick <= log[j].tick
  }

  /** No stamp is stored between the two reads of the check that ends at `i`. */
  predicate Quiet(log: seq<Mark>, i: nat)
    requires i <= |log|
  {
    forall f :: 0 <= f < i && log[f] == BeganCheck && (forall k :: f < k < i ==> log[k] != BeganCheck) ==>
      forall k :: f < k < i ==> !log[k].StoredStamp?
  }

  lemma {:induction false} LastStampIsYoungest(log: seq<Mark>)
    requires InOrder(log)
    ensures StampedBy(log, LastStamp(log))
    decreases |log|
  {
    if log != [] {
      if !Last(log).StoredStamp? { LastStampIsYoungest(DropLast(log)); }
      assert forall k :: 0 <= k < |log| - 1 ==> DropLast(log)[k] == log[k];
    }
  }

  lemma {:induction false} LastStampBefore(log: seq<Mark>, f: nat)
    requires f <= |log| && forall k :: f <= k < |log| ==> !log[k].StoredStamp?
    ensures LastStamp(log) == LastStamp(log[..f])
    decreases |log|
  {
    if f < |log| {
      assert DropLast(log)[..f] == log[..f];
      LastStampBefore(DropLast(log), f);
    } else {
      assert log[..f] == log;
    }
  }

  /**
    On every run: with stamps in order and none stored between its two reads, a passed check read the
    youngest stamp on a clock no older, and so found every stamp an interval old.
   */
  lemma QuietChecksAreIdle(w: World, events: seq<Event>, i: nat)
    requires var log := Run(w, START, events).log;
      i < |log| && log[i].CheckedIdle? && InOrder(log[..i]) && Quiet(log, i)
    ensures var log := Run(w, START, events).log;
      StampedBy(log[..i], log[i].stamp) && log[i].stamp <= log[i].now && IdleAt(log, i, w.idle)
  {
    hide Step, CheckIsRead, IdleAt, StampsArePast, ReadsAreRecorded, Quiet, InOrder, StampedBy;
    RunIsRecorded(w, events);
    ChecksAreRead(w, Run(w, START, events).log, i);
    QuietCheckIsIdle(w, Run(w, START, events).log, i);
  }

  lemma QuietCheckIsIdle(w: World, log: seq<Mark>, i: nat)
    requires i < |log| && log[i].CheckedIdle? && CheckIsRead(w, log[..i], log[i].now, log[i].stamp)
    requires InOrder(log[..i]) && Quiet(log, i)
    ensures StampedBy(log[..i], log[i].stamp) && log[i].stamp <= log[i].now && IdleAt(log, i, w.idle)
  {
    hide Checking, AtBegin, LastStamp, InOrder;
    var before := log[..i];
    var f := AtBeginIsPrefix(before);
    assert forall k :: f < k < i ==> before[k] == log[k];
    assert log[f] == BeganCheck;
    LastStampBefore(before, f);
    LastStampIsYoungest(before);
    ReadStampWasStored(w, before, log[i].now, log[i].stamp);
    if log[i].stamp != 0 { StoredBeforeTheCheck(before, f, log[i].stamp); }
    ElapsedIsDifference(log[i].now, log[i].stamp);
    assert forall k :: 0 <= k < i ==> before[k] == log[k];
  }

  lemma StoredBeforeTheCheck(log: seq<Mark>, f: nat, stamp: nat)
    requires f < |log| && log[f] == BeganCheck && (forall k :: f < k < |log| ==> !log[k].StoredStamp?)
    requires exists k :: 0 <= k < |log| && log[k] == StoredStamp(stamp)
    ensures exists k :: 0 <= k < f && log[..f][k] == StoredStamp(stamp)
  {
    var k :| 0 <= k < |log| && log[k] == StoredStamp(stamp);
    assert log[..f][k] == StoredStamp(stamp);
  }

  // ---------------------------------------------------------------------------
  // Both conditions are needed: two reachable runs, each breaking one of them.

  /**
    A worker that took the time early and stores it late, just before the check reads the stamp, moves
    the shared stamp back: the check passes although a younger stamp was stored.
   */
  lemma LateStoreRewindsTheStamp(w: World, s: State, client: nat, tick: nat)
    requires client in s.workers && s.workers[client].stage == Stamped(tick) && s.collector == HasClock(s.clock.now)
    requires Elapsed(s.clock.now, s.clock.lastActivity) < w.idle <= Elapsed(s.clock.now, tick)
    ensures CollectorStep(w, s).collector == Asleep
    ensures CollectorStep(w, NoteStep(s, client)).collector == FoundIdle
  {
  }

  ghost predicate Reachable(w: World, s: State) {
    exists events :: Run(w, START, events) == s
  }

  lemma StartIsReachable(w: World)
    ensures Reachable(w, START)
  {
    assert Run(w, START, []) == START;
  }

  lemma Onward(w: World, s: State, e: Event)
    requires Reachable(w, s)
    ensures Reachable(w, Step(w, s, e))
  {
    hide Step;
    var events :| Run(w, START, events) == s;
    assert DropLast(events + [e]) == events && Last(events + [e]) == e;
    assert Run(w, START, events + [e]) == Step(w, s, e);
  }

  /** From rest to the mutex, when every load outside it finds what the collector waits for. */
  lemma CollectorRuns(w: World, s: State)
    requires Reachable(w, s) && s.collector == Asleep && s.clock.engineActive && s.clock.gcPending
    requires Elapsed(s.clock.now, s.clock.lastActivity) >= w.idle && !s.shared.sessionComposing
    ensures Reachable(w, s.(collector := Locked))
  {
    hide Reachable, Collect, Elapsed;
    Onward(w, s, Collector);
    Onward(w, s.(collector := SawUse), Collector);
    Onward(w, s.(collector := SawStamp(s.clock.lastActivity)), Collector);
    Onward(w, s.(collector := SawIdle), Collector);
    Onward(w, s.(collector := SawDue), Collector);
    Onward(w, s.(collector := AtMutex), Collector);
  }

  /** The first read of the check. */
  lemma CheckBegins(w: World, s: State)
    requires Reachable(w, s) && s.collector == Locked
    ensures Reachable(w, CollectorStep(w, s))
    ensures CollectorStep(w, s) ==
            s.(collector := if w.clockFirst then HasClock(s.clock.now) else HasStamp(s.clock.lastActivity),
               log := s.log + [BeganCheck])
  {
    hide Reachable;
    Onward(w, s, Collector);
  }

  /** From a check about to pass to the collection. */
  lemma CheckEnds(w: World, s: State, now: nat, stamp: nat)
    requires Reachable(w, s) && s.clock.gcPending && !s.shared.sessionComposing
    requires if w.clockFirst then s.collector == HasClock(now) && stamp == s.clock.lastActivity
             else s.collector == HasStamp(stamp) && now == s.clock.now
    requires Elapsed(now, stamp) >= w.idle
    ensures exists t :: Reachable(w, t) && Collecting(t) && t.shared == s.shared
                        && t.log == s.log + [CheckedIdle(now, stamp)]
    ensures exists t :: Reachable(w, t) && t.log == s.log + [CheckedIdle(now, stamp)] + [Collected]
  {
    hide Reachable, Collect, Elapsed;
    Onward(w, s, Collector);
    var s1 := s.(collector := FoundIdle, log := s.log + [CheckedIdle(now, stamp)]);
    assert CollectorStep(w, s) == s1;
    Onward(w, s1, Collector);
    var s2 := s1.(collector := FoundCalm);
    assert CollectorStep(w, s1) == s2;
    assert Collecting(s2);
    Onward(w, s2, Collector);
    assert CollectorStep(w, s2).log == s1.log + [Collected];
  }

  /** Two workers; the first took the time at 0, the second at `idle`, and neither has stored it. */
  function TwoStamped(idle: nat): State {
    State(START.shared, map[1 := Worker({}, Stamped(0), ""), 2 := Worker({}, Stamped(idle), "")], 3,
          Clock(idle, 0, false, false), Asleep, [])
  }

  const READING := Worker({}, Reading, "")

  /** Two workers connected and waiting. */
  const TWO_CONNECTED := State(START.shared, map[1 := READING, 2 := READING], 3, Clock(0, 0, false, false), Asleep, [])

  lemma TwoConnectedIsReachable(w: World)
    ensures Reachable(w, TWO_CONNECTED)
  {
    hide Reachable;
    StartIsReachable(w);
    Onward(w, START, Connect);
    var s1 := State(START.shared, map[1 := READING], 2, Clock(0, 0, false, false), Asleep, []);
    assert Step(w, START, Connect) == s1;
    Onward(w, s1, Connect);
    assert Step(w, s1, Connect) == TWO_CONNECTED;
  }

  lemma TwoStampedIsReachable(w: World)
    ensures Reachable(w, TwoStamped(w.idle))
  {
    hide Reachable;
    var idle: nat := w.idle;
    TwoConnectedIsReachable(w);
    var s2 := TWO_CONNECTED;
    Onward(w, s2, Read(1, ""));
    var s3 := WithWorker(s2, 1, READING.(stage := Stamped(0)));
    assert Step(w, s2, Read(1, "")) == s3;
    Onward(w, s3, Tick(idle));
    var s4 := s3.(clock := Clock(idle, 0, false, false));
    assert Step(w, s3, Tick(idle)) == s4;
    Onward(w, s4, Read(2, ""));
    assert Step(w, s4, Read(2, "")) == TwoStamped(idle);
  }

  /** Both store, the older stamp last, and the first worker goes on to mark the engine used. */
  function OlderStoredLast(idle: nat): State {
    State(START.shared, map[1 := Worker({}, Ready, ""), 2 := Worker({}, Stored, "")], 3,
          Clock(idle, 0, true, true), Asleep, [StoredStamp(idle), StoredStamp(0), NotedDue])
  }

  lemma OlderStoredLastIsReachable(w: World)
    ensures Reachable(w, OlderStoredLast(w.idle))
  {
    hide Reachable;
    var idle: nat := w.idle;
    TwoStampedIsReachable(w);
    var s0 := TwoStamped(idle);
    Onward(w, s0, Note(2));
    var s1 := Step(w, s0, Note(2));
    assert s1.clock == Clock(idle, idle, false, false) && s1.log == [StoredStamp(idle)];
    Onward(w, s1, Note(1));
    var s2 := Step(w, s1, Note(1));
    assert s2.clock == Clock(idle, 0, false, false) && s2.log == [StoredStamp(idle), StoredStamp(0)];
    Onward(w, s2, Note(1));
    var s3 := Step(w, s2, Note(1));
    assert s3.log == [StoredStamp(idle), StoredStamp(0), NotedDue];
    Onward(w, s3, Note(1));
    assert Step(w, s3, Note(1)) == OlderStoredLast(idle);
  }

  /**
    Stamps out of order, none stored between the reads: a collection follows a stamp that was stored,
    and is not an instant old, at the time of the check.
   */
  lemma CollectionAtAFreshStamp(w: World)
    ensures exists s ::
      Reachable(w, s)
      && s.log == [StoredStamp(w.idle), StoredStamp(0), NotedDue, BeganCheck] + [CheckedIdle(w.idle, 0)] + [Collected]
  {
    hide Reachable, Elapsed, Collect;
    OlderStoredLastIsReachable(w);
    var s0 := OlderStoredLast(w.idle);
    ElapsedIsDifference(w.idle, 0);
    CollectorRuns(w, s0);
    CheckBegins(w, s0.(collector := Locked));
    var s1 := CollectorStep(w, s0.(collector := Locked));
    assert s1.log == [StoredStamp(w.idle), StoredStamp(0), NotedDue, BeganCheck];
    CheckEnds(w, s1, w.idle, 0);
  }

  /** One worker noted its request at 0; a second one waits. */
  const ONE_NOTED := State(
    START.shared, map[1 := Worker({}, Ready, ""), 2 := READING], 3,
    Clock(0, 0, true, true), Asleep, [StoredStamp(0), NotedDue])

  lemma OneNotedIsReachable(w: World)
    ensures Reachable(w, ONE_NOTED)
  {
    hide Reachable;
    TwoConnectedIsReachable(w);
    var s0 := TWO_CONNECTED;
    Onward(w, s0, Read(1, ""));
    var s1 := Step(w, s0, Read(1, ""));
    Onward(w, s1, Note(1));
    var s2 := Step(w, s1, Note(1));
    assert s2.log == [StoredStamp(0)];
    Onward(w, s2, Note(1));
    var s3 := Step(w, s2, Note(1));
    assert s3.log == [StoredStamp(0), NotedDue];
    Onward(w, s3, Note(1));
    assert Step(w, s3, Note(1)) == ONE_NOTED;
  }

  /** Between the two reads the second worker takes and stores a stamp younger than the clock read. */
  function Disturbed(s: State, idle: nat): State {
    s.(workers := s.workers[2 := Worker({}, Stored, "")], clock := Clock(idle + 1, idle + 1, true, true),
       log := s.log + [StoredStamp(idle + 1)])
  }

  lemma DisturbedIsReachable(w: World, s: State)
    requires Reachable(w, s) && 2 in s.workers && s.workers[2] == READING && s.clock == Clock(w.idle, 0, true, true)
    ensures Reachable(w, Disturbed(s, w.idle))
  {
    hide Reachable;
    Onward(w, s, Tick(1));
    var s1 := Step(w, s, Tick(1));
    Onward(w, s1, Read(2, ""));
    var s2 := Step(w, s1, Read(2, ""));
    Onward(w, s2, Note(2));
    assert Step(w, s2, Note(2)) == Disturbed(s, w.idle);
  }

  /**
    Stamps in order, one stored between the reads: whichever of the two is read first, a collection
    follows at a stamp taken no longer than an instant ago. With the clock first the age wraps around.
   */
  lemma CollectionAcrossTheReads(w: World)
    ensures exists s ::
      Reachable(w, s)
      && s.log == [StoredStamp(0), NotedDue, BeganCheck, StoredStamp(w.idle + 1)]
                  + [if w.clockFirst then CheckedIdle(w.idle, w.idle + 1) else CheckedIdle(w.idle + 1, 0)] + [Collected]
  {
    hide Reachable, Elapsed, Collect;
    var idle: nat := w.idle;
    OneNotedIsReachable(w);
    Onward(w, ONE_NOTED, Tick(idle));
    var s0 := ONE_NOTED.(clock := Clock(idle, 0, true, true));
    assert Step(w, ONE_NOTED, Tick(idle)) == s0;
    ElapsedIsDifference(idle, 0);
    CollectorRuns(w, s0);
    CheckBegins(w, s0.(collector := Locked));
    var s1 := CollectorStep(w, s0.(collector := Locked));
    DisturbedIsReachable(w, s1);
    var s2 := Disturbed(s1, idle);
    assert s2.log == [StoredStamp(0), NotedDue, BeganCheck, StoredStamp(idle + 1)];
    if w.clockFirst {
      ElapsedWraps(idle, idle + 1);
      CheckEnds(w, s2, idle, idle + 1);
    } else {
      ElapsedIsDifference(idle + 1, 0);
      CheckEnds(w, s2, idle + 1, 0);
    }
  }

  /** Neither condition is necessary: stamps out of order do no harm once all of them are old. */
  lemma DisorderCanBeHarmless(w: World)
    requires w.idle > 0
    ensures exists s :: Reachable(w, s) && |s.log| == 6 && s.log[4].CheckedIdle? && s.log[5] == Collected
                        && !InOrder(s.log[..4]) && IdleAt(s.log, 4, w.idle)
  {
    hide Reachable, Elapsed, Collect;
    var idle: nat := w.idle;
    OlderStoredLastIsReachable(w);
    Onward(w, OlderStoredLast(idle), Tick(idle));
    var s0 := OlderStoredLast(idle).(clock := Clock(2 * idle, 0, true, true));
    assert Step(w, OlderStoredLast(idle), Tick(idle)) == s0;
    ElapsedIsDifference(2 * idle, 0);
    CollectorRuns(w, s0);
    CheckBegins(w, s0.(collector := Locked));
    var s1 := CollectorStep(w, s0.(collector := Locked));
    var begun := [StoredStamp(idle), StoredStamp(0), NotedDue, BeganCheck];
    assert s1.log == begun;
    CheckEnds(w, s1, 2 * idle, 0);
    var s :| Reachable(w, s) && s.log == begun + [CheckedIdle(2 * idle, 0)] + [Collected];
    assert s.log[..4] == begun && begun[0].tick > begun[1].tick;
  }
}
