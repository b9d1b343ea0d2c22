/** The commit rule of the capture worker over whole runs, restarts included, and exactly when a
    failed insert is tried again. */
module CaptureRules {
  import opened Options
  import opened Reliability
  import opened CaptureWorker

  /** State and fate at position `k` of a run. */
  function FateAt(w: Worker, inputs: seq<Input>, limits: seq<Limits>, k: nat): Fate
    requires |inputs| == |limits| && k < |inputs|
  {
    Fated(AfterPolls(w, inputs[..k], limits[..k]), inputs[k], limits[k])
  }

  predicate AttemptsHash(w: Worker, inputs: seq<Input>, limits: seq<Limits>, k: nat, h: Hash)
    requires |inputs| == |limits| && k < |inputs|
  {
    inputs[k].Read? && inputs[k].c.hash == h && FateAt(w, inputs, limits, k).Attempted?
  }

  predicate ExplicitAt(w: Worker, inputs: seq<Input>, limits: seq<Limits>, k: nat)
    requires |inputs| == |limits| && k < |inputs|
  {
    inputs[k].Read? && Explicit(AfterPolls(w, inputs[..k], limits[..k]), inputs[k].c)
  }

  predicate StoredAt(w: Worker, inputs: seq<Input>, limits: seq<Limits>, k: nat)
    requires |inputs| == |limits| && k < |inputs|
  {
    FateAt(w, inputs, limits, k).Attempted? && FateAt(w, inputs, limits, k).stored
  }

  /** The committed hash after `n` polls. */
  function CommittedAfter(w: Worker, inputs: seq<Input>, limits: seq<Limits>, n: nat): Option<Hash>
    requires |inputs| == |limits| && n <= |inputs|
  {
    AfterPolls(w, inputs[..n], limits[..n]).lastHash
  }

  lemma AfterOne(w: Worker, inputs: seq<Input>, limits: seq<Limits>, n: nat)
    requires |inputs| == |limits| && n < |inputs|
    ensures AfterPolls(w, inputs[..n + 1], limits[..n + 1]) == Next(AfterPolls(w, inputs[..n], limits[..n]), inputs[n], limits[n])
  {
    assert inputs[..n + 1][..n] == inputs[..n] && limits[..n + 1][..n] == limits[..n];
  }

  /** The worker gives up at poll `k`, and a new one starts with nothing remembered. */
  predicate RestartsAt(w: Worker, inputs: seq<Input>, limits: seq<Limits>, k: nat)
    requires |inputs| == |limits| && k < |inputs|
  {
    Exits(AfterPolls(w, inputs[..k], limits[..k]), inputs[k])
  }

  /** Failed reads in a row after `n` polls, pauses ignored, counted up to five. */
  function FailuresInARow(inputs: seq<Input>, n: nat): nat
    requires n <= |inputs|
  {
    if n == 0 then 0
    else match inputs[n - 1]
      case Paused => FailuresInARow(inputs, n - 1)
      case ReadFailed => if FailuresInARow(inputs, n - 1) == 4 then 0 else FailuresInARow(inputs, n - 1) + 1
      case _ => 0
  }

  lemma {:induction false} FailuresCounted(inputs: seq<Input>, limits: seq<Limits>, n: nat)
    requires |inputs| == |limits| && n <= |inputs|
    ensures AfterPolls(NewWorker, inputs[..n], limits[..n]).readFailures == FailuresInARow(inputs, n) <= 4
  {
    if n == 0 {
      assert inputs[..0] == [] && limits[..0] == [];
    } else {
      FailuresCounted(inputs, limits, n - 1);
      AfterOne(NewWorker, inputs, limits, n - 1);
      hide AfterPolls, Fated, NextHash, NextShed, NextGeneration;
    }
  }

  /** In every run from the start the worker restarts exactly at each fifth failed read in a row. */
  lemma RestartsAtFifthFailure(inputs: seq<Input>, limits: seq<Limits>, k: nat)
    requires |inputs| == |limits| && k < |inputs|
    ensures RestartsAt(NewWorker, inputs, limits, k) <==> inputs[k].ReadFailed? && FailuresInARow(inputs, k) == 4
  {
    FailuresCounted(inputs, limits, k);
    hide AfterPolls;
  }

  // ----- The committed hash

  /** Poll `k` commits `h`: it stored it, or skipped it on purpose. */
  predicate CommitsAt(w: Worker, inputs: seq<Input>, limits: seq<Limits>, k: nat, h: Hash)
    requires |inputs| == |limits| && k < |inputs|
  {
    && inputs[k].Read? && inputs[k].c.hash == h
    && (StoredAt(w, inputs, limits, k) ||
        (FateAt(w, inputs, limits, k).PolicySkip? && FateAt(w, inputs, limits, k).reason.intentional))
  }

  /** Poll `k` commits what it read, or restarts the worker. */
  predicate ChangesCommit(w: Worker, inputs: seq<Input>, limits: seq<Limits>, k: nat)
    requires |inputs| == |limits| && k < |inputs|
  {
    RestartsAt(w, inputs, limits, k) || (inputs[k].Read? && CommitsAt(w, inputs, limits, k, inputs[k].c.hash))
  }

  /** What such a poll leaves committed. */
  function CommitLeft(i: Input): Option<Hash> { if i.Read? then Some(i.c.hash) else None }

  lemma CommitStep(w: Worker, inputs: seq<Input>, limits: seq<Limits>, m: nat)
    requires |inputs| == |limits| && m < |inputs|
    ensures CommittedAfter(w, inputs, limits, m + 1) ==
            if ChangesCommit(w, inputs, limits, m) then CommitLeft(inputs[m]) else CommittedAfter(w, inputs, limits, m)
  {
    AfterOne(w, inputs, limits, m);
    hide AfterPolls, Fated;
  }

  predicate LastCommit(w: Worker, inputs: seq<Input>, limits: seq<Limits>, n: nat, k: nat)
    requires |inputs| == |limits| && k < n <= |inputs|
  {
    ChangesCommit(w, inputs, limits, k) && forall j :: k < j < n ==> !ChangesCommit(w, inputs, limits, j)
  }

  /** The committed hash is that of the last poll that stored something or skipped it on purpose, none
      after a restart, and the initial one before either: nothing else ever changes it. */
  lemma {:induction false} CommittedIsLastCommit(w: Worker, inputs: seq<Input>, limits: seq<Limits>, n: nat)
    requires |inputs| == |limits| && n <= |inputs|
    ensures || (CommittedAfter(w, inputs, limits, n) == w.lastHash &&
                forall k: nat :: k < n ==> !ChangesCommit(w, inputs, limits, k))
            || (exists k: nat :: k < n && LastCommit(w, inputs, limits, n, k) &&
                                 CommittedAfter(w, inputs, limits, n) == CommitLeft(inputs[k]))
    decreases n
  {
    if n > 0 {
      var m := n - 1;
      CommittedIsLastCommit(w, inputs, limits, m);
      CommitStep(w, inputs, limits, m);
      hide ChangesCommit, AfterPolls;
      if ChangesCommit(w, inputs, limits, m) {
        assert LastCommit(w, inputs, limits, n, m);
      } else if k: nat :| k < m && LastCommit(w, inputs, limits, m, k) &&
                          CommittedAfter(w, inputs, limits, m) == CommitLeft(inputs[k]) {
        assert LastCommit(w, inputs, limits, n, k);
      }
    } else {
      assert inputs[..0] == [] && limits[..0] == [];
    }
  }

  /** Content once committed, by a store success or by an intentional skip, is not inserted again
      unless the user asks for it, the worker was restarted, or other content was committed in between. */
  lemma CommittedContentNotReinserted(w: Worker, inputs: seq<Input>, limits: seq<Limits>, i: nat, j: nat, h: Hash)
    requires |inputs| == |limits| && i < j < |inputs| && CommitsAt(w, inputs, limits, i, h)
    requires AttemptsHash(w, inputs, limits, j, h) && !ExplicitAt(w, inputs, limits, j)
    ensures exists k: nat :: i < k < j && ChangesCommit(w, inputs, limits, k) && CommitLeft(inputs[k]) != Some(h)
  {
    CommittedIsLastCommit(w, inputs, limits, j);
    assert CommittedAfter(w, inputs, limits, j) != Some(h);
    hide AfterPolls, FateAt;
    assert ChangesCommit(w, inputs, limits, i);
    var k: nat :| k < j && LastCommit(w, inputs, limits, j, k) && CommittedAfter(w, inputs, limits, j) == CommitLeft(inputs[k]);
    assert k >= i;
  }

  // ----- What is remembered of shed content

  /** Poll `k` sheds what it read, or makes the worker forget what was shed before. */
  predicate ForgetsShed(w: Worker, inputs: seq<Input>, limits: seq<Limits>, k: nat)
    requires |inputs| == |limits| && k < |inputs|
  {
    var f := FateAt(w, inputs, limits, k);
    || RestartsAt(w, inputs, limits, k) || f.TooLarge? || f.Unpreviewable? || (f.Attempted? && f.stored)
    || (!ExplicitAt(w, inputs, limits, k) && (f.StaleGeneration? || Judged(f)))
  }

  function ShedAfter(w: Worker, inputs: seq<Input>, limits: seq<Limits>, n: nat): Option<(Hash, int)>
    requires |inputs| == |limits| && n <= |inputs|
  {
    AfterPolls(w, inputs[..n], limits[..n]).lastShed
  }

  predicate ShedIs(s: Option<(Hash, int)>, h: Hash) { s.Some? && s.value.0 == h }

  lemma ShedStep(w: Worker, inputs: seq<Input>, limits: seq<Limits>, m: nat, h: Hash)
    requires |inputs| == |limits| && m < |inputs| && !SettlesAt(w, inputs, limits, m, h)
    ensures !ForgetsShed(w, inputs, limits, m) ==> ShedAfter(w, inputs, limits, m + 1) == ShedAfter(w, inputs, limits, m)
    ensures ForgetsShed(w, inputs, limits, m) ==> !ShedIs(ShedAfter(w, inputs, limits, m + 1), h)
  {
    AfterOne(w, inputs, limits, m);
    hide AfterPolls, JudgedFate;
  }

  // ----- The generation tracker

  /** Poll `k` shows its generation to the tracker, which records it. */
  predicate ObservesAt(w: Worker, inputs: seq<Input>, limits: seq<Limits>, k: nat)
    requires |inputs| == |limits| && k < |inputs|
  {
    && inputs[k].Read? && inputs[k].c.generation.Some?
    && !ExplicitAt(w, inputs, limits, k) && Judged(FateAt(w, inputs, limits, k))
  }

  predicate ChangesTracker(w: Worker, inputs: seq<Input>, limits: seq<Limits>, k: nat)
    requires |inputs| == |limits| && k < |inputs|
  {
    RestartsAt(w, inputs, limits, k) || ObservesAt(w, inputs, limits, k)
  }

  /** What such a poll leaves tracked. */
  function TrackLeft(i: Input): Option<Generation> { if i.Read? then i.c.generation else None }

  predicate LastTracked(w: Worker, inputs: seq<Input>, limits: seq<Limits>, n: nat, k: nat)
    requires |inputs| == |limits| && k < n <= |inputs|
  {
    ChangesTracker(w, inputs, limits, k) && forall j :: k < j < n ==> !ChangesTracker(w, inputs, limits, j)
  }

  function TrackedAfter(w: Worker, inputs: seq<Input>, limits: seq<Limits>, n: nat): Option<Generation>
    requires |inputs| == |limits| && n <= |inputs|
  {
    AfterPolls(w, inputs[..n], limits[..n]).lastGeneration
  }

  lemma TrackerStep(w: Worker, inputs: seq<Input>, limits: seq<Limits>, m: nat)
    requires |inputs| == |limits| && m < |inputs|
    ensures TrackedAfter(w, inputs, limits, m + 1) ==
            if ChangesTracker(w, inputs, limits, m) then TrackLeft(inputs[m]) else TrackedAfter(w, inputs, limits, m)
    ensures ObservesAt(w, inputs, limits, m) ==> !Stale(TrackedAfter(w, inputs, limits, m), inputs[m].c.generation.value)
  {
    AfterOne(w, inputs, limits, m);
    hide AfterPolls, JudgedFate;
  }

  /** The tracker holds what was observed last, nothing after a restart, and the initial generation
      before either. */
  lemma {:induction false} TrackerIsLastObservation(w: Worker, inputs: seq<Input>, limits: seq<Limits>, n: nat)
    requires |inputs| == |limits| && n <= |inputs|
    ensures || (TrackedAfter(w, inputs, limits, n) == w.lastGeneration &&
                forall k: nat :: k < n ==> !ChangesTracker(w, inputs, limits, k))
            || (exists k: nat :: k < n && LastTracked(w, inputs, limits, n, k) &&
                                 TrackedAfter(w, inputs, limits, n) == TrackLeft(inputs[k]))
    decreases n
  {
    if n > 0 {
      var m := n - 1;
      TrackerIsLastObservation(w, inputs, limits, m);
      TrackerStep(w, inputs, limits, m);
      hide ChangesTracker, AfterPolls;
      if ChangesTracker(w, inputs, limits, m) {
        assert LastTracked(w, inputs, limits, n, m);
      } else if k: nat :| k < m && LastTracked(w, inputs, limits, m, k) &&
                          TrackedAfter(w, inputs, limits, m) == TrackLeft(inputs[k]) {
        assert LastTracked(w, inputs, limits, n, k);
      }
    } else {
      assert inputs[..0] == [] && limits[..0] == [];
    }
  }

  // ----- Exactly when the content of a failed insert reaches the policy again

  /** A poll that settles nothing: neither commits its content nor sheds it. */
  predicate Unsettled(f: Fate) {
    !(f.Attempted? && f.stored) && !(f.PolicySkip? && f.reason.intentional) && !f.TooLarge? && !f.Unpreviewable?
  }

  predicate SettlesAt(w: Worker, inputs: seq<Input>, limits: seq<Limits>, k: nat, h: Hash)
    requires |inputs| == |limits| && k < |inputs|
  {
    inputs[k].Read? && inputs[k].c.hash == h && !Unsettled(FateAt(w, inputs, limits, k))
  }

  ghost predicate NeverSettled(w: Worker, inputs: seq<Input>, limits: seq<Limits>, n: nat, h: Hash)
    requires |inputs| == |limits| && n <= |inputs|
  {
    forall j: nat :: j < n ==> !SettlesAt(w, inputs, limits, j, h)
  }

  predicate FailsAt(w: Worker, c: Captured, l: Limits) {
    Fated(w, Read(c), l).Attempted? && !Fated(w, Read(c), l).stored
  }

  /** What the tracker holds after the failed insert: a re-grab asked for by the user is not shown to it. */
  function GenerationLeft(w: Worker, c: Captured): Option<Generation> {
    if Explicit(w, c) || c.generation.None? then w.lastGeneration else c.generation
  }

  lemma FailureLeaves(w: Worker, c: Captured, l: Limits)
    requires FailsAt(w, c, l)
    ensures var w' := Next(w, Read(c), l);
            && w'.lastHash == w.lastHash && w'.lastShed == (if Explicit(w, c) then w.lastShed else None)
            && w'.lastGeneration == GenerationLeft(w, c)
  {
  }

  lemma JudgedIff(w: Worker, c: Captured, l: Limits)
    requires c.intact
    ensures Judged(Fated(w, Read(c), l)) <==>
            || Explicit(w, c)
            || (w.lastHash != Some(c.hash) && !Suppressed(w.lastShed, c.hash, c.at) &&
                (c.generation.Some? ==> !Stale(w.lastGeneration, c.generation.value)))
  {
    hide Explicit, Suppressed;
  }

  /** The content was not the committed one when its insert failed, or what was committed then has been
      replaced or forgotten by some poll before `k`. */
  ghost predicate Uncommitted(w: Worker, c: Captured, l: Limits, inputs: seq<Input>, limits: seq<Limits>, k: nat)
    requires |inputs| == |limits| && k <= |inputs|
  {
    w.lastHash != Some(c.hash) || exists j: nat :: j < k && ChangesCommit(Next(w, Read(c), l), inputs, limits, j)
  }

  /** The content is not waiting since an earlier shed, which only a re-grab can have jumped over. */
  ghost predicate NotWaiting(w: Worker, c: Captured, l: Limits, inputs: seq<Input>, limits: seq<Limits>, k: nat)
    requires |inputs| == |limits| && k < |inputs| && inputs[k].Read?
  {
    || !Explicit(w, c) || !Suppressed(w.lastShed, c.hash, inputs[k].c.at)
    || exists j: nat :: j < k && ForgetsShed(Next(w, Read(c), l), inputs, limits, j)
  }

  /** A tracker at `last` does not count `g` as seen. */
  predicate Behind(last: Generation, g: Generation) { last.epoch != g.epoch || last.sequence < g.sequence }

  /** The read of poll `k` has no generation, or the last one observed since the failure is of another
      epoch or has a smaller number, or the worker was restarted after it; with none of these since, the
      same of what the failure left in the tracker. */
  ghost predicate Unseen(w: Worker, c: Captured, l: Limits, inputs: seq<Input>, limits: seq<Limits>, k: nat)
    requires |inputs| == |limits| && k < |inputs| && inputs[k].Read?
  {
    var w', g := Next(w, Read(c), l), inputs[k].c.generation;
    || g.None?
    || (exists j: nat :: j < k && LastTracked(w', inputs, limits, k, j) &&
                         (TrackLeft(inputs[j]).Some? ==> Behind(TrackLeft(inputs[j]).value, g.value)))
    || ((forall j: nat :: j < k ==> !ChangesTracker(w', inputs, limits, j)) &&
        (GenerationLeft(w, c).Some? ==> Behind(GenerationLeft(w, c).value, g.value)))
  }

  lemma UncommittedIff(w: Worker, c: Captured, l: Limits, inputs: seq<Input>, limits: seq<Limits>, k: nat)
    requires |inputs| == |limits| && k <= |inputs| && FailsAt(w, c, l)
    requires NeverSettled(Next(w, Read(c), l), inputs, limits, k, c.hash)
    ensures CommittedAfter(Next(w, Read(c), l), inputs, limits, k) != Some(c.hash) <==> Uncommitted(w, c, l, inputs, limits, k)
  {
    var w' := Next(w, Read(c), l);
    FailureLeaves(w, c, l);
    CommittedIsLastCommit(w', inputs, limits, k);
    if j: nat :| j < k && ChangesCommit(w', inputs, limits, j) {
      var i: nat :| i < k && LastCommit(w', inputs, limits, k, i) && CommittedAfter(w', inputs, limits, k) == CommitLeft(inputs[i]);
      assert !SettlesAt(w', inputs, limits, i, c.hash);
      hide AfterPolls, Fated, Next;
    }
  }

  lemma {:induction false} ShedRemembered(w: Worker, inputs: seq<Input>, limits: seq<Limits>, n: nat, h: Hash)
    requires |inputs| == |limits| && n <= |inputs| && NeverSettled(w, inputs, limits, n, h)
    ensures if exists j: nat :: j < n && ForgetsShed(w, inputs, limits, j)
            then !ShedIs(ShedAfter(w, inputs, limits, n), h) else ShedAfter(w, inputs, limits, n) == w.lastShed
    decreases n
  {
    if n > 0 {
      var m := n - 1;
      ShedRemembered(w, inputs, limits, m, h);
      ShedStep(w, inputs, limits, m, h);
      hide ForgetsShed, AfterPolls, SettlesAt;
    } else {
      assert inputs[..0] == [] && limits[..0] == [];
    }
  }

  lemma NotWaitingIff(w: Worker, c: Captured, l: Limits, inputs: seq<Input>, limits: seq<Limits>, k: nat)
    requires |inputs| == |limits| && k < |inputs| && inputs[k].Read? && FailsAt(w, c, l)
    requires NeverSettled(Next(w, Read(c), l), inputs, limits, k, c.hash)
    ensures !Suppressed(ShedAfter(Next(w, Read(c), l), inputs, limits, k), c.hash, inputs[k].c.at) <==>
            NotWaiting(w, c, l, inputs, limits, k)
  {
    FailureLeaves(w, c, l);
    ShedRemembered(Next(w, Read(c), l), inputs, limits, k, c.hash);
    hide ForgetsShed, AfterPolls, Next, Explicit;
  }

  lemma UnseenIff(w: Worker, c: Captured, l: Limits, inputs: seq<Input>, limits: seq<Limits>, k: nat)
    requires |inputs| == |limits| && k < |inputs| && inputs[k].Read? && FailsAt(w, c, l)
    ensures (inputs[k].c.generation.Some? ==>
               !Stale(TrackedAfter(Next(w, Read(c), l), inputs, limits, k), inputs[k].c.generation.value))
            <==> Unseen(w, c, l, inputs, limits, k)
  {
    var w' := Next(w, Read(c), l);
    FailureLeaves(w, c, l);
    TrackerIsLastObservation(w', inputs, limits, k);
    hide ChangesTracker, AfterPolls, Next, GenerationLeft;
    if j: nat :| j < k && LastTracked(w', inputs, limits, k, j) {
      forall i: nat | i < k && LastTracked(w', inputs, limits, k, i) ensures i == j {
      }
    }
  }

  /** After any failed insert, of a re-grab or not, and whatever is read and restarted in between, an
      intact read of the same content reaches the policy again, as long as no poll committed or shed it,
      if and only if the user asks for it, or nothing holds it back: neither a commit, nor the wait
      after a shed, nor the tracker. */
  lemma FailedInsertRetriedIff(w: Worker, c: Captured, l: Limits, inputs: seq<Input>, limits: seq<Limits>, k: nat)
    requires FailsAt(w, c, l) && |inputs| == |limits| && k < |inputs|
    requires inputs[k].Read? && inputs[k].c.hash == c.hash && inputs[k].c.intact
    requires NeverSettled(Next(w, Read(c), l), inputs, limits, k, c.hash)
    ensures Judged(FateAt(Next(w, Read(c), l), inputs, limits, k)) <==>
            || ExplicitAt(Next(w, Read(c), l), inputs, limits, k)
            || (Uncommitted(w, c, l, inputs, limits, k) && NotWaiting(w, c, l, inputs, limits, k)
                && Unseen(w, c, l, inputs, limits, k))
  {
    var w' := Next(w, Read(c), l);
    UncommittedIff(w, c, l, inputs, limits, k);
    NotWaitingIff(w, c, l, inputs, limits, k);
    UnseenIff(w, c, l, inputs, limits, k);
    JudgedIff(AfterPolls(w', inputs[..k], limits[..k]), inputs[k].c, limits[k]);
    hide AfterPolls, Fated, Next, Uncommitted, NotWaiting, Unseen, Explicit, Suppressed, Stale, FailsAt, NeverSettled, Judged;
  }

  // ----- Its two sides

  /** The content of a failed insert that was not the committed one, nor jumping over a wait, is tried
      again by every later intact read without a generation, until a poll commits or sheds it. */
  lemma FailedInsertIsRetried(w: Worker, c: Captured, l: Limits, inputs: seq<Input>, limits: seq<Limits>, k: nat)
    requires FailsAt(w, c, l) && |inputs| == |limits| && k < |inputs|
    requires inputs[k].Read? && inputs[k].c.hash == c.hash && inputs[k].c.intact && inputs[k].c.generation.None?
    requires w.lastHash != Some(c.hash) && (Explicit(w, c) ==> !Suppressed(w.lastShed, c.hash, inputs[k].c.at))
    requires NeverSettled(Next(w, Read(c), l), inputs, limits, k, c.hash)
    ensures Judged(FateAt(Next(w, Read(c), l), inputs, limits, k))
  {
    FailedInsertRetriedIff(w, c, l, inputs, limits, k);
    hide FailsAt, Next, FateAt, NeverSettled;
  }

  /** The content of a failed re-grab that an intentional skip had committed is lost: until another
      commit or a restart, no read of it reaches the policy unless the user asks once more. */
  lemma FailedRegrabIsLost(w: Worker, c: Captured, l: Limits, inputs: seq<Input>, limits: seq<Limits>, k: nat)
    requires FailsAt(w, c, l) && w.lastHash == Some(c.hash) && |inputs| == |limits| && k < |inputs|
    requires inputs[k].Read? && inputs[k].c.hash == c.hash
    requires var w' := Next(w, Read(c), l);
             !ExplicitAt(w', inputs, limits, k) && forall j: nat :: j < k ==> !ChangesCommit(w', inputs, limits, j)
    ensures !Judged(FateAt(Next(w, Read(c), l), inputs, limits, k))
  {
    var w' := Next(w, Read(c), l);
    FailureLeaves(w, c, l);
    CommittedIsLastCommit(w', inputs, limits, k);
    hide Next, ChangesCommit, AfterPolls;
  }

  /** Within one epoch the tracker only moves forward. */
  lemma {:induction false} TrackerMovesForward(w: Worker, inputs: seq<Input>, limits: seq<Limits>, n: nat, g: Generation)
    requires |inputs| == |limits| && n <= |inputs| && Stale(w.lastGeneration, g)
    requires forall k: nat :: k < n && ChangesTracker(w, inputs, limits, k) ==>
               TrackLeft(inputs[k]).Some? && TrackLeft(inputs[k]).value.epoch == g.epoch
    ensures Stale(TrackedAfter(w, inputs, limits, n), g)
    decreases n
  {
    if n > 0 {
      TrackerMovesForward(w, inputs, limits, n - 1, g);
      TrackerStep(w, inputs, limits, n - 1);
      if ChangesTracker(w, inputs, limits, n - 1) {
        assert ObservesAt(w, inputs, limits, n - 1);
      }
      hide ObservesAt, ChangesTracker, AfterPolls;
    } else {
      assert inputs[..0] == [] && limits[..0] == [];
    }
  }

  /** With a generation the tracker has counted, the content of a failed insert is lost: whatever is read
      in between, without a restart or another epoch observed, no read of that generation reaches the policy. */
  lemma FailedInsertIsLost(w: Worker, c: Captured, l: Limits, inputs: seq<Input>, limits: seq<Limits>, k: nat)
    requires FailsAt(w, c, l) && |inputs| == |limits| && k < |inputs|
    requires c.generation.Some? && (Explicit(w, c) ==> Stale(w.lastGeneration, c.generation.value))
    requires inputs[k].Read? && inputs[k].c.generation == c.generation
    requires var w' := Next(w, Read(c), l);
             && !ExplicitAt(w', inputs, limits, k)
             && forall j: nat :: j < k && ChangesTracker(w', inputs, limits, j) ==>
                  TrackLeft(inputs[j]).Some? && TrackLeft(inputs[j]).value.epoch == c.generation.value.epoch
    ensures !Judged(FateAt(Next(w, Read(c), l), inputs, limits, k))
  {
    var w' := Next(w, Read(c), l);
    FailureLeaves(w, c, l);
    TrackerMovesForward(w', inputs, limits, k, c.generation.value);
    hide Next, AfterPolls;
  }

  // ----- The smallest runs

  /** A read of some content at time `at`, judged by `policy`, stored or not, asked for or not. */
  function Sample(generation: Option<Generation>, at: int, policy: Verdict, asked: bool, stored: bool): Captured {
    Captured(7, 0, generation, true, false, true, true, true, 10, at, asked, false, policy, stored)
  }

  const ROOMY: Limits := Limits(100, 100, 10, None, false)

  /** Without any generation: a recoverable skip commits the content, the re-grab the user asks for fails
      to insert, and the next plain read is taken for known content. */
  lemma FailedRegrabIsNotRetried()
    ensures var skip := Sample(None, 0, Skip(Reason(true, true)), false, true);
            var regrab := Sample(None, 1, Skip(Reason(true, true)), true, false);
            var again := Sample(None, 2, Capture(false), false, true);
            var w1 := Next(NewWorker, Read(skip), ROOMY);
            var w2 := Next(w1, Read(regrab), ROOMY);
            && Fated(NewWorker, Read(skip), ROOMY) == PolicySkip(Reason(true, true))
            && Fated(w1, Read(regrab), ROOMY) == Attempted(true, false, false)
            && Fated(w2, Read(again), ROOMY) == Unchanged
  {
  }

  /** Five failed reads restart the worker, and the content inserted before is inserted once more. */
  lemma RestartInsertsAgain()
    ensures var read := Sample(None, 0, Capture(false), false, true);
            var inputs := [Read(read), ReadFailed, ReadFailed, ReadFailed, ReadFailed, ReadFailed, Read(read)];
            var limits := [ROOMY, ROOMY, ROOMY, ROOMY, ROOMY, ROOMY, ROOMY];
            && FateAt(NewWorker, inputs, limits, 0) == FateAt(NewWorker, inputs, limits, 6) == Attempted(false, false, true)
            && RestartsAt(NewWorker, inputs, limits, 5)
  {
    var read := Sample(None, 0, Capture(false), false, true);
    var inputs := [Read(read), ReadFailed, ReadFailed, ReadFailed, ReadFailed, ReadFailed, Read(read)];
    var limits := [ROOMY, ROOMY, ROOMY, ROOMY, ROOMY, ROOMY, ROOMY];
    assert inputs[..0] == [] && limits[..0] == [];
    AfterOne(NewWorker, inputs, limits, 0);
    AfterOne(NewWorker, inputs, limits, 1);
    AfterOne(NewWorker, inputs, limits, 2);
    AfterOne(NewWorker, inputs, limits, 3);
    AfterOne(NewWorker, inputs, limits, 4);
    AfterOne(NewWorker, inputs, limits, 5);
    hide AfterPolls;
  }

  /** With a generation: one failed insert, then the same read. */
  lemma RetryFailsWithGeneration()
    ensures var c := Sample(Some(Generation(0, 1)), 0, Capture(false), false, false);
            && Fated(NewWorker, Read(c), ROOMY) == Attempted(false, false, false)
            && Fated(Next(NewWorker, Read(c), ROOMY), Read(c.(storeOk := true)), ROOMY) == StaleGeneration
  {
  }

  /** The same clipboard content met again by a later poll, with no re-grab asked for. */
  predicate SameContent(c: Captured, again: Captured) {
    again.hash == c.hash && again.generation == c.generation && again.intact && !again.recoveryRequested
  }

  /** Content too large to admit is not looked at again for five seconds, and is once they are over. */
  lemma ShedContentWaits(w: Worker, c: Captured, again: Captured, l: Limits, l': Limits)
    requires Fated(w, Read(c), l).TooLarge? || Fated(w, Read(c), l).Unpreviewable?
    requires !Explicit(w, c) && SameContent(c, again) && c.at <= again.at
    ensures var w' := Next(w, Read(c), l);
            && (Fated(w', Read(again), l').ShedWait? <==> again.at - c.at < SHED_RETRY_INTERVAL_MS)
            && (Judged(Fated(w', Read(again), l')) <==> again.at - c.at >= SHED_RETRY_INTERVAL_MS && c.generation.None?)
  {
  }

  // ----- What becomes of a read that reaches the policy

  /** The hard limit in force: the configured one, or what the memory sampler rejects if that is less. */
  function HardInForce(l: Limits): nat {
    if l.reject.Some? && l.reject.value < l.hard then l.reject.value else l.hard
  }

  function SoftInForce(l: Limits): nat {
    Max(if l.deferWork then Min(l.soft, HardInForce(l) / 2) else l.soft, 1)
  }

  /** A re-grab overrules the policy, and makes the clip memory-only, unless the content is a self-write,
      torn or not realized. Otherwise the policy decides whether the content is taken and where it goes. */
  lemma VerdictCarriedOut(w: Worker, c: Captured, l: Limits)
    requires Judged(Fated(w, Read(c), l))
    ensures var f := Fated(w, Read(c), l);
            var overruled := Explicit(w, c) && !c.selfWrite && !c.coherenceTorn && c.realized;
            && (f.PolicySkip? <==> !overruled && c.policy.Skip?) && (f.PolicySkip? ==> c.policy == Skip(f.reason))
            && (f.Unrealized? <==> (overruled || c.policy.Capture?) && !c.realizedAfterAction)
            && (f.Attempted? ==> (f.memoryOnly <==> overruled || c.policy == Capture(true)) && f.stored == c.storeOk)
            && (f.Attempted? && c.policy.Skip? ==> overruled && f.memoryOnly)
  {
    hide Explicit, Suppressed, Stale;
  }

  /** What is taken is inserted whole up to the soft limit, as a preview up to the hard limit if there is
      one, and not at all beyond. */
  lemma SizeDecides(w: Worker, c: Captured, l: Limits)
    requires var f := Fated(w, Read(c), l); Judged(f) && !f.PolicySkip? && !f.Unrealized?
    ensures var f := Fated(w, Read(c), l);
            var soft, hard := SoftInForce(l), Max(HardInForce(l), SoftInForce(l));
            && (f.TooLarge? <==> c.payload > hard)
            && (f.Unpreviewable? <==> soft < c.payload <= hard && !c.previewable)
            && (f.Attempted? && f.truncated <==> soft < c.payload <= hard && c.previewable)
            && (f.Attempted? && !f.truncated <==> c.payload <= soft)
  {
    hide Explicit, Suppressed, Stale;
  }

  // ----- What a re-grab refers to

  predicate SkipsAt(w: Worker, inputs: seq<Input>, limits: seq<Limits>, k: nat)
    requires |inputs| == |limits| && k < |inputs|
  {
    inputs[k].Read? && FateAt(w, inputs, limits, k).PolicySkip?
  }

  predicate ChangesSkip(w: Worker, inputs: seq<Input>, limits: seq<Limits>, k: nat)
    requires |inputs| == |limits| && k < |inputs|
  {
    RestartsAt(w, inputs, limits, k) || SkipsAt(w, inputs, limits, k)
  }

  function SkipAfter(w: Worker, inputs: seq<Input>, limits: seq<Limits>, n: nat): Option<Skipped>
    requires |inputs| == |limits| && n <= |inputs|
  {
    AfterPolls(w, inputs[..n], limits[..n]).latestSkip
  }

  /** What such a poll leaves to refer to. */
  function SkipLeft(w: Worker, inputs: seq<Input>, limits: seq<Limits>, k: nat): Option<Skipped>
    requires |inputs| == |limits| && k < |inputs|
  {
    if SkipsAt(w, inputs, limits, k) then
      var c := inputs[k].c;
      Some(Skipped(c.at, FateAt(w, inputs, limits, k).reason, c.provenance, c.generation, c.hash))
    else None
  }

  predicate LastSkip(w: Worker, inputs: seq<Input>, limits: seq<Limits>, n: nat, k: nat)
    requires |inputs| == |limits| && k < n <= |inputs|
  {
    ChangesSkip(w, inputs, limits, k) && forall j :: k < j < n ==> !ChangesSkip(w, inputs, limits, j)
  }

  lemma SkipStep(w: Worker, inputs: seq<Input>, limits: seq<Limits>, m: nat)
    requires |inputs| == |limits| && m < |inputs|
    ensures SkipAfter(w, inputs, limits, m + 1) ==
            if ChangesSkip(w, inputs, limits, m) then SkipLeft(w, inputs, limits, m) else SkipAfter(w, inputs, limits, m)
  {
    AfterOne(w, inputs, limits, m);
    hide AfterPolls, Fated;
  }

  lemma {:induction false} SkipIsLast(w: Worker, inputs: seq<Input>, limits: seq<Limits>, n: nat)
    requires |inputs| == |limits| && n <= |inputs|
    ensures || (SkipAfter(w, inputs, limits, n) == w.latestSkip && forall k: nat :: k < n ==> !ChangesSkip(w, inputs, limits, k))
            || (exists k: nat :: k < n && LastSkip(w, inputs, limits, n, k) &&
                                 SkipAfter(w, inputs, limits, n) == SkipLeft(w, inputs, limits, k))
    decreases n
  {
    if n > 0 {
      var m := n - 1;
      SkipIsLast(w, inputs, limits, m);
      SkipStep(w, inputs, limits, m);
      hide ChangesSkip, SkipLeft, AfterPolls;
      if ChangesSkip(w, inputs, limits, m) {
        assert LastSkip(w, inputs, limits, n, m);
      } else if k: nat :| k < m && LastSkip(w, inputs, limits, m, k) &&
                          SkipAfter(w, inputs, limits, m) == SkipLeft(w, inputs, limits, k) {
        assert LastSkip(w, inputs, limits, n, k);
      }
    } else {
      assert inputs[..0] == [] && limits[..0] == [];
    }
  }

  /** Poll `i` skipped, for a reason the user may override and at most thirty seconds before, exactly
      what poll `k` reads. */
  predicate Recalls(w: Worker, inputs: seq<Input>, limits: seq<Limits>, k: nat, i: nat)
    requires |inputs| == |limits| && i < k < |inputs| && inputs[k].Read?
  {
    && SkipsAt(w, inputs, limits, i) && FateAt(w, inputs, limits, i).reason.recoverable
    && inputs[k].c.at - inputs[i].c.at <= 30_000
    && inputs[i].c.hash == inputs[k].c.hash && inputs[i].c.provenance == inputs[k].c.provenance
    && inputs[i].c.generation == inputs[k].c.generation
  }

  /** In every run from the start a read counts as a re-grab if and only if the user asked and the last
      poll skipped by the policy since any restart is one it may override, of exactly this content. */
  lemma RegrabIffLastSkipRecalled(inputs: seq<Input>, limits: seq<Limits>, k: nat)
    requires |inputs| == |limits| && k < |inputs| && inputs[k].Read?
    ensures ExplicitAt(NewWorker, inputs, limits, k) <==>
            && inputs[k].c.recoveryRequested
            && exists i: nat :: i < k && LastSkip(NewWorker, inputs, limits, k, i) && Recalls(NewWorker, inputs, limits, k, i)
  {
    SkipIsLast(NewWorker, inputs, limits, k);
    hide AfterPolls, ChangesSkip, FateAt;
    if j: nat :| j < k && LastSkip(NewWorker, inputs, limits, k, j) {
      forall i: nat | i < k && LastSkip(NewWorker, inputs, limits, k, i) ensures i == j {
      }
    }
  }
}
