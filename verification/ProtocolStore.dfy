/** The file behind the protocol: its commits are the store's, and what a crash leaves behind is
    what a restart may find. */
module ProtocolStore {
  import opened Common
  import opened Records
  import opened StoreSteps
  import opened Disk
  import opened StoreRuns
  import opened Protocol

  function Restorable(s: Store): set<Data> { {s.data} + s.others }

  function CallOf(a: Attempt, writes: Option<Operation>): Call {
    Call(Ok(a.next), if a.failAt >= STEPS then Works else Broken, writes)
  }

  lemma CommitIsACall(s: Store, a: Attempt, writes: Option<Operation>)
    ensures var t := StoreRuns.Commit(s, a);
            t.data == NextData(s.data, CallOf(a, writes)) && Restorable(t) == NextRestorable(Restorable(s), CallOf(a, writes))
  {
  }

  /** What a successful Open leaves to be brought back. */
  lemma OpeningKeeps(d: Directory, now: int)
    requires WellFormed(d)
    ensures Found(d) in Kept(d)
    ensures Restorable(Opened(d, now)) == if Rewrites(Found(d), now) then {Reopened(Found(d), now)} else Kept(d)
  {
    FoundIsKept(d);
    OneMore(Found(d), Kept(d));
    OneMore(Reopened(Found(d), now), {});
  }

  lemma OneMore(d: Data, more: set<Data>)
    ensures d in more ==> {d} + more == more
    ensures more == {} ==> {d} + more == {d}
  {
  }

  /** A crash at any system call of any commit, of the process or of the machine, and the Open after
      it are a broken call and a restart of the protocol: same memory, same states that a further
      crash may bring back. */
  lemma CrashIsARestart(s: Store, crash: Crash, now: int, writes: Option<Operation>) returns (found: Data, left: set<Data>)
    requires Sound(s) && Possible(s, crash)
    ensures found in left && left <= NextRestorable(Restorable(s), Call(Ok(crash.next), Broken, writes))
    ensures var t := Opened(Crashed(s, crash), now);
            && Sound(t) && t.data == Reopened(found, now)
            && Restorable(t) == if Rewrites(found, now) then {t.data} else left
  {
    var d := Crashed(s, crash);
    CrashKeeps(s, crash);
    found, left := Found(d), Kept(d);
    KeptIsRestorable(s, crash.next, left, writes);
    OpeningKeeps(d, now);
    assert Sound(Opened(d, now)) by { OpenedIsSound(d, now); }
  }

  lemma KeptIsRestorable(s: Store, next: Data, left: set<Data>, writes: Option<Operation>)
    requires left <= {s.data, next} + s.others
    ensures left <= NextRestorable(Restorable(s), Call(Ok(next), Broken, writes))
  {
    var all := NextRestorable(Restorable(s), Call(Ok(next), Broken, writes));
    assert all == Restorable(s) + {next};
  }

  lemma OneAttempt(files: set<Data>, r: Reopening, kept: set<Data>, left: set<Data>)
    requires r.found in kept && kept <= files && left <= kept + {Trimmed(r.found), Reopened(r.found, r.now)}
    ensures CanFail(files, [r]) && left <= Files(files, [r])
  {
    assert [r][1..] == [] && Files(Attempted(files, r), []) == Attempted(files, r);
  }

  /** A failed Open leaves only files that the protocol's restarts reckon with. */
  lemma FailedOpenIsAnAttempt(files: set<Data>, d: Directory, now: int, left: Directory)
    requires WellFormed(d) && Kept(d) <= files && Kept(left) <= Kept(d) + {Trimmed(Found(d)), Reopened(Found(d), now)}
    ensures var failed := [Reopening(Found(d), now)]; CanFail(files, failed) && Kept(left) <= Files(files, failed)
  {
    FoundIsKept(d);
    OneAttempt(files, Reopening(Found(d), now), Kept(d), Kept(left));
  }
}
