/** `squat_check`: is a port held by someone other than the launchd job? The
    re-check reads the listeners between two reads of the job. */
module SquatCheck {
  import opened Wrappers

  // ---------------------------------------------------------------- listeners

  const WILDCARDS := ["*", "::", "0.0.0.0", ""]
  const BLANKS := " \t\n\r"
  const BRACKETS := "[]"
  const LOCALHOST := ["127.0.0.1", "::1"]

  function StripLeft(s: string, drop: string): string {
    if s != "" && s[0] in drop then StripLeft(s[1..], drop) else s
  }

  function StripRight(s: string, drop: string): string {
    if s != "" && s[|s| - 1] in drop then StripRight(s[..|s| - 1], drop) else s
  }

  function Strip(s: string, drop: string): string { StripRight(StripLeft(s, drop), drop) }

  function Lower(s: string): string {
    seq(|s|, i requires 0 <= i < |s| => if 'A' <= s[i] <= 'Z' then (s[i] as nat + 32) as char else s[i])
  }

  /** `_norm`. */
  function Norm(addr: string): string { Lower(Strip(Strip(addr, BLANKS), BRACKETS)) }

  /** `addr.rsplit(":", 1)[0]`. */
  function BeforeLastColon(addr: string): string {
    if ':' !in addr then addr
    else if addr[|addr| - 1] == ':' then addr[..|addr| - 1]
    else BeforeLastColon(addr[..|addr| - 1])
  }

  /** `_matches`. */
  predicate Matches(addr: string, host: Option<string>) {
    if host == None then true
    else
      var base, want := Norm(BeforeLastColon(addr)), Norm(host.value);
      if want in WILDCARDS || base in WILDCARDS then true
      else if want == "localhost" then base in LOCALHOST
      else base == want
  }

  /** A listener, or a bind, on `name` takes connections to address `at`. */
  predicate Takes(name: string, at: string) {
    if name in WILDCARDS then true else if name == "localhost" then at in LOCALHOST else at == name
  }

  predicate Among(s: string, drop: string) { forall i :: 0 <= i < |s| ==> s[i] in drop }

  /** Nothing to strip at either end. */
  predicate Bare(s: string, drop: string) { s == "" || (s[0] !in drop && s[|s| - 1] !in drop) }

  lemma {:induction false} StripLeftOf(pre: string, s: string, drop: string)
    requires Among(pre, drop) && (s == "" || s[0] !in drop)
    ensures StripLeft(pre + s, drop) == s
  {
    if pre == "" {
      assert pre + s == s;
    } else {
      StripLeftOf(pre[1..], s, drop);
      assert (pre + s)[1..] == pre[1..] + s;
    }
  }

  lemma {:induction false} StripRightOf(s: string, post: string, drop: string)
    requires Among(post, drop) && (s == "" || s[|s| - 1] !in drop)
    ensures StripRight(s + post, drop) == s
  {
    if post == "" {
      assert s + post == s;
    } else {
      var n := |post| - 1;
      StripRightOf(s, post[..n], drop);
      assert (s + post)[..|s + post| - 1] == s + post[..n];
    }
  }

  lemma {:induction false} StripOfDropped(s: string, drop: string)
    requires Among(s, drop)
    ensures StripLeft(s, drop) == ""
  {
    if s != "" { StripOfDropped(s[1..], drop); }
  }

  lemma StripOf(pre: string, s: string, post: string, drop: string)
    requires Among(pre, drop) && Among(post, drop) && Bare(s, drop)
    ensures Strip(pre + s + post, drop) == s
  {
    if s == "" {
      assert pre + s + post == pre + post;
      StripOfDropped(pre + post, drop);
    } else {
      assert pre + s + post == pre + (s + post);
      StripLeftOf(pre, s + post, drop);
      StripRightOf(s, post, drop);
    }
  }

  /** A name may be written with brackets around it and blanks around those. */
  ghost predicate Writes(shown: string, name: string) {
    exists l1: string, l2: string, r2: string, r1: string :: Spelled(shown, l1, l2, name, r2, r1)
  }

  predicate Spelled(shown: string, l1: string, l2: string, name: string, r2: string, r1: string) {
    && Among(l1, BLANKS) && Among(l2, BRACKETS) && Among(r2, BRACKETS) && Among(r1, BLANKS)
    && shown == l1 + (l2 + name + r2) + r1
    && Bare(name, BRACKETS) && Bare(l2 + name + r2, BLANKS)
  }

  lemma NormOf(shown: string, name: string)
    requires Writes(shown, name)
    ensures Norm(shown) == Lower(name)
  {
    var l1, l2, r2, r1 :| Spelled(shown, l1, l2, name, r2, r1);
    StripOf(l1, l2 + name + r2, r1, BLANKS);
    StripOf(l2, name, r2, BRACKETS);
  }

  lemma {:induction false} ColonSplits(base: string, port: string)
    requires ':' !in port
    ensures BeforeLastColon(base + ":" + port) == base
  {
    var all := base + ":" + port;
    assert all[|base|] == ':';
    if port == "" {
      assert all[..|all| - 1] == base;
    } else {
      var n := |port| - 1;
      assert all[|all| - 1] == port[n];
      ColonSplits(base, port[..n]);
      assert all[..|all| - 1] == base + ":" + port[..n];
    }
  }

  predicate SameLetter(c: char, d: char) {
    || c == d
    || ('A' <= c <= 'Z' && d as int == c as int + 32)
    || ('A' <= d <= 'Z' && c as int == d as int + 32)
  }

  /** Two names are told apart exactly when they differ in more than case. */
  lemma CaseIgnored(a: string, b: string)
    ensures Lower(a) == Lower(b) <==> |a| == |b| && forall i :: 0 <= i < |a| ==> SameLetter(a[i], b[i])
  {
    if Lower(a) == Lower(b) {
      assert |a| == |Lower(a)| && |b| == |Lower(b)|;
      forall i | 0 <= i < |a|
        ensures SameLetter(a[i], b[i])
      {
        assert Lower(a)[i] == Lower(b)[i];
      }
    }
  }

  /** Some address is taken by both. */
  ghost predicate Clash(a: string, b: string) { exists at: string :: Takes(a, at) && Takes(b, at) }

  lemma ClashIff(a: string, b: string)
    requires a != "localhost"
    ensures Clash(a, b) <==>
              a in WILDCARDS || b in WILDCARDS || (if b == "localhost" then a in LOCALHOST else a == b)
  {
    if a in WILDCARDS {
      var at := if b == "localhost" then "::1" else b;
      assert Takes(a, at) && Takes(b, at);
    } else if b in WILDCARDS || a == b || (b == "localhost" && a in LOCALHOST) {
      assert Takes(a, a) && Takes(b, a);
    }
  }

  /** A listener line counts exactly when some address is taken both by its
      listener and by a bind to the host, however the two are written. The
      listener is numeric. */
  lemma MatchesIff(base: string, port: string, shown: string, a: string, b: string)
    requires ':' !in port && Writes(base, a) && Writes(shown, b) && Lower(a) != "localhost"
    ensures Matches(base + ":" + port, Some(shown)) <==> Clash(Lower(a), Lower(b))
    ensures Matches(base + ":" + port, None)
  {
    hide Writes, Clash, Norm, BeforeLastColon, Lower;
    ColonSplits(base, port);
    NormOf(base, a);
    NormOf(shown, b);
    ClashIff(Lower(a), Lower(b));
  }

  predicate IsPid(line: string) { line != "" && line[0] == 'p' }

  predicate IsName(line: string) { line != "" && line[0] == 'n' }

  /** The process that line `n` belongs to: the last one begun before it. */
  function Owner(lines: seq<string>, n: nat): Option<string>
    requires n <= |lines|
  {
    if n == 0 then None
    else if IsPid(lines[n - 1]) then Some(lines[n - 1][1..])
    else Owner(lines, n - 1)
  }

  /** Line `n` says that its process listens on the host or a wildcard. */
  predicate Says(lines: seq<string>, host: Option<string>, pid: string, n: nat) {
    n < |lines| && IsName(lines[n]) && Matches(lines[n][1..], host) && Owner(lines, n) == Some(pid)
  }

  ghost predicate Listens(lines: seq<string>, host: Option<string>, pid: string, upTo: nat) {
    exists n: nat :: n < upTo && Says(lines, host, pid, n)
  }

  ghost predicate NoTwice(pids: seq<string>) { forall i, j :: 0 <= i < j < |pids| ==> pids[i] != pids[j] }

  lemma NextLine(lines: seq<string>, host: Option<string>, n: nat, pid: string)
    requires n < |lines|
    ensures Listens(lines, host, pid, n + 1) <==> Listens(lines, host, pid, n) || Says(lines, host, pid, n)
  {
  }

  /** `_parse`: exactly the processes that listen there, each once. */
  method Parse(lines: seq<string>, host: Option<string>) returns (pids: seq<string>)
    ensures forall p: string :: p in pids <==> Listens(lines, host, p, |lines|)
    ensures NoTwice(pids)
  {
    pids := [];
    var cur: Option<string> := None;
    var any := false;
    for n := 0 to |lines|
      invariant cur == Owner(lines, n)
      invariant forall p: string :: Listens(lines, host, p, n) <==> p in pids || (any && cur == Some(p))
      invariant NoTwice(pids)
    {
      var line := lines[n];
      forall p: string
        ensures Listens(lines, host, p, n + 1) <==> Listens(lines, host, p, n) || Says(lines, host, p, n)
      {
        NextLine(lines, host, n, p);
      }
      if IsPid(line) {
        if cur.Some? && any && cur.value !in pids { pids := pids + [cur.value]; }
        cur, any := Some(line[1..]), false;
      } else if IsName(line) {
        any := any || Matches(line[1..], host);
      }
    }
    if cur.Some? && any && cur.value !in pids { pids := pids + [cur.value]; }
  }

  // ---------------------------------------------------------------- the check

  /** The `runs` of a `launchctl print` answer: `Unknown` when a running job
      shows none. */
  datatype Runs = NoRuns | Unknown | Count(n: nat)

  /** `pid` is empty when there is none. */
  datatype JobPrint = JobPrint(loaded: bool, pid: string, runs: Runs)

  /** `parse_print`: `pid` and `runs` as matched in the text; `None`: cannot tell. */
  function ParsePrint(rc: int, saysNotFound: bool, pid: Option<string>, runs: Option<nat>): Option<JobPrint> {
    if rc == 0 then
      Some(JobPrint(true, if pid.Some? then pid.value else "",
                    if runs.Some? then Count(runs.value) else if pid.Some? && pid.value != "" then Unknown else NoRuns))
    else if rc == 113 || saysNotFound then Some(JobPrint(false, "", NoRuns))
    else None
  }

  datatype Finding = Fine | Held | Idle

  /** `_finding`: held by another process, or by someone while the job is idle. */
  function Classify(listeners: seq<string>, pid: string): Finding {
    if listeners == [] then Fine
    else if pid != "" then (if exists i :: 0 <= i < |listeners| && listeners[i] != pid then Held else Fine)
    else Idle
  }

  datatype Verdict = Quiet | CannotTell | Warned(pids: seq<string>)

  /** What the second pass reads: the job, the listeners, the job again. `None`:
      the read failed. */
  datatype Recheck = Recheck(job: Option<JobPrint>, listeners: Option<seq<string>>, after: Option<JobPrint>)

  function Others(listeners: seq<string>, pid: string): seq<string> {
    if listeners == [] then []
    else
      var last := listeners[|listeners| - 1];
      Others(listeners[..|listeners| - 1], pid) + if last != pid then [last] else []
  }

  lemma {:induction false} OthersAre(listeners: seq<string>, pid: string)
    ensures forall p :: p in Others(listeners, pid) <==> p in listeners && p != pid
  {
    if listeners != [] {
      var n := |listeners| - 1;
      OthersAre(listeners[..n], pid);
      assert listeners == listeners[..n] + [listeners[n]];
    }
  }

  /** A warning names the listeners that are not the job's process. */
  ghost predicate Names(pids: seq<string>, listeners: seq<string>, pid: string) {
    pids != [] && forall p :: p in pids <==> p in listeners && (pid == "" || p != pid)
  }

  /** The two reads of the job agree, and its spawn counter was read in both. */
  predicate Bracketed(r: Recheck) {
    && r.job.Some? && r.after.Some? && r.job.value.loaded && r.after.value.loaded
    && r.after.value.pid == r.job.value.pid
    && r.job.value.runs.Count? && r.after.value.runs == r.job.value.runs
  }

  /** An answer without a spawn counter, running or not, never confirms a warning:
      neither an unknown nor a missing counter compares as unchanged. */
  lemma NoCounterNoWarning(r: Recheck, rc: int, saysNotFound: bool, pid: Option<string>)
    requires r.job == ParsePrint(rc, saysNotFound, pid, None) || r.after == ParsePrint(rc, saysNotFound, pid, None)
    ensures !Bracketed(r)
  {
  }

  /** Somebody listens who is not the job's process. */
  ghost predicate Stranger(listeners: seq<string>, pid: string) {
    exists p :: p in listeners && (pid == "" || p != pid)
  }

  /** The job's process as of the second pass. */
  function JobPid(pid0: string, labelled: bool, second: Recheck): string {
    if labelled && second.job.Some? then second.job.value.pid else pid0
  }

  /** The job was seen unloaded in the second pass. */
  predicate SeenUnloaded(second: Recheck) {
    (second.job.Some? && !second.job.value.loaded) || (second.after.Some? && !second.after.value.loaded)
  }

  /** The second pass found a stranger, with a label between two equal reads. */
  ghost predicate Confirmed(pid0: string, labelled: bool, second: Recheck) {
    && (labelled ==> Bracketed(second))
    && second.listeners.Some? && Stranger(second.listeners.value, JobPid(pid0, labelled, second))
  }

  lemma FindingIs(listeners: seq<string>, pid: string)
    ensures Classify(listeners, pid) != Fine <==> Stranger(listeners, pid)
  {
    if listeners != [] {
      assert listeners[0] in listeners;
      if i :| 0 <= i < |listeners| && listeners[i] != pid {
        assert listeners[i] in listeners;
      } else {
        forall p | p in listeners
          ensures p == pid
        {
          var i :| 0 <= i < |listeners| && listeners[i] == p;
        }
      }
    }
  }

  /** `check`, given its readings; `labelled`: it was given the job's label. It
      warns exactly when both passes find a stranger. It is quiet only when a read cleared
      the finding. */
  method Check(pid0: string, loaded: bool, labelled: bool, first: Option<seq<string>>, second: Recheck)
      returns (v: Verdict)
    ensures v.Warned? <==> loaded && first.Some? && Stranger(first.value, pid0) && Confirmed(pid0, labelled, second)
    ensures v.Warned? ==> Names(v.pids, second.listeners.value, JobPid(pid0, labelled, second))
    ensures !loaded || (first.Some? && !Stranger(first.value, pid0)) ==> v == Quiet
    ensures v == Quiet && loaded && (first.Some? ==> Stranger(first.value, pid0)) ==>
              (labelled && SeenUnloaded(second))
              || (second.listeners.Some? && !Stranger(second.listeners.value, JobPid(pid0, labelled, second)))
  {
    var pid := pid0;
    if !loaded { return Quiet; }
    if first == None { return CannotTell; }
    FindingIs(first.value, pid0);
    var kind := Classify(first.value, pid);
    if kind == Fine { return Quiet; }
    var pidCurrent := true;
    var runs := NoRuns;
    if labelled {
      if second.job == None { pidCurrent := false; }
      else {
        if !second.job.value.loaded { return Quiet; }
        pid, runs := second.job.value.pid, second.job.value.runs;
      }
    }
    if second.listeners == None { return CannotTell; }
    var listeners := second.listeners.value;
    FindingIs(listeners, pid);
    kind := Classify(listeners, pid);
    if kind == Fine { return Quiet; }
    if !pidCurrent { return CannotTell; }
    if labelled {
      if second.after.Some? && !second.after.value.loaded { return Quiet; }
      if second.after == None || second.after.value.pid != pid || !runs.Count? || second.after.value.runs != runs {
        return CannotTell;
      }
    }
    OthersAre(listeners, pid);
    if kind == Held {
      var i :| 0 <= i < |listeners| && listeners[i] != pid;
      assert listeners[i] in Others(listeners, pid);
      v := Warned(Others(listeners, pid));
    } else {
      v := Warned(listeners);
    }
  }

  // ---------------------------------------------------------------- the timeline

  /** launchd and the port at one instant; `pid` is empty when the job is not
      running, `listening` holds every process listening there. */
  datatype Instant = Instant(loaded: bool, pid: string, runs: nat, listening: set<string>)

  /** While the job stays loaded its spawn counter moves on every start and never
      back. A load begins a new counter, and an unloaded job has no process. */
  predicate Moves(a: Instant, b: Instant) {
    && (!b.loaded ==> b.pid == "")
    && (a.loaded && b.loaded ==> a.runs <= b.runs && (b.pid != a.pid && b.pid != "" ==> a.runs < b.runs))
    && (!a.loaded && b.loaded && b.pid != "" ==> b.runs > 0)
  }

  ghost predicate Timeline(tl: seq<Instant>) { forall t :: 0 <= t < |tl| - 1 ==> Moves(tl[t], tl[t + 1]) }

  /** The job is loaded anew between two instants. */
  ghost predicate Reloaded(tl: seq<Instant>, a: nat, b: nat)
    requires b < |tl|
  {
    exists t :: a <= t < b && !tl[t].loaded && tl[t + 1].loaded
  }

  predicate PrintFits(i: Instant, j: JobPrint) {
    if i.loaded then j.loaded && j.pid == i.pid && (j.runs.Count? ==> j.runs.n == i.runs) else !j.loaded
  }

  predicate LsofFits(i: Instant, listeners: seq<string>) { forall p :: p in listeners ==> p in i.listening }

  /** The second pass read the job at `t1`, the listeners at `t2` and the job again
      at `t3`, and the warning named `pids`. */
  ghost predicate Read(tl: seq<Instant>, t1: nat, t2: nat, t3: nat, second: Recheck, pids: seq<string>) {
    && Timeline(tl) && t1 <= t2 <= t3 < |tl|
    && second.listeners.Some? && Bracketed(second) && Names(pids, second.listeners.value, second.job.value.pid)
    && PrintFits(tl[t1], second.job.value) && LsofFits(tl[t2], second.listeners.value)
    && PrintFits(tl[t3], second.after.value)
  }

  /** With no load between them, two loaded instants with the same counter: the job
      was loaded throughout, and kept its process or only lost it. */
  lemma {:induction false} NothingStarted(tl: seq<Instant>, a: nat, b: nat)
    requires Timeline(tl) && a <= b < |tl| && !Reloaded(tl, a, b) && tl[b].loaded && tl[a].runs == tl[b].runs
    ensures forall t :: a <= t <= b ==> tl[t].loaded && (tl[t].pid == tl[a].pid || tl[t].pid == "")
    ensures forall t :: a <= t <= b && tl[t].pid == "" ==> tl[b].pid == ""
    decreases b - a
  {
    if a < b {
      assert Moves(tl[b - 1], tl[b]);
      RunsGrow(tl, a, b - 1);
      NothingStarted(tl, a, b - 1);
    }
  }

  lemma {:induction false} RunsGrow(tl: seq<Instant>, a: nat, b: nat)
    requires Timeline(tl) && a <= b < |tl| && !Reloaded(tl, a, b) && tl[b].loaded
    ensures tl[a].loaded && tl[a].runs <= tl[b].runs
    decreases b - a
  {
    if a < b {
      assert Moves(tl[b - 1], tl[b]);
      RunsGrow(tl, a, b - 1);
    }
  }

  /** Soundness: a warning given with a label means that at the second listener
      read the job was loaded, and every process that the warning names was
      listening there and was not the job's, whatever restarts between the reads
      (and whatever loads before and after them). */
  lemma WarningsAreSound(tl: seq<Instant>, t1: nat, t2: nat, t3: nat, second: Recheck, pids: seq<string>)
    requires Read(tl, t1, t2, t3, second, pids) && !Reloaded(tl, t1, t3)
    ensures tl[t2].loaded && pids != []
    ensures forall p :: p in pids ==> p in tl[t2].listening && (tl[t2].pid == "" || p != tl[t2].pid)
  {
    NothingStarted(tl, t1, t3);
  }

  /** And a load between the reads can make any warning wrong: whatever was read
      and named, there is a timeline in which it was the job's own process. */
  lemma ReloadHidesTheJob(second: Recheck, pids: seq<string>) returns (tl: seq<Instant>)
    requires second.listeners.Some? && Bracketed(second) && Names(pids, second.listeners.value, second.job.value.pid)
    requires "" !in second.listeners.value && (second.job.value.pid != "" ==> second.job.value.runs.n > 0)
    ensures |tl| == 5 && Read(tl, 0, 2, 4, second, pids) && Reloaded(tl, 0, 4)
    ensures tl[2].loaded && tl[2].pid == pids[0]
  {
    var job := second.job.value;
    assert pids[0] in pids;
    var listening := set p | p in second.listeners.value;
    tl := [Instant(true, job.pid, job.runs.n, {}), Instant(false, "", 0, {}), Instant(true, pids[0], 1, listening),
           Instant(false, "", 0, {}), Instant(true, job.pid, job.runs.n, {})];
    assert !tl[1].loaded && tl[2].loaded;
  }
}
