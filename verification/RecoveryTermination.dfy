/** When may a recovery Job and its Pods be certified as terminated?
    Models recoveryTermination, terminatedPod and the paged listing they read. */
module RecoveryTermination {
  import opened Basics

  const MAX_LISTED := 1024

  // ---------------------------------------------------------------- paged LIST

  /** One answer of the API server to a LIST request. */
  datatype Reply<T> = ListFailed | Page(items: seq<T>, next: string)

  /** The items of all pages from request `n` on, or None when a page fails, the
      budget is exceeded, or a non-final page is empty or repeats its cursor. */
  function Listing<T>(server: nat -> Reply<T>, n: nat, cursor: string, budget: nat): (r: Option<seq<T>>)
    ensures r.Some? ==> |r.value| <= budget
    decreases budget
  {
    match server(n)
    case ListFailed => None
    case Page(items, next) =>
      if |items| > budget then None
      else if next == "" then Some(items)
      else if next == cursor || items == [] then None
      else
        match Listing(server, n + 1, next, budget - |items|)
        case None => None
        case Some(rest) => Some(items + rest)
  }

  /** All items of pages first..last. */
  ghost function Pages<T>(server: nat -> Reply<T>, first: nat, last: nat): seq<T>
    decreases last - first
  {
    if first > last || server(first).ListFailed? then []
    else server(first).items + Pages(server, first + 1, last)
  }

  /** Pages first..last are a gap-free chain ending in the page without a cursor. */
  ghost predicate WholeChain<T>(server: nat -> Reply<T>, first: nat, last: nat)
  {
    && first <= last
    && (forall k :: first <= k <= last ==> server(k).Page?)
    && server(last).next == ""
    && (forall k :: first <= k < last ==> server(k).next != "")
  }

  /** A listing that is accepted is never a partial one. */
  lemma {:induction false} AcceptedListingIsWhole<T>(server: nat -> Reply<T>, n: nat, cursor: string, budget: nat)
    returns (last: nat)
    requires Listing(server, n, cursor, budget).Some?
    ensures WholeChain(server, n, last)
    ensures Listing(server, n, cursor, budget).value == Pages(server, n, last)
    decreases budget
  {
    var page := server(n);
    if page.next == "" {
      last := n;
      assert Pages(server, n + 1, n) == [];
      assert page.items + [] == page.items;
    } else {
      last := AcceptedListingIsWhole(server, n + 1, page.next, budget - |page.items|);
    }
  }

  /** Page k brings items and a cursor other than the one it was asked with. */
  ghost predicate MovesOn<T>(server: nat -> Reply<T>, k: nat, cursor: string) {
    server(k).Page? && server(k).items != [] && server(k).next != cursor
  }

  /** The cursor that page k is asked with, if page `first` is asked with this one. */
  ghost function CursorOf<T>(server: nat -> Reply<T>, first: nat, k: nat, cursor: string): string {
    if k <= first || !server(k - 1).Page? then cursor else server(k - 1).next
  }

  ghost predicate Moves<T>(server: nat -> Reply<T>, first: nat, last: nat, cursor: string) {
    forall k: nat :: first <= k < last ==> MovesOn(server, k, CursorOf(server, first, k, cursor))
  }

  /** A whole chain within the budget is never refused. */
  lemma {:induction false} WholeListingIsAccepted<T>(server: nat -> Reply<T>, n: nat, cursor: string, budget: nat, last: nat)
    requires WholeChain(server, n, last) && Moves(server, n, last, cursor) && |Pages(server, n, last)| <= budget
    ensures Listing(server, n, cursor, budget) == Some(Pages(server, n, last))
    decreases last - n
  {
    var page := server(n);
    if n == last {
      assert Pages(server, n + 1, n) == [] && page.items + [] == page.items;
    } else {
      assert MovesOn(server, n, CursorOf(server, n, n, cursor));
      var second := n + 1;
      forall k: nat | second <= k < last ensures MovesOn(server, k, CursorOf(server, second, k, page.next)) {
        assert MovesOn(server, k, CursorOf(server, n, k, cursor));
      }
      WholeListingIsAccepted(server, n + 1, page.next, budget - |page.items|, last);
    }
  }

  /** visitRecoveryObjects: read pages until the server returns no cursor. */
  method VisitAll<T>(server: nat -> Reply<T>) returns (r: Option<seq<T>>)
    ensures r == Listing(server, 0, "", MAX_LISTED)
  {
    var cursor, n, items: seq<T> := "", 0, [];
    ghost var all := Listing(server, 0, "", MAX_LISTED);
    assert all.Some? ==> items + all.value == all.value;
    while true
      invariant |items| <= MAX_LISTED
      invariant Listing(server, 0, "", MAX_LISTED) ==
                match Listing(server, n, cursor, MAX_LISTED - |items|)
                case None => None
                case Some(rest) => Some(items + rest)
      decreases MAX_LISTED - |items|
    {
      var page := server(n);
      if page.ListFailed? {
        return None;
      }
      if |items| + |page.items| > MAX_LISTED {
        return None;
      }
      if page.next == "" {
        return Some(items + page.items);
      }
      if page.next == cursor || page.items == [] {
        return None;
      }
      ghost var rest := Listing(server, n + 1, page.next, MAX_LISTED - |items| - |page.items|);
      assert rest.Some? ==> items + (page.items + rest.value) == (items + page.items) + rest.value;
      items, cursor, n := items + page.items, page.next, n + 1;
    }
  }

  // ---------------------------------------------------------------- Pods

  datatype Termination = Termination(exitCode: int, finished: bool, reason: string)
  datatype ContainerStatus = ContainerStatus(name: string, containerID: string, terminated: Option<Termination>)

  datatype Pod = Pod(
    decodes: bool,
    operation: string,              // the recovery annotation, "" when absent
    uid: string,
    resourceVersion: string,
    controller: Option<string>,     // UID of the controlling owner
    deleting: bool,
    phase: string,
    reason: string,
    containers: seq<string>, statuses: seq<ContainerStatus>,
    initContainers: seq<string>, initStatuses: seq<ContainerStatus>,
    ephemeral: seq<string>, ephemeralStatuses: seq<ContainerStatus>)

  predicate Ended(s: ContainerStatus) {
    && s.terminated.Some?
    && s.terminated.value.finished
    && s.containerID != ""
    && s.terminated.value.reason !in ["ContainerStatusUnknown", "Unknown", "NodeLost"]
  }

  /** Every declared container has its own reliable terminal status. */
  ghost predicate AllEnded(names: seq<string>, statuses: seq<ContainerStatus>) {
    && |names| == |statuses|
    && (forall s :: s in statuses ==> Ended(s))
    && (forall i, j :: 0 <= i < j < |statuses| ==> statuses[i].name != statuses[j].name)
    && (forall n :: n in names ==> exists s :: s in statuses && s.name == n)
  }

  ghost predicate PodEnded(p: Pod) {
    && !p.deleting
    && (p.phase == "Succeeded" || p.phase == "Failed")
    && p.reason !in ["NodeLost", "Shutdown", "Evicted"]
    && (p.phase == "Succeeded" ==>
          forall s :: s in p.statuses ==> s.terminated.Some? && s.terminated.value.exitCode == 0)
    && AllEnded(p.containers, p.statuses)
    && AllEnded(p.initContainers, p.initStatuses)
    && AllEnded(p.ephemeral, p.ephemeralStatuses)
  }

  ghost function StatusNames(statuses: seq<ContainerStatus>): seq<string> {
    seq(|statuses|, i requires 0 <= i < |statuses| => statuses[i].name)
  }

  /** A reliable end: finished, under a container ID, and not for a lost node. */
  ghost predicate ReliableEnd(s: ContainerStatus) {
    match s.terminated
    case None => false
    case Some(t) =>
      && t.finished && s.containerID != ""
      && t.reason != "ContainerStatusUnknown" && t.reason != "Unknown" && t.reason != "NodeLost"
  }

  /** Every declared container is reported once, with a reliable end, and nothing else is. */
  ghost predicate EachEnded(names: seq<string>, statuses: seq<ContainerStatus>) {
    && |names| == |statuses| && Distinct(StatusNames(statuses)) && Elements(names) <= Elements(StatusNames(statuses))
    && forall k :: 0 <= k < |statuses| ==> ReliableEnd(statuses[k])
  }

  lemma EachEndedIs(names: seq<string>, statuses: seq<ContainerStatus>)
    ensures EachEnded(names, statuses) <==> AllEnded(names, statuses)
  {
    var reported := StatusNames(statuses);
    assert forall k :: 0 <= k < |statuses| ==> reported[k] == statuses[k].name && (ReliableEnd(statuses[k]) <==> Ended(statuses[k]));
    if AllEnded(names, statuses) {
      forall k | 0 <= k < |statuses| ensures ReliableEnd(statuses[k]) {
        assert statuses[k] in statuses;
      }
      forall n | n in names ensures n in reported {
        var s :| s in statuses && s.name == n;
        var k :| 0 <= k < |statuses| && statuses[k] == s;
        assert reported[k] == n;
      }
    }
    if EachEnded(names, statuses) {
      forall n | n in names ensures exists s :: s in statuses && s.name == n {
        assert n in Elements(names);
        var k :| 0 <= k < |reported| && reported[k] == n;
        assert statuses[k] in statuses;
      }
      forall i, j | 0 <= i < j < |statuses| ensures statuses[i].name != statuses[j].name {
        assert reported[i] != reported[j];
      }
    }
  }

  /** With distinct declared names the test means: the reported containers are exactly the
      declared ones, each reported once with a reliable end. No undeclared container can stand
      in for a missing one. */
  lemma AllEndedIsExact(names: seq<string>, statuses: seq<ContainerStatus>)
    requires Distinct(names)
    ensures AllEnded(names, statuses) <==>
              && Distinct(StatusNames(statuses)) && Elements(StatusNames(statuses)) == Elements(names)
              && forall k :: 0 <= k < |statuses| ==> ReliableEnd(statuses[k])
  {
    EachEndedIs(names, statuses);
    DistinctCardinality(names);
    DistinctCardinality(StatusNames(statuses));
    if EachEnded(names, statuses) {
      SubsetOfEqualSize(Elements(names), Elements(StatusNames(statuses)));
    }
  }

  /** The Pod has come to an end that can be relied on. */
  ghost predicate Terminal(p: Pod) {
    && !p.deleting && (p.phase == "Succeeded" || p.phase == "Failed")
    && p.reason != "NodeLost" && p.reason != "Shutdown" && p.reason != "Evicted"
    && EachEnded(p.containers, p.statuses) && EachEnded(p.initContainers, p.initStatuses) && EachEnded(p.ephemeral, p.ephemeralStatuses)
    && (p.phase == "Failed" || forall k :: 0 <= k < |p.statuses| ==> p.statuses[k].terminated.Some? && p.statuses[k].terminated.value.exitCode == 0)
  }

  lemma PodEndedMeans(p: Pod)
    ensures PodEnded(p) <==> Terminal(p)
  {
    EachEndedIs(p.containers, p.statuses);
    EachEndedIs(p.initContainers, p.initStatuses);
    EachEndedIs(p.ephemeral, p.ephemeralStatuses);
    assert |"Succeeded"| != |"Failed"|;
    forall s | s in p.statuses ensures exists k :: 0 <= k < |p.statuses| && p.statuses[k] == s {
    }
    forall k | 0 <= k < |p.statuses| ensures p.statuses[k] in p.statuses {
    }
  }

  /** The check closure of terminatedPod. */
  method CheckContainers(names: seq<string>, statuses: seq<ContainerStatus>) returns (ok: bool)
    ensures ok <==> AllEnded(names, statuses)
  {
    if |names| != |statuses| {
      return false;
    }
    var seen: set<string> := {};
    for i := 0 to |statuses|
      invariant forall k :: 0 <= k < i ==> Ended(statuses[k])
      invariant forall a, b :: 0 <= a < b < i ==> statuses[a].name != statuses[b].name
      invariant forall k :: 0 <= k < i ==> statuses[k].name in seen
      invariant forall n :: n in seen ==> exists k :: 0 <= k < i && statuses[k].name == n
    {
      var s := statuses[i];
      if !Ended(s) || s.name in seen {
        assert s in statuses;
        return false;
      }
      seen := seen + {s.name};
    }
    for i := 0 to |names|
      invariant forall k :: 0 <= k < i ==> names[k] in seen
    {
      if names[i] !in seen {
        assert forall s :: s in statuses ==> s.name in seen;
        assert names[i] in names;
        return false;
      }
    }
    forall n | n in names ensures exists s :: s in statuses && s.name == n {
      var k :| 0 <= k < |statuses| && statuses[k].name == n;
      assert statuses[k] in statuses;
    }
    return true;
  }

  /** terminatedPod. */
  method TerminatedPod(p: Pod) returns (ok: bool)
    ensures ok <==> PodEnded(p)
  {
    if p.deleting || (p.phase != "Succeeded" && p.phase != "Failed")
       || p.reason == "NodeLost" || p.reason == "Shutdown" || p.reason == "Evicted" {
      return false;
    }
    if p.phase == "Succeeded" {
      for i := 0 to |p.statuses|
        invariant forall k :: 0 <= k < i ==>
                    p.statuses[k].terminated.Some? && p.statuses[k].terminated.value.exitCode == 0
      {
        if p.statuses[i].terminated.None? || p.statuses[i].terminated.value.exitCode != 0 {
          assert p.statuses[i] in p.statuses;
          return false;
        }
      }
    }
    ok := CheckContainers(p.containers, p.statuses);
    if ok {
      ok := CheckContainers(p.initContainers, p.initStatuses);
    }
    if ok {
      ok := CheckContainers(p.ephemeral, p.ephemeralStatuses);
    }
  }

  // ---------------------------------------------------------------- the Job

  datatype Condition = Condition(kind: string, status: string)

  datatype Job = Job(
    decodes: bool,
    operation: string,              // annotation of the Pod template
    uid: string,
    controller: Option<string>,
    deleting: bool,
    conditions: seq<Condition>,
    active: int, succeeded: int, failed: int,
    parallelism: Option<int>, completions: Option<int>,
    uncounted: nat)                 // uncounted terminated Pods, both kinds

  /** Outcome of one termination pass: an error, "not yet", or a certificate. */
  datatype Verdict = Refused | Waiting | Certified(job: string, pods: seq<string>)

  ghost predicate Reports(j: Job, kind: string) {
    Condition(kind, "True") in j.conditions
  }

  ghost predicate Settled(j: Job) {
    && j.uid != "" && j.active == 0 && j.succeeded == 1
    && j.parallelism == Some(1) && j.completions == Some(1)
    && j.uncounted == 0
  }

  ghost function JobsOf(jobs: seq<Job>, op: string): seq<Job> {
    if jobs == [] then []
    else JobsOf(jobs[..|jobs| - 1], op)
         + if jobs[|jobs| - 1].operation == op then [jobs[|jobs| - 1]] else []
  }

  ghost function PodsOf(pods: seq<Pod>, op: string): seq<Pod> {
    if pods == [] then []
    else PodsOf(pods[..|pods| - 1], op)
         + if pods[|pods| - 1].operation == op then [pods[|pods| - 1]] else []
  }

  ghost function Uids(pods: seq<Pod>): seq<string> {
    seq(|pods|, i requires 0 <= i < |pods| => pods[i].uid)
  }

  ghost function CountPhase(pods: seq<Pod>, succeeded: bool): nat {
    if pods == [] then 0
    else CountPhase(pods[..|pods| - 1], succeeded)
         + if (pods[|pods| - 1].phase == "Succeeded") == succeeded then 1 else 0
  }

  /** The Pod's listed version is not the one the watch has delivered. */
  ghost predicate Lagging(p: Pod, observed: map<string, string>) {
    p.uid !in observed || observed[p.uid] != p.resourceVersion
  }

  ghost predicate JobsFaulty(jobs: seq<Job>, op: string, cluster: string) {
    || (exists j :: j in jobs && !j.decodes)
    || (exists j :: j in jobs && j.operation == op && (j.controller != Some(cluster) || j.deleting))
    || |JobsOf(jobs, op)| > 1
  }

  ghost predicate PodFaulty(p: Pod, job: string, observed: map<string, string>) {
    !p.decodes || (!Lagging(p, observed) && (p.controller != Some(job) || !PodEnded(p)))
  }

  ghost function PodsVerdict(j: Job, pods: seq<Pod>, observed: map<string, string>): Verdict {
    if exists p :: p in pods && PodFaulty(p, j.uid, observed) then Refused
    else if exists p :: p in pods && Lagging(p, observed) then Waiting
    else if |pods| != |observed| || CountPhase(pods, true) != 1 || CountPhase(pods, false) != j.failed then Refused
    else Certified(j.uid, Sorted(Uids(pods)))
  }

  ghost function JobVerdict(j: Job, pods: seq<Pod>, op: string, observed: map<string, string>): Verdict {
    if Reports(j, "Failed") then Refused
    else if !Reports(j, "Complete") then Waiting
    else if !Settled(j) then Refused
    else PodsVerdict(j, PodsOf(pods, op), observed)
  }

  /** The decision as one case analysis over whole listings. */
  ghost function Assess(jobs: seq<Job>, pods: seq<Pod>, op: string, cluster: string, observed: map<string, string>): Verdict {
    if JobsFaulty(jobs, op, cluster) then Refused
    else if JobsOf(jobs, op) == [] then (if observed.Keys == {} then Waiting else Refused)
    else JobVerdict(JobsOf(jobs, op)[0], pods, op, observed)
  }

  lemma {:induction false} PodsOfMembers(pods: seq<Pod>, op: string)
    ensures forall p :: p in PodsOf(pods, op) <==> p in pods && p.operation == op
  {
    if pods != [] {
      var n := |pods| - 1;
      PodsOfMembers(pods[..n], op);
      assert pods == pods[..n] + [pods[n]];
    }
  }

  lemma {:induction false} JobsOfMembers(jobs: seq<Job>, op: string)
    ensures forall j :: j in JobsOf(jobs, op) <==> j in jobs && j.operation == op
  {
    if jobs != [] {
      var n := |jobs| - 1;
      JobsOfMembers(jobs[..n], op);
      assert jobs == jobs[..n] + [jobs[n]];
    }
  }

  lemma {:induction false} JobsOfGrows(jobs: seq<Job>, k: nat, op: string)
    requires k <= |jobs|
    ensures |JobsOf(jobs[..k], op)| <= |JobsOf(jobs, op)|
  {
    if k < |jobs| {
      var n := |jobs| - 1;
      JobsOfGrows(jobs[..n], k, op);
      assert jobs[..n][..k] == jobs[..k];
    } else {
      assert jobs[..k] == jobs;
    }
  }

  /** The Job half: the unique matching Job, absence, or a refusal. */
  method FindJob(jobs: seq<Job>, op: string, cluster: string) returns (ok: bool, job: Option<Job>)
    ensures ok <==> !JobsFaulty(jobs, op, cluster)
    ensures ok ==> JobsOf(jobs, op) == match job case None => [] case Some(j) => [j]
  {
    job := None;
    for i := 0 to |jobs|
      invariant forall k :: 0 <= k < i ==> jobs[k].decodes
      invariant forall k :: 0 <= k < i && jobs[k].operation == op ==>
                  jobs[k].controller == Some(cluster) && !jobs[k].deleting
      invariant JobsOf(jobs[..i], op) == match job case None => [] case Some(j) => [j]
    {
      var candidate := jobs[i];
      assert candidate in jobs;
      assert jobs[..i + 1][..i] == jobs[..i];
      if !candidate.decodes {
        return false, None;
      }
      if candidate.operation == op {
        if candidate.controller != Some(cluster) || candidate.deleting || job.Some? {
          JobsOfGrows(jobs, i + 1, op);
          return false, None;
        }
        job := Some(candidate);
      }
    }
    assert jobs[..|jobs|] == jobs;
    return true, job;
  }

  lemma PodsOfStep(pods: seq<Pod>, i: nat, op: string)
    requires i < |pods|
    ensures PodsOf(pods[..i + 1], op) ==
            PodsOf(pods[..i], op) + if pods[i].operation == op then [pods[i]] else []
  {
    assert pods[..i + 1][..i] == pods[..i];
  }

  lemma TallyStep(before: seq<Pod>, p: Pod)
    ensures Uids(before + [p]) == Uids(before) + [p.uid]
    ensures forall b :: CountPhase(before + [p], b) == CountPhase(before, b) + if (p.phase == "Succeeded") == b then 1 else 0
  {
    assert (before + [p])[..|before|] == before;
  }

  /** The Pod half: visit every Pod of the operation, then compare the counts. */
  method CertifyPods(j: Job, pods: seq<Pod>, op: string, observed: map<string, string>) returns (v: Verdict)
    ensures v == PodsVerdict(j, PodsOf(pods, op), observed)
  {
    var ids: seq<string> := [];
    var waiting := false;
    var succeeded, failed := 0, 0;
    ghost var mine: seq<Pod> := [];
    for i := 0 to |pods|
      invariant mine == PodsOf(pods[..i], op)
      invariant forall p :: p in mine ==> !PodFaulty(p, j.uid, observed)
      invariant waiting <==> exists p :: p in mine && Lagging(p, observed)
      invariant !waiting ==> ids == Uids(mine)
      invariant !waiting ==> succeeded == CountPhase(mine, true) && failed == CountPhase(mine, false)
    {
      var p := pods[i];
      PodsOfStep(pods, i, op);
      if p.operation == op {
        TallyStep(mine, p);
        mine := mine + [p];
        assert p in mine;
        if !p.decodes {
          RefusedEarly(j, pods, i, op, observed);
          return Refused;
        }
        if p.uid !in observed || observed[p.uid] != p.resourceVersion {
          assert Lagging(p, observed);
          waiting := true;
        } else {
          var ended := TerminatedPod(p);
          if p.controller != Some(j.uid) || !ended {
            RefusedEarly(j, pods, i, op, observed);
            return Refused;
          }
          if p.phase == "Succeeded" {
            succeeded := succeeded + 1;
          } else {
            failed := failed + 1;
          }
          ids := ids + [p.uid];
        }
      }
    }
    assert pods[..|pods|] == pods;
    if waiting {
      return Waiting;
    }
    if |ids| != |observed| || succeeded != 1 || failed != j.failed {
      return Refused;
    }
    return Certified(j.uid, Sorted(ids));
  }

  lemma RefusedEarly(j: Job, pods: seq<Pod>, i: nat, op: string, observed: map<string, string>)
    requires i < |pods| && pods[i].operation == op && PodFaulty(pods[i], j.uid, observed)
    ensures PodsVerdict(j, PodsOf(pods, op), observed) == Refused
  {
    PodsOfMembers(pods, op);
    assert pods[i] in PodsOf(pods, op);
  }

  /** The loop over the Job's conditions, which stops at a failure. */
  method ReadConditions(conditions: seq<Condition>) returns (failed: bool, complete: bool)
    ensures failed <==> Condition("Failed", "True") in conditions
    ensures !failed ==> (complete <==> Condition("Complete", "True") in conditions)
  {
    complete := false;
    for i := 0 to |conditions|
      invariant Condition("Failed", "True") !in conditions[..i]
      invariant complete <==> Condition("Complete", "True") in conditions[..i]
    {
      var c := conditions[i];
      if c.kind == "Failed" && c.status == "True" {
        return true, false;
      }
      if c.kind == "Complete" && c.status == "True" {
        complete := true;
      }
    }
    assert conditions[..|conditions|] == conditions;
    return false, complete;
  }

  method AssessJob(j: Job, pods: seq<Pod>, op: string, observed: map<string, string>) returns (v: Verdict)
    ensures v == JobVerdict(j, pods, op, observed)
  {
    var failed, complete := ReadConditions(j.conditions);
    if failed {
      return Refused;
    }
    if !complete {
      return Waiting;
    }
    if j.uid == "" || j.active != 0 || j.succeeded != 1 || j.parallelism != Some(1) || j.completions != Some(1) || j.uncounted > 0 {
      return Refused;
    }
    v := CertifyPods(j, pods, op, observed);
  }

  // ---------------------------------------------------------------- what each verdict means

  ghost predicate JobAt(jobs: seq<Job>, op: string, i: nat) {
    i < |jobs| && jobs[i].operation == op
  }

  ghost predicate PodAt(pods: seq<Pod>, op: string, i: nat) {
    i < |pods| && pods[i].operation == op
  }

  ghost predicate CaughtUp(p: Pod, observed: map<string, string>) {
    p.uid in observed && observed[p.uid] == p.resourceVersion
  }

  /** The Job listing itself is at fault: an undecodable Job, two Jobs of the operation, or one
      that is foreign, being deleted or failed. */
  ghost predicate JobListFault(jobs: seq<Job>, op: string, cluster: string) {
    || (exists i :: 0 <= i < |jobs| && !jobs[i].decodes)
    || (exists i: nat, k: nat :: i < k && JobAt(jobs, op, i) && JobAt(jobs, op, k))
    || exists i: nat :: JobAt(jobs, op, i)
                        && (jobs[i].controller != Some(cluster) || jobs[i].deleting || Condition("Failed", "True") in jobs[i].conditions)
  }

  /** A complete Job that still has, or no longer accounts for, Pods. */
  ghost predicate Unsettled(j: Job) {
    || j.uid == "" || j.active != 0 || j.succeeded != 1 || j.uncounted != 0
    || j.parallelism != Some(1) || j.completions != Some(1)
  }

  ghost predicate PodFault(p: Pod, job: string, observed: map<string, string>) {
    !p.decodes || (CaughtUp(p, observed) && (p.controller != Some(job) || !Terminal(p)))
  }

  ghost function Places(pods: seq<Pod>, op: string): set<int> {
    set i | 0 <= i < |pods| && pods[i].operation == op
  }

  ghost function WonPlaces(pods: seq<Pod>, op: string): set<int> {
    set i | 0 <= i < |pods| && pods[i].operation == op && pods[i].phase == "Succeeded"
  }

  ghost predicate CountsDiffer(j: Job, pods: seq<Pod>, op: string, observed: map<string, string>) {
    |Places(pods, op)| != |observed| || |WonPlaces(pods, op)| != 1 || |Places(pods, op) - WonPlaces(pods, op)| != j.failed
  }

  /** The Pods of a complete Job are at fault. */
  ghost predicate PodListFault(j: Job, pods: seq<Pod>, op: string, observed: map<string, string>) {
    || (exists k: nat :: PodAt(pods, op, k) && PodFault(pods[k], j.uid, observed))
    || ((forall k: nat :: PodAt(pods, op, k) ==> CaughtUp(pods[k], observed)) && CountsDiffer(j, pods, op, observed))
  }

  ghost predicate Done(j: Job) {
    Condition("Complete", "True") in j.conditions
  }

  /** Everything that ends an observation without a certificate. */
  ghost predicate Fault(jobs: seq<Job>, pods: seq<Pod>, op: string, cluster: string, observed: map<string, string>) {
    || JobListFault(jobs, op, cluster)
    || (observed != map[] && forall i: nat :: !JobAt(jobs, op, i))
    || exists i: nat :: JobAt(jobs, op, i) && Done(jobs[i]) && (Unsettled(jobs[i]) || PodListFault(jobs[i], pods, op, observed))
  }

  /** What the observation still waits for: the Job, its completion, or the watch. */
  ghost predicate Pending(jobs: seq<Job>, pods: seq<Pod>, op: string, observed: map<string, string>) {
    || (observed == map[] && forall i: nat :: !JobAt(jobs, op, i))
    || (exists i: nat :: JobAt(jobs, op, i) && !Done(jobs[i]))
    || exists k: nat :: PodAt(pods, op, k) && !CaughtUp(pods[k], observed)
  }

  lemma OneMore(a: set<int>, b: set<int>, n: int, more: bool)
    requires n !in a && b == if more then a + {n} else a
    ensures |b| == |a| + if more then 1 else 0
  {
  }

  lemma PlacesStep(pods: seq<Pod>, op: string)
    requires pods != []
    ensures |Places(pods, op)| == |Places(pods[..|pods| - 1], op)| + if pods[|pods| - 1].operation == op then 1 else 0
  {
    var n := |pods| - 1;
    OneMore(Places(pods[..n], op), Places(pods, op), n, pods[n].operation == op);
  }

  lemma WonPlacesStep(pods: seq<Pod>, op: string)
    requires pods != []
    ensures |WonPlaces(pods, op)| == |WonPlaces(pods[..|pods| - 1], op)|
                                     + if pods[|pods| - 1].operation == op && pods[|pods| - 1].phase == "Succeeded" then 1 else 0
  {
    var n := |pods| - 1;
    OneMore(WonPlaces(pods[..n], op), WonPlaces(pods, op), n, pods[n].operation == op && pods[n].phase == "Succeeded");
  }

  lemma LostPlaces(pods: seq<Pod>, op: string)
    ensures |Places(pods, op) - WonPlaces(pods, op)| == |Places(pods, op)| - |WonPlaces(pods, op)|
  {
    var all, won := Places(pods, op), WonPlaces(pods, op);
    assert won <= all;
    assert all == (all - won) + won;
  }

  lemma {:induction false} CountsAll(pods: seq<Pod>)
    ensures CountPhase(pods, true) + CountPhase(pods, false) == |pods|
  {
    if pods != [] {
      CountsAll(pods[..|pods| - 1]);
    }
  }

  lemma {:induction false} PlacesCount(pods: seq<Pod>, op: string)
    ensures |PodsOf(pods, op)| == |Places(pods, op)| && CountPhase(PodsOf(pods, op), true) == |WonPlaces(pods, op)|
  {
    if pods == [] {
      assert Places(pods, op) == {} && WonPlaces(pods, op) == {};
    } else {
      var n := |pods| - 1;
      PlacesCount(pods[..n], op);
      PlacesStep(pods, op);
      WonPlacesStep(pods, op);
      var before := PodsOf(pods[..n], op);
      if pods[n].operation == op {
        assert PodsOf(pods, op) == before + [pods[n]];
        TallyStep(before, pods[n]);
      } else {
        assert PodsOf(pods, op) == before;
      }
    }
  }

  lemma SelectionCounts(pods: seq<Pod>, op: string)
    ensures |PodsOf(pods, op)| == |Places(pods, op)|
    ensures CountPhase(PodsOf(pods, op), true) == |WonPlaces(pods, op)|
    ensures CountPhase(PodsOf(pods, op), false) == |Places(pods, op) - WonPlaces(pods, op)|
  {
    PlacesCount(pods, op);
    CountsAll(PodsOf(pods, op));
    LostPlaces(pods, op);
  }

  /** Exactly one Job of the operation is listed where the selection holds one. */
  lemma {:induction false} SelectedJob(jobs: seq<Job>, op: string)
    ensures |JobsOf(jobs, op)| > 1 <==> exists i: nat, k: nat :: i < k && JobAt(jobs, op, i) && JobAt(jobs, op, k)
    ensures JobsOf(jobs, op) == [] <==> forall i: nat :: !JobAt(jobs, op, i)
  {
    if jobs != [] {
      var n := |jobs| - 1;
      var init := jobs[..n];
      SelectedJob(init, op);
      assert forall i: nat :: JobAt(init, op, i) <==> i < n && JobAt(jobs, op, i);
      if |JobsOf(init, op)| > 1 {
        var i: nat, k: nat :| i < k && JobAt(init, op, i) && JobAt(init, op, k);
        assert JobAt(jobs, op, i) && JobAt(jobs, op, k);
      } else if JobsOf(init, op) != [] {
        var i: nat :| JobAt(init, op, i);
        assert JobAt(jobs, op, i);
        assert jobs[n].operation == op ==> JobAt(jobs, op, n);
      } else {
        assert jobs[n].operation == op ==> JobAt(jobs, op, n);
      }
    }
  }

  lemma SelectedPods(pods: seq<Pod>, op: string)
    ensures forall k: nat :: PodAt(pods, op, k) ==> pods[k] in PodsOf(pods, op)
    ensures forall p :: p in PodsOf(pods, op) ==> exists k: nat :: PodAt(pods, op, k) && pods[k] == p
  {
    PodsOfMembers(pods, op);
    forall p | p in PodsOf(pods, op) ensures exists k: nat :: PodAt(pods, op, k) && pods[k] == p {
      var k: nat :| k < |pods| && pods[k] == p;
      assert PodAt(pods, op, k);
    }
  }

  lemma FaultyPods(pods: seq<Pod>, op: string, job: string, observed: map<string, string>)
    ensures (exists p :: p in PodsOf(pods, op) && PodFaulty(p, job, observed)) <==>
              exists k: nat :: PodAt(pods, op, k) && PodFault(pods[k], job, observed)
  {
    SelectedPods(pods, op);
    forall p ensures PodFaulty(p, job, observed) <==> PodFault(p, job, observed) {
      PodEndedMeans(p);
    }
  }

  lemma LaggingPods(pods: seq<Pod>, op: string, observed: map<string, string>)
    ensures (exists p :: p in PodsOf(pods, op) && Lagging(p, observed)) <==>
              exists k: nat :: PodAt(pods, op, k) && !CaughtUp(pods[k], observed)
  {
    SelectedPods(pods, op);
    assert forall p :: Lagging(p, observed) <==> !CaughtUp(p, observed);
  }

  lemma PodsVerdictMeans(j: Job, pods: seq<Pod>, op: string, observed: map<string, string>)
    ensures PodsVerdict(j, PodsOf(pods, op), observed) == Refused <==> PodListFault(j, pods, op, observed)
    ensures PodsVerdict(j, PodsOf(pods, op), observed) == Waiting <==>
              !PodListFault(j, pods, op, observed) && exists k: nat :: PodAt(pods, op, k) && !CaughtUp(pods[k], observed)
  {
    FaultyPods(pods, op, j.uid, observed);
    LaggingPods(pods, op, observed);
    SelectionCounts(pods, op);
  }

  lemma JobsFaultyMeans(jobs: seq<Job>, op: string, cluster: string)
    ensures JobListFault(jobs, op, cluster) <==>
              JobsFaulty(jobs, op, cluster) || exists j :: j in jobs && j.operation == op && Reports(j, "Failed")
  {
    SelectedJob(jobs, op);
    forall j | j in jobs ensures exists i: nat :: i < |jobs| && jobs[i] == j {
    }
    forall j | j in jobs && j.operation == op ensures exists i: nat :: JobAt(jobs, op, i) && jobs[i] == j {
      var i: nat :| i < |jobs| && jobs[i] == j;
      assert JobAt(jobs, op, i);
    }
    assert forall i: nat :: JobAt(jobs, op, i) ==> jobs[i] in jobs;
  }

  /** The one Job of the operation. */
  lemma TheJob(jobs: seq<Job>, op: string, cluster: string) returns (i: nat)
    requires !JobsFaulty(jobs, op, cluster) && JobsOf(jobs, op) != []
    ensures JobAt(jobs, op, i) && JobsOf(jobs, op) == [jobs[i]] && forall k: nat :: JobAt(jobs, op, k) ==> k == i
  {
    SelectedJob(jobs, op);
    JobsOfMembers(jobs, op);
    i :| JobAt(jobs, op, i);
    assert jobs[i] in JobsOf(jobs, op);
    forall k: nat | JobAt(jobs, op, k) ensures k == i {
      assert k < i ==> JobAt(jobs, op, k) && JobAt(jobs, op, i);
    }
  }

  /** MAIN: what the three verdicts mean, said of the listings alone: a fault refuses, anything
      pending without a fault waits, and the rest is certified. */
  lemma VerdictMeans(jobs: seq<Job>, pods: seq<Pod>, op: string, cluster: string, observed: map<string, string>)
    ensures Assess(jobs, pods, op, cluster, observed) == Refused <==> Fault(jobs, pods, op, cluster, observed)
    ensures Assess(jobs, pods, op, cluster, observed) == Waiting <==>
              !Fault(jobs, pods, op, cluster, observed) && Pending(jobs, pods, op, observed)
  {
    JobsFaultyMeans(jobs, op, cluster);
    SelectedJob(jobs, op);
    assert observed.Keys == {} <==> observed == map[];
    if !JobsFaulty(jobs, op, cluster) && JobsOf(jobs, op) != [] {
      var i := TheJob(jobs, op, cluster);
      PodsVerdictMeans(jobs[i], pods, op, observed);
      JobVerdictMeans(jobs, i, pods, op, cluster, observed);
    }
  }

  lemma JobVerdictMeans(jobs: seq<Job>, i: nat, pods: seq<Pod>, op: string, cluster: string, observed: map<string, string>)
    requires JobAt(jobs, op, i) && (forall k: nat :: JobAt(jobs, op, k) ==> k == i) && !JobsFaulty(jobs, op, cluster)
    ensures JobVerdict(jobs[i], pods, op, observed) == Refused <==> Fault(jobs, pods, op, cluster, observed)
    ensures JobVerdict(jobs[i], pods, op, observed) == Waiting <==>
              !Fault(jobs, pods, op, cluster, observed) && Pending(jobs, pods, op, observed)
  {
    var j := jobs[i];
    assert j in jobs;
    JobsFaultyMeans(jobs, op, cluster);
    PodsVerdictMeans(j, pods, op, observed);
    assert Settled(j) <==> !Unsettled(j);
    forall x | x in jobs && x.operation == op ensures x == j {
      var k: nat :| k < |jobs| && jobs[k] == x;
      assert JobAt(jobs, op, k);
    }
  }

  /** recoveryTermination. */
  method TerminationPass(jobs: seq<Job>, pods: seq<Pod>, op: string, cluster: string, observed: map<string, string>)
    returns (v: Verdict)
    ensures v == Assess(jobs, pods, op, cluster, observed)
    ensures v == Refused <==> Fault(jobs, pods, op, cluster, observed)
    ensures v == Waiting <==> !Fault(jobs, pods, op, cluster, observed) && Pending(jobs, pods, op, observed)
  {
    VerdictMeans(jobs, pods, op, cluster, observed);
    var ok, found := FindJob(jobs, op, cluster);
    if !ok {
      return Refused;
    }
    if found.None? {
      if |observed| > 0 {
        assert observed.Keys != {};
        return Refused;
      }
      assert observed.Keys == {};
      return Waiting;
    }
    v := AssessJob(found.value, pods, op, observed);
  }

  // ---------------------------------------------------------------- what a certificate proves

  lemma CertifiedPods(jobs: seq<Job>, pods: seq<Pod>, op: string, cluster: string, observed: map<string, string>)
    requires Assess(jobs, pods, op, cluster, observed).Certified?
    ensures var v := Assess(jobs, pods, op, cluster, observed);
            forall p :: p in pods && p.operation == op ==>
              p.uid in observed && observed[p.uid] == p.resourceVersion && p.controller == Some(v.job) && Terminal(p)
  {
    PodsOfMembers(pods, op);
    var v := Assess(jobs, pods, op, cluster, observed);
    forall p | p in pods && p.operation == op
      ensures p.uid in observed && observed[p.uid] == p.resourceVersion && p.controller == Some(v.job) && Terminal(p)
    {
      assert p in PodsOf(pods, op);
      assert !Lagging(p, observed) && !PodFaulty(p, v.job, observed);
      PodEndedMeans(p);
    }
  }

  /** Every Pod of the operation in the listing is at the watched version, owned by the
      certified Job and terminal; one succeeded and the Job accounts for every failure. */
  lemma CertificateFacts(jobs: seq<Job>, pods: seq<Pod>, op: string, cluster: string, observed: map<string, string>)
    requires Assess(jobs, pods, op, cluster, observed).Certified?
    ensures var v := Assess(jobs, pods, op, cluster, observed);
            var mine := PodsOf(pods, op);
            && (exists j :: j in jobs && JobsOf(jobs, op) == [j] && j.uid == v.job && j.controller == Some(cluster)
                  && !Unsettled(j) && Reports(j, "Complete") && !Reports(j, "Failed") && CountPhase(mine, false) == j.failed)
            && CountPhase(mine, true) == 1
            && multiset(v.pods) == multiset(Uids(mine)) && Ascending(v.pods)
            && forall p :: p in pods && p.operation == op ==>
                 p.uid in observed && observed[p.uid] == p.resourceVersion && p.controller == Some(v.job) && Terminal(p)
  {
    CertifiedPods(jobs, pods, op, cluster, observed);
    JobsOfMembers(jobs, op);
    SortedAscending(Uids(PodsOf(pods, op)));
    var j := JobsOf(jobs, op)[0];
    assert j in JobsOf(jobs, op);
    assert JobsOf(jobs, op) == [j];
  }

  /** The certified set is exactly the watched set if and only if the listing repeats no
      UID: sizes are compared, not sets, so the pigeonhole needs distinct listed UIDs. */
  lemma CertifiedSetIsWatchedSet(jobs: seq<Job>, pods: seq<Pod>, op: string, cluster: string, observed: map<string, string>)
    requires Assess(jobs, pods, op, cluster, observed).Certified?
    ensures Elements(Assess(jobs, pods, op, cluster, observed).pods) <= observed.Keys
    ensures Elements(Assess(jobs, pods, op, cluster, observed).pods) == observed.Keys
            <==> Distinct(Uids(PodsOf(pods, op)))
  {
    CertificateFacts(jobs, pods, op, cluster, observed);
    var mine := PodsOf(pods, op);
    var uids := Uids(mine);
    var ids := Assess(jobs, pods, op, cluster, observed).pods;
    SameMultisetSameElements(ids, uids);
    PodsOfMembers(pods, op);
    forall u | u in uids ensures u in observed {
      var k :| 0 <= k < |uids| && uids[k] == u;
      assert mine[k] in mine;
    }
    DistinctCardinality(uids);
    assert |observed| == |observed.Keys|;
    if Distinct(uids) {
      SubsetOfEqualSize(Elements(uids), observed.Keys);
    }
  }

  ghost function ExampleJob(): Job {
    Job(true, "op", "job", Some("cluster"), false, [Condition("Complete", "True")], 0, 1, 2, Some(1), Some(1), 0)
  }

  ghost function ExamplePod(uid: string, phase: string): Pod {
    Pod(true, "op", uid, "1", Some("job"), false, phase, "", [], [], [], [], [], [])
  }

  ghost function ExampleListing(): seq<Pod> {
    [ExamplePod("won", "Succeeded"), ExamplePod("retry", "Failed"), ExamplePod("retry", "Failed")]
  }

  ghost function ExampleWatch(): map<string, string> {
    map["won" := "1", "retry" := "1", "lost" := "1"]
  }

  lemma ExamplePodsEnded()
    ensures forall p :: p in ExampleListing() ==>
              !Lagging(p, ExampleWatch()) && !PodFaulty(p, "job", ExampleWatch())
  {
    assert PodEnded(ExamplePod("won", "Succeeded"));
    assert PodEnded(ExamplePod("retry", "Failed"));
  }

  lemma ExampleCounts()
    ensures CountPhase(ExampleListing(), true) == 1 && CountPhase(ExampleListing(), false) == 2
  {
    var won, retry := ExamplePod("won", "Succeeded"), ExamplePod("retry", "Failed");
    assert won.phase == "Succeeded" && |retry.phase| != |won.phase|;
    TallyStep([], won);
    TallyStep([won], retry);
    TallyStep([won, retry], retry);
    assert [] + [won] == [won] && [won] + [retry] == [won, retry];
    assert [won, retry] + [retry] == ExampleListing();
  }

  lemma ExampleSelection()
    ensures PodsOf(ExampleListing(), "op") == ExampleListing()
    ensures JobsOf([ExampleJob()], "op") == [ExampleJob()]
  {
    var s := ExampleListing();
    PodsOfStep(s, 0, "op");
    PodsOfStep(s, 1, "op");
    PodsOfStep(s, 2, "op");
    assert s[..3] == s;
    assert [ExampleJob()][..0] == [];
  }

  lemma SortedKeepsAbsence(u: string, s: seq<string>)
    requires u !in s
    ensures u !in Sorted(s)
  {
    SameMultisetSameElements(Sorted(s), s);
    assert u !in Elements(Sorted(s));
  }

  lemma ExamplePodsCertify()
    ensures PodsVerdict(ExampleJob(), ExampleListing(), ExampleWatch()) ==
            Certified("job", Sorted(Uids(ExampleListing())))
  {
    ExamplePodsEnded();
    ExampleCounts();
    ExampleWatchSize();
  }

  lemma ExampleWatchSize()
    ensures |ExampleWatch()| == 3
  {
    assert |"won"| == 3 && |"retry"| == 5 && "won"[0] != "lost"[0] && "retry"[0] != "lost"[0];
    assert ExampleWatch().Keys == {"won", "retry", "lost"};
    assert |ExampleWatch()| == |ExampleWatch().Keys|;
  }

  lemma ExampleUids()
    ensures "lost" !in Uids(ExampleListing())
  {
    var uids := Uids(ExampleListing());
    assert uids == ["won", "retry", "retry"];
    assert "won"[0] != "lost"[0] && "retry"[0] != "lost"[0];
  }

  lemma ExampleJobSettles(pods: seq<Pod>, observed: map<string, string>)
    ensures Assess([ExampleJob()], pods, "op", "cluster", observed) == PodsVerdict(ExampleJob(), PodsOf(pods, "op"), observed)
  {
    ExampleSelection();
    var j := ExampleJob();
    assert j.conditions[0] == Condition("Complete", "True");
    assert |"Failed"| != |"Complete"|;
  }

  /** The size comparison alone does not give exactness: a listing that repeats a failed
      Pod certifies although a watched Pod was never listed. */
  lemma RepeatedListingCertifiesTooMuch()
    ensures var v := Assess([ExampleJob()], ExampleListing(), "op", "cluster", ExampleWatch());
            v.Certified? && "lost" in ExampleWatch() && "lost" !in v.pods
  {
    ExampleJobSettles(ExampleListing(), ExampleWatch());
    ExampleSelection();
    ExamplePodsCertify();
    ExampleUids();
    SortedKeepsAbsence("lost", Uids(ExampleListing()));
  }

  lemma ExampleCertifiedJob()
    ensures var v := Assess([ExampleJob()], ExampleListing(), "op", "cluster", ExampleWatch());
            v.Certified? && v.job == "job" && v.pods != []
  {
    RepeatedListingCertifiesTooMuch();
    ExampleJobSettles(ExampleListing(), ExampleWatch());
    ExampleSelection();
    ExamplePodsCertify();
  }
}
